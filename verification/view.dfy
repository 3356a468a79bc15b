/** What the `App` component renders, as a pure function of its state.
    Colours, layout and markup are reduced to the choices the state makes. */
module View {
  import opened AppState
  import opened Handlers

  /** The two colour schemes (background, text and border colours together)
      used for a result: the green one for "NORMAL", the red one otherwise. */
  datatype Palette = NormalPalette | AlertPalette

  /** The two sentences the result banner can show. */
  datatype Message = NoPneumoniaDetected | PneumoniaDetected

  /** The result banner under the preview. */
  datatype Banner = Banner(palette: Palette, message: Message)

  /** One entry of the history panel: thumbnail, colours and the label text. */
  datatype HistoryItem = HistoryItem(image: Image, palette: Palette, text: Label)

  /** Everything on screen that depends on the state. */
  datatype Screen = Screen(
    dropZoneLabel: string,
    buttonDisabled: bool,
    buttonLabel: string,
    loaderShown: bool,
    preview: Option<Image>,
    banner: Option<Banner>,
    items: seq<HistoryItem>)

  const ChoosePrompt: string := "Drag an image here or click to choose"
  const BusyLabel: string := "Analyzing..."
  const IdleLabel: string := "Upload and Classify"

  /** The binary styling rule shared by the banner and the history items. */
  predicate IsNormal(l: Label) {
    l == NormalLabel
  }

  function PaletteOf(l: Label): Palette {
    if IsNormal(l) then NormalPalette else AlertPalette
  }

  function BannerFor(l: Label): Banner {
    Banner(PaletteOf(l), if IsNormal(l) then NoPneumoniaDetected else PneumoniaDetected)
  }

  function ItemOf(r: Record): HistoryItem {
    HistoryItem(r.image, PaletteOf(r.classification), r.classification)
  }

  /** The history panel: one item per record, in history order. */
  function HistoryItems(h: seq<Record>): (items: seq<HistoryItem>)
    ensures |items| == |h|
    ensures forall i :: 0 <= i < |h| ==> items[i] == ItemOf(h[i])
  {
    if h == [] then [] else [ItemOf(h[0])] + HistoryItems(h[1..])
  }

  /** The preview (and the banner slot under it) is shown when a file is
      selected and no request is marked as loading. */
  predicate ShowPreview(s: State) {
    s.selectedImage.Some? && !s.isLoading
  }

  /** The result banner is shown inside the preview block when there is a
      non-empty classification. */
  predicate ShowBanner(s: State) {
    ShowPreview(s) && s.classification != ""
  }

  /** The submit button is disabled exactly while loading. */
  predicate ButtonDisabled(s: State) {
    s.isLoading
  }

  /** The whole rendered screen. */
  function Render(s: State): (v: Screen)
    ensures v.dropZoneLabel == (if s.selectedImage.Some? then s.selectedImage.value.name else ChoosePrompt)
    ensures v.buttonDisabled <==> s.isLoading
    ensures v.loaderShown <==> s.isLoading
    ensures v.buttonLabel == (if s.isLoading then BusyLabel else IdleLabel)
    ensures v.preview.Some? <==> s.selectedImage.Some? && !s.isLoading
    ensures v.preview.Some? ==> v.preview == s.selectedImage
    ensures v.banner.Some? <==> s.selectedImage.Some? && !s.isLoading && s.classification != ""
    ensures v.banner.Some? ==>
              && (v.banner.value.palette == NormalPalette <==> s.classification == NormalLabel)
              && (v.banner.value.message == NoPneumoniaDetected <==> s.classification == NormalLabel)
    ensures |v.items| == |s.history|
    ensures forall i :: 0 <= i < |s.history| ==>
              && v.items[i].image == s.history[i].image
              && v.items[i].text == s.history[i].classification
              && (v.items[i].palette == NormalPalette <==> s.history[i].classification == NormalLabel)
  {
    Screen(
      if s.selectedImage.Some? then s.selectedImage.value.name else ChoosePrompt,
      ButtonDisabled(s),
      if s.isLoading then BusyLabel else IdleLabel,
      s.isLoading,
      if ShowPreview(s) then s.selectedImage else None,
      if ShowBanner(s) then Some(BannerFor(s.classification)) else None,
      HistoryItems(s.history))
  }

  /** Appending a record to the history appends exactly its item to the panel
      and leaves every earlier item in place. */
  lemma HistoryItemsAppend(h: seq<Record>, r: Record)
    ensures HistoryItems(h + [r]) == HistoryItems(h) + [ItemOf(r)]
  {
  }

  /** After a file is chosen the screen shows its preview and no result,
      the button is enabled, and the history panel is as before. */
  lemma SelectionClearsResult(s: State, files: FileList)
    requires FirstFile(files).Some?
    ensures var v := Render(HandleImageChange(s, files));
            && v.preview == FirstFile(files)
            && v.banner.None?
            && !v.buttonDisabled
            && v.items == Render(s).items
  {
  }

  /** While a submission is loading the button is disabled, the loader spins,
      and neither preview nor banner is shown. */
  lemma SubmitShowsBusy(s: State)
    requires s.selectedImage.Some?
    ensures var v := Render(SubmitStart(s).state);
            && v.buttonDisabled && v.loaderShown && v.buttonLabel == BusyLabel
            && v.preview.None? && v.banner.None?
            && v.items == Render(s).items
  {
  }

  /** A successful settle with a non-empty label shows that label's banner,
      and the new last history item carries the same styling as the banner. */
  lemma SuccessShowsResult(s: State, submitted: Image, verdict: Label)
    requires s.selectedImage.Some? && verdict != ""
    ensures var v := Render(SettleOk(s, submitted, verdict));
            && v.banner == Some(BannerFor(verdict))
            && v.items == Render(s).items + [ItemOf(Record(submitted, verdict))]
            && v.items[|v.items| - 1].palette == v.banner.value.palette
  {
  }

  /** A failed settle leaves the history panel alone and, when a file is
      selected, shows again whatever result was there before the submit. */
  lemma FailureKeepsEarlierResult(s: State)
    ensures var v := Render(SettleErr(s));
            && v.items == Render(s).items
            && (v.banner.Some? <==> s.selectedImage.Some? && s.classification != "")
            && (v.banner.Some? ==> v.banner == Some(BannerFor(s.classification)))
  {
  }
}
