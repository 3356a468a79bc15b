/** The three event handlers of the `App` component. The asynchronous submit
    handler is split at its one `await` into a start step and a settle step. */
module Handlers {
  import opened AppState

  /** The `files` property of a picker or drop event: `None` for `null`,
      otherwise the list of files the event carries (possibly empty). */
  type FileList = Option<seq<Image>>

  /** The file a handler acts on: the first one, when the list exists and is
      not empty; `None` when the event carries no file. */
  function FirstFile(files: FileList): (f: Option<Image>)
    ensures f.Some? <==> files.Some? && |files.value| > 0
    ensures f.Some? ==> f.value == files.value[0]
  {
    if files.Some? && |files.value| > 0 then Some(files.value[0]) else None
  }

  /** The file picker's change handler. A file replaces the selection and
      clears the result and the loading flag; an event without a file is
      ignored. The history is never touched. */
  function HandleImageChange(s: State, files: FileList): (r: State)
    ensures r.history == s.history
    ensures FirstFile(files).Some? ==>
              && r.selectedImage == FirstFile(files)
              && r.classification == ""
              && !r.isLoading
    ensures FirstFile(files).None? ==> r == s
  {
    match FirstFile(files)
    case None => s
    case Some(f) => s.(selectedImage := Some(f), classification := "", isLoading := false)
  }

  /** The drop zone's handler. `preventDefault` has no effect on the state;
      the state update is written out separately in the component, and is
      the same as the picker's. */
  function HandleDrop(s: State, files: FileList): (r: State)
    ensures r.history == s.history
    ensures FirstFile(files).Some? ==>
              && r.selectedImage == FirstFile(files)
              && r.classification == ""
              && !r.isLoading
    ensures FirstFile(files).None? ==> r == s
  {
    if files.Some? && |files.value| > 0 then
      s.(selectedImage := Some(files.value[0]), classification := "", isLoading := false)
    else
      s
  }

  /** Both ways of choosing a file lead to the same state. */
  lemma PickerAndDropAgree(s: State, files: FileList)
    ensures HandleImageChange(s, files) == HandleDrop(s, files)
  {
  }

  /** The form field name the backend reads the image from. */
  const FileField: string := "file"

  /** The multipart form posted to the classifier: its (name, file) entries. */
  datatype Request = Request(fields: seq<(string, Image)>)

  /** The result of the synchronous part of the submit handler: the state it
      leaves behind and the request it posts, if any. */
  datatype Started = Started(state: State, request: Option<Request>)

  /** The submit handler up to its `await`. Without a selection it only alerts
      the user: nothing changes and nothing is posted. Otherwise it raises the
      loading flag and posts the selected image as the single field "file". */
  function SubmitStart(s: State): (r: Started)
    ensures s.selectedImage.None? ==> r.state == s && r.request.None?
    ensures s.selectedImage.Some? ==>
              && r.state == s.(isLoading := true)
              && r.request == Some(Request([(FileField, s.selectedImage.value)]))
  {
    match s.selectedImage
    case None => Started(s, None)
    case Some(img) => Started(s.(isLoading := true), Some(Request([(FileField, img)])))
  }

  /** The body the classifier's response carries: JSON `null`, or an object
      whose `classification` field may be absent. */
  datatype Body = NullBody | Fields(classification: Option<string>)

  /** How the posted request settles: a response, or a rejection (network
      error or a non-2xx status, both of which the HTTP client throws). */
  datatype Response = Ok(data: Body) | Rejected

  /** The label the component stores for a response field. An absent field
      reads as JavaScript `undefined`, which every reader of the state treats
      exactly like "" (falsy, not "NORMAL", renders no text). */
  function LabelOf(field: Option<string>): (l: Label)
    ensures field.Some? ==> l == field.value
    ensures field.None? ==> l == ""
  {
    match field
    case None => ""
    case Some(v) => v
  }

  /** The success path after the `await`: store the label, append one record
      built from the image captured when the submit started, clear loading. */
  function SettleOk(s: State, submitted: Image, verdict: Label): (r: State)
    ensures r.classification == verdict
    ensures |r.history| == |s.history| + 1
    ensures IsPrefix(s.history, r.history)
    ensures r.history[|s.history|] == Record(submitted, verdict)
    ensures r.selectedImage == s.selectedImage && !r.isLoading
  {
    s.(classification := verdict,
       history := s.history + [Record(submitted, verdict)],
       isLoading := false)
  }

  /** The failure path: only the `finally` block's loading reset has an
      effect; the alert and the console message do not touch the state. */
  function SettleErr(s: State): (r: State)
    ensures r.history == s.history && r.classification == s.classification
    ensures r.selectedImage == s.selectedImage && !r.isLoading
  {
    s.(isLoading := false)
  }

  /** The submit handler after its `await`, for the image captured at start.
      Any resolved response takes the success path, even one without a label;
      only a rejection, or a `null` body (whose field access throws inside
      the `try`), takes the failure path. */
  function Settle(s: State, submitted: Image, response: Response): (r: State)
    ensures !r.isLoading && r.selectedImage == s.selectedImage
    ensures (response.Ok? && response.data.Fields?) ==>
              r == SettleOk(s, submitted, LabelOf(response.data.classification))
    ensures !(response.Ok? && response.data.Fields?) ==>
              r.history == s.history && r.classification == s.classification
  {
    match response
    case Rejected => SettleErr(s)
    case Ok(NullBody) => SettleErr(s)
    case Ok(Fields(c)) => SettleOk(s, submitted, LabelOf(c))
  }

  /** A response without a label still appends a record, with an empty label,
      and leaves the component with no result to show. */
  lemma MissingLabelTakesSuccessPath(s: State, submitted: Image)
    ensures Settle(s, submitted, Ok(Fields(None))).history == s.history + [Record(submitted, "")]
    ensures Settle(s, submitted, Ok(Fields(None))).classification == ""
  {
  }

  /** A start followed by a successful settle of the request it posted
      records exactly the image that was posted. */
  lemma SubmitThenSucceed(s: State, verdict: string)
    requires s.selectedImage.Some?
    ensures var st := SubmitStart(s);
            && st.request.Some?
            && var r := Settle(st.state, st.request.value.fields[0].1, Ok(Fields(Some(verdict))));
            && r.history == s.history + [Record(s.selectedImage.value, verdict)]
            && r.classification == verdict
            && r == s.(classification := verdict, history := r.history, isLoading := false)
  {
  }

  /** A start followed by a failed settle returns the state it started from,
      apart from the loading flag being cleared. */
  lemma SubmitThenFail(s: State)
    requires s.selectedImage.Some?
    ensures Settle(SubmitStart(s).state, s.selectedImage.value, Rejected) == s.(isLoading := false)
  {
  }
}
