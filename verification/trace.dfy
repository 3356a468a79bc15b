/** The component driven by a sequence of events, one at a time: the event
    wiring of the drop zone, the file input and the submit button. A settle
    event names the image it records, and nothing here ties it to an earlier
    submit, so these traces include ones the component cannot produce; the
    lemmas below hold for all of them. `Session` produces only the traces
    the component can, and lowers each of its steps to one of these events. */
module Trace {
  import opened AppState
  import opened Handlers
  import opened View

  datatype Event =
    | Pick(files: FileList)
    | Drop(files: FileList)
    | Submit
    | Settled(submitted: Image, response: Response)

  /** Whether an event is a settle that took the success path. */
  predicate IsSuccess(e: Event) {
    e.Settled? && e.response.Ok? && e.response.data.Fields?
  }

  /** One event applied to the state. Only a selection changes the selected
      image, only a submit raises the loading flag, only a selection or a
      successful settle changes the result, and only a successful settle
      writes the history. */
  function Step(s: State, e: Event): (r: State)
    ensures r.selectedImage != s.selectedImage ==> e.Pick? || e.Drop?
    ensures r.isLoading && !s.isLoading ==> e.Submit?
    ensures r.classification != s.classification ==> e.Pick? || e.Drop? || IsSuccess(e)
    ensures r.history != s.history ==> IsSuccess(e)
  {
    match e
    case Pick(files) => HandleImageChange(s, files)
    case Drop(files) => HandleDrop(s, files)
    case Submit => SubmitStart(s).state
    case Settled(img, response) => Settle(s, img, response)
  }

  function Run(s: State, evs: seq<Event>): State
    decreases |evs|
  {
    if evs == [] then s else Run(Step(s, evs[0]), evs[1..])
  }

  /** The records the successful settles of a trace produce, in the order the
      settles happen. */
  function Completions(evs: seq<Event>): seq<Record>
    decreases |evs|
  {
    if evs == [] then []
    else
      (if IsSuccess(evs[0])
       then [Record(evs[0].submitted, LabelOf(evs[0].response.data.classification))]
       else [])
      + Completions(evs[1..])
  }

  /** Only a successful settle writes the history, and it appends exactly one
      record; every other event leaves it as it was. */
  lemma StepHistory(s: State, e: Event)
    ensures IsSuccess(e) ==>
              Step(s, e).history == s.history + [Record(e.submitted, LabelOf(e.response.data.classification))]
    ensures !IsSuccess(e) ==> Step(s, e).history == s.history
  {
  }

  /** The history after a trace is the history before it followed by one
      record per successful settle, in completion order. */
  lemma {:induction false} RunHistory(s: State, evs: seq<Event>)
    ensures Run(s, evs).history == s.history + Completions(evs)
    decreases |evs|
  {
    if evs != [] {
      StepHistory(s, evs[0]);
      RunHistory(Step(s, evs[0]), evs[1..]);
    }
  }

  /** No trace removes or reorders history entries. */
  lemma HistoryIsAppendOnly(s: State, evs: seq<Event>)
    ensures IsPrefix(s.history, Run(s, evs).history)
  {
    RunHistory(s, evs);
    var h := s.history + Completions(evs);
    assert h[..|s.history|] == s.history;
  }

  lemma {:induction false} NoSuccessNoRecords(evs: seq<Event>)
    requires forall i :: 0 <= i < |evs| ==> !IsSuccess(evs[i])
    ensures Completions(evs) == []
    decreases |evs|
  {
    if evs != [] {
      NoSuccessNoRecords(evs[1..]);
    }
  }

  /** A trace of selections, submits and failed settles never changes the
      history. */
  lemma FailuresKeepHistory(s: State, evs: seq<Event>)
    requires forall i :: 0 <= i < |evs| ==> !IsSuccess(evs[i])
    ensures Run(s, evs).history == s.history
  {
    RunHistory(s, evs);
    NoSuccessNoRecords(evs);
  }

  lemma {:induction false} RunSnoc(s: State, evs: seq<Event>, e: Event)
    ensures Run(s, evs + [e]) == Step(Run(s, evs), e)
    decreases |evs|
  {
    if evs != [] {
      assert (evs + [e])[1..] == evs[1..] + [e];
      RunSnoc(Step(s, evs[0]), evs[1..], e);
    }
  }

  /** Whatever happened before, a trace that ends by choosing a file leaves
      that file selected, no result, the button enabled and no banner. */
  lemma EndsWithSelection(s: State, evs: seq<Event>, files: FileList, viaDrop: bool)
    requires FirstFile(files).Some?
    ensures var r := Run(s, evs + [if viaDrop then Drop(files) else Pick(files)]);
            && r.selectedImage == FirstFile(files)
            && r.classification == ""
            && !r.isLoading
            && !ShowBanner(r)
            && r.history == Run(s, evs).history
  {
    RunSnoc(s, evs, if viaDrop then Drop(files) else Pick(files));
  }
}
