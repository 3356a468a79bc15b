/** The component together with the requests it has posted and not yet seen
    settle. A click on the submit button reaches the handler only while the
    button is enabled, that is, while nothing is marked as loading. Choosing a
    file clears the loading flag and so re-enables the button, which lets a
    second request be posted while the first is pending; each settles with
    the image its own submit captured. */
module Session {
  import opened AppState
  import opened Handlers
  import opened View
  import Trace

  /** `pending` holds the image of every posted, unsettled request in posting
      order; `sent` holds the image of every request ever posted. */
  datatype Session = Session(app: State, pending: seq<Image>, sent: seq<Image>)

  datatype Event =
    | Pick(files: FileList)
    | Drop(files: FileList)
    | Submit
    | Respond(k: nat, response: Response)

  const Start: Session := Session(Initial, [], [])

  /** The component event a session event amounts to, if any. A click on the
      disabled button never reaches the submit handler, and a response for
      no pending request cannot arrive. */
  function Lower(ss: Session, e: Event): Option<Trace.Event> {
    match e
    case Pick(files) => Some(Trace.Pick(files))
    case Drop(files) => Some(Trace.Drop(files))
    case Submit => if ButtonDisabled(ss.app) then None else Some(Trace.Submit)
    case Respond(k, response) =>
      if k < |ss.pending| then Some(Trace.Settled(ss.pending[k], response)) else None
  }

  /** One event. The component's part of the step is the lowered event's. */
  function Step(ss: Session, e: Event): (r: Session)
    ensures e.Pick? ==> r == ss.(app := HandleImageChange(ss.app, e.files))
    ensures e.Drop? ==> r == ss.(app := HandleDrop(ss.app, e.files))
    ensures e.Submit? && (ButtonDisabled(ss.app) || ss.app.selectedImage.None?) ==> r == ss
    ensures e.Submit? && !ButtonDisabled(ss.app) && ss.app.selectedImage.Some? ==>
              && r.app == SubmitStart(ss.app).state
              && r.pending == ss.pending + [ss.app.selectedImage.value]
              && r.sent == ss.sent + [ss.app.selectedImage.value]
    ensures e.Respond? && e.k < |ss.pending| ==>
              && r.app == Settle(ss.app, ss.pending[e.k], e.response)
              && r.pending == ss.pending[..e.k] + ss.pending[e.k + 1..]
              && r.sent == ss.sent
    ensures e.Respond? && e.k >= |ss.pending| ==> r == ss
  {
    var app := match Lower(ss, e)
      case None => ss.app
      case Some(t) => Trace.Step(ss.app, t);
    match e
    case Submit =>
      var st := SubmitStart(ss.app);
      if Lower(ss, e).Some? && st.request.Some? then
        var img := st.request.value.fields[0].1;
        Session(app, ss.pending + [img], ss.sent + [img])
      else
        ss.(app := app)
    case Respond(k, _) =>
      if k < |ss.pending| then
        Session(app, ss.pending[..k] + ss.pending[k + 1..], ss.sent)
      else
        ss.(app := app)
    case _ => ss.(app := app)
  }

  function Run(ss: Session, evs: seq<Event>): Session
    decreases |evs|
  {
    if evs == [] then ss else Run(Step(ss, evs[0]), evs[1..])
  }

  /** The component events a session trace amounts to, in order. */
  function Lowered(ss: Session, evs: seq<Event>): seq<Trace.Event>
    decreases |evs|
  {
    if evs == [] then []
    else
      (match Lower(ss, evs[0]) case None => [] case Some(t) => [t])
      + Lowered(Step(ss, evs[0]), evs[1..])
  }

  /** A session run drives the component exactly as the lowered trace does. */
  lemma {:induction false} RunLowers(ss: Session, evs: seq<Event>)
    ensures Run(ss, evs).app == Trace.Run(ss.app, Lowered(ss, evs))
    decreases |evs|
  {
    if evs != [] {
      var next := Step(ss, evs[0]);
      var rest := Lowered(next, evs[1..]);
      RunLowers(next, evs[1..]);
      match Lower(ss, evs[0])
      case None =>
        assert Lowered(ss, evs) == rest;
      case Some(t) =>
        assert Lowered(ss, evs) == [t] + rest;
        assert ([t] + rest)[1..] == rest;
    }
  }

  /** In a session, the history grows only by appending one record per
      successful response, in the order the responses arrive, each naming
      the image of the request it answers. */
  lemma SessionHistory(ss: Session, evs: seq<Event>)
    ensures Run(ss, evs).app.history == ss.app.history + Trace.Completions(Lowered(ss, evs))
    ensures IsPrefix(ss.app.history, Run(ss, evs).app.history)
  {
    RunLowers(ss, evs);
    Trace.RunHistory(ss.app, Lowered(ss, evs));
    Trace.HistoryIsAppendOnly(ss.app, Lowered(ss, evs));
  }

  /** What holds of every session reachable from `Start`. */
  predicate Inv(ss: Session) {
    && (ss.app.isLoading ==> ss.app.selectedImage.Some? && ss.pending != [])
    && (ss.app.selectedImage.None? ==>
          ss.pending == [] && ss.sent == [] && ss.app.history == [] && ss.app.classification == "")
    && (forall i :: 0 <= i < |ss.pending| ==> ss.pending[i] in ss.sent)
    && (forall i :: 0 <= i < |ss.app.history| ==> ss.app.history[i].image in ss.sent)
  }

  lemma StepInv(ss: Session, e: Event)
    requires Inv(ss)
    ensures Inv(Step(ss, e))
  {
  }

  lemma {:induction false} RunInv(ss: Session, evs: seq<Event>)
    requires Inv(ss)
    ensures Inv(Run(ss, evs))
    decreases |evs|
  {
    if evs != [] {
      StepInv(ss, evs[0]);
      RunInv(Step(ss, evs[0]), evs[1..]);
    }
  }

  /** In every reachable session: the loading flag implies a selection and a
      request in flight; a session that never had a file selected has posted
      nothing, has no history and no result; and every history entry is an
      image that was actually posted. */
  lemma Reachable(evs: seq<Event>)
    ensures var ss := Run(Start, evs);
            && (ss.app.isLoading ==> ss.app.selectedImage.Some? && ss.pending != [])
            && (ss.app.selectedImage.None? ==>
                  ss.sent == [] && ss.pending == [] && ss.app.history == [] && ss.app.classification == "")
            && (forall i :: 0 <= i < |ss.app.history| ==> ss.app.history[i].image in ss.sent)
  {
    RunInv(Start, evs);
  }

  /** Submitting with nothing selected posts nothing and changes nothing. */
  lemma SubmitWithoutImage(ss: Session)
    requires ss.app.selectedImage.None?
    ensures Step(ss, Submit) == ss
  {
  }

  const FileA: Image := Image(1, "xray1.png")
  const FileB: Image := Image(2, "xray2.png")

  /** Choosing a file, submitting it and receiving "NORMAL" records it with
      the normal styling. */
  lemma NormalScenario()
    ensures var ss := Run(Start, [Pick(Some([FileA])), Submit, Respond(0, Ok(Fields(Some("NORMAL"))))]);
            && ss.app.history == [Record(FileA, "NORMAL")]
            && ss.pending == []
            && Render(ss.app).banner == Some(Banner(NormalPalette, NoPneumoniaDetected))
  {
    var evs := [Pick(Some([FileA])), Submit, Respond(0, Ok(Fields(Some("NORMAL"))))];
    var s1 := Step(Start, evs[0]);
    var s2 := Step(s1, evs[1]);
    var s3 := Step(s2, evs[2]);
    calc {
      Run(Start, evs);
      Run(s1, evs[1..]);
      Run(s2, evs[1..][1..]);
      { assert evs[1..][1..][1..] == []; }
      Run(s3, []);
    }
    assert s3.pending == [];
  }

  /** While the first request loads, the button is disabled and a click posts
      nothing. Choosing a second file hides the result and re-enables the
      button, so a second request can then be posted while the first is
      pending. When the first one then settles, its label
      is shown under the second file, while its history entry names the first. */
  lemma ReselectDuringFlight()
    ensures var evs := [Pick(Some([FileA])), Submit, Drop(Some([FileB]))];
            var busy := Run(Start, evs[..2]);
            var ss := Run(Start, evs);
            && Render(busy.app).buttonDisabled
            && Step(busy, Submit) == busy
            && !Render(ss.app).buttonDisabled
            && Render(ss.app).banner.None?
            && |Step(ss, Submit).pending| == 2
            && var late := Step(ss, Respond(0, Ok(Fields(Some("PNEUMONIA")))));
            && late.app.selectedImage == Some(FileB)
            && Render(late.app).banner == Some(Banner(AlertPalette, PneumoniaDetected))
            && late.app.history == [Record(FileA, "PNEUMONIA")]
  {
    var evs := [Pick(Some([FileA])), Submit, Drop(Some([FileB]))];
    var s1 := Session(State(Some(FileA), "", false, []), [], []);
    var s2 := Session(State(Some(FileA), "", true, []), [FileA], [FileA]);
    var s3 := Session(State(Some(FileB), "", false, []), [FileA], [FileA]);
    assert Step(Start, evs[0]) == s1;
    assert Step(s1, evs[1]) == s2;
    assert Step(s2, evs[2]) == s3;
    calc {
      Run(Start, evs[..2]);
      Run(s1, evs[..2][1..]);
      { assert evs[..2][1..] == [Submit]; }
      Run(s2, []);
    }
    calc {
      Run(Start, evs);
      Run(s1, evs[1..]);
      Run(s2, evs[1..][1..]);
      { assert evs[1..][1..] == [Drop(Some([FileB]))]; }
      Run(s3, []);
    }
    var late := Step(s3, Respond(0, Ok(Fields(Some("PNEUMONIA")))));
    assert late.app == State(Some(FileB), "PNEUMONIA", false, [Record(FileA, "PNEUMONIA")]);
  }
}
