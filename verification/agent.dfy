/** The recording gate of `WebAgent` (src/agent.py:18-242) with the browser
    driver left out: the `is_recording` flag, the flat audit log
    `actions_log`, and the training session the gate feeds. */
module Agent {
  import opened Wrappers
  import opened Actions
  import opened Features
  import Session

  datatype WebAgent = WebAgent(
    isRecording: bool,
    actionsLog: seq<Action>,
    trainingSession: Session.TrainingSession)

  /** An agent state together with the action log written out as a JSON file
      by the step that produced it (None when nothing was written). */
  datatype Transition = Transition(next: WebAgent, written: Option<seq<Action>>)

  /** `x` is a trailing part of `y`. */
  predicate IsSuffix(x: seq<Action>, y: seq<Action>)
  {
    |x| <= |y| && y[|y| - |x|..] == x
  }

  /** The agent invariant: the audit log is empty whenever recording is off,
      the audit log and the open training sequence agree on their common
      tail (one is a suffix of the other), and the corpus is well formed. */
  predicate Valid(a: WebAgent)
  {
    && (!a.isRecording ==> a.actionsLog == [])
    && (IsSuffix(a.actionsLog, a.trainingSession.currentSequence)
        || IsSuffix(a.trainingSession.currentSequence, a.actionsLog))
    && Session.Valid(a.trainingSession)
  }

  /** `b` is `a` with the event `e` appended to both the audit log and the
      open training sequence, and nothing else changed. */
  ghost predicate Recorded(a: WebAgent, b: WebAgent, e: Action)
  {
    && b.isRecording == a.isRecording
    && b.actionsLog == a.actionsLog + [e]
    && b.trainingSession.currentSequence == a.trainingSession.currentSequence + [e]
    && b.trainingSession.actionSequences == a.trainingSession.actionSequences
    && b.trainingSession.ratings == a.trainingSession.ratings
  }

  /** `WebAgent.__init__`, without the driver, logging and rating model. */
  function NewAgent(): WebAgent
  {
    WebAgent(false, [], Session.NewSession())
  }

  /** `start_recording`: turns the gate on and nothing else. */
  function StartRecording(a: WebAgent): (b: WebAgent)
    ensures b.isRecording
    ensures b.actionsLog == a.actionsLog && b.trainingSession == a.trainingSession
  {
    a.(isRecording := true)
  }

  /** `save_recorded_actions`: writes the audit log out and clears it, or does
      nothing at all when the log is empty. */
  function SaveRecordedActions(a: WebAgent): (t: Transition)
    ensures t.next.actionsLog == []
    ensures t.written.Some? <==> |a.actionsLog| > 0
    ensures t.written.Some? ==> t.written.value == a.actionsLog
    ensures t.next.isRecording == a.isRecording && t.next.trainingSession == a.trainingSession
  {
    if |a.actionsLog| == 0 then Transition(a, None)
    else Transition(a.(actionsLog := []), Some(a.actionsLog))
  }

  /** `stop_recording`: turns the gate off, then flushes the audit log. */
  function StopRecording(a: WebAgent): (t: Transition)
    ensures !t.next.isRecording
    ensures t.next.actionsLog == []
    ensures t.written.Some? <==> |a.actionsLog| > 0
    ensures t.written.Some? ==> t.written.value == a.actionsLog
    ensures t.next.trainingSession == a.trainingSession
  {
    SaveRecordedActions(a.(isRecording := false))
  }

  /** The event `record_action` builds at clock reading `now`; absent
      parameters become the empty map. */
  function MakeEvent(now: int, kind: string, params: Option<Params>): (e: Action)
    ensures e.timestamp == now && e.kind == kind
    ensures params.Some? ==> e.params == params.value
    ensures params.None? ==> e.params == map[]
  {
    Action(now, kind, match params case Some(p) => p case None => map[])
  }

  /** `record_action`: while recording, the same event goes to the end of the
      audit log and of the open training sequence; otherwise nothing changes. */
  function RecordAction(a: WebAgent, now: int, kind: string, params: Option<Params>): (b: WebAgent)
    ensures !a.isRecording ==> b == a
    ensures a.isRecording ==> Recorded(a, b, MakeEvent(now, kind, params))
  {
    if a.isRecording then
      var e := MakeEvent(now, kind, params);
      WebAgent(a.isRecording, a.actionsLog + [e], Session.AddAction(a.trainingSession, e))
    else
      a
  }

  /** The event the `navigate_to` wrapper records. */
  function NavigateEvent(now: int, url: string): Action
  {
    Action(now, NavigateKind, map[UrlKey := Str(url)])
  }

  /** The event the `click` wrapper records. */
  function ClickEvent(now: int, x: int, y: int): Action
  {
    Action(now, ClickKind, map[XKey := Num(x), YKey := Num(y)])
  }

  /** The event the `scroll` wrapper records: the raw amount, whatever the direction. */
  function ScrollEvent(now: int, direction: string, amount: int): Action
  {
    Action(now, ScrollKind, map[DirectionKey := Str(direction), AmountKey := Num(amount)])
  }

  /** `navigate_to(url)` once the driver has loaded the page. */
  function NavigateTo(a: WebAgent, now: int, url: string): (b: WebAgent)
    ensures !a.isRecording ==> b == a
    ensures a.isRecording ==> Recorded(a, b, NavigateEvent(now, url))
  {
    var e := NavigateEvent(now, url);
    RecordAction(a, now, e.kind, Some(e.params))
  }

  /** `click(x, y)` once the driver has clicked. */
  function Click(a: WebAgent, now: int, x: int, y: int): (b: WebAgent)
    ensures !a.isRecording ==> b == a
    ensures a.isRecording ==> Recorded(a, b, ClickEvent(now, x, y))
  {
    var e := ClickEvent(now, x, y);
    RecordAction(a, now, e.kind, Some(e.params))
  }

  /** `scroll(direction, amount)` once the driver has scrolled. */
  function Scroll(a: WebAgent, now: int, direction: string, amount: int): (b: WebAgent)
    ensures !a.isRecording ==> b == a
    ensures a.isRecording ==> Recorded(a, b, ScrollEvent(now, direction, amount))
  {
    var e := ScrollEvent(now, direction, amount);
    RecordAction(a, now, e.kind, Some(e.params))
  }

  /** `close` with the driver left out: a recording agent is stopped (and its
      log flushed); a non-recording one is left as it is. */
  function Close(a: WebAgent): (t: Transition)
    ensures a.isRecording ==> !t.next.isRecording && t.next.actionsLog == []
    ensures a.isRecording ==> (t.written.Some? <==> |a.actionsLog| > 0)
    ensures a.isRecording && t.written.Some? ==> t.written.value == a.actionsLog
    ensures !a.isRecording ==> t == Transition(a, None)
    ensures t.next.trainingSession == a.trainingSession
  {
    if a.isRecording then StopRecording(a) else Transition(a, None)
  }

  /** `start_training_sequence`: empties the open sequence, then turns the gate on. */
  function StartTrainingSequence(a: WebAgent): (b: WebAgent)
    ensures b.isRecording
    ensures b.trainingSession.currentSequence == []
    ensures b.trainingSession.actionSequences == a.trainingSession.actionSequences
    ensures b.trainingSession.ratings == a.trainingSession.ratings
    ensures b.actionsLog == a.actionsLog
  {
    StartRecording(a.(trainingSession := Session.StartSequence(a.trainingSession)))
  }

  /** `end_training_sequence(rating)`: stops recording (flushing the audit log),
      then commits the open sequence with the rating if it is non-empty. */
  function EndTrainingSequence(a: WebAgent, rating: real): (t: Transition)
    ensures !t.next.isRecording
    ensures t.next.actionsLog == []
    ensures t.next.trainingSession.currentSequence == []
    ensures t.written.Some? <==> |a.actionsLog| > 0
    ensures t.written.Some? ==> t.written.value == a.actionsLog
    ensures |a.trainingSession.currentSequence| > 0 ==>
      && t.next.trainingSession.actionSequences ==
           a.trainingSession.actionSequences + [a.trainingSession.currentSequence]
      && t.next.trainingSession.ratings == a.trainingSession.ratings + [rating]
    ensures |a.trainingSession.currentSequence| == 0 ==>
      && t.next.trainingSession.actionSequences == a.trainingSession.actionSequences
      && t.next.trainingSession.ratings == a.trainingSession.ratings
  {
    var stopped := StopRecording(a);
    Transition(stopped.next.(trainingSession := Session.EndSequence(stopped.next.trainingSession, rating)),
               stopped.written)
  }

  /** `load_training_data` with the file already parsed. */
  function LoadTrainingData(a: WebAgent, sequences: seq<seq<Action>>, ratings: seq<real>): (b: WebAgent)
    ensures b.trainingSession.actionSequences == sequences && b.trainingSession.ratings == ratings
    ensures b.trainingSession.currentSequence == a.trainingSession.currentSequence
    ensures b.isRecording == a.isRecording && b.actionsLog == a.actionsLog
  {
    a.(trainingSession := Session.LoadTrainingData(a.trainingSession, sequences, ratings))
  }

  /** `predict_rating` raising: either feature extraction fails or the opaque
      scaler and network do (an unfitted scaler raises). */
  datatype PredictError = FeatureError(cause: ExtractError) | ModelError

  /** `predict_rating`: None when the audit log is empty, otherwise the
      agent's own rating model applied to the log's features. `net` stands for
      that model's scaler and network, None meaning it raised. */
  function PredictRating(a: WebAgent, net: FeatureVector -> Option<real>): (r: Result<Option<real>, PredictError>)
    ensures r == Success(None) <==> |a.actionsLog| == 0
    ensures r.Failure? && r.error.FeatureError? <==> |a.actionsLog| > 0 && !AmountsNumeric(a.actionsLog)
    ensures r.Success? && r.value.Some? ==>
      Extract(a.actionsLog).Success? && net(Extract(a.actionsLog).value) == r.value
    ensures |a.actionsLog| > 0 && Extract(a.actionsLog).Success? ==>
      (r.Failure? <==> net(Extract(a.actionsLog).value).None?)
  {
    if |a.actionsLog| == 0 then Success(None)
    else match Extract(a.actionsLog)
      case Failure(e) => Failure(FeatureError(e))
      case Success(v) =>
        match net(v)
        case Some(p) => Success(Some(p))
        case None => Failure(ModelError)
  }

  // ---------------------------------------------------------------------
  // Properties of the agent.
  // ---------------------------------------------------------------------

  lemma NewAgentValid(net: FeatureVector -> Option<real>)
    ensures Valid(NewAgent())
    ensures PredictRating(NewAgent(), net) == Success(None)
  {
  }

  /** Appending the same element to both sides keeps a suffix a suffix. */
  lemma SuffixSnoc(x: seq<Action>, y: seq<Action>, e: Action)
    requires IsSuffix(x, y)
    ensures IsSuffix(x + [e], y + [e])
  {
    var z := y + [e];
    assert z[|z| - |x + [e]|..] == y[|y| - |x|..] + [e];
  }

  /** Recording keeps the agent invariant. */
  lemma RecordActionValid(a: WebAgent, now: int, kind: string, params: Option<Params>)
    requires Valid(a)
    ensures Valid(RecordAction(a, now, kind, params))
  {
    if a.isRecording {
      var e := MakeEvent(now, kind, params);
      if IsSuffix(a.actionsLog, a.trainingSession.currentSequence) {
        SuffixSnoc(a.actionsLog, a.trainingSession.currentSequence, e);
      } else {
        SuffixSnoc(a.trainingSession.currentSequence, a.actionsLog, e);
      }
    }
  }

  /** Turning the gate on or off, flushing the audit log, closing, and
      starting a training sequence keep the agent invariant. */
  lemma GateOperationsValid(a: WebAgent)
    requires Valid(a)
    ensures Valid(StartRecording(a))
    ensures Valid(SaveRecordedActions(a).next)
    ensures Valid(StopRecording(a).next)
    ensures Valid(Close(a).next)
    ensures Valid(StartTrainingSequence(a))
  {
  }

  /** Ending a training sequence keeps the agent invariant. */
  lemma EndTrainingSequenceValid(a: WebAgent, rating: real)
    requires Valid(a)
    ensures Valid(EndTrainingSequence(a, rating).next)
  {
    Session.EndSequenceValid(a.trainingSession, rating);
    assert EndTrainingSequence(a, rating).next.trainingSession == Session.EndSequence(a.trainingSession, rating);
  }

  /** While recording, a scroll adds |amount| to the open sequence's scroll
      distance whatever the direction, a click adds one click, and a
      navigation adds to neither. */
  lemma WrappersFeedFeatures(a: WebAgent, now: int, direction: string, amount: int, x: int, y: int, url: string)
    requires a.isRecording
    ensures var s := a.trainingSession.currentSequence;
      && ScrollDistance(Scroll(a, now, direction, amount).trainingSession.currentSequence) ==
           ScrollDistance(s) + (if amount < 0 then -amount else amount)
      && ClickCount(Scroll(a, now, direction, amount).trainingSession.currentSequence) == ClickCount(s)
      && ScrollDistance(Click(a, now, x, y).trainingSession.currentSequence) == ScrollDistance(s)
      && ClickCount(Click(a, now, x, y).trainingSession.currentSequence) == ClickCount(s) + 1
      && ScrollDistance(NavigateTo(a, now, url).trainingSession.currentSequence) == ScrollDistance(s)
      && ClickCount(NavigateTo(a, now, url).trainingSession.currentSequence) == ClickCount(s)
  {
    var s := a.trainingSession.currentSequence;
    var sc := ScrollEvent(now, direction, amount);
    var cl := ClickEvent(now, x, y);
    var nv := NavigateEvent(now, url);
    ScrollDistanceSnoc(s, sc);
    ClickCountSnoc(s, sc);
    ScrollDistanceSnoc(s, cl);
    ClickCountSnoc(s, cl);
    OtherKindsIgnored(s, nv);
  }

  /** The prediction reads only the audit log: the training session (and any
      training done on its own model instance) has no influence on it. */
  lemma PredictIgnoresTraining(a: WebAgent, b: WebAgent, net: FeatureVector -> Option<real>)
    requires a.actionsLog == b.actionsLog
    ensures PredictRating(a, net) == PredictRating(b, net)
  {
  }

  /** A rated sequence of two scrolls and a click on a fresh agent commits
      exactly those three events with the rating, and writes the same three
      events to the audit file. */
  lemma RatedSequenceScenario(t0: int, t1: int, t2: int, rating: real)
    ensures
      var a0 := StartTrainingSequence(NewAgent());
      var a1 := Scroll(a0, t0, "down", 300);
      var a2 := Click(a1, t1, 120, 240);
      var a3 := Scroll(a2, t2, "down", 150);
      var t := EndTrainingSequence(a3, rating);
      var events := [ScrollEvent(t0, "down", 300), ClickEvent(t1, 120, 240), ScrollEvent(t2, "down", 150)];
      && t.next.trainingSession.actionSequences == [events]
      && t.next.trainingSession.ratings == [rating]
      && t.written == Some(events)
      && Extract(events) == Success([450, t2 - t0, 1, 0, 0, 0, 0])
  {
    var e0, e1, e2 := ScrollEvent(t0, "down", 300), ClickEvent(t1, 120, 240), ScrollEvent(t2, "down", 150);
    assert [e0] + [e1] == [e0, e1];
    assert [e0, e1] + [e2] == [e0, e1, e2];
    ScenarioFeatures(e0, e1, e2);
  }

  /** The features of a scroll by 300, a click and a scroll by 150. */
  lemma ScenarioFeatures(e0: Action, e1: Action, e2: Action)
    requires e0 == ScrollEvent(e0.timestamp, "down", 300)
    requires e1 == ClickEvent(e1.timestamp, 120, 240)
    requires e2 == ScrollEvent(e2.timestamp, "down", 150)
    ensures Extract([e0, e1, e2]) == Success([450, e2.timestamp - e0.timestamp, 1, 0, 0, 0, 0])
  {
    ScrollDistanceSnoc([], e0);
    ClickCountSnoc([], e0);
    ScrollDistanceSnoc([e0], e1);
    ClickCountSnoc([e0], e1);
    assert [e0] + [e1] == [e0, e1];
    ScrollDistanceSnoc([e0, e1], e2);
    ClickCountSnoc([e0, e1], e2);
    assert [e0, e1] + [e2] == [e0, e1, e2];
    AmountsNumericSnoc([], e0);
    AmountsNumericSnoc([e0], e1);
    AmountsNumericSnoc([e0, e1], e2);
  }
}
