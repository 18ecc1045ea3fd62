/** Runs of the agent: any sequence of the recording, browsing and training
    calls a caller can make (src/agent.py:61-189), started from a fresh agent. */
module Traces {
  import opened Wrappers
  import opened Actions
  import Session
  import Agent

  datatype Command =
    | StartRecording
    | StopRecording
    | SaveRecordedActions
    | Record(now: int, kind: string, params: Option<Params>)
    | NavigateTo(now: int, url: string)
    | ClickAt(now: int, x: int, y: int)
    | ScrollBy(now: int, direction: string, amount: int)
    | Close
    | StartTrainingSequence
    | EndTrainingSequence(rating: real)

  /** One call on the agent. */
  function Apply(a: Agent.WebAgent, c: Command): Agent.Transition
  {
    match c
    case StartRecording => Agent.Transition(Agent.StartRecording(a), None)
    case StopRecording => Agent.StopRecording(a)
    case SaveRecordedActions => Agent.SaveRecordedActions(a)
    case Record(now, kind, params) => Agent.Transition(Agent.RecordAction(a, now, kind, params), None)
    case NavigateTo(now, url) => Agent.Transition(Agent.NavigateTo(a, now, url), None)
    case ClickAt(now, x, y) => Agent.Transition(Agent.Click(a, now, x, y), None)
    case ScrollBy(now, direction, amount) => Agent.Transition(Agent.Scroll(a, now, direction, amount), None)
    case Close => Agent.Close(a)
    case StartTrainingSequence => Agent.Transition(Agent.StartTrainingSequence(a), None)
    case EndTrainingSequence(rating) => Agent.EndTrainingSequence(a, rating)
  }

  /** The agent after the calls `cs`, in order. */
  function Run(a: Agent.WebAgent, cs: seq<Command>): Agent.WebAgent
    decreases |cs|
  {
    if |cs| == 0 then a else Run(Apply(a, cs[0]).next, cs[1..])
  }

  /** One call keeps the agent invariant and never drops or rewrites a
      committed training example. */
  lemma ApplyPreservesValid(a: Agent.WebAgent, c: Command)
    requires Agent.Valid(a)
    ensures Agent.Valid(Apply(a, c).next)
    ensures Session.CorpusExtends(a.trainingSession, Apply(a, c).next.trainingSession)
  {
    var b := Apply(a, c).next;
    match c
    case EndTrainingSequence(rating) =>
      Agent.EndTrainingSequenceValid(a, rating);
      assert b.trainingSession == Session.EndSequence(a.trainingSession, rating);
      Session.EndSequenceGrowth(a.trainingSession, rating);
    case Record(now, kind, params) =>
      Agent.RecordActionValid(a, now, kind, params);
      SameCorpusExtends(a.trainingSession, b.trainingSession);
    case NavigateTo(now, url) =>
      var e := Agent.NavigateEvent(now, url);
      Agent.RecordActionValid(a, now, e.kind, Some(e.params));
      SameCorpusExtends(a.trainingSession, b.trainingSession);
    case ClickAt(now, x, y) =>
      var e := Agent.ClickEvent(now, x, y);
      Agent.RecordActionValid(a, now, e.kind, Some(e.params));
      SameCorpusExtends(a.trainingSession, b.trainingSession);
    case ScrollBy(now, direction, amount) =>
      var e := Agent.ScrollEvent(now, direction, amount);
      Agent.RecordActionValid(a, now, e.kind, Some(e.params));
      SameCorpusExtends(a.trainingSession, b.trainingSession);
    case StartRecording =>
      Agent.GateOperationsValid(a);
      SameCorpusExtends(a.trainingSession, b.trainingSession);
    case StopRecording =>
      Agent.GateOperationsValid(a);
      SameCorpusExtends(a.trainingSession, b.trainingSession);
    case SaveRecordedActions =>
      Agent.GateOperationsValid(a);
      SameCorpusExtends(a.trainingSession, b.trainingSession);
    case Close =>
      Agent.GateOperationsValid(a);
      SameCorpusExtends(a.trainingSession, b.trainingSession);
    case StartTrainingSequence =>
      Agent.GateOperationsValid(a);
      SameCorpusExtends(a.trainingSession, b.trainingSession);
  }

  lemma SameCorpusExtends(s: Session.TrainingSession, t: Session.TrainingSession)
    requires t.actionSequences == s.actionSequences && t.ratings == s.ratings
    ensures Session.CorpusExtends(s, t)
  {
    assert t.actionSequences[..|s.actionSequences|] == s.actionSequences;
    assert t.ratings[..|s.ratings|] == s.ratings;
  }

  /** Every run from a valid agent ends in a valid agent whose corpus extends
      the one it started with. */
  lemma {:induction false} RunPreservesValid(a: Agent.WebAgent, cs: seq<Command>)
    requires Agent.Valid(a)
    ensures Agent.Valid(Run(a, cs))
    ensures Session.CorpusExtends(a.trainingSession, Run(a, cs).trainingSession)
    decreases |cs|
  {
    if |cs| > 0 {
      var b := Apply(a, cs[0]).next;
      ApplyPreservesValid(a, cs[0]);
      RunPreservesValid(b, cs[1..]);
      CorpusExtendsTransitive(a.trainingSession, b.trainingSession, Run(b, cs[1..]).trainingSession);
    }
  }

  lemma CorpusExtendsTransitive(s: Session.TrainingSession, t: Session.TrainingSession, u: Session.TrainingSession)
    requires Session.CorpusExtends(s, t) && Session.CorpusExtends(t, u)
    ensures Session.CorpusExtends(s, u)
  {
    assert u.actionSequences[..|s.actionSequences|] == u.actionSequences[..|t.actionSequences|][..|s.actionSequences|];
    assert u.ratings[..|s.ratings|] == u.ratings[..|t.ratings|][..|s.ratings|];
  }

  /** Whatever calls a fresh agent receives, its corpus lists stay parallel,
      every stored sequence is non-empty, and the audit log is empty whenever
      recording is off. */
  lemma FreshAgentRuns(cs: seq<Command>)
    ensures var a := Run(Agent.NewAgent(), cs);
      && |a.trainingSession.actionSequences| == |a.trainingSession.ratings|
      && (forall i | 0 <= i < |a.trainingSession.actionSequences| :: |a.trainingSession.actionSequences[i]| > 0)
      && (!a.isRecording ==> a.actionsLog == [])
  {
    Agent.NewAgentValid(_ => None);
    RunPreservesValid(Agent.NewAgent(), cs);
  }

  // ---------------------------------------------------------------------
  // The audit trail: every recorded event is written out exactly once.
  // ---------------------------------------------------------------------

  /** The event a recording call builds, if the call is one. */
  function EventOf(c: Command): Option<Action>
  {
    match c
    case Record(now, kind, params) => Some(Agent.MakeEvent(now, kind, params))
    case NavigateTo(now, url) => Some(Agent.NavigateEvent(now, url))
    case ClickAt(now, x, y) => Some(Agent.ClickEvent(now, x, y))
    case ScrollBy(now, direction, amount) => Some(Agent.ScrollEvent(now, direction, amount))
    case _ => None
  }

  /** The events the call `c` records on `a`: its event while the gate is on. */
  function RecordedBy(a: Agent.WebAgent, c: Command): seq<Action>
  {
    match EventOf(c)
    case Some(e) => if a.isRecording then [e] else []
    case None => []
  }

  /** The actions a transition wrote to an audit file. */
  function WrittenBy(t: Agent.Transition): seq<Action>
  {
    match t.written
    case Some(log) => log
    case None => []
  }

  /** All events recorded during the run `cs` from `a`, in order. */
  function RecordedEvents(a: Agent.WebAgent, cs: seq<Command>): seq<Action>
    decreases |cs|
  {
    if |cs| == 0 then [] else RecordedBy(a, cs[0]) + RecordedEvents(Apply(a, cs[0]).next, cs[1..])
  }

  /** All actions written to audit files during the run `cs` from `a`, in order. */
  function AuditTrail(a: Agent.WebAgent, cs: seq<Command>): seq<Action>
    decreases |cs|
  {
    if |cs| == 0 then [] else WrittenBy(Apply(a, cs[0])) + AuditTrail(Apply(a, cs[0]).next, cs[1..])
  }

  /** One call: what it writes, followed by the log it leaves, is the log it
      found followed by what it records. */
  lemma ApplyAudit(a: Agent.WebAgent, c: Command)
    ensures WrittenBy(Apply(a, c)) + Apply(a, c).next.actionsLog == a.actionsLog + RecordedBy(a, c)
  {
    match c
    case StopRecording =>
      assert a.actionsLog + [] == a.actionsLog;
    case SaveRecordedActions =>
      assert a.actionsLog + [] == a.actionsLog;
    case EndTrainingSequence(_) =>
      assert a.actionsLog + [] == a.actionsLog;
    case Close =>
      assert a.actionsLog + [] == a.actionsLog;
    case _ =>
  }

  /** A run neither loses nor duplicates an audit event: everything written,
      followed by the final log, is the starting log followed by every event
      recorded, in recording order. */
  lemma {:induction false} RunAudit(a: Agent.WebAgent, cs: seq<Command>)
    ensures AuditTrail(a, cs) + Run(a, cs).actionsLog == a.actionsLog + RecordedEvents(a, cs)
    decreases |cs|
  {
    if |cs| > 0 {
      var t := Apply(a, cs[0]);
      var rest := cs[1..];
      ApplyAudit(a, cs[0]);
      RunAudit(t.next, rest);
      var w, trail, log, later := WrittenBy(t), AuditTrail(t.next, rest), Run(t.next, rest).actionsLog, RecordedEvents(t.next, rest);
      assert AuditTrail(a, cs) == w + trail;
      assert Run(a, cs).actionsLog == log;
      assert RecordedEvents(a, cs) == RecordedBy(a, cs[0]) + later;
      var here := RecordedBy(a, cs[0]);
      assert w + t.next.actionsLog == a.actionsLog + here;
      ConcatAssoc(w, trail, log);
      ConcatAssoc(w, t.next.actionsLog, later);
      ConcatAssoc(a.actionsLog, here, later);
    } else {
      assert a.actionsLog + [] == a.actionsLog;
    }
  }

  lemma ConcatAssoc(x: seq<Action>, y: seq<Action>, z: seq<Action>)
    ensures (x + y) + z == x + (y + z)
  {
  }

  /** On a fresh agent, once a run ends with a `close`, exactly the recorded
      events have been written to audit files, each once and in order. */
  lemma ClosedRunAudit(cs: seq<Command>)
    ensures AuditTrail(Agent.NewAgent(), cs + [Close]) == RecordedEvents(Agent.NewAgent(), cs + [Close])
  {
    var a := Agent.NewAgent();
    var cs' := cs + [Close];
    Agent.NewAgentValid(_ => None);
    RunPreservesValid(a, cs');
    RunClose(a, cs);
    RunAudit(a, cs');
    assert AuditTrail(a, cs') + [] == AuditTrail(a, cs');
    assert [] + RecordedEvents(a, cs') == RecordedEvents(a, cs');
  }

  /** Running `cs + [Close]` is running `cs` and then closing; a valid agent
      has an empty log after closing. */
  lemma {:induction false} RunClose(a: Agent.WebAgent, cs: seq<Command>)
    requires Agent.Valid(a)
    ensures Run(a, cs + [Close]) == Agent.Close(Run(a, cs)).next
    ensures Run(a, cs + [Close]).actionsLog == []
    decreases |cs|
  {
    if |cs| > 0 {
      assert (cs + [Close])[1..] == cs[1..] + [Close];
      ApplyPreservesValid(a, cs[0]);
      RunClose(Apply(a, cs[0]).next, cs[1..]);
    } else {
      assert (cs + [Close])[1..] == [];
    }
  }
}
