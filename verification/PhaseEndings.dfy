/** How many terminal states a run records, told from the world alone: the operations of a run are
 *  determined by what the world answers.
 */
module PhaseEndings {
  import opened Prelude
  import opened Phases

  // ---- Which operations a run reaches ----------------------------------------------------------

  /** Operations that only one other operation can lead to. */
  predicate Forward(op: Op) { OnTheWay(op) || (op.AuditCancelled? && Index(op.s) <= 4) }

  /** A position in the order in which a run goes through its operations. */
  function Rank(op: Op): nat {
    match op
    case Enter(s) => if s == Authorized then 1 else 4 * Index(s) + 3
    case AskCancelled(s) => if s == Authorized then 2 else 4 * Index(s) + 5
    case MakeGuard => 3
    case CheckRecord => 4
    case OpenClient => 5
    case Checkpoint(s) => 4 * Index(s) + 2
    case Work(s) => 4 * Index(s) + 4
    case RecordCancelled(s) => 4 * Index(s) + 6
    case AuditCancelled(s) => 4 * Index(s) + 7
    case _ => 0
  }

  function PhaseBefore(s: State): State {
    match s
    case Planning => Discovering
    case PolicyCheck => Planning
    case Executing => PolicyCheck
    case Validating => Executing
    case Scoring => Validating
    case Reporting => Scoring
    case _ => Authorized
  }

  /** The only operation that leads to op. */
  function Before(op: Op): Op
    requires Forward(op)
  {
    match op
    case Enter(s) => if s == Authorized then Load else if s == Completed then Work(Reporting) else Checkpoint(s)
    case AskCancelled(s) => if s == Authorized then Enter(s) else Work(s)
    case MakeGuard => AskCancelled(Authorized)
    case CheckRecord => MakeGuard
    case OpenClient => CheckRecord
    case Checkpoint(s) =>
      if s == Discovering then OpenClient
      else if s == Scoring || s == Reporting then Work(PhaseBefore(s)) else AskCancelled(PhaseBefore(s))
    case Work(s) => Enter(s)
    case RecordCancelled(s) => AskCancelled(s)
    case AuditCancelled(s) => RecordCancelled(s)
    case _ => Load
  }

  /** In this world the run performs op: everything before it went well and led there. */
  predicate Reached(w: World, op: Op)
    requires Forward(op)
    decreases Rank(op)
  {
    op == Load ||
    (Forward(Before(op)) && Rank(Before(op)) < Rank(op) && Reached(w, Before(op)) && NextOp(w, Before(op)) == Some(op))
  }

  lemma BeforeIsEarlier(op: Op)
    requires Forward(op) && op != Load
    ensures Forward(Before(op)) && Rank(Before(op)) < Rank(op)
  {
  }

  /** Operations of a run that is on its way or on its way out. */
  predicate Sane(op: Op) { Forward(op) || op.MarkFailed? || op.CloseClient? || op == SupervisorMarkFailed }

  lemma OnlyOneWayTo(w: World, p: Op, op: Op)
    requires Sane(p) && NextOp(w, p) == Some(op)
    ensures Sane(op) && (Forward(op) ==> p == Before(op))
  {
    if !w.raises(p) && (p.Work? || p.AskCancelled?) {
      assert Onward(w, p) == Some(op);
    }
  }

  /** How far a run is from its end at most. */
  function Left(op: Op): nat {
    if Forward(op) && Rank(op) <= 35 then 40 - Rank(op)
    else if op.MarkFailed? then 3
    else if op.CloseClient? then 2
    else 1
  }

  lemma NextIsCloser(w: World, p: Op, op: Op)
    requires Sane(p) && NextOp(w, p) == Some(op)
    ensures Sane(op) && Left(op) < Left(p)
  {
    OnlyOneWayTo(w, p, op);
    if Forward(op) {
      BeforeIsEarlier(op);
    }
  }

  // ---- Terminal states behind a run and ahead of it ---------------------------------------------------

  function Terminals(states: seq<State>): nat {
    if states == [] then 0
    else Terminals(states[..|states| - 1]) + if Terminal(states[|states| - 1]) then 1 else 0
  }

  lemma {:induction false} TerminalsAppend(a: seq<State>, b: seq<State>)
    ensures Terminals(a + b) == Terminals(a) + Terminals(b)
    decreases |b|
  {
    if b == [] {
      assert a + b == a;
    } else {
      assert (a + b)[..|a + b| - 1] == a + b[..|b| - 1];
      TerminalsAppend(a, b[..|b| - 1]);
    }
  }

  /** How many terminal states the operation records. */
  function Ends(w: World, op: Op): nat {
    if w.raises(op) then 0
    else if op == Enter(Completed) || op.RecordCancelled? || op.MarkFailed? || op == SupervisorMarkFailed then 1
    else 0
  }

  lemma EndsAreCommitted(w: World, op: Op)
    requires Sane(op)
    ensures Terminals(Commits(w, op)) == Ends(w, op)
  {
    if Commits(w, op) != [] {
      assert Commits(w, op)[..0] == [];
    }
  }

  /** How many terminal states a run records from its next operation on. */
  function Ahead(w: World, next: Option<Op>): nat
    requires next.Some? ==> Sane(next.value)
    decreases if next.Some? then Left(next.value) else 0
  {
    match next
    case None => 0
    case Some(op) =>
      var after := NextOp(w, op);
      if after.None? then Ends(w, op)
      else
        NextIsCloser(w, op, after.value);
        Ends(w, op) + Ahead(w, after)
  }

  /** What a run has recorded and what is ahead of it add up to the same all along. */
  lemma {:induction false} TerminalsAddUp(w: World, trace: seq<Op>)
    requires Replay(w, trace).legal
    ensures var l := Replay(w, trace);
            (l.next.Some? ==> Sane(l.next.value)) && Terminals(l.states) + Ahead(w, l.next) == Ahead(w, Some(Load))
    decreases |trace|
  {
    if trace != [] {
      var before, op := trace[..|trace| - 1], trace[|trace| - 1];
      TerminalsAddUp(w, before);
      TerminalsAppend(Replay(w, before).states, Commits(w, op));
      EndsAreCommitted(w, op);
      if NextOp(w, op).Some? {
        NextIsCloser(w, op, NextOp(w, op).value);
      }
    }
  }

  // ---- Where a run leaves its way -------------------------------------------------------------------

  /** The last operation on the way through the phases. */
  ghost predicate StopsAt(w: World, op: Op) {
    Forward(op) && Reached(w, op) && (NextOp(w, op).Some? ==> !Forward(NextOp(w, op).value))
  }

  lemma NextIsReached(w: World, p: Op, op: Op)
    requires Forward(p) && Reached(w, p) && NextOp(w, p) == Some(op) && Forward(op)
    ensures Reached(w, op)
  {
    OnlyOneWayTo(w, p, op);
    BeforeIsEarlier(op);
  }

  lemma {:induction false} StopsSomewhere(w: World, from: Op) returns (op: Op)
    requires Forward(from) && Reached(w, from)
    ensures StopsAt(w, op)
    decreases Left(from)
  {
    var next := NextOp(w, from);
    if next.Some? && Forward(next.value) {
      NextIsReached(w, from, next.value);
      NextIsCloser(w, from, next.value);
      op := StopsSomewhere(w, next.value);
    } else {
      op := from;
    }
  }

  lemma ReachedThrough(w: World, op: Op)
    requires Forward(op) && op != Load && Reached(w, op)
    ensures Forward(Before(op)) && Rank(Before(op)) < Rank(op)
    ensures Reached(w, Before(op)) && NextOp(w, Before(op)) == Some(op)
  {
  }

  /** On its way a run records no terminal state but a cancellation. */
  lemma StepOnTheWay(w: World, p: Op, op: Op)
    requires Forward(p) && Forward(op) && NextOp(w, p) == Some(op)
    ensures Ends(w, p) == (if op.AuditCancelled? then 1 else 0) && !p.AuditCancelled?
  {
  }

  lemma {:induction false} NothingEndedBefore(w: World, op: Op)
    requires Forward(op) && Reached(w, op)
    ensures Ahead(w, Some(Load)) == Ahead(w, Some(op)) + if op.AuditCancelled? then 1 else 0
    decreases Rank(op)
  {
    if op != Load {
      ReachedThrough(w, op);
      NothingEndedBefore(w, Before(op));
      StepOnTheWay(w, Before(op), op);
    }
  }

  /** Closing the client is the last thing: if it fails, the supervisor records a failure, unless
   *  that fails too. */
  function ByClosing(w: World): nat {
    if w.raises(CloseClient(false)) then BySupervisor(w) else 0
  }

  function BySupervisor(w: World): nat { if w.raises(SupervisorMarkFailed) then 0 else 1 }

  /** Failures recorded for an operation that raised: inside the client by the run itself, or if
   *  that fails, and outside, by the supervisor. */
  function ByFailing(w: World, inside: bool): nat {
    if inside && !w.raises(MarkFailed(true)) then 1 + ByClosing(w) else BySupervisor(w)
  }

  predicate Inside(op: Op) {
    (op.Checkpoint? || op.Enter? || op.Work? || op.AskCancelled? || op.RecordCancelled? || op.AuditCancelled?) &&
    ClientOpen(op.s)
  }

  /** How many terminal states a run records that leaves its way at the operation. */
  function TerminalStates(w: World, op: Op): nat {
    (if op.AuditCancelled? then 1 else 0) +
    if w.raises(op) then ByFailing(w, Inside(op))
    else match op
      case CheckRecord => if w.raises(MarkFailed(false)) then BySupervisor(w) else 1   // the record is unusable
      case Enter(_) => 1 + ByClosing(w)                                                // completed
      case AuditCancelled(s) => if ClientOpen(s) then ByClosing(w) else 0              // cancelled
      case _ => 0                                                                      // nothing to run
  }

  /** What is ahead of a run that has left its way. */
  function OnTheWayOut(w: World, next: Option<Op>): nat {
    match next
    case Some(MarkFailed(open)) => if open then ByFailing(w, true) else if w.raises(MarkFailed(false)) then BySupervisor(w) else 1
    case Some(CloseClient(raising)) => if raising then BySupervisor(w) else ByClosing(w)
    case Some(SupervisorMarkFailed) => BySupervisor(w)
    case _ => 0
  }

  lemma AheadAtTheEnd(w: World)
    ensures Ahead(w, Some(SupervisorMarkFailed)) == BySupervisor(w)
    ensures Ahead(w, Some(CloseClient(true))) == BySupervisor(w)
    ensures Ahead(w, Some(CloseClient(false))) == ByClosing(w)
  {
    assert NextOp(w, SupervisorMarkFailed) == None;
    assert NextOp(w, CloseClient(true)) == Some(SupervisorMarkFailed);
  }

  lemma AheadOnTheWayOut(w: World, next: Option<Op>)
    requires next.Some? ==> Sane(next.value) && !Forward(next.value)
    ensures Ahead(w, next) == OnTheWayOut(w, next)
  {
    AheadAtTheEnd(w);
  }

  lemma StopLeadsOut(w: World, op: Op)
    requires Forward(op) && (NextOp(w, op).Some? ==> !Forward(NextOp(w, op).value))
    ensures (if op.AuditCancelled? then 1 else 0) + Ends(w, op) + OnTheWayOut(w, NextOp(w, op)) == TerminalStates(w, op)
  {
    if !w.raises(op) {
      SucceedingStop(w, op);
    }
  }

  lemma SucceedingStop(w: World, op: Op)
    requires Forward(op) && !w.raises(op) && (NextOp(w, op).Some? ==> !Forward(NextOp(w, op).value))
    ensures op in {Load, CheckRecord, Enter(Completed)} || op.AuditCancelled?
  {
  }

  lemma StopTells(w: World, op: Op)
    requires StopsAt(w, op)
    ensures Ahead(w, Some(Load)) == TerminalStates(w, op)
  {
    NothingEndedBefore(w, op);
    var next := NextOp(w, op);
    if next.Some? {
      NextIsCloser(w, op, next.value);
    }
    AheadOnTheWayOut(w, next);
    AheadOfOne(w, op);
    StopLeadsOut(w, op);
  }

  lemma AheadOfOne(w: World, op: Op)
    requires Sane(op)
    ensures NextOp(w, op).Some? ==> Sane(NextOp(w, op).value)
    ensures Ahead(w, Some(op)) == Ends(w, op) + Ahead(w, NextOp(w, op))
  {
    if NextOp(w, op).Some? {
      NextIsCloser(w, op, NextOp(w, op).value);
    }
  }

  // ---- Main results ------------------------------------------------------------------------------------

  /** A finished run: nothing comes after its last operation. */
  predicate Finished(w: World, trace: seq<Op>) { Replay(w, trace).legal && Replay(w, trace).next == None }

  lemma AllRecorded(w: World, trace: seq<Op>)
    requires Finished(w, trace)
    ensures Terminals(Replay(w, trace).states) == Ahead(w, Some(Load))
  {
    TerminalsAddUp(w, trace);
  }

  lemma AtMostThree(w: World, op: Op)
    ensures TerminalStates(w, op) <= 3
  {
  }

  /** How many terminal states a finished run has recorded: none to three, by the operation at which
   *  it left its way and by whether failures could be recorded and the client be closed. */
  lemma TerminalStatesExactly(w: World, trace: seq<Op>, op: Op)
    requires Finished(w, trace) && StopsAt(w, op)
    ensures Terminals(Replay(w, trace).states) == TerminalStates(w, op) <= 3
  {
    AllRecorded(w, trace);
    StopTells(w, op);
    AtMostThree(w, op);
  }

  ghost predicate EndsOnce(w: World) { exists op :: StopsAt(w, op) && TerminalStates(w, op) == 1 }

  lemma {:induction false} PhasesAreNotTerminal(n: nat)
    requires n <= 8
    ensures Terminals(PHASES[..n]) == 0
  {
    if n > 0 {
      assert PHASES[..n][..n - 1] == PHASES[..n - 1] && !Terminal(PHASES[n - 1]);
      PhasesAreNotTerminal(n - 1);
    }
  }

  lemma {:induction false} AllTerminal(ending: seq<State>)
    requires forall k :: 0 <= k < |ending| ==> Terminal(ending[k])
    ensures Terminals(ending) == |ending|
    decreases |ending|
  {
    if ending != [] {
      AllTerminal(ending[..|ending| - 1]);
    }
  }

  lemma OneIsOneTerminal(w: World, states: seq<State>, n: nat, ending: seq<State>)
    requires Shaped(w, states, n, ending)
    ensures OneTerminal(states) <==> Terminals(states) == 1
  {
    PhasesAreNotTerminal(n);
    AllTerminal(ending);
    TerminalsAppend(PHASES[..n], ending);
    if ending == [] {
      assert forall k :: 0 <= k < n ==> states[k] == PHASES[k] && !Terminal(PHASES[k]);
    } else {
      ShapedTerminals(w, states, n, ending);
    }
  }

  /** Whatever fails, a finished run has recorded exactly one terminal state if and only if the world
   *  lets it end once. */
  lemma OneTerminalStateExactly(w: World, trace: seq<Op>)
    requires Finished(w, trace)
    ensures OneTerminal(Replay(w, trace).states) <==> EndsOnce(w)
  {
    var stop := StopsSomewhere(w, Load);
    TerminalStatesExactly(w, trace, stop);
    var n, ending := RunIsStaged(w, trace);
    OneIsOneTerminal(w, Replay(w, trace).states, n, ending);
    if EndsOnce(w) {
      var op :| StopsAt(w, op) && TerminalStates(w, op) == 1;
      TerminalStatesExactly(w, trace, op);
    }
  }

  // ---- None, two and three happen ---------------------------------------------------------------------

  /** The guard cannot be built, and the failure not be recorded: the database is gone. */
  function DatabaseGone(): World {
    World((op: Op) => op == MakeGuard || op == SupervisorMarkFailed, true, (s: State) => false, true, Blank, 0)
  }

  /** A cancellation is requested at once, and auditing it fails. */
  function FailingAudit(): World {
    World((op: Op) => op == AuditCancelled(Authorized), true, (s: State) => s == Authorized, true, Blank, 0)
  }

  /** Discovery cannot be checkpointed, and then the client cannot be closed. */
  function FailingClose(): World {
    World((op: Op) => op == Checkpoint(Discovering) || op == CloseClient(false), true, (s: State) => false, true, Blank, 0)
  }

  /** A cancellation is requested during discovery, and neither auditing it nor closing the client
   *  works. */
  function FailingAuditAndClose(): World {
    World((op: Op) => op == AuditCancelled(Discovering) || op == CloseClient(false), true,
          (s: State) => s == Discovering, true, Blank, 0)
  }

  /** The trace, what comes next and what is recorded. */
  datatype Point = Point(trace: seq<Op>, next: Option<Op>, states: seq<State>)

  ghost predicate At(w: World, p: Point) { Replay(w, p.trace) == Ledger(true, p.next, p.states, Blank, Blank) }

  lemma Then(w: World, p: Point, op: Op, next: Option<Op>, more: seq<State>) returns (q: Point)
    requires At(w, p) && p.next == Some(op) && op != Work(Executing) && op != Enter(Completed)
    requires NextOp(w, op) == next && Commits(w, op) == more
    ensures At(w, q) && q.next == next && q.states == p.states + more
  {
    ReplayAppend(w, p.trace, op);
    q := Point(p.trace + [op], next, p.states + more);
  }

  /** Up to the first look at the cancellation flag. */
  lemma Begun(w: World) returns (p: Point)
    requires !w.raises(Load) && !w.raises(Enter(Authorized)) && w.exists_
    ensures At(w, p) && p.next == Some(AskCancelled(Authorized)) && p.states == [Authorized]
  {
    p := Point([], Some(Load), []);
    p := Then(w, p, Load, Some(Enter(Authorized)), []);
    p := Then(w, p, Enter(Authorized), Some(AskCancelled(Authorized)), [Authorized]);
  }

  lemma Recorded(w: World, p: Point, s: State, next: Op) returns (q: Point)
    requires At(w, p) && p.next == Some(AskCancelled(s)) && w.cancelled(s)
    requires !w.raises(AskCancelled(s)) && !w.raises(RecordCancelled(s)) && NextOp(w, AuditCancelled(s)) == Some(next)
    ensures At(w, q) && q.next == Some(next) && q.states == p.states + [Cancelled]
  {
    q := Then(w, p, AskCancelled(s), Some(RecordCancelled(s)), []);
    q := Then(w, q, RecordCancelled(s), Some(AuditCancelled(s)), [Cancelled]);
    q := Then(w, q, AuditCancelled(s), Some(next), []);
  }

  lemma BadlyAudited(w: World) returns (p: Point)
    requires w.exists_ && w.cancelled(Authorized) && w.raises(AuditCancelled(Authorized))
    requires !w.raises(Load) && !w.raises(Enter(Authorized)) && !w.raises(SupervisorMarkFailed)
    requires !w.raises(AskCancelled(Authorized)) && !w.raises(RecordCancelled(Authorized))
    ensures At(w, p) && p.next == None && p.states == [Authorized, Cancelled, Failed]
  {
    p := Begun(w);
    p := Recorded(w, p, Authorized, SupervisorMarkFailed);
    p := Then(w, p, SupervisorMarkFailed, None, [Failed]);
  }

  /** The audit fails after the cancellation was recorded: the supervisor records a failure. */
  lemma CancelledThenFailed() returns (p: Point)
    ensures At(FailingAudit(), p) && p.next == None
    ensures p.states == [Authorized, Cancelled, Failed]
  {
    p := BadlyAudited(FailingAudit());
  }

  lemma Opened(w: World, p: Point) returns (q: Point)
    requires At(w, p) && p.next == Some(AskCancelled(Authorized)) && !w.cancelled(Authorized) && w.recordUsable
    requires forall op :: op in {AskCancelled(Authorized), MakeGuard, CheckRecord, OpenClient} ==> !w.raises(op)
    ensures At(w, q) && q.next == Some(Checkpoint(Discovering)) && q.states == p.states
  {
    q := Then(w, p, AskCancelled(Authorized), Some(MakeGuard), []);
    q := Then(w, q, MakeGuard, Some(CheckRecord), []);
    q := Then(w, q, CheckRecord, Some(OpenClient), []);
    q := Then(w, q, OpenClient, Some(Checkpoint(Discovering)), []);
  }

  lemma BadlyClosed(w: World) returns (p: Point)
    requires w.exists_ && w.recordUsable && !w.cancelled(Authorized)
    requires forall op :: w.raises(op) <==> op == Checkpoint(Discovering) || op == CloseClient(false)
    ensures At(w, p) && p.next == None && p.states == [Authorized, Failed, Failed]
  {
    p := Begun(w);
    p := Opened(w, p);
    p := ClosedBadly(w, p);
  }

  lemma ClosedBadly(w: World, p: Point) returns (q: Point)
    requires At(w, p) && p.next == Some(Checkpoint(Discovering)) && w.raises(Checkpoint(Discovering))
    requires !w.raises(MarkFailed(true)) && w.raises(CloseClient(false)) && !w.raises(SupervisorMarkFailed)
    ensures At(w, q) && q.next == None && q.states == p.states + [Failed] + [Failed]
  {
    q := Then(w, p, Checkpoint(Discovering), Some(MarkFailed(true)), []);
    q := ClosedBadlyAfterFailing(w, q);
  }

  /** Closing the client fails after the run recorded its failure: it is recorded twice. */
  lemma FailedTwice() returns (p: Point)
    ensures At(FailingClose(), p) && p.next == None
    ensures p.states == [Authorized, Failed, Failed]
  {
    p := BadlyClosed(FailingClose());
  }

  lemma NeverRecorded(w: World) returns (p: Point)
    requires w.exists_ && !w.cancelled(Authorized) && w.raises(MakeGuard) && w.raises(SupervisorMarkFailed)
    requires !w.raises(Load) && !w.raises(Enter(Authorized)) && !w.raises(AskCancelled(Authorized))
    ensures At(w, p) && p.next == None && p.states == [Authorized]
  {
    p := Begun(w);
    p := Then(w, p, AskCancelled(Authorized), Some(MakeGuard), []);
    p := Then(w, p, MakeGuard, Some(SupervisorMarkFailed), []);
    p := Then(w, p, SupervisorMarkFailed, None, []);
  }

  /** No terminal state at all. */
  lemma NeverEnded() returns (p: Point)
    ensures At(DatabaseGone(), p) && p.next == None && p.states == [Authorized]
  {
    p := NeverRecorded(DatabaseGone());
  }

  lemma Discovered(w: World, p: Point) returns (q: Point)
    requires At(w, p) && p.next == Some(Checkpoint(Discovering))
    requires !w.raises(Checkpoint(Discovering)) && !w.raises(Enter(Discovering)) && !w.raises(Work(Discovering))
    ensures At(w, q) && q.next == Some(AskCancelled(Discovering)) && q.states == p.states + [Discovering]
  {
    q := Then(w, p, Checkpoint(Discovering), Some(Enter(Discovering)), []);
    q := Then(w, q, Enter(Discovering), Some(Work(Discovering)), [Discovering]);
    q := Then(w, q, Work(Discovering), Some(AskCancelled(Discovering)), []);
  }

  lemma ClosedBadlyAfterFailing(w: World, p: Point) returns (q: Point)
    requires At(w, p) && p.next == Some(MarkFailed(true))
    requires !w.raises(MarkFailed(true)) && w.raises(CloseClient(false)) && !w.raises(SupervisorMarkFailed)
    ensures At(w, q) && q.next == None && q.states == p.states + [Failed] + [Failed]
  {
    q := Then(w, p, MarkFailed(true), Some(CloseClient(false)), [Failed]);
    q := Then(w, q, CloseClient(false), Some(SupervisorMarkFailed), []);
    q := Then(w, q, SupervisorMarkFailed, None, [Failed]);
  }

  lemma ToDiscovery(w: World) returns (p: Point)
    requires w.exists_ && w.recordUsable && !w.cancelled(Authorized)
    requires forall op :: w.raises(op) ==> op == AuditCancelled(Discovering) || op == CloseClient(false)
    ensures At(w, p) && p.next == Some(AskCancelled(Discovering)) && p.states == [Authorized, Discovering]
  {
    p := Begun(w);
    p := Opened(w, p);
    p := Discovered(w, p);
  }

  lemma BadlyAuditedAndClosed(w: World) returns (p: Point)
    requires w.exists_ && w.recordUsable && !w.cancelled(Authorized) && w.cancelled(Discovering)
    requires forall op :: w.raises(op) <==> op == AuditCancelled(Discovering) || op == CloseClient(false)
    ensures At(w, p) && p.next == None && p.states == [Authorized, Discovering, Cancelled, Failed, Failed]
  {
    p := ToDiscovery(w);
    p := Recorded(w, p, Discovering, MarkFailed(true));
    p := ClosedBadlyAfterFailing(w, p);
  }

  /** Three terminal states. */
  lemma CancelledThenFailedTwice() returns (p: Point)
    ensures At(FailingAuditAndClose(), p) && p.next == None
    ensures p.states == [Authorized, Discovering, Cancelled, Failed, Failed]
  {
    p := BadlyAuditedAndClosed(FailingAuditAndClose());
  }
}
