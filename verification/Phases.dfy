/** One supervised inline run of an assessment: which operations it performs, in which order,
 *  and which states it records, whatever fails and whenever a cancellation is seen.
 */
module Phases {
  import opened Prelude

  datatype State =
    | Authorized | Discovering | Planning | PolicyCheck | Executing | Validating | Scoring | Reporting
    | Completed | Failed | Cancelled

  const PHASES: seq<State> :=
    [Authorized, Discovering, Planning, PolicyCheck, Executing, Validating, Scoring, Reporting]

  function Index(s: State): nat {
    match s
    case Authorized => 0
    case Discovering => 1
    case Planning => 2
    case PolicyCheck => 3
    case Executing => 4
    case Validating => 5
    case Scoring => 6
    case Reporting => 7
    case _ => 8
  }

  predicate Terminal(s: State) { s in {Completed, Failed, Cancelled} }

  /** Why execution did or did not happen. */
  datatype Reason = Blank | Executed | NoExecution(why: string) | Partial(why: string)

  /** One operation of the run. The flags say what is to be cleaned up on the way out. */
  datatype Op =
    | Load
    | Enter(s: State)                        // record a phase, or completion
    | AskCancelled(s: State)                 // is a cancellation requested?
    | MakeGuard
    | CheckRecord
    | OpenClient
    | Checkpoint(s: State)
    | Work(s: State)                         // the body of a phase
    | RecordCancelled(s: State)
    | AuditCancelled(s: State)
    | MarkFailed(open: bool)                 // by the run itself; `open`: the client is open
    | CloseClient(raising: bool)             // `raising`: an exception is on its way out
    | SupervisorMarkFailed

  /** What the world answers. Every operation happens at most once in a run, so keying the
   *  answers by operation leaves nothing out. */
  datatype World = World(
    raises: Op -> bool, exists_: bool, cancelled: State -> bool, recordUsable: bool,
    note: Reason, jobs: nat)

  // ---- Control flow ----------------------------------------------------------------------------

  predicate ClientOpen(s: State) { s != Authorized }

  /** Where an exception raised by the operation goes. */
  function Handler(op: Op): Option<Op> {
    match op
    case Load => Some(SupervisorMarkFailed)
    case MakeGuard => Some(SupervisorMarkFailed)
    case CheckRecord => Some(SupervisorMarkFailed)
    case OpenClient => Some(SupervisorMarkFailed)
    case CloseClient(_) => Some(SupervisorMarkFailed)
    case Enter(s) => Some(if ClientOpen(s) then MarkFailed(true) else SupervisorMarkFailed)
    case AskCancelled(s) => Some(if ClientOpen(s) then MarkFailed(true) else SupervisorMarkFailed)
    case RecordCancelled(s) => Some(if ClientOpen(s) then MarkFailed(true) else SupervisorMarkFailed)
    case AuditCancelled(s) => Some(if ClientOpen(s) then MarkFailed(true) else SupervisorMarkFailed)
    case Checkpoint(_) => Some(MarkFailed(true))
    case Work(_) => Some(MarkFailed(true))
    case MarkFailed(open) => Some(if open then CloseClient(true) else SupervisorMarkFailed)
    case SupervisorMarkFailed => None
  }

  function PhaseAfter(s: State): State {
    match s
    case Authorized => Discovering
    case Discovering => Planning
    case Planning => PolicyCheck
    case PolicyCheck => Executing
    case Executing => Validating
    case Validating => Scoring
    case Scoring => Reporting
    case _ => Completed
  }

  /** What follows the operation, None at the end of the run. */
  function NextOp(w: World, op: Op): Option<Op> {
    if w.raises(op) then Handler(op) else Onward(w, op)
  }

  function Onward(w: World, op: Op): Option<Op> {
    match op
    case Load => if w.exists_ then Some(Enter(Authorized)) else None
    case Enter(s) =>
      if s == Completed then Some(CloseClient(false))
      else if s == Authorized then Some(AskCancelled(s)) else Some(Work(s))
    case AskCancelled(s) =>
      if w.cancelled(s) then Some(RecordCancelled(s))
      else if s == Authorized then Some(MakeGuard) else Some(Checkpoint(PhaseAfter(s)))
    case MakeGuard => Some(CheckRecord)
    case CheckRecord => Some(if w.recordUsable then OpenClient else MarkFailed(false))
    case OpenClient => Some(Checkpoint(Discovering))
    case Checkpoint(s) => Some(Enter(s))
    case Work(s) =>
      // Cancellation is asked about up to the end of execution and never after.
      if Index(s) <= Index(Executing) then Some(AskCancelled(s))
      else if s == Reporting then Some(Enter(Completed)) else Some(Checkpoint(PhaseAfter(s)))
    case RecordCancelled(s) => Some(AuditCancelled(s))
    case AuditCancelled(s) => if ClientOpen(s) then Some(CloseClient(false)) else None
    case MarkFailed(open) => if open then Some(CloseClient(false)) else None
    case CloseClient(raising) => if raising then Some(SupervisorMarkFailed) else None
    case SupervisorMarkFailed => None
  }

  /** The states that the operation commits. An operation that raises commits nothing. */
  function Commits(w: World, op: Op): seq<State> {
    if w.raises(op) then []
    else match op
      case Enter(s) => [s]
      case RecordCancelled(_) => [Cancelled]
      case MarkFailed(_) => [Failed]
      case SupervisorMarkFailed => [Failed]
      case _ => []
  }

  function ReasonFor(jobs: nat, note: Reason): Reason {
    if jobs == 0 then (if note == Blank then NoExecution("no_jobs") else note)
    else if note.Partial? then note else Executed
  }

  /** What a run has left behind: whether every operation was the one that the operation before
   *  it leads to, what comes next (None at the end), the states recorded, the execution note
   *  and the recorded completion reason. */
  datatype Ledger = Ledger(legal: bool, next: Option<Op>, states: seq<State>, note: Reason, reason: Reason)

  function Account(w: World, l: Ledger, op: Op): Ledger {
    Ledger(l.legal && l.next == Some(op),
           NextOp(w, op),
           l.states + Commits(w, op),
           if op == Work(Executing) then w.note else l.note,
           if op == Enter(Completed) && !w.raises(op) then ReasonFor(w.jobs, l.note) else l.reason)
  }

  function Replay(w: World, trace: seq<Op>): Ledger {
    if trace == [] then Ledger(true, Some(Load), [], Blank, Blank)
    else Account(w, Replay(w, trace[..|trace| - 1]), trace[|trace| - 1])
  }

  lemma ReplayAppend(w: World, trace: seq<Op>, op: Op)
    ensures Replay(w, trace + [op]) == Account(w, Replay(w, trace), op)
  {
    assert (trace + [op])[..|trace|] == trace;
  }

  // ---- The engine ----------------------------------------------------------------------------------

  datatype Outcome = Fine | Raised {
    predicate IsFailure() { Raised? }
    function PropagateFailure(): Outcome { this }
  }

  class Engine {
    var trace: seq<Op>
    var states: seq<State>       // states recorded, oldest first
    var note: Reason
    var reason: Reason           // recorded with completion
    ghost var next: Option<Op>   // what the control flow allows next

    ghost predicate Valid(w: World) reads this {
      Replay(w, trace) == Ledger(true, next, states, note, reason)
    }

    constructor ()
      ensures trace == [] && states == [] && note == Blank && reason == Blank && next == Some(Load)
    {
      trace, states, note, reason := [], [], Blank, Blank;
      next := Some(Load);
    }

    method Do(w: World, op: Op) returns (r: Outcome)
      requires Valid(w) && next == Some(op)
      modifies this
      ensures Valid(w)
      ensures r == (if w.raises(op) then Raised else Fine)
      ensures next == if r.Raised? then Handler(op) else Onward(w, op)
    {
      ReplayAppend(w, trace, op);
      trace, next := trace + [op], NextOp(w, op);
      states := states + Commits(w, op);
      if op == Enter(Completed) && !w.raises(op) {
        reason := ReasonFor(w.jobs, note);
      }
      if op == Work(Executing) {
        note := w.note;
      }
      r := if w.raises(op) then Raised else Fine;
    }

    /** Checkpoints, records and works one phase. */
    method RunPhase(w: World, s: State) returns (r: Outcome)
      requires Valid(w) && next == Some(Checkpoint(s)) && 1 <= Index(s) <= 7
      modifies this
      ensures Valid(w)
      ensures r.Fine? ==> next == Onward(w, Work(s))
      ensures r.Raised? ==> next == Some(MarkFailed(true))
    {
      r := Fine;
      :- Do(w, Checkpoint(s));
      :- Do(w, Enter(s));
      r := Do(w, Work(s));
    }

    method FinishCancelled(w: World, s: State) returns (r: Outcome)
      requires Valid(w) && next == Some(RecordCancelled(s))
      modifies this
      ensures Valid(w)
      ensures r.Raised? ==> next == Handler(AuditCancelled(s))
      ensures r.Fine? ==> next == if ClientOpen(s) then Some(CloseClient(false)) else None
    {
      r := Fine;
      :- Do(w, RecordCancelled(s));
      r := Do(w, AuditCancelled(s));
    }

    /** Looks at the cancellation flag and finishes the run if it is set. */
    method AskCancellation(w: World, s: State) returns (r: Outcome, cancelled: bool)
      requires Valid(w) && next == Some(AskCancelled(s))
      modifies this
      ensures Valid(w)
      ensures r.Raised? ==> next == Handler(AskCancelled(s))
      ensures r.Fine? && cancelled ==> next == if ClientOpen(s) then Some(CloseClient(false)) else None
      ensures r.Fine? && !cancelled ==> next == Some(if ClientOpen(s) then Checkpoint(PhaseAfter(s)) else MakeGuard)
    {
      cancelled := false;
      r := Do(w, AskCancelled(s));
      if r.Fine? && w.cancelled(s) {
        cancelled := true;
        r := FinishCancelled(w, s);
      }
    }

    /** A phase that is followed by a look at the cancellation flag. */
    method RunCancellablePhase(w: World, s: State) returns (r: Outcome, cancelled: bool)
      requires Valid(w) && next == Some(Checkpoint(s)) && 1 <= Index(s) <= 4
      modifies this
      ensures Valid(w)
      ensures r.Fine? && !cancelled ==> next == Some(Checkpoint(PhaseAfter(s)))
      ensures r.Fine? && cancelled ==> next == Some(CloseClient(false))
      ensures r.Raised? ==> next == Some(MarkFailed(true))
    {
      cancelled := false;
      r := RunPhase(w, s);
      if r.Fine? {
        r, cancelled := AskCancellation(w, s);
      }
    }

    /** From discovery to the end of planning. */
    method Prepare(w: World) returns (r: Outcome, cancelled: bool)
      requires Valid(w) && next == Some(Checkpoint(Discovering))
      modifies this
      ensures Valid(w)
      ensures r.Raised? ==> next == Some(MarkFailed(true))
      ensures r.Fine? ==> next == Some(if cancelled then CloseClient(false) else Checkpoint(PolicyCheck))
    {
      r, cancelled := RunCancellablePhase(w, Discovering);
      if r.Fine? && !cancelled {
        r, cancelled := RunCancellablePhase(w, Planning);
      }
    }

    /** From the policy check to the end of execution. */
    method Probe(w: World) returns (r: Outcome, cancelled: bool)
      requires Valid(w) && next == Some(Checkpoint(PolicyCheck))
      modifies this
      ensures Valid(w)
      ensures r.Raised? ==> next == Some(MarkFailed(true))
      ensures r.Fine? ==> next == Some(if cancelled then CloseClient(false) else Checkpoint(Validating))
    {
      r, cancelled := RunCancellablePhase(w, PolicyCheck);
      if r.Fine? && !cancelled {
        r, cancelled := RunCancellablePhase(w, Executing);
      }
    }

    /** From validation to completion: nothing asks about cancellation any more. */
    method Conclude(w: World) returns (r: Outcome)
      requires Valid(w) && next == Some(Checkpoint(Validating))
      modifies this
      ensures Valid(w)
      ensures next == Some(if r.Raised? then MarkFailed(true) else CloseClient(false))
    {
      r := Fine;
      :- RunPhase(w, Validating);
      :- RunPhase(w, Scoring);
      :- RunPhase(w, Reporting);
      r := Do(w, Enter(Completed));
    }

    /** The part of the run that its own exception handlers cover. */
    method RunPhases(w: World) returns (r: Outcome)
      requires Valid(w) && next == Some(Checkpoint(Discovering))
      modifies this
      ensures Valid(w)
      ensures next == Some(if r.Raised? then MarkFailed(true) else CloseClient(false))
    {
      var cancelled;
      r, cancelled := Prepare(w);
      if r.Raised? || cancelled {
        return;
      }
      r, cancelled := Probe(w);
      if r.Raised? || cancelled {
        return;
      }
      r := Conclude(w);
    }

    /** Leaves the client; an exception of its own replaces none, or the one on its way. */
    method Close(w: World, raised: bool) returns (r: Outcome)
      requires Valid(w) && next == Some(CloseClient(raised))
      modifies this
      ensures Valid(w)
      ensures next == if r.Fine? then None else Some(SupervisorMarkFailed)
    {
      var closed := Do(w, CloseClient(raised));
      r := if raised then Raised else closed;
    }

    /** The phases, and the failure that ends them recorded. */
    method RunGuarded(w: World) returns (r: Outcome)
      requires Valid(w) && next == Some(Checkpoint(Discovering))
      modifies this
      ensures Valid(w) && next == Some(CloseClient(r.Raised?))
    {
      r := RunPhases(w);
      if r.Raised? {
        r := Do(w, MarkFailed(true));
      }
    }

    /** The run with the client open. */
    method RunWithClient(w: World) returns (r: Outcome)
      requires Valid(w) && next == Some(OpenClient)
      modifies this
      ensures Valid(w)
      ensures next == if r.Fine? then None else Some(SupervisorMarkFailed)
    {
      r := Fine;
      :- Do(w, OpenClient);
      r := RunGuarded(w);
      r := Close(w, r.Raised?);
    }

    /** Up to the first look at the cancellation flag. */
    method Begin(w: World) returns (r: Outcome, on: bool)
      requires Valid(w) && next == Some(Load)
      modifies this
      ensures Valid(w)
      ensures next == if r.Raised? then Some(SupervisorMarkFailed) else if on then Some(MakeGuard) else None
    {
      on := false;
      r := Do(w, Load);
      if r.Raised? || !w.exists_ {
        return;
      }
      r := Do(w, Enter(Authorized));
      if r.Raised? {
        return;
      }
      var cancelled;
      r, cancelled := AskCancellation(w, Authorized);
      on := !cancelled;
    }

    method RunInner(w: World) returns (r: Outcome)
      requires Valid(w) && next == Some(Load)
      modifies this
      ensures Valid(w)
      ensures next == if r.Fine? then None else Some(SupervisorMarkFailed)
    {
      var on;
      r, on := Begin(w);
      if r.Raised? || !on {
        return;
      }
      :- Do(w, MakeGuard);
      :- Do(w, CheckRecord);
      if !w.recordUsable {
        r := Do(w, MarkFailed(false));
        return;
      }
      r := RunWithClient(w);
    }

    /** A whole supervised run: one operation leads to the next until the run is over. */
    method Supervise(w: World)
      requires trace == [] && states == [] && note == Blank && reason == Blank && next == Some(Load)
      modifies this
      ensures Replay(w, trace) == Ledger(true, None, states, note, reason)
    {
      var r := RunInner(w);
      if r.Raised? {
        var _ := Do(w, SupervisorMarkFailed);
      }
    }
  }

  // ---- Every run, seen from the states it records --------------------------------------------------

  lemma PhaseAt(s: State)
    ensures Index(s) < 8 ==> PHASES[Index(s)] == s && PHASES[..Index(s)] + [s] == PHASES[..Index(s) + 1]
    ensures Index(PhaseAfter(s)) == if Index(s) < 8 then Index(s) + 1 else 8
  {
  }

  /** No cancellation was requested at the first m points where the run asks. */
  ghost predicate Uncancelled(w: World, m: nat) {
    forall s: State :: Index(s) < m && Index(s) <= 4 ==> !w.cancelled(s)
  }

  /** The recorded states are the first n phases, then the ending: nothing, or one terminal
   *  state and after it only failures. Completion comes after all phases; cancellation at the
   *  first of the five points that finds it requested, and never after execution. */
  ghost predicate Shaped(w: World, states: seq<State>, n: nat, ending: seq<State>) {
    n <= 8 && states == PHASES[..n] + ending && Uncancelled(w, n - (if n > 0 then 1 else 0)) &&
    (forall k :: 1 <= k < |ending| ==> ending[k] == Failed) &&
    (ending != [] ==> Terminal(ending[0])) &&
    (ending != [] && ending[0] == Completed ==> n == 8) &&
    (ending != [] && ending[0] == Cancelled ==> 1 <= n <= 5 && w.cancelled(PHASES[n - 1]))
  }

  /** Operations on the way through the phases. */
  predicate OnTheWay(op: Op) {
    match op
    case Load => true
    case MakeGuard => true
    case CheckRecord => true
    case OpenClient => true
    case Checkpoint(s) => 1 <= Index(s) <= 7
    case Enter(s) => Index(s) <= 7 || s == Completed
    case Work(s) => 1 <= Index(s) <= 7
    case AskCancelled(s) => Index(s) <= 4
    case RecordCancelled(s) => Index(s) <= 4
    case _ => false
  }

  /** How many points at which the run asks about cancellation lie behind the operation. */
  function Asked(op: Op): nat
    requires OnTheWay(op)
  {
    match op
    case Load => 0
    case Checkpoint(s) => Index(s)
    case Enter(s) => Index(s)
    case Work(s) => Index(s)
    case AskCancelled(s) => Index(s)
    case RecordCancelled(s) => Index(s)
    case _ => 1
  }

  /** How many phases are recorded before the operation. */
  function Entered(op: Op): nat
    requires OnTheWay(op)
  {
    Asked(op) + if op.Work? || op.AskCancelled? || op.RecordCancelled? then 1 else 0
  }

  /** Recording a failure always succeeds. */
  ghost predicate FailuresRecorded(w: World) {
    !w.raises(MarkFailed(false)) && !w.raises(MarkFailed(true)) && !w.raises(SupervisorMarkFailed)
  }

  predicate CleanUp(op: Op) { op.AuditCancelled? || op.CloseClient? }

  /** How many operations of the run failed that come after a terminal state: the audit of a
   *  cancellation and closing the client. */
  function LateFailures(w: World, trace: seq<Op>): nat {
    if trace == [] then 0
    else
      var op := trace[|trace| - 1];
      LateFailures(w, trace[..|trace| - 1]) + if CleanUp(op) && w.raises(op) then 1 else 0
  }

  /** The invariant of a run: what is recorded, given what comes next. */
  ghost predicate Stage(w: World, l: Ledger, n: nat, ending: seq<State>, late: nat) {
    Shaped(w, l.states, n, ending) &&
    match l.next
    case None =>
      if w.raises(Load) || w.exists_ then FailuresRecorded(w) ==> |ending| == 1 + late else l.states == []
    case Some(op) =>
      (w.raises(Load) || w.exists_ || op == Load) &&
      match op
      case AuditCancelled(s) => ending == [Cancelled] && late == 0
      case MarkFailed(_) => FailuresRecorded(w) ==> |ending| == late
      case SupervisorMarkFailed => FailuresRecorded(w) ==> |ending| == late
      case CloseClient(raising) => FailuresRecorded(w) ==> !raising && |ending| == 1 + late
      case _ =>
        ending == [] && late == 0 && OnTheWay(op) && n == Entered(op) && Uncancelled(w, Asked(op)) &&
        (op.RecordCancelled? ==> w.cancelled(op.s))
  }

  /** Entering a phase, or completing. */
  lemma EnteringKeepsStage(w: World, l: Ledger, s: State) returns (n: nat, ending: seq<State>)
    requires Stage(w, l, Index(s), [], 0) && l.next == Some(Enter(s)) && OnTheWay(Enter(s)) && !w.raises(Enter(s))
    ensures Stage(w, Account(w, l, Enter(s)), n, ending, 0)
  {
    PhaseAt(s);
    n, ending := if s == Completed then 8 else Index(s) + 1, if s == Completed then [Completed] else [];
    assert l.states == PHASES[..Index(s)];
    assert l.states + [s] == PHASES[..n] + ending;
  }

  lemma CancellingKeepsStage(w: World, l: Ledger, s: State)
    requires Stage(w, l, Index(s) + 1, [], 0) && l.next == Some(RecordCancelled(s)) && OnTheWay(l.next.value)
    requires !w.raises(RecordCancelled(s))
    ensures Stage(w, Account(w, l, RecordCancelled(s)), Index(s) + 1, [Cancelled], 0)
  {
    PhaseAt(s);
    assert l.states + [Cancelled] == PHASES[..Index(s) + 1] + [Cancelled];
  }

  predicate Quiet(op: Op) { !op.Enter? && !op.RecordCancelled? && OnTheWay(op) }

  /** A successful step on the way that records nothing leads to another one, unless there is
   *  nothing to run or the record is unusable. */
  lemma QuietStepLeadsOn(w: World, op: Op)
    requires Quiet(op) && !w.raises(op) && Uncancelled(w, Asked(op))
    ensures Commits(w, op) == []
    ensures match Onward(w, op)
            case None => op == Load && !w.exists_
            case Some(MarkFailed(_)) => true
            case Some(next) =>
              OnTheWay(next) && Entered(next) == Entered(op) && Uncancelled(w, Asked(next)) &&
              (next.RecordCancelled? ==> w.cancelled(next.s))
  {
    match op
    case Work(s) => PhaseAt(s);
    case AskCancelled(s) => PhaseAt(s);
    case _ =>
  }

  lemma QuietStepKeepsStage(w: World, l: Ledger, op: Op, n: nat)
    requires Stage(w, l, n, [], 0) && l.next == Some(op) && Quiet(op) && !w.raises(op)
    ensures Stage(w, Account(w, l, op), n, [], 0)
  {
    QuietStepLeadsOn(w, op);
    assert l.states + [] == l.states;
    var next := Onward(w, op);
    if next.Some? && !next.value.MarkFailed? {
      assert OnTheWay(next.value);
    }
  }

  /** One step of a run keeps the invariant. */
  lemma StepKeepsStage(w: World, l: Ledger, op: Op, n: nat, ending: seq<State>, late: nat)
    returns (n': nat, ending': seq<State>)
    requires Stage(w, l, n, ending, late) && l.next == Some(op)
    ensures Stage(w, Account(w, l, op), n', ending', late + if CleanUp(op) && w.raises(op) then 1 else 0)
  {
    n', ending' := n, ending;
    if !OnTheWay(op) {
      ending' := LeavingKeepsStage(w, l, op, n, ending, late);
    } else if w.raises(op) {
      RaiseKeepsStage(w, l, op, n);
    } else if Quiet(op) {
      QuietStepKeepsStage(w, l, op, n);
    } else if op.Enter? {
      n', ending' := EnteringKeepsStage(w, l, op.s);
    } else {
      CancellingKeepsStage(w, l, op.s);
      ending' := [Cancelled];
    }
  }

  /** A step on the way that raises. */
  lemma RaiseKeepsStage(w: World, l: Ledger, op: Op, n: nat)
    requires Stage(w, l, n, [], 0) && l.next == Some(op) && OnTheWay(op) && w.raises(op)
    ensures Stage(w, Account(w, l, op), n, [], 0)
  {
  }

  /** A step on the way out. */
  lemma LeavingKeepsStage(w: World, l: Ledger, op: Op, n: nat, ending: seq<State>, late: nat) returns (ending': seq<State>)
    requires Stage(w, l, n, ending, late) && l.next == Some(op) && !OnTheWay(op)
    ensures Stage(w, Account(w, l, op), n, ending', late + if CleanUp(op) && w.raises(op) then 1 else 0)
  {
    ending' := ending + Commits(w, op);
    assert l.states + Commits(w, op) == PHASES[..n] + ending';
  }

  lemma {:induction false} RunIsStaged(w: World, trace: seq<Op>) returns (n: nat, ending: seq<State>)
    requires Replay(w, trace).legal
    ensures Stage(w, Replay(w, trace), n, ending, LateFailures(w, trace))
    decreases |trace|
  {
    n, ending := 0, [];
    if trace != [] {
      var before, op := trace[..|trace| - 1], trace[|trace| - 1];
      n, ending := RunIsStaged(w, before);
      n, ending := StepKeepsStage(w, Replay(w, before), op, n, ending, LateFailures(w, before));
    }
  }

  // ---- Main results ------------------------------------------------------------------------------------

  /** However far a run has come and whatever failed, what it has recorded is a prefix of the
   *  phase order, followed by at most one terminal state and failures after that one. */
  lemma PhasesInOrder(w: World, trace: seq<Op>)
    requires Replay(w, trace).legal
    ensures exists n: nat, ending :: Shaped(w, Replay(w, trace).states, n, ending)
  {
    var n, ending := RunIsStaged(w, trace);
  }

  /** The last state recorded is terminal, and no other is. */
  predicate OneTerminal(states: seq<State>) {
    states != [] && Terminal(states[|states| - 1]) && forall k :: 0 <= k < |states| - 1 ==> !Terminal(states[k])
  }

  lemma ShapedTerminals(w: World, states: seq<State>, n: nat, ending: seq<State>)
    requires Shaped(w, states, n, ending) && ending != []
    ensures OneTerminal(states) <==> |ending| == 1
  {
    assert forall k :: 0 <= k < n ==> states[k] == PHASES[k] && !Terminal(PHASES[k]);
    assert states[n] == ending[0];
    if |ending| == 1 {
      assert |states| == n + 1;
    }
  }

  /** A finished run of an existing assessment has recorded exactly one terminal state if and
   *  only if neither auditing a cancellation nor closing the client failed. */
  lemma OneTerminalState(w: World, trace: seq<Op>)
    requires Replay(w, trace).legal && Replay(w, trace).next == None
    requires w.exists_ && FailuresRecorded(w)
    ensures OneTerminal(Replay(w, trace).states) <==> LateFailures(w, trace) == 0
  {
    var n, ending := RunIsStaged(w, trace);
    ShapedTerminals(w, Replay(w, trace).states, n, ending);
  }

  lemma RecordedStates(w: World, states: seq<State>, n: nat, ending: seq<State>, s: State)
    requires Shaped(w, states, n, ending)
    ensures s in states && Index(s) < 8 ==> Index(s) < n
    ensures s in states && s in {Completed, Cancelled} ==> ending != [] && ending[0] == s
  {
    if s in states {
      var k :| 0 <= k < |states| && states[k] == s;
      if k < n {
        assert s == PHASES[k];
      } else {
        assert s == ending[k - n];
      }
    }
  }

  /** A cancellation requested at one of the five points where the run asks keeps every later
   *  phase from starting and the run from completing. */
  lemma CancellationStopsTheRun(w: World, trace: seq<Op>, s: State, later: State)
    requires Replay(w, trace).legal
    requires Index(s) <= Index(Executing) && w.cancelled(s)
    requires Index(later) > Index(s) && later !in {Failed, Cancelled}
    ensures later !in Replay(w, trace).states
  {
    var n, ending := RunIsStaged(w, trace);
    ShapedByCancellation(w, Replay(w, trace).states, n, ending, s, later);
  }

  lemma ShapedByCancellation(w: World, states: seq<State>, n: nat, ending: seq<State>, s: State, later: State)
    requires Shaped(w, states, n, ending) && Index(s) <= Index(Executing) && w.cancelled(s)
    requires Index(later) > Index(s) && later !in {Failed, Cancelled}
    ensures later !in states
  {
    RecordedStates(w, states, n, ending, later);
  }

  lemma ShapedAfterValidation(w: World, states: seq<State>, n: nat, ending: seq<State>)
    requires Shaped(w, states, n, ending) && Validating in states
    ensures Cancelled !in states
    ensures |ending| == 1 ==> states[|states| - 1] in {Completed, Failed}
  {
    RecordedStates(w, states, n, ending, Validating);
    RecordedStates(w, states, n, ending, Cancelled);
    if |ending| == 1 {
      assert states[|states| - 1] == ending[0];
    }
  }

  /** Once validation is recorded the run can only complete or fail: it does not look at the
   *  cancellation flag again. */
  lemma NoCancellationAfterValidation(w: World, trace: seq<Op>)
    requires Replay(w, trace).legal && Validating in Replay(w, trace).states
    ensures Cancelled !in Replay(w, trace).states
    ensures var states := Replay(w, trace).states;
            Replay(w, trace).next == None && w.exists_ && FailuresRecorded(w) && LateFailures(w, trace) == 0 ==>
              states[|states| - 1] in {Completed, Failed}
  {
    var n, ending := RunIsStaged(w, trace);
    ShapedAfterValidation(w, Replay(w, trace).states, n, ending);
  }

  predicate AfterExecution(op: Op) {
    OnTheWay(op) && (op == AskCancelled(Executing) || op == RecordCancelled(Executing) || Asked(op) > Index(Executing))
  }

  lemma NoteStep(w: World, l: Ledger, op: Op)
    requires AfterExecution(op) ==> l.note == w.note
    requires Completed in l.states ==> l.reason == ReasonFor(w.jobs, w.note)
    requires OnTheWay(op) || !(op.AskCancelled? || op.Work? || op.Checkpoint? || op.Enter? || op.RecordCancelled?)
    ensures var l' := Account(w, l, op);
            (l'.next.Some? && AfterExecution(l'.next.value) ==> l'.note == w.note) &&
            (Completed in l'.states ==> l'.reason == ReasonFor(w.jobs, w.note))
  {
  }

  lemma {:induction false} NoteIsFromExecution(w: World, trace: seq<Op>)
    requires Replay(w, trace).legal
    ensures var l := Replay(w, trace);
            (l.next.Some? && AfterExecution(l.next.value) ==> l.note == w.note) &&
            (Completed in l.states ==> l.reason == ReasonFor(w.jobs, w.note))
    decreases |trace|
  {
    if trace != [] {
      var before, op := trace[..|trace| - 1], trace[|trace| - 1];
      NoteIsFromExecution(w, before);
      var n, ending := RunIsStaged(w, before);
      NoteStep(w, Replay(w, before), op);
    }
  }

  /** The completion reason of a completed run is `executed` if and only if at least one job
   *  exists and execution was not cut short. */
  lemma ExecutedMeansJobsRan(w: World, trace: seq<Op>)
    requires Replay(w, trace).legal && Completed in Replay(w, trace).states
    requires w.note != Executed
    ensures Replay(w, trace).reason == Executed <==> w.jobs > 0 && !w.note.Partial?
  {
    NoteIsFromExecution(w, trace);
  }

  /** The reason recorded with completion: why nothing ran, that execution was cut short, or that it
   *  ran. */
  lemma CompletionReason(w: World, trace: seq<Op>)
    requires Replay(w, trace).legal && Completed in Replay(w, trace).states
    ensures var reason := Replay(w, trace).reason;
            (w.jobs == 0 && w.note == Blank ==> reason == NoExecution("no_jobs")) &&
            (w.jobs == 0 && w.note != Blank ==> reason == w.note) &&
            (w.jobs > 0 && w.note.Partial? ==> reason == w.note) &&
            (w.jobs > 0 && !w.note.Partial? ==> reason == Executed)
  {
    NoteIsFromExecution(w, trace);
  }
}
