/** The policy phase as it runs: one transaction over the planned steps, then a bounded wait
 *  for the operator's decisions on the steps it held.
 */
module PolicyPhase {
  import opened Prelude
  import opened Scope
  import opened Checks
  import opened Approvals
  import opened PolicyTerms

  // ---- The gate ------------------------------------------------------------------------------

  /** The given steps whose status is `status`, in order. */
  function IdsWith(rows: map<nat, Row>, ids: seq<nat>, status: Status): seq<nat>
    requires forall id :: id in ids ==> id in rows
  {
    if ids == [] then []
    else if rows[ids[0]].status == status then [ids[0]] + IdsWith(rows, ids[1..], status)
    else IdsWith(rows, ids[1..], status)
  }

  lemma {:induction false} IdsWithAppend(rows: map<nat, Row>, ids: seq<nat>, id: nat, status: Status)
    requires (forall i :: i in ids ==> i in rows) && id in rows
    ensures forall i :: i in ids + [id] ==> i in rows
    ensures IdsWith(rows, ids + [id], status) ==
            if rows[id].status == status then IdsWith(rows, ids, status) + [id] else IdsWith(rows, ids, status)
    decreases |ids|
  {
    if ids == [] {
      assert (ids + [id])[0] == id && (ids + [id])[1..] == [];
    } else {
      assert (ids + [id])[0] == ids[0];
      assert (ids + [id])[1..] == ids[1..] + [id];
      IdsWithAppend(rows, ids[1..], id, status);
    }
  }

  /** What is left of `all` when some elements are taken out. */
  predicate Sublist(some: seq<nat>, all: seq<nat>) {
    some == [] ||
    (all != [] && (Sublist(some, all[1..]) || (some[0] == all[0] && Sublist(some[1..], all[1..]))))
  }

  function Times(ids: seq<nat>, id: nat): nat { multiset(ids)[id] }

  /** These are the listed steps of that status, as often as they are listed and in their order. */
  lemma {:induction false} IdsWithExactly(rows: map<nat, Row>, ids: seq<nat>, status: Status)
    requires forall id :: id in ids ==> id in rows
    ensures Sublist(IdsWith(rows, ids, status), ids)
    ensures forall id :: id in rows ==>
      Times(IdsWith(rows, ids, status), id) == if rows[id].status == status then Times(ids, id) else 0
    decreases |ids|
  {
    if ids != [] {
      IdsWithExactly(rows, ids[1..], status);
      assert ids == [ids[0]] + ids[1..];
    }
  }

  lemma {:induction false} GateEventsAppend(cfg: Config, rows: map<nat, Row>, ids: seq<nat>, id: nat, declaratives: seq<Check>)
    requires (forall i :: i in ids ==> i in rows) && id in rows
    ensures forall i :: i in ids + [id] ==> i in rows
    ensures GateEvents(cfg, rows, ids + [id], declaratives) ==
            GateEvents(cfg, rows, ids, declaratives) + GateEvents(cfg, rows, [id], declaratives)
    decreases |ids|
  {
    if ids == [] {
      assert ids + [id] == [id];
    } else {
      assert (ids + [id])[1..] == ids[1..] + [id];
      GateEventsAppend(cfg, rows, ids[1..], id, declaratives);
    }
  }

  /** The stored steps of one assessment with the history of what was decided about them. */
  class StepTable {
    var rows: map<nat, Row>
    var log: seq<Event>

    constructor (rows: map<nat, Row>)
      ensures this.rows == rows && log == []
    {
      this.rows := rows;
      log := [];
    }

    /** Gates one step. */
    method EvaluateStep(cfg: Config, id: nat, declaratives: seq<Check>) returns (status: Status)
      requires id in rows
      modifies this
      ensures rows == old(rows)[id := old(rows)[id].(status := status)]
      ensures status == StatusAfter(cfg, old(rows)[id], declaratives)
      ensures log == old(log) + GateEvents(cfg, old(rows), [id], declaratives)
    {
      var row := rows[id];
      var resolved := Resolve(row.name, row.checkClass, declaratives);
      assert [id][1..] == [];
      if resolved.None? {
        status := Skipped;
      } else {
        var check := resolved.value;
        var decision := Gate(cfg.record, row.checkClass, check);
        log := log + [Gated(id, row.checkClass, check, decision)];
        if decision != Scope.Ok {
          status := Refused;
        } else if cfg.approvalRequired && check.NeedsApproval() {
          status := Awaiting;
        } else {
          status := Approved;
        }
      }
      rows := rows[id := row.(status := status)];
    }

    /** Gates one more step and files its id. */
    method EvaluateNext(cfg: Config, declaratives: seq<Check>, ids: seq<nat>, i: nat, allowed: seq<nat>, held: seq<nat>,
                        ghost start: Transaction)
      returns (allowed': seq<nat>, held': seq<nat>)
      requires i < |ids| && ids[i] in rows && start.final == GateRows(cfg, start.was, ids, declaratives)
      requires start.(done := ids[..i]).At(cfg, declaratives, rows, log, allowed, held)
      modifies this
      ensures start.(done := ids[..i + 1]).At(cfg, declaratives, rows, log, allowed', held')
    {
      start.OneMore(cfg, declaratives, rows, log, allowed, held, ids, i, StatusAfter(cfg, rows[ids[i]], declaratives),
                    GateEvents(cfg, rows, [ids[i]], declaratives));
      var status := EvaluateStep(cfg, ids[i], declaratives);
      allowed', held' := allowed, held;
      if status == Approved {
        allowed' := allowed + [ids[i]];
      } else if status == Awaiting {
        held' := held + [ids[i]];
      }
    }

    /** Gates the given steps one by one, up to the first that is missing. */
    method EvaluateAll(cfg: Config, ids: seq<nat>, declaratives: seq<Check>, ghost start: Transaction)
      returns (found: bool, allowed: seq<nat>, held: seq<nat>)
      requires start == Transaction(rows, log, GateRows(cfg, rows, ids, declaratives), [])
      modifies this
      ensures found <==> forall id :: id in ids ==> id in start.was
      ensures found ==> start.(done := ids).At(cfg, declaratives, rows, log, allowed, held)
    {
      found, allowed, held := true, [], [];
      start.Starts(cfg, declaratives);
      var i := 0;
      assert ids[..i] == [];
      while i < |ids|
        invariant i <= |ids|
        invariant start.(done := ids[..i]).At(cfg, declaratives, rows, log, allowed, held)
      {
        start.(done := ids[..i]).SameSteps(cfg, declaratives, rows, log, allowed, held);
        if ids[i] !in rows {
          return false, [], [];
        }
        allowed, held := EvaluateNext(cfg, declaratives, ids, i, allowed, held, start);
        i := i + 1;
      }
      assert ids[..i] == ids;
      start.(done := ids).SameSteps(cfg, declaratives, rows, log, allowed, held);
    }

    /** Gates the given steps in one transaction, which a missing step aborts. The outcome of
     *  each step is its own: no other step and no order plays a part. */
    method EvaluatePolicy(cfg: Config, ids: seq<nat>, declaratives: seq<Check>)
      returns (committed: bool, allowed: seq<nat>, held: seq<nat>)
      modifies this
      ensures committed <==> forall id :: id in ids ==> id in old(rows)
      ensures !committed ==> rows == old(rows) && log == old(log)
      ensures committed ==>
        rows == GateRows(cfg, old(rows), ids, declaratives) &&
        log == old(log) + GateEvents(cfg, old(rows), ids, declaratives) &&
        allowed == IdsWith(rows, ids, Approved) && held == IdsWith(rows, ids, Awaiting)
      // What became of each step, in the words of the record and of the check it means.
      ensures committed ==> AllJudged(cfg, old(rows), rows, ids, declaratives)
      ensures committed ==> EventsTell(cfg, old(rows), log[|old(log)|..], ids, declaratives)
    {
      var savedRows, savedLog := rows, log;
      committed, allowed, held := EvaluateAll(cfg, ids, declaratives, Transaction(rows, log, GateRows(cfg, rows, ids, declaratives), []));
      if !committed {
        rows, log := savedRows, savedLog;
      } else {
        GatedRowsAreJudged(cfg, savedRows, ids, declaratives);
        GateEventsTell(cfg, savedRows, ids, declaratives);
        assert log[|savedLog|..] == GateEvents(cfg, savedRows, ids, declaratives);
      }
    }
  }

  /** The listed steps have a status that fits, and nothing else has changed. */
  ghost predicate AllJudged(cfg: Config, was: map<nat, Row>, rows: map<nat, Row>, ids: seq<nat>, declaratives: seq<Check>) {
    rows.Keys == was.Keys &&
    forall id :: id in was ==>
      if id in ids then rows[id].name == was[id].name && rows[id].checkClass == was[id].checkClass &&
                        Judged(cfg, was[id], declaratives, rows[id].status)
      else rows[id] == was[id]
  }

  lemma GatedRowsAreJudged(cfg: Config, was: map<nat, Row>, ids: seq<nat>, declaratives: seq<Check>)
    ensures AllJudged(cfg, was, GateRows(cfg, was, ids, declaratives), ids, declaratives)
  {
    forall id | id in was && id in ids
      ensures Judged(cfg, was[id], declaratives, GateRows(cfg, was, ids, declaratives)[id].status)
    {
      StatusIsJudged(cfg, was[id], declaratives);
    }
  }

  /** The event is about a listed step and the check that it means, and permits it exactly if it is
   *  within the record. */
  ghost predicate EventTells(cfg: Config, was: map<nat, Row>, e: Event, id: nat, declaratives: seq<Check>) {
    e.Gated? && e.id == id && id in was && e.checkClass == was[id].checkClass && Means(was[id], declaratives, e.check) &&
    (e.decision == Ok <==> WithinRecord(cfg.record, e.checkClass, e.check))
  }

  /** One event for every listed step that means a check, in order. */
  ghost predicate EventsTell(cfg: Config, was: map<nat, Row>, events: seq<Event>, ids: seq<nat>, declaratives: seq<Check>)
    decreases |ids|
  {
    if ids == [] then events == []
    else if ids[0] in was && MeansNothing(was[ids[0]], declaratives) then EventsTell(cfg, was, events, ids[1..], declaratives)
    else events != [] && EventTells(cfg, was, events[0], ids[0], declaratives) &&
         EventsTell(cfg, was, events[1..], ids[1..], declaratives)
  }

  lemma {:induction false} GateEventsTell(cfg: Config, was: map<nat, Row>, ids: seq<nat>, declaratives: seq<Check>)
    requires forall id :: id in ids ==> id in was
    ensures EventsTell(cfg, was, GateEvents(cfg, was, ids, declaratives), ids, declaratives)
    decreases |ids|
  {
    if ids != [] {
      var row := was[ids[0]];
      GateEventsTell(cfg, was, ids[1..], declaratives);
      ResolveExactly(BUILTINS, row, declaratives);
      var found := Resolve(row.name, row.checkClass, declaratives);
      if found.Some? {
        MeansOne(row, declaratives, found.value, found.value);
        GateExactly(cfg.record, row.checkClass, found.value);
        assert GateEvents(cfg, was, ids, declaratives)[1..] == GateEvents(cfg, was, ids[1..], declaratives);
      }
    }
  }

  /** A transaction of the gate: what it found, what it will leave, and the steps it has done. */
  datatype Transaction = Transaction(was: map<nat, Row>, before: seq<Event>, final: map<nat, Row>, done: seq<nat>) {
    /** The step table, its history and the two lists at this point of the transaction. */
    ghost predicate At(cfg: Config, declaratives: seq<Check>, rows: map<nat, Row>, log: seq<Event>, allowed: seq<nat>, held: seq<nat>) {
      RowsDone(cfg, was, done, declaratives, rows) &&
      log == before + GateEvents(cfg, was, done, declaratives) &&
      Sorted(final, done, allowed, held)
    }

    lemma Starts(cfg: Config, declaratives: seq<Check>)
      ensures this.(done := []).At(cfg, declaratives, was, before, [], [])
    {
    }

    lemma SameSteps(cfg: Config, declaratives: seq<Check>, rows: map<nat, Row>, log: seq<Event>, allowed: seq<nat>, held: seq<nat>)
      requires At(cfg, declaratives, rows, log, allowed, held)
      ensures rows.Keys == was.Keys && forall id :: id in done ==> id in was
    {
    }

    /** Step i joins the steps done. */
    lemma OneMore(cfg: Config, declaratives: seq<Check>, rows: map<nat, Row>, log: seq<Event>, allowed: seq<nat>, held: seq<nat>,
                  ids: seq<nat>, i: nat, status: Status, events: seq<Event>)
      requires i < |ids| && ids[i] in rows && final == GateRows(cfg, was, ids, declaratives)
      requires this.(done := ids[..i]).At(cfg, declaratives, rows, log, allowed, held)
      requires status == StatusAfter(cfg, rows[ids[i]], declaratives)
      requires events == GateEvents(cfg, rows, [ids[i]], declaratives)
      ensures this.(done := ids[..i + 1]).At(cfg, declaratives, rows[ids[i] := rows[ids[i]].(status := status)], log + events,
                if status == Approved then allowed + [ids[i]] else allowed,
                if status == Awaiting then held + [ids[i]] else held)
    {
      var t := this.(done := ids[..i]);
      t.SameSteps(cfg, declaratives, rows, log, allowed, held);
      FinalStatus(cfg, was, ids, i, declaratives);
      t.Joins(cfg, declaratives, rows, log, allowed, held, ids[i], status, events);
      assert ids[..i + 1] == ids[..i] + [ids[i]];
    }

    lemma Joins(cfg: Config, declaratives: seq<Check>, rows: map<nat, Row>, log: seq<Event>, allowed: seq<nat>, held: seq<nat>,
                id: nat, status: Status, events: seq<Event>)
      requires At(cfg, declaratives, rows, log, allowed, held)
      requires id in rows && id in was && id in final && final[id].status == StatusAfter(cfg, was[id], declaratives)
      requires status == StatusAfter(cfg, rows[id], declaratives) && events == GateEvents(cfg, rows, [id], declaratives)
      ensures this.(done := done + [id]).At(cfg, declaratives, rows[id := rows[id].(status := status)], log + events,
                if status == Approved then allowed + [id] else allowed,
                if status == Awaiting then held + [id] else held)
    {
      OneMoreDone(cfg, was, done, id, declaratives, rows, status, events);
      OneMoreSorted(final, done, id, allowed, held, status);
      Associate(before, GateEvents(cfg, was, done, declaratives), events);
    }
  }

  lemma Associate(a: seq<Event>, b: seq<Event>, c: seq<Event>)
    ensures (a + b) + c == a + (b + c)
  {
  }

  ghost predicate RowsDone(cfg: Config, was: map<nat, Row>, done: seq<nat>, declaratives: seq<Check>, rows: map<nat, Row>) {
    (forall id :: id in done ==> id in was) && rows == GateRows(cfg, was, done, declaratives)
  }

  ghost predicate Sorted(final: map<nat, Row>, done: seq<nat>, allowed: seq<nat>, held: seq<nat>) {
    (forall id :: id in done ==> id in final) &&
    allowed == IdsWith(final, done, Approved) && held == IdsWith(final, done, Awaiting)
  }

  lemma OneMoreDone(cfg: Config, was: map<nat, Row>, done: seq<nat>, id: nat, declaratives: seq<Check>, rows: map<nat, Row>,
                    status: Status, events: seq<Event>)
    requires RowsDone(cfg, was, done, declaratives, rows) && id in rows
    requires status == StatusAfter(cfg, rows[id], declaratives) && events == GateEvents(cfg, rows, [id], declaratives)
    ensures RowsDone(cfg, was, done + [id], declaratives, rows[id := rows[id].(status := status)])
    ensures status == StatusAfter(cfg, was[id], declaratives)
    ensures GateEvents(cfg, was, done + [id], declaratives) == GateEvents(cfg, was, done, declaratives) + events
  {
    SameVerdict(cfg, was, done, id, declaratives);
    GateEventsAppend(cfg, was, done, id, declaratives);
  }

  lemma OneMoreSorted(final: map<nat, Row>, done: seq<nat>, id: nat, allowed: seq<nat>, held: seq<nat>, status: Status)
    requires Sorted(final, done, allowed, held) && id in final && final[id].status == status
    ensures Sorted(final, done + [id], if status == Approved then allowed + [id] else allowed,
                   if status == Awaiting then held + [id] else held)
  {
    IdsWithAppend(final, done, id, Approved);
    IdsWithAppend(final, done, id, Awaiting);
  }

  lemma FinalStatus(cfg: Config, was: map<nat, Row>, ids: seq<nat>, i: nat, declaratives: seq<Check>)
    requires i < |ids| && ids[i] in was
    ensures ids[i] in GateRows(cfg, was, ids, declaratives)
    ensures GateRows(cfg, was, ids, declaratives)[ids[i]].status == StatusAfter(cfg, was[ids[i]], declaratives)
  {
    assert ids[i] in ids;
  }

  /** Gating a step does not depend on which steps were gated before it, nor on gating it twice. */
  lemma SameVerdict(cfg: Config, rows: map<nat, Row>, done: seq<nat>, id: nat, declaratives: seq<Check>)
    requires id in rows
    ensures var half := GateRows(cfg, rows, done, declaratives);
            StatusAfter(cfg, half[id], declaratives) == StatusAfter(cfg, rows[id], declaratives) &&
            GateEvents(cfg, half, [id], declaratives) == GateEvents(cfg, rows, [id], declaratives) &&
            half[id := half[id].(status := StatusAfter(cfg, half[id], declaratives))] ==
            GateRows(cfg, rows, done + [id], declaratives)
  {
    assert [id][1..] == [];
  }

  // ---- The wait --------------------------------------------------------------------------------

  /** What one poll of the step table reads, and whether the wait is over after it: the
   *  deadline has passed or the assessment is cancelled. */
  datatype Poll = Poll(statuses: map<nat, Status>, over: bool)

  /** What the first poll that finds the step decided reads. */
  function FirstDecision(polls: seq<Poll>, id: nat): Option<Status> {
    if polls == [] then None
    else if id in polls[0].statuses && polls[0].statuses[id] in {Approved, Refused, Skipped}
    then Some(polls[0].statuses[id])
    else FirstDecision(polls[1..], id)
  }

  lemma {:induction false} FirstDecisionAppend(polls: seq<Poll>, p: Poll, id: nat)
    ensures FirstDecision(polls + [p], id) ==
            if FirstDecision(polls, id).Some? then FirstDecision(polls, id) else FirstDecision([p], id)
    decreases |polls|
  {
    if polls == [] {
      assert polls + [p] == [p];
    } else {
      assert (polls + [p])[1..] == polls[1..] + [p];
      FirstDecisionAppend(polls[1..], p, id);
    }
  }

  lemma DistinctJoin(a: seq<nat>, b: seq<nat>)
    requires Distinct(a) && Distinct(b) && forall id :: id in a ==> id !in b
    ensures Distinct(a + b)
  {
    forall i, j | 0 <= i < j < |a + b|
      ensures (a + b)[i] != (a + b)[j]
    {
      if i < |a| <= j {
        assert a[i] in a && b[j - |a|] in b;
      }
    }
  }

  /** One poll: takes the decided steps off the pending ones, in any order. */
  method TakeDecided(p: Poll, pending: set<nat>) returns (approved: seq<nat>, left: set<nat>)
    ensures Distinct(approved)
    ensures forall id: nat :: id in approved <==> id in pending && FirstDecision([p], id) == Some(Approved)
    ensures left == set id | id in pending && FirstDecision([p], id) == None
  {
    approved, left := [], pending;
    var rows := set id | id in pending && id in p.statuses;
    while rows != {}
      invariant rows <= pending && rows <= p.statuses.Keys
      invariant forall id :: id in pending && id !in rows ==>
        (id in left <==> FirstDecision([p], id) == None) &&
        (id in approved <==> FirstDecision([p], id) == Some(Approved))
      invariant rows <= left <= pending
      invariant forall id :: id in approved ==> id in pending && id !in rows
      invariant Distinct(approved)
      decreases rows
    {
      var id :| id in rows;
      rows := rows - {id};
      if p.statuses[id] == Approved {
        approved, left := approved + [id], left - {id};
      } else if p.statuses[id] in {Refused, Skipped} {
        left := left - {id};
      }
    }
  }

  /** Waits for decisions on the held steps: returns exactly those whose first decision seen is
   *  an approval. It stops at the first poll after which the wait is over, and before that
   *  only when nothing is pending. */
  method AwaitDecisions(heldSteps: set<nat>, polls: seq<Poll>) returns (approved: seq<nat>, used: nat)
    requires polls != [] && polls[|polls| - 1].over
    ensures used <= |polls| && Distinct(approved)
    ensures forall id: nat :: id in approved <==> id in heldSteps && FirstDecision(polls[..used], id) == Some(Approved)
    ensures forall k :: 0 <= k < used - 1 ==> !polls[k].over
    ensures (used == 0 || !polls[used - 1].over) ==> forall id :: id in heldSteps ==> FirstDecision(polls[..used], id).Some?
    ensures used > 0 ==> exists id :: id in heldSteps && FirstDecision(polls[..used - 1], id).None?
  {
    approved, used := [], 0;
    var pending := heldSteps;
    while pending != {}
      invariant used < |polls| && Distinct(approved)
      invariant pending == set id | id in heldSteps && FirstDecision(polls[..used], id) == None
      invariant forall id: nat :: id in approved <==> id in heldSteps && FirstDecision(polls[..used], id) == Some(Approved)
      invariant forall k :: 0 <= k < used ==> !polls[k].over
      invariant used > 0 ==> pending != {}
      decreases |polls| - used
    {
      var p := polls[used];
      var more, left := TakeDecided(p, pending);
      assert polls[..used + 1] == polls[..used] + [p];
      forall id: nat
        ensures FirstDecision(polls[..used + 1], id) ==
                if FirstDecision(polls[..used], id).Some? then FirstDecision(polls[..used], id) else FirstDecision([p], id)
      {
        FirstDecisionAppend(polls[..used], p, id);
      }
      var some :| some in pending;
      assert FirstDecision(polls[..used], some).None?;
      DistinctJoin(approved, more);
      approved, pending, used := approved + more, left, used + 1;
      assert pending == set id | id in heldSteps && FirstDecision(polls[..used], id) == None;
      assert forall id :: id in heldSteps && id !in pending ==> FirstDecision(polls[..used], id).Some?;
      if pending == {} || p.over {
        return;
      }
    }
  }
}
