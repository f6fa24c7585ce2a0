/** The plan steps of one assessment, and everybody who touches them.
 *
 *  Runs (inline or graph), replanning, retries, execution after completion, the operator's
 *  approve and deny, skill registration, crashes and restarts are interleaved at commit
 *  granularity: one action is one committed transaction or one probe. Any number of engine
 *  tasks may be live at once and may start or vanish at any time, which covers every guard
 *  the callers put on starting them.
 */
module Approvals {
  import opened Prelude
  import opened Scope
  import opened Checks

  datatype Status = Planned | Skipped | Refused | Awaiting | Approved | Done | Errored

  /** A stored plan step. Its check name and class never change. */
  datatype Row = Row(name: string, checkClass: string, status: Status)

  /** A detached copy of a step that an engine task holds. */
  datatype Item = Item(id: nat, name: string, checkClass: string)

  /** A step bound to the check it will run. */
  datatype Agent = Agent(id: nat, checkClass: string, check: Check)

  datatype Event =
    | Gated(id: nat, checkClass: string, check: Check, decision: Code)
    | Replanned(id: nat, checkClass: string, check: Check)
    | OperatorApproved(id: nat)
    | OperatorDenied(id: nat)
    | Executed(id: nat, checkClass: string, check: Check)

  /** Where an engine task is. */
  datatype Task =
    | Drafted(drafts: seq<Row>)                                 // plan computed, not yet stored
    | Gating(ids: seq<nat>)                                     // about to evaluate these steps
    | Polling(ready: seq<Item>, pending: set<nat>)              // waiting for held steps
    | Chosen(items: seq<Item>)                                  // about to build agents
    | Running(agents: seq<Agent>, declaratives: seq<Check>)     // probing the target

  /** `requested` are the classes asked for; none means all. `replans`: replanning is switched on. */
  datatype Config = Config(record: AuthRecord, org: string, approvalRequired: bool, requested: set<string>, replans: bool)

  datatype World = World(
    rows: map<nat, Row>,
    nextId: nat,
    snapshot: seq<Spec>,
    skills: seq<SkillRow>,
    tasks: map<nat, Task>,
    log: seq<Event>)

  datatype Persist = Lost | Succeeded | Failed

  datatype Action =
    | Register(skills: seq<SkillRow>)                 // the skill registry changes in any way
    | Plan(task: nat, picks: seq<nat>)                // planning phase, any choice and order of checks
    | WritePlan(task: nat)                            // the planned steps are stored
    | SelectPlanned(task: nat, ids: seq<nat>)         // graph policy node: steps still planned
    | Policy(task: nat)                               // policy phase
    | PollOne(task: nat, id: nat)                     // one held step looked at
    | StopWaiting(task: nat)                          // all decided, deadline, or cancelled
    | SelectApproved(task: nat, ids: seq<nat>)        // graph execute node, or late execution
    | LateBlocked(ids: seq<nat>)                      // late execution found the record unusable
    | BuildAgents(task: nat)
    | Execute(task: nat, agent: nat, persist: Persist)  // also a retry of the same agent
    | Replan(task: nat, classes: seq<string>)
    | Approve(id: nat)
    | Deny(id: nat)
    | Restart                                         // all steps of the interrupted run deleted
    | Vanish(task: nat)                               // the task ends or its process dies

  // ---- Policy ------------------------------------------------------------------------------

  /** A declarative check narrows what the record permits; a built-in carries no such policy. */
  function DeclarativeBlock(check: Check, r: AuthRecord): Code {
    if check.BuiltIn? then Ok
    else if check.spec.stateChanging && !r.allowStateChanging then DeclarativeStateChangeDenied
    else if check.spec.environments != [] && r.environment !in check.spec.environments
    then DeclarativeEnvironmentDenied
    else Ok
  }

  function Gate(r: AuthRecord, checkClass: string, check: Check): Code {
    var d := CheckClassAllowed(r, checkClass, check.Level());
    if d.Allowed() then DeclarativeBlock(check, r) else d.code
  }

  function StatusAfter(cfg: Config, row: Row, declaratives: seq<Check>): Status {
    match Resolve(row.name, row.checkClass, declaratives)
    case None => Skipped
    case Some(check) =>
      if Gate(cfg.record, row.checkClass, check) != Ok then Refused
      else if cfg.approvalRequired && check.NeedsApproval() then Awaiting
      else Approved
  }

  function GateRows(cfg: Config, rows: map<nat, Row>, ids: seq<nat>, declaratives: seq<Check>): map<nat, Row> {
    map id | id in rows :: if id in ids then rows[id].(status := StatusAfter(cfg, rows[id], declaratives)) else rows[id]
  }

  function GateEvents(cfg: Config, rows: map<nat, Row>, ids: seq<nat>, declaratives: seq<Check>): seq<Event>
    requires forall id :: id in ids ==> id in rows
  {
    if ids == [] then []
    else
      var row := rows[ids[0]];
      var rest := GateEvents(cfg, rows, ids[1..], declaratives);
      match Resolve(row.name, row.checkClass, declaratives)
      case None => rest
      case Some(check) => [Gated(ids[0], row.checkClass, check, Gate(cfg.record, row.checkClass, check))] + rest
  }

  function ItemOf(rows: map<nat, Row>, id: nat): Item
    requires id in rows
  {
    Item(id, rows[id].name, rows[id].checkClass)
  }

  /** Copies of those of the given steps that have the given status. */
  function ItemsWith(rows: map<nat, Row>, ids: seq<nat>, status: Status): seq<Item>
    requires forall id :: id in ids ==> id in rows
  {
    if ids == [] then []
    else (if rows[ids[0]].status == status then [ItemOf(rows, ids[0])] else []) +
         ItemsWith(rows, ids[1..], status)
  }

  function AgentsFor(items: seq<Item>, declaratives: seq<Check>): seq<Agent> {
    if items == [] then []
    else
      var rest := AgentsFor(items[1..], declaratives);
      match Resolve(items[0].name, items[0].checkClass, declaratives)
      case None => rest
      case Some(check) => [Agent(items[0].id, items[0].checkClass, check)] + rest
  }

  // ---- Replanning: gaps are closed with the first built-in of their class ---------------------

  predicate ReplanClass(stock: seq<Check>, r: AuthRecord, checkClass: string) {
    var c := FirstOfClass(stock, checkClass);
    checkClass in r.allowedChecks && c.Some? && CheckClassAllowed(r, checkClass, c.value.Level()).Allowed()
  }

  /** The checks that close gaps in the given classes. */
  function Fillers(stock: seq<Check>, r: AuthRecord, classes: seq<string>): (checks: seq<Check>)
    requires forall c :: c in classes ==> ReplanClass(stock, r, c)
    ensures |checks| == |classes|
    ensures forall k :: 0 <= k < |classes| ==> Fits(stock, r, classes[k], checks[k])
  {
    if classes == [] then []
    else
      assert ReplanClass(stock, r, classes[0]);
      [FirstOfClass(stock, classes[0]).value] + Fillers(stock, r, classes[1..])
  }

  /** The check is the first of its class, and the record allows it. */
  predicate Fits(stock: seq<Check>, r: AuthRecord, checkClass: string, check: Check) {
    check in stock && checkClass in r.allowedChecks &&
    FirstOfClass(stock, checkClass) == Some(check) && CheckClassAllowed(r, checkClass, check.Level()).Allowed()
  }

  function ReplanRows(checks: seq<Check>, classes: seq<string>, nextId: nat): (rows: map<nat, Row>)
    requires |checks| == |classes|
  {
    map id: nat {:trigger Offset(id, nextId)} | nextId <= id < nextId + |classes| ::
      Row(checks[Offset(id, nextId)].Name(), classes[Offset(id, nextId)], Approved)
  }

  function Offset(id: nat, nextId: nat): int { id - nextId }

  function ReplanEvents(checks: seq<Check>, classes: seq<string>, nextId: nat): (events: seq<Event>)
    requires |checks| == |classes|
  {
    seq(|classes|, k requires 0 <= k < |classes| => Replanned(nextId + k, classes[k], checks[k]))
  }

  function ReplanItems(checks: seq<Check>, classes: seq<string>, nextId: nat): (items: seq<Item>)
    requires |checks| == |classes|
  {
    seq(|classes|, k requires 0 <= k < |classes| => Item(nextId + k, checks[k].Name(), classes[k]))
  }

  // ---- The step function ------------------------------------------------------------------------

  function Draft(c: Check): Row { Row(c.Name(), c.Class(), Planned) }

  /** The classes a plan is made for: those requested and authorized, or all authorized when
   *  none is requested. */
  function Effective(requested: set<string>, authorized: set<string>): set<string> {
    if requested != {} then requested * authorized else authorized
  }

  lemma SomeOtherClass(requested: set<string>, allowed: set<string>) returns (c: string)
    requires requested != {} && requested * allowed == {}
    ensures c !in requested && (allowed == {} || c in allowed)
  {
    if allowed != {} {
      c :| c in allowed;
      assert c !in requested * allowed;
    } else {
      c := Fresh(requested);
    }
  }

  /** Some string longer than every one of the set. */
  lemma {:induction false} Fresh(strings: set<string>) returns (c: string)
    ensures forall s :: s in strings ==> |s| < |c|
    ensures c !in strings
    decreases strings
  {
    if strings == {} {
      c := "x";
    } else {
      var s :| s in strings;
      var d := Fresh(strings - {s});
      c := d + s + "x";
      assert forall t :: t in strings ==> t == s || t in strings - {s};
    }
  }

  /** The planner's filter of checks; an empty class set filters nothing. Which of the rest become
   *  steps depends on the endpoints. */
  predicate Plannable(cfg: Config, c: Check) {
    var effective := Effective(cfg.requested, cfg.record.allowedChecks);
    (effective == {} || c.Class() in effective) && Rank(c.Level()) <= Rank(CoerceIntensity(cfg.record.intensity))
  }

  // Each function gives the state after one action; an action whose guard does not hold changes
  // nothing.

  function AfterPlan(cfg: Config, w: World, t: nat, picks: seq<nat>): World {
    var f := Declaratives(w.snapshot, w.skills, cfg.org);
    var candidates := BUILTINS + f.checks;
    if t in w.tasks || exists p :: p in picks && (p >= |candidates| || !Plannable(cfg, candidates[p])) then w
    else w.(snapshot := f.snapshot,
            tasks := w.tasks[t := Drafted(seq(|picks|, k requires 0 <= k < |picks| =>
              assert picks[k] in picks; Draft(candidates[picks[k]])))])
  }

  function AfterWritePlan(w: World, t: nat): World {
    if t !in w.tasks || !w.tasks[t].Drafted? then w
    else
      var drafts := w.tasks[t].drafts;
      w.(rows := w.rows + (map id: nat {:trigger Offset(id, w.nextId)} | w.nextId <= id < w.nextId + |drafts| ::
           drafts[Offset(id, w.nextId)]),
         nextId := w.nextId + |drafts|,
         tasks := w.tasks[t := Gating(seq(|drafts|, k => w.nextId + k))])
  }

  function AfterSelectPlanned(w: World, t: nat, ids: seq<nat>): World {
    if t in w.tasks || exists id :: id in ids && !(id in w.rows && w.rows[id].status == Planned) then w
    else w.(tasks := w.tasks[t := Gating(ids)])
  }

  function AfterPolicy(cfg: Config, w: World, t: nat): World {
    if t !in w.tasks || !w.tasks[t].Gating? then w
    else
      var ids := w.tasks[t].ids;
      if exists id :: id in ids && id !in w.rows then w.(tasks := w.tasks - {t})
      else
        var f := Declaratives(w.snapshot, w.skills, cfg.org);
        var rows := GateRows(cfg, w.rows, ids, f.checks);
        w.(rows := rows, snapshot := f.snapshot,
           log := w.log + GateEvents(cfg, w.rows, ids, f.checks),
           tasks := w.tasks[t := Polling(ItemsWith(rows, ids, Approved),
                                         set id | id in ids && rows[id].status == Awaiting)])
  }

  function AfterPollOne(w: World, t: nat, id: nat): World {
    if t !in w.tasks || !w.tasks[t].Polling? || id !in w.tasks[t].pending || id !in w.rows then w
    else
      var ready, pending := w.tasks[t].ready, w.tasks[t].pending - {id};
      var status := w.rows[id].status;
      if status == Approved then w.(tasks := w.tasks[t := Polling(ready + [ItemOf(w.rows, id)], pending)])
      else if status == Refused || status == Skipped then w.(tasks := w.tasks[t := Polling(ready, pending)])
      else w
  }

  function AfterStopWaiting(w: World, t: nat): World {
    if t !in w.tasks || !w.tasks[t].Polling? then w
    else w.(tasks := w.tasks[t := Chosen(w.tasks[t].ready)])
  }

  function AfterSelectApproved(w: World, t: nat, ids: seq<nat>): World {
    if t in w.tasks || exists id :: id in ids && id !in w.rows then w
    else w.(tasks := w.tasks[t := Chosen(ItemsWith(w.rows, ids, Approved))])
  }

  function AfterLateBlocked(w: World, ids: seq<nat>): World {
    w.(rows := map id | id in w.rows :: if id in ids then w.rows[id].(status := Skipped) else w.rows[id])
  }

  function AfterBuildAgents(cfg: Config, w: World, t: nat): World {
    if t !in w.tasks || !w.tasks[t].Chosen? then w
    else if w.tasks[t].items == [] then w.(tasks := w.tasks - {t})
    else
      var f := Declaratives(w.snapshot, w.skills, cfg.org);
      w.(snapshot := f.snapshot,
         tasks := w.tasks[t := Running(AgentsFor(w.tasks[t].items, f.checks), f.checks)])
  }

  function AfterExecute(w: World, t: nat, k: nat, persist: Persist): World {
    if t !in w.tasks || !w.tasks[t].Running? || k >= |w.tasks[t].agents| then w
    else
      var agent := w.tasks[t].agents[k];
      var status := if persist == Failed then Errored else Done;
      w.(log := w.log + [Executed(agent.id, agent.checkClass, agent.check)],
         rows := if persist == Lost || agent.id !in w.rows then w.rows
                 else w.rows[agent.id := w.rows[agent.id].(status := status)])
  }

  /** New steps for the given classes, run with the given checks by task t. */
  function ReplanWith(w: World, t: nat, checks: seq<Check>, classes: seq<string>): World
    requires t in w.tasks && w.tasks[t].Running? && |checks| == |classes|
  {
    var running := w.tasks[t];
    var added := AgentsFor(ReplanItems(checks, classes, w.nextId), running.declaratives);
    w.(rows := w.rows + ReplanRows(checks, classes, w.nextId),
       nextId := w.nextId + |classes|,
       log := w.log + ReplanEvents(checks, classes, w.nextId),
       tasks := w.tasks[t := running.(agents := running.agents + added)])
  }

  function AfterReplan(cfg: Config, w: World, t: nat, classes: seq<string>): World {
    if !cfg.replans || t !in w.tasks || !w.tasks[t].Running? ||
       exists c :: c in classes && !ReplanClass(BUILTINS, cfg.record, c)
    then w
    else ReplanWith(w, t, Fillers(BUILTINS, cfg.record, classes), classes)
  }

  function AfterApprove(w: World, id: nat): World {
    if id !in w.rows || w.rows[id].status != Awaiting then w
    else w.(rows := w.rows[id := w.rows[id].(status := Approved)], log := w.log + [OperatorApproved(id)])
  }

  function AfterDeny(w: World, id: nat): World {
    if id !in w.rows || w.rows[id].status != Awaiting then w
    else w.(rows := w.rows[id := w.rows[id].(status := Refused)], log := w.log + [OperatorDenied(id)])
  }

  function Next(cfg: Config, w: World, a: Action): World {
    match a
    case Register(skills) => w.(skills := skills)
    case Plan(t, picks) => AfterPlan(cfg, w, t, picks)
    case WritePlan(t) => AfterWritePlan(w, t)
    case SelectPlanned(t, ids) => AfterSelectPlanned(w, t, ids)
    case Policy(t) => AfterPolicy(cfg, w, t)
    case PollOne(t, id) => AfterPollOne(w, t, id)
    case StopWaiting(t) => AfterStopWaiting(w, t)
    case SelectApproved(t, ids) => AfterSelectApproved(w, t, ids)
    case LateBlocked(ids) => AfterLateBlocked(w, ids)
    case BuildAgents(t) => AfterBuildAgents(cfg, w, t)
    case Execute(t, k, persist) => AfterExecute(w, t, k, persist)
    case Replan(t, classes) => AfterReplan(cfg, w, t, classes)
    case Approve(id) => AfterApprove(w, id)
    case Deny(id) => AfterDeny(w, id)
    case Restart => w.(rows := map[])
    case Vanish(t) => w.(tasks := w.tasks - {t})
  }

  function Run(cfg: Config, w: World, actions: seq<Action>): World
    decreases |actions|
  {
    if actions == [] then w else Run(cfg, Next(cfg, w, actions[0]), actions[1..])
  }

  function Start(skills: seq<SkillRow>): World {
    World(map[], 0, [], skills, map[], [])
  }

  // ---- The safety property of a history -----------------------------------------------------------

  /** Policy looked at exactly this check for this step and permitted it, or replanning chose it. */
  predicate Permitted(log: seq<Event>, id: nat, checkClass: string, check: Check) {
    Gated(id, checkClass, check, Ok) in log || Replanned(id, checkClass, check) in log
  }

  predicate Vetted(cfg: Config, log: seq<Event>, id: nat, checkClass: string, check: Check) {
    Permitted(log, id, checkClass, check) &&
    (cfg.approvalRequired && check.NeedsApproval() ==> OperatorApproved(id) in log)
  }

  /** An operator is asked only about a step that policy permits and that needs approval. */
  predicate Asked(log: seq<Event>, id: nat) {
    exists e :: e in log && e.Gated? && e.id == id && e.decision == Ok && e.check.NeedsApproval()
  }

  predicate EventJustified(cfg: Config, before: seq<Event>, e: Event) {
    match e
    case Executed(id, checkClass, check) => Vetted(cfg, before, id, checkClass, check)
    case OperatorApproved(id) => Asked(before, id)
    case OperatorDenied(id) => Asked(before, id)
    case Gated(_, checkClass, check, decision) => decision == Gate(cfg.record, checkClass, check)
    case Replanned(_, checkClass, check) =>
      check in BUILTINS && checkClass in cfg.record.allowedChecks && Gate(cfg.record, checkClass, check) == Ok
  }

  /** Every event of the history is justified by the events before it. */
  ghost predicate Justified(cfg: Config, log: seq<Event>) {
    forall i :: 0 <= i < |log| ==> EventJustified(cfg, log[..i], log[i])
  }

  // ---- Invariant -------------------------------------------------------------------------------------

  /** Whatever check this copy of a step resolves to has been vetted. */
  ghost predicate Cleared(cfg: Config, w: World, it: Item) {
    var check := Resolve(it.name, it.checkClass, ChecksFrom(w.snapshot));
    Fixed(it.name, w.snapshot) &&
    (check.Some? ==> Vetted(cfg, w.log, it.id, it.checkClass, check.value))
  }

  ghost predicate RowOk(cfg: Config, w: World, id: nat, row: Row) {
    var check := Resolve(row.name, row.checkClass, ChecksFrom(w.snapshot));
    Fixed(row.name, w.snapshot) &&
    (row.status == Approved ==> Cleared(cfg, w, Item(id, row.name, row.checkClass))) &&
    (row.status == Awaiting ==>
      check.Some? && check.value.NeedsApproval() && Gated(id, row.checkClass, check.value, Ok) in w.log)
  }

  ghost predicate TaskOk(cfg: Config, w: World, task: Task) {
    match task
    case Drafted(drafts) =>
      forall k :: 0 <= k < |drafts| ==> drafts[k].status == Planned && Fixed(drafts[k].name, w.snapshot)
    case Gating(_) => true
    case Polling(ready, _) => forall k :: 0 <= k < |ready| ==> Cleared(cfg, w, ready[k])
    case Chosen(items) => forall k :: 0 <= k < |items| ==> Cleared(cfg, w, items[k])
    case Running(agents, _) =>
      forall k :: 0 <= k < |agents| ==> Vetted(cfg, w.log, agents[k].id, agents[k].checkClass, agents[k].check)
  }

  ghost predicate Inv(cfg: Config, w: World) {
    Justified(cfg, w.log) &&
    (forall id :: id in w.rows ==> RowOk(cfg, w, id, w.rows[id])) &&
    forall t :: t in w.tasks ==> TaskOk(cfg, w, w.tasks[t])
  }

  // ---- What later events and a later snapshot leave true -----------------------------------------------

  /** w' has the history of w and more, and a snapshot that a later phase of w may have left. */
  ghost predicate Later(cfg: Config, w: World, w': World) {
    (exists more :: w'.log == w.log + more) &&
    (w'.snapshot == w.snapshot || exists skills :: w'.snapshot == Declaratives(w.snapshot, skills, cfg.org).snapshot)
  }

  lemma SameResolution(cfg: Config, w: World, w': World, name: string, checkClass: string)
    requires Later(cfg, w, w') && Fixed(name, w.snapshot)
    ensures Fixed(name, w'.snapshot)
    ensures Resolve(name, checkClass, ChecksFrom(w'.snapshot)) == Resolve(name, checkClass, ChecksFrom(w.snapshot))
  {
    if w'.snapshot != w.snapshot {
      var skills :| w'.snapshot == Declaratives(w.snapshot, skills, cfg.org).snapshot;
      FixedStaysFixed(name, w.snapshot, skills, cfg.org);
      ResolutionIsStable(name, w.snapshot);
    }
  }

  lemma StillCleared(cfg: Config, w: World, w': World, it: Item)
    requires Later(cfg, w, w') && Cleared(cfg, w, it)
    ensures Cleared(cfg, w', it)
  {
    SameResolution(cfg, w, w', it.name, it.checkClass);
  }

  lemma RowStaysOk(cfg: Config, w: World, w': World, id: nat, row: Row)
    requires Later(cfg, w, w') && RowOk(cfg, w, id, row)
    ensures RowOk(cfg, w', id, row)
  {
    SameResolution(cfg, w, w', row.name, row.checkClass);
    if row.status == Approved {
      StillCleared(cfg, w, w', Item(id, row.name, row.checkClass));
    }
  }

  lemma TaskStaysOk(cfg: Config, w: World, w': World, task: Task)
    requires Later(cfg, w, w') && TaskOk(cfg, w, task)
    ensures TaskOk(cfg, w', task)
  {
    match task
    case Drafted(drafts) =>
      forall k | 0 <= k < |drafts|
        ensures drafts[k].status == Planned && Fixed(drafts[k].name, w'.snapshot)
      {
        SameResolution(cfg, w, w', drafts[k].name, drafts[k].checkClass);
      }
    case Gating(_) =>
    case Polling(ready, _) =>
      forall k | 0 <= k < |ready|
        ensures Cleared(cfg, w', ready[k])
      {
        StillCleared(cfg, w, w', ready[k]);
      }
    case Chosen(items) =>
      forall k | 0 <= k < |items|
        ensures Cleared(cfg, w', items[k])
      {
        StillCleared(cfg, w, w', items[k]);
      }
    case Running(agents, _) =>
      forall k | 0 <= k < |agents|
        ensures Vetted(cfg, w'.log, agents[k].id, agents[k].checkClass, agents[k].check)
      {
      }
  }

  /** To re-establish the invariant it is enough to look at what an action changed. */
  lemma OnlyChanged(cfg: Config, w: World, w': World)
    requires Inv(cfg, w) && Later(cfg, w, w') && Justified(cfg, w'.log)
    requires forall id :: id in w'.rows ==>
      (id in w.rows && w'.rows[id] == w.rows[id]) || RowOk(cfg, w', id, w'.rows[id])
    requires forall t :: t in w'.tasks ==>
      (t in w.tasks && w'.tasks[t] == w.tasks[t]) || TaskOk(cfg, w', w'.tasks[t])
    ensures Inv(cfg, w')
  {
    forall id | id in w'.rows
      ensures RowOk(cfg, w', id, w'.rows[id])
    {
      if id in w.rows && w'.rows[id] == w.rows[id] {
        RowStaysOk(cfg, w, w', id, w.rows[id]);
      }
    }
    forall t | t in w'.tasks
      ensures TaskOk(cfg, w', w'.tasks[t])
    {
      if t in w.tasks && w'.tasks[t] == w.tasks[t] {
        TaskStaysOk(cfg, w, w', w.tasks[t]);
      }
    }
  }

  lemma IsLater(cfg: Config, w: World, w': World, more: seq<Event>)
    requires w'.log == w.log + more
    requires w'.snapshot == w.snapshot || w'.snapshot == Declaratives(w.snapshot, w.skills, cfg.org).snapshot
    ensures Later(cfg, w, w')
  {
  }

  lemma JustifiedAppend(cfg: Config, log: seq<Event>, more: seq<Event>)
    requires Justified(cfg, log)
    requires forall k :: 0 <= k < |more| ==> EventJustified(cfg, log + more[..k], more[k])
    ensures Justified(cfg, log + more)
  {
    var all := log + more;
    forall i | 0 <= i < |all|
      ensures EventJustified(cfg, all[..i], all[i])
    {
      if i < |log| {
        assert all[..i] == log[..i];
      } else {
        assert all[..i] == log + more[..i - |log|];
      }
    }
  }

  // ---- The actions, one by one ----------------------------------------------------------------------

  lemma PlanKeeps(cfg: Config, w: World, t: nat, picks: seq<nat>)
    requires Inv(cfg, w)
    ensures Inv(cfg, AfterPlan(cfg, w, t, picks))
  {
    var f := Declaratives(w.snapshot, w.skills, cfg.org);
    var candidates := BUILTINS + f.checks;
    var w' := AfterPlan(cfg, w, t, picks);
    if !(t in w.tasks || exists p :: p in picks && (p >= |candidates| || !Plannable(cfg, candidates[p]))) {
      assert w'.log == w.log + [];
      IsLater(cfg, w, w', []);
      forall k | 0 <= k < |picks|
        ensures picks[k] < |candidates| && Fixed(Draft(candidates[picks[k]]).name, w'.snapshot)
      {
        assert picks[k] in picks;
      }
      OnlyChanged(cfg, w, w');
    }
  }

  lemma WritePlanKeeps(cfg: Config, w: World, t: nat)
    requires Inv(cfg, w)
    ensures Inv(cfg, AfterWritePlan(w, t))
  {
    var w' := AfterWritePlan(w, t);
    if t in w.tasks && w.tasks[t].Drafted? {
      assert w'.log == w.log + [];
      IsLater(cfg, w, w', []);
      assert TaskOk(cfg, w, w.tasks[t]);
      OnlyChanged(cfg, w, w');
    }
  }

  lemma {:induction false} GateEventsCover(cfg: Config, rows: map<nat, Row>, ids: seq<nat>, declaratives: seq<Check>, id: nat)
    requires (forall i :: i in ids ==> i in rows) && id in ids
    ensures var check := Resolve(rows[id].name, rows[id].checkClass, declaratives);
            check.Some? ==>
              Gated(id, rows[id].checkClass, check.value, Gate(cfg.record, rows[id].checkClass, check.value))
              in GateEvents(cfg, rows, ids, declaratives)
    decreases |ids|
  {
    if ids[0] != id {
      GateEventsCover(cfg, rows, ids[1..], declaratives, id);
    }
  }

  lemma {:induction false} GateEventsAreHonest(cfg: Config, rows: map<nat, Row>, ids: seq<nat>, declaratives: seq<Check>)
    requires forall i :: i in ids ==> i in rows
    ensures forall e :: e in GateEvents(cfg, rows, ids, declaratives) ==>
      e.Gated? && e.decision == Gate(cfg.record, e.checkClass, e.check)
    decreases |ids|
  {
    if ids != [] {
      GateEventsAreHonest(cfg, rows, ids[1..], declaratives);
    }
  }

  lemma {:induction false} ItemsWithAre(rows: map<nat, Row>, ids: seq<nat>, status: Status)
    requires forall i :: i in ids ==> i in rows
    ensures forall it :: it in ItemsWith(rows, ids, status) ==>
      it.id in ids && it.id in rows && rows[it.id].status == status && it == ItemOf(rows, it.id)
    decreases |ids|
  {
    if ids != [] {
      ItemsWithAre(rows, ids[1..], status);
    }
  }

  /** A step that policy leaves approved or awaiting is covered by the event it logged. */
  lemma GatedRowOk(cfg: Config, w: World, w': World, ids: seq<nat>, declaratives: seq<Check>, id: nat)
    requires Inv(cfg, w) && Later(cfg, w, w') && id in ids && forall i :: i in ids ==> i in w.rows
    requires declaratives == ChecksFrom(w'.snapshot)
    requires w'.log == w.log + GateEvents(cfg, w.rows, ids, declaratives)
    requires w'.rows == GateRows(cfg, w.rows, ids, declaratives)
    ensures RowOk(cfg, w', id, w'.rows[id])
  {
    var row := w.rows[id];
    assert RowOk(cfg, w, id, row);
    SameResolution(cfg, w, w', row.name, row.checkClass);
    GateEventsCover(cfg, w.rows, ids, declaratives, id);
    assert w'.rows[id] == row.(status := StatusAfter(cfg, row, declaratives));
  }

  lemma PolicyKeeps(cfg: Config, w: World, t: nat)
    requires Inv(cfg, w)
    ensures Inv(cfg, AfterPolicy(cfg, w, t))
  {
    var w' := AfterPolicy(cfg, w, t);
    if t in w.tasks && w.tasks[t].Gating? {
      var ids := w.tasks[t].ids;
      if exists id :: id in ids && id !in w.rows {
        assert w'.log == w.log + [];
        IsLater(cfg, w, w', []);
        OnlyChanged(cfg, w, w');
      } else {
        var f := Declaratives(w.snapshot, w.skills, cfg.org);
        var events := GateEvents(cfg, w.rows, ids, f.checks);
        IsLater(cfg, w, w', events);
        GateEventsAreHonest(cfg, w.rows, ids, f.checks);
        forall k | 0 <= k < |events|
          ensures EventJustified(cfg, w.log + events[..k], events[k])
        {
          assert events[k] in events;
        }
        JustifiedAppend(cfg, w.log, events);
        forall id | id in ids
          ensures RowOk(cfg, w', id, w'.rows[id])
        {
          GatedRowOk(cfg, w, w', ids, f.checks, id);
        }
        ReadyAreCleared(cfg, w', ids);
        OnlyChanged(cfg, w, w');
      }
    }
  }

  lemma ReadyAreCleared(cfg: Config, w: World, ids: seq<nat>)
    requires forall id :: id in ids ==> id in w.rows && RowOk(cfg, w, id, w.rows[id])
    ensures forall k :: 0 <= k < |ItemsWith(w.rows, ids, Approved)| ==>
      Cleared(cfg, w, ItemsWith(w.rows, ids, Approved)[k])
  {
    var items := ItemsWith(w.rows, ids, Approved);
    ItemsWithAre(w.rows, ids, Approved);
    forall k | 0 <= k < |items|
      ensures Cleared(cfg, w, items[k])
    {
      assert items[k] in items;
      assert RowOk(cfg, w, items[k].id, w.rows[items[k].id]);
    }
  }

  lemma PollKeeps(cfg: Config, w: World, t: nat, id: nat)
    requires Inv(cfg, w)
    ensures Inv(cfg, AfterPollOne(w, t, id))
  {
    var w' := AfterPollOne(w, t, id);
    if w' != w {
      assert w'.log == w.log + [];
      IsLater(cfg, w, w', []);
      assert TaskOk(cfg, w, w.tasks[t]);
      TaskStaysOk(cfg, w, w', w.tasks[t]);
      if w.rows[id].status == Approved {
        assert RowOk(cfg, w, id, w.rows[id]);
        StillCleared(cfg, w, w', ItemOf(w.rows, id));
      }
      OnlyChanged(cfg, w, w');
    }
  }

  /** An action that leaves steps, history and snapshot alone and sets one task. */
  lemma TaskKeeps(cfg: Config, w: World, w': World, t: nat, task: Task)
    requires Inv(cfg, w) && TaskOk(cfg, w', task)
    requires w'.rows == w.rows && w'.log == w.log && w'.snapshot == w.snapshot && w'.tasks == w.tasks[t := task]
    ensures Inv(cfg, w')
  {
    assert w'.log == w.log + [];
    IsLater(cfg, w, w', []);
    OnlyChanged(cfg, w, w');
  }

  lemma StopWaitingKeeps(cfg: Config, w: World, t: nat)
    requires Inv(cfg, w)
    ensures Inv(cfg, AfterStopWaiting(w, t))
  {
    if t in w.tasks && w.tasks[t].Polling? {
      var task := Chosen(w.tasks[t].ready);
      assert TaskOk(cfg, w, w.tasks[t]);
      TaskKeeps(cfg, w, AfterStopWaiting(w, t), t, task);
    }
  }

  lemma SelectPlannedKeeps(cfg: Config, w: World, t: nat, ids: seq<nat>)
    requires Inv(cfg, w)
    ensures Inv(cfg, AfterSelectPlanned(w, t, ids))
  {
    var w' := AfterSelectPlanned(w, t, ids);
    if w' != w {
      TaskKeeps(cfg, w, w', t, Gating(ids));
    }
  }

  lemma SelectApprovedKeeps(cfg: Config, w: World, t: nat, ids: seq<nat>)
    requires Inv(cfg, w)
    ensures Inv(cfg, AfterSelectApproved(w, t, ids))
  {
    var w' := AfterSelectApproved(w, t, ids);
    if w' != w {
      ReadyAreCleared(cfg, w, ids);
      var task := Chosen(ItemsWith(w.rows, ids, Approved));
      TaskKeeps(cfg, w, w', t, task);
    }
  }

  lemma LateBlockedKeeps(cfg: Config, w: World, ids: seq<nat>)
    requires Inv(cfg, w)
    ensures Inv(cfg, AfterLateBlocked(w, ids))
  {
    var w' := AfterLateBlocked(w, ids);
    assert w'.log == w.log + [];
    IsLater(cfg, w, w', []);
    forall id | id in w'.rows
      ensures RowOk(cfg, w', id, w'.rows[id])
    {
      RowStaysOk(cfg, w, w', id, w.rows[id]);
    }
    OnlyChanged(cfg, w, w');
  }

  /** Registering skills, deleting steps and losing a task. */
  lemma FewerKeeps(cfg: Config, w: World, w': World)
    requires Inv(cfg, w) && w'.log == w.log && w'.snapshot == w.snapshot
    requires forall id :: id in w'.rows ==> id in w.rows && w'.rows[id] == w.rows[id]
    requires forall t :: t in w'.tasks ==> t in w.tasks && w'.tasks[t] == w.tasks[t]
    ensures Inv(cfg, w')
  {
    assert w'.log == w.log + [];
    IsLater(cfg, w, w', []);
    OnlyChanged(cfg, w, w');
  }

  lemma {:induction false} AgentsAreVetted(cfg: Config, w: World, items: seq<Item>)
    requires forall k :: 0 <= k < |items| ==> Cleared(cfg, w, items[k])
    ensures forall g :: g in AgentsFor(items, ChecksFrom(w.snapshot)) ==>
      Vetted(cfg, w.log, g.id, g.checkClass, g.check)
    decreases |items|
  {
    if items != [] {
      assert Cleared(cfg, w, items[0]);
      AgentsAreVetted(cfg, w, items[1..]);
    }
  }

  lemma BuildAgentsKeeps(cfg: Config, w: World, t: nat)
    requires Inv(cfg, w)
    ensures Inv(cfg, AfterBuildAgents(cfg, w, t))
  {
    var w' := AfterBuildAgents(cfg, w, t);
    if t in w.tasks && w.tasks[t].Chosen? && w.tasks[t].items == [] {
      FewerKeeps(cfg, w, w');
    } else if t in w.tasks && w.tasks[t].Chosen? {
      var items := w.tasks[t].items;
      assert w'.log == w.log + [];
      IsLater(cfg, w, w', []);
      assert TaskOk(cfg, w, w.tasks[t]);
      TaskStaysOk(cfg, w, w', w.tasks[t]);
      AgentsAreVetted(cfg, w', items);
      OnlyChanged(cfg, w, w');
    }
  }

  lemma ExecuteKeeps(cfg: Config, w: World, t: nat, k: nat, persist: Persist)
    requires Inv(cfg, w)
    ensures Inv(cfg, AfterExecute(w, t, k, persist))
  {
    var w' := AfterExecute(w, t, k, persist);
    if t in w.tasks && w.tasks[t].Running? && k < |w.tasks[t].agents| {
      var g := w.tasks[t].agents[k];
      var events := [Executed(g.id, g.checkClass, g.check)];
      assert TaskOk(cfg, w, w.tasks[t]);
      assert w.log + events[..0] == w.log;
      JustifiedAppend(cfg, w.log, events);
      IsLater(cfg, w, w', events);
      if g.id in w.rows {
        RowStaysOk(cfg, w, w', g.id, w.rows[g.id]);
      }
      OnlyChanged(cfg, w, w');
    }
  }

  /** Resolves to the same check whatever skills are registered. */
  ghost predicate Pinned(it: Item) {
    forall one, other :: Resolve(it.name, it.checkClass, one) == Resolve(it.name, it.checkClass, other)
  }

  /** Replanned steps are approved without asking: they resolve to built-ins, whatever skills
   *  are registered, and no built-in needs approval. */
  lemma ReplannedIsCleared(cfg: Config, w: World, it: Item, check: Check)
    requires check in BUILTINS && it.name == check.Name()
    requires Replanned(it.id, it.checkClass, check) in w.log
    ensures Cleared(cfg, w, it) && Pinned(it)
  {
    BuiltInResolves(check, it.checkClass);
    BuiltInsNeedNoApproval(check);
  }

  lemma {:induction false} ReplannedAgents(cfg: Config, w: World, items: seq<Item>, declaratives: seq<Check>)
    requires forall it :: it in items ==> Cleared(cfg, w, it) && Pinned(it)
    ensures forall g :: g in AgentsFor(items, declaratives) ==>
      Vetted(cfg, w.log, g.id, g.checkClass, g.check)
    decreases |items|
  {
    if items != [] {
      assert Cleared(cfg, w, items[0]) && Pinned(items[0]);
      assert Resolve(items[0].name, items[0].checkClass, declaratives) ==
             Resolve(items[0].name, items[0].checkClass, ChecksFrom(w.snapshot));
      ReplannedAgents(cfg, w, items[1..], declaratives);
    }
  }

  /** Replanning logs what it picked: built-ins that the record allows. */
  lemma ReplanEventsJustified(cfg: Config, log: seq<Event>, checks: seq<Check>, classes: seq<string>, nextId: nat)
    requires Justified(cfg, log) && |checks| == |classes|
    requires forall k :: 0 <= k < |classes| ==> Fits(BUILTINS, cfg.record, classes[k], checks[k])
    ensures Justified(cfg, log + ReplanEvents(checks, classes, nextId))
  {
    var events := ReplanEvents(checks, classes, nextId);
    forall k | 0 <= k < |events|
      ensures EventJustified(cfg, log + events[..k], events[k])
    {
      assert Fits(BUILTINS, cfg.record, classes[k], checks[k]);
      BuiltInsAreBuiltIn(Some(checks[k]));
    }
    JustifiedAppend(cfg, log, events);
  }

  /** Every replanned step is cleared, and means the same check under any skills. */
  lemma {:induction false} ReplanItemsCleared(cfg: Config, w: World, checks: seq<Check>, classes: seq<string>, nextId: nat)
    requires |checks| == |classes|
    requires forall c :: c in checks ==> c in BUILTINS
    requires forall e :: e in ReplanEvents(checks, classes, nextId) ==> e in w.log
    ensures forall it :: it in ReplanItems(checks, classes, nextId) ==> Cleared(cfg, w, it) && Pinned(it)
    decreases |checks|
  {
    if checks != [] {
      var items, events := ReplanItems(checks, classes, nextId), ReplanEvents(checks, classes, nextId);
      assert events == [events[0]] + ReplanEvents(checks[1..], classes[1..], nextId + 1);
      assert items == [items[0]] + ReplanItems(checks[1..], classes[1..], nextId + 1);
      assert events[0] in w.log;
      ReplannedIsCleared(cfg, w, items[0], checks[0]);
      ReplanItemsCleared(cfg, w, checks[1..], classes[1..], nextId + 1);
    }
  }

  lemma ReplanRowIsItem(checks: seq<Check>, classes: seq<string>, nextId: nat, id: nat) returns (it: Item)
    requires |checks| == |classes| && id in ReplanRows(checks, classes, nextId)
    ensures it in ReplanItems(checks, classes, nextId) && it.id == id
    ensures ReplanRows(checks, classes, nextId)[id] == Row(it.name, it.checkClass, Approved)
  {
    it := ReplanItems(checks, classes, nextId)[Offset(id, nextId)];
  }

  lemma ReplanKeeps(cfg: Config, w: World, w': World, t: nat, checks: seq<Check>, classes: seq<string>)
    requires Inv(cfg, w) && t in w.tasks && w.tasks[t].Running? && |checks| == |classes|
    requires forall k :: 0 <= k < |classes| ==> Fits(BUILTINS, cfg.record, classes[k], checks[k])
    requires w' == ReplanWith(w, t, checks, classes)
    ensures Inv(cfg, w')
  {
    var items := ReplanItems(checks, classes, w.nextId);
    var running := w.tasks[t];
    ReplanEventsJustified(cfg, w.log, checks, classes, w.nextId);
    IsLater(cfg, w, w', ReplanEvents(checks, classes, w.nextId));
    ReplanItemsCleared(cfg, w', checks, classes, w.nextId);
    var rows := ReplanRows(checks, classes, w.nextId);
    forall id | id in rows
      ensures RowOk(cfg, w', id, rows[id])
    {
      var it := ReplanRowIsItem(checks, classes, w.nextId, id);
    }
    ReplannedAgents(cfg, w', items, running.declaratives);
    TaskStaysOk(cfg, w, w', running);
    OnlyChanged(cfg, w, w');
  }

  /** Only a permitted step that needs a decision is waiting for one. */
  lemma AwaitingIsAsked(cfg: Config, w: World, id: nat, row: Row)
    requires RowOk(cfg, w, id, row) && row.status == Awaiting
    ensures Asked(w.log, id)
  {
    var check := Resolve(row.name, row.checkClass, ChecksFrom(w.snapshot)).value;
    assert Gated(id, row.checkClass, check, Ok) in w.log;
  }

  lemma DecidedRowOk(cfg: Config, w: World, w': World, id: nat, row: Row, status: Status)
    requires Later(cfg, w, w') && RowOk(cfg, w, id, row) && row.status == Awaiting
    requires status == Refused || (status == Approved && OperatorApproved(id) in w'.log)
    ensures RowOk(cfg, w', id, row.(status := status))
  {
    RowStaysOk(cfg, w, w', id, row);
  }

  lemma DecisionKeeps(cfg: Config, w: World, w': World, id: nat, event: Event, status: Status)
    requires Inv(cfg, w) && id in w.rows && w.rows[id].status == Awaiting
    requires (event == OperatorApproved(id) && status == Approved) || (event == OperatorDenied(id) && status == Refused)
    requires w' == w.(rows := w.rows[id := w.rows[id].(status := status)], log := w.log + [event])
    ensures Inv(cfg, w')
  {
    AwaitingIsAsked(cfg, w, id, w.rows[id]);
    assert w.log + [event][..0] == w.log;
    JustifiedAppend(cfg, w.log, [event]);
    IsLater(cfg, w, w', [event]);
    DecidedRowOk(cfg, w, w', id, w.rows[id], status);
    OnlyChanged(cfg, w, w');
  }

  lemma ReplanActionKeeps(cfg: Config, w: World, t: nat, classes: seq<string>)
    requires Inv(cfg, w)
    ensures Inv(cfg, AfterReplan(cfg, w, t, classes))
  {
    var w' := AfterReplan(cfg, w, t, classes);
    if cfg.replans && t in w.tasks && w.tasks[t].Running? && forall c :: c in classes ==> ReplanClass(BUILTINS, cfg.record, c) {
      var checks := Fillers(BUILTINS, cfg.record, classes);
      ReplanKeeps(cfg, w, w', t, checks, classes);
    }
  }

  lemma ApproveKeeps(cfg: Config, w: World, id: nat)
    requires Inv(cfg, w)
    ensures Inv(cfg, AfterApprove(w, id))
  {
    if id in w.rows && w.rows[id].status == Awaiting {
      DecisionKeeps(cfg, w, AfterApprove(w, id), id, OperatorApproved(id), Approved);
    }
  }

  lemma DenyKeeps(cfg: Config, w: World, id: nat)
    requires Inv(cfg, w)
    ensures Inv(cfg, AfterDeny(w, id))
  {
    if id in w.rows && w.rows[id].status == Awaiting {
      DecisionKeeps(cfg, w, AfterDeny(w, id), id, OperatorDenied(id), Refused);
    }
  }

  predicate SelectsOrDecides(a: Action) {
    a.SelectPlanned? || a.PollOne? || a.StopWaiting? || a.SelectApproved? || a.LateBlocked? || a.Approve? || a.Deny?
  }

  lemma SelectionKeepsInv(cfg: Config, w: World, a: Action)
    requires Inv(cfg, w) && SelectsOrDecides(a)
    ensures Inv(cfg, Next(cfg, w, a))
  {
    match a
    case SelectPlanned(t, ids) => SelectPlannedKeeps(cfg, w, t, ids);
    case PollOne(t, id) => PollKeeps(cfg, w, t, id);
    case StopWaiting(t) => StopWaitingKeeps(cfg, w, t);
    case SelectApproved(t, ids) => SelectApprovedKeeps(cfg, w, t, ids);
    case LateBlocked(ids) => LateBlockedKeeps(cfg, w, ids);
    case Approve(id) => ApproveKeeps(cfg, w, id);
    case Deny(id) => DenyKeeps(cfg, w, id);
  }

  /** Every action keeps the invariant. */
  lemma StepKeepsInv(cfg: Config, w: World, a: Action)
    requires Inv(cfg, w)
    ensures Inv(cfg, Next(cfg, w, a))
  {
    if SelectsOrDecides(a) {
      SelectionKeepsInv(cfg, w, a);
    } else {
      match a
      case Register(skills) => FewerKeeps(cfg, w, w.(skills := skills));
      case Plan(t, picks) => PlanKeeps(cfg, w, t, picks);
      case WritePlan(t) => WritePlanKeeps(cfg, w, t);
      case Policy(t) => PolicyKeeps(cfg, w, t);
      case BuildAgents(t) => BuildAgentsKeeps(cfg, w, t);
      case Execute(t, k, persist) => ExecuteKeeps(cfg, w, t, k, persist);
      case Replan(t, classes) => ReplanActionKeeps(cfg, w, t, classes);
      case Restart => FewerKeeps(cfg, w, w.(rows := map[]));
      case Vanish(t) => FewerKeeps(cfg, w, w.(tasks := w.tasks - {t}));
    }
  }

  lemma {:induction false} RunKeepsInv(cfg: Config, w: World, actions: seq<Action>)
    requires Inv(cfg, w)
    ensures Inv(cfg, Run(cfg, w, actions))
    decreases |actions|
  {
    if actions != [] {
      StepKeepsInv(cfg, w, actions[0]);
      RunKeepsInv(cfg, Next(cfg, w, actions[0]), actions[1..]);
    }
  }
}
