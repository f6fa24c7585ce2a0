/** Which checks runs can execute, in whatever way engine tasks, operators, replanning and restarts
 *  interleave: told from the configuration and the skill registries alone.
 */
module RunnableChecks {
  import opened Prelude
  import opened Scope
  import opened Checks
  import opened Approvals
  import opened PolicyTerms

  // ---- Told before a run -------------------------------------------------------------------------

  function Candidates(skills: seq<SkillRow>, org: string): seq<Check> { BUILTINS + Load(skills, org) }

  /** The planner may make a step of c: its intensity is granted, and its class is one that is both
   *  requested and authorized; but if none is both, any class will do. */
  predicate PlannerTakes(cfg: Config, c: Check) {
    IntensityGranted(cfg.record, c) &&
    if cfg.requested == {} then ClassGranted(cfg.record, c.Class())
    else cfg.requested !! cfg.record.allowedChecks || (c.Class() in cfg.requested && c.Class() in cfg.record.allowedChecks)
  }

  /** The planner may make a step of c, its name means the check k, and k is within the record under
   *  the class of the step. */
  ghost predicate Runnable(cfg: Config, skills: seq<SkillRow>, c: Check, k: Check) {
    c in Candidates(skills, cfg.org) && PlannerTakes(cfg, c) &&
    Means(Draft(c), Load(skills, cfg.org), k) && WithinRecord(cfg.record, c.Class(), k)
  }

  /** k is the built-in with which replanning closes gaps of this class. */
  ghost predicate Closes(r: AuthRecord, checkClass: string, k: Check) {
    checkClass in r.allowedChecks && WithinRecord(r, checkClass, k) &&
    exists i: nat :: FirstOf(BUILTINS, checkClass, i) && BUILTINS[i] == k
  }

  lemma DisjointExactly(a: set<string>, b: set<string>)
    ensures a * b == {} <==> a !! b
  {
    if a * b == {} {
      assert forall x :: x in a ==> x !in b by {
        forall x | x in a
          ensures x !in b
        {
          assert x !in a * b;
        }
      }
    }
  }

  lemma PlannerTakesExactly(cfg: Config, c: Check)
    ensures Plannable(cfg, c) <==> PlannerTakes(cfg, c)
  {
    WordsOfLevels(c);
    WordsOfRecord(cfg.record);
    DisjointExactly(cfg.requested, cfg.record.allowedChecks);
  }

  lemma RunnableExactly(cfg: Config, skills: seq<SkillRow>, c: Check, k: Check)
    ensures Runnable(cfg, skills, c, k) <==>
            c in Candidates(skills, cfg.org) && Plannable(cfg, c) &&
            Resolve(c.Name(), c.Class(), Load(skills, cfg.org)) == Some(k) && Gate(cfg.record, c.Class(), k) == Ok
  {
    PlannerTakesExactly(cfg, c);
    GateExactly(cfg.record, c.Class(), k);
    ResolveExactly(BUILTINS, Draft(c), Load(skills, cfg.org));
    var found := Resolve(c.Name(), c.Class(), Load(skills, cfg.org));
    if found.Some? {
      MeansOne(Draft(c), Load(skills, cfg.org), found.value, k);
    } else if Means(Draft(c), Load(skills, cfg.org), k) {
      MeansOne(Draft(c), Load(skills, cfg.org), k, k);
    }
  }

  lemma ClosesExactly(stock: seq<Check>, r: AuthRecord, checkClass: string, k: Check)
    requires stock == BUILTINS
    ensures Closes(r, checkClass, k) <==> ReplanClass(stock, r, checkClass) && FirstOfClass(stock, checkClass) == Some(k)
  {
    var i := OfClassIsFirst(stock, checkClass);
    GateExactly(r, checkClass, k);
    if k in stock {
      BuiltInsAreBuiltIn(Some(k));
    }
  }

  /** Some planned step can run, with one of the registries. */
  ghost predicate Opens(cfg: Config, registries: iset<seq<SkillRow>>) {
    exists skills, c, k :: skills in registries && Runnable(cfg, skills, c, k)
  }

  ghost predicate ByPlan(cfg: Config, registries: iset<seq<SkillRow>>, checkClass: string, k: Check) {
    exists skills, c :: skills in registries && Runnable(cfg, skills, c, k) && c.Class() == checkClass
  }

  /** Replanning closes gaps of all authorized classes, once something runs. */
  ghost predicate ByReplan(cfg: Config, registries: iset<seq<SkillRow>>, checkClass: string, k: Check) {
    cfg.replans && Opens(cfg, registries) &&
    Closes(cfg.record, checkClass, k)
  }

  ghost predicate CanRun(cfg: Config, registries: iset<seq<SkillRow>>, checkClass: string, k: Check) {
    ByPlan(cfg, registries, checkClass, k) || ByReplan(cfg, registries, checkClass, k)
  }

  // ---- Runs ---------------------------------------------------------------------------------------

  /** The skill registry is never in any other state than the given ones. */
  ghost predicate Within(registries: iset<seq<SkillRow>>, skills: seq<SkillRow>, actions: seq<Action>) {
    skills in registries && forall a :: a in actions && a.Register? ==> a.skills in registries
  }

  ghost predicate Executes(log: seq<Event>, checkClass: string, k: Check) {
    exists e :: e in log && e.Executed? && e.checkClass == checkClass && e.check == k
  }

  ghost predicate ExecutedInSomeRun(cfg: Config, registries: iset<seq<SkillRow>>, checkClass: string, k: Check) {
    exists skills, actions ::
      Within(registries, skills, actions) && Executes(Run(cfg, Start(skills), actions).log, checkClass, k)
  }

  // ---- Nothing else runs ------------------------------------------------------------------------------

  /** If policy permits the check that the name means, that check can run. */
  ghost predicate Legit(cfg: Config, registries: iset<seq<SkillRow>>, snapshot: seq<Spec>, name: string, checkClass: string) {
    var k := Resolve(name, checkClass, ChecksFrom(snapshot));
    Fixed(name, snapshot) &&
    (k.Some? && Gate(cfg.record, checkClass, k.value) == Ok ==> CanRun(cfg, registries, checkClass, k.value))
  }

  /** The name means a check that can run. */
  ghost predicate Live(cfg: Config, registries: iset<seq<SkillRow>>, snapshot: seq<Spec>, name: string, checkClass: string) {
    var k := Resolve(name, checkClass, ChecksFrom(snapshot));
    Fixed(name, snapshot) && k.Some? && CanRun(cfg, registries, checkClass, k.value)
  }

  ghost predicate RowIn(cfg: Config, registries: iset<seq<SkillRow>>, snapshot: seq<Spec>, row: Row) {
    Legit(cfg, registries, snapshot, row.name, row.checkClass) &&
    (row.status == Approved || row.status == Awaiting ==> Live(cfg, registries, snapshot, row.name, row.checkClass))
  }

  ghost predicate ItemIn(cfg: Config, registries: iset<seq<SkillRow>>, snapshot: seq<Spec>, it: Item) {
    Live(cfg, registries, snapshot, it.name, it.checkClass)
  }

  ghost predicate TaskIn(cfg: Config, registries: iset<seq<SkillRow>>, snapshot: seq<Spec>, task: Task) {
    match task
    case Drafted(drafts) => forall d :: d in drafts ==> RowIn(cfg, registries, snapshot, d)
    case Gating(_) => true
    case Polling(ready, _) => forall it :: it in ready ==> ItemIn(cfg, registries, snapshot, it)
    case Chosen(items) => forall it :: it in items ==> ItemIn(cfg, registries, snapshot, it)
    case Running(agents, _) =>
      Opens(cfg, registries) && forall g :: g in agents ==> CanRun(cfg, registries, g.checkClass, g.check)
  }

  /** Nothing was frozen, or one of the registries was. */
  ghost predicate FrozenFrom(cfg: Config, registries: iset<seq<SkillRow>>, snapshot: seq<Spec>) {
    snapshot == [] || exists skills :: skills in registries && snapshot == SpecsOf(Load(skills, cfg.org))
  }

  ghost predicate LogIn(cfg: Config, registries: iset<seq<SkillRow>>, log: seq<Event>) {
    forall e :: e in log && e.Executed? ==> CanRun(cfg, registries, e.checkClass, e.check)
  }

  ghost predicate WorldIn(cfg: Config, registries: iset<seq<SkillRow>>, w: World) {
    w.skills in registries && FrozenFrom(cfg, registries, w.snapshot) && LogIn(cfg, registries, w.log) &&
    (forall id :: id in w.rows ==> RowIn(cfg, registries, w.snapshot, w.rows[id])) &&
    forall t :: t in w.tasks ==> TaskIn(cfg, registries, w.snapshot, w.tasks[t])
  }

  lemma SomethingOpens(cfg: Config, registries: iset<seq<SkillRow>>, checkClass: string, k: Check)
    requires CanRun(cfg, registries, checkClass, k)
    ensures Opens(cfg, registries)
  {
  }

  // What a phase freezes leaves every name with its meaning.

  lemma SameMeaning(cfg: Config, registries: iset<seq<SkillRow>>, snapshot: seq<Spec>, skills: seq<SkillRow>,
                    name: string, checkClass: string)
    requires Fixed(name, snapshot)
    ensures var f := Declaratives(snapshot, skills, cfg.org);
            Fixed(name, f.snapshot) && f.checks == ChecksFrom(f.snapshot) &&
            Resolve(name, checkClass, f.checks) == Resolve(name, checkClass, ChecksFrom(snapshot))
  {
    FixedStaysFixed(name, snapshot, skills, cfg.org);
    ResolutionIsStable(name, snapshot);
    assert Stable(name, snapshot);
  }

  lemma RowStaysIn(cfg: Config, registries: iset<seq<SkillRow>>, snapshot: seq<Spec>, skills: seq<SkillRow>, row: Row)
    requires RowIn(cfg, registries, snapshot, row)
    ensures RowIn(cfg, registries, Declaratives(snapshot, skills, cfg.org).snapshot, row)
  {
    SameMeaning(cfg, registries, snapshot, skills, row.name, row.checkClass);
  }

  lemma ItemStaysIn(cfg: Config, registries: iset<seq<SkillRow>>, snapshot: seq<Spec>, skills: seq<SkillRow>, it: Item)
    requires ItemIn(cfg, registries, snapshot, it)
    ensures ItemIn(cfg, registries, Declaratives(snapshot, skills, cfg.org).snapshot, it)
  {
    SameMeaning(cfg, registries, snapshot, skills, it.name, it.checkClass);
  }

  lemma TaskStaysIn(cfg: Config, registries: iset<seq<SkillRow>>, snapshot: seq<Spec>, skills: seq<SkillRow>, task: Task)
    requires TaskIn(cfg, registries, snapshot, task)
    ensures TaskIn(cfg, registries, Declaratives(snapshot, skills, cfg.org).snapshot, task)
  {
    var later := Declaratives(snapshot, skills, cfg.org).snapshot;
    match task
    case Drafted(drafts) =>
      forall d | d in drafts ensures RowIn(cfg, registries, later, d) {
        RowStaysIn(cfg, registries, snapshot, skills, d);
      }
    case Polling(ready, _) =>
      forall it | it in ready ensures ItemIn(cfg, registries, later, it) {
        ItemStaysIn(cfg, registries, snapshot, skills, it);
      }
    case Chosen(items) =>
      forall it | it in items ensures ItemIn(cfg, registries, later, it) {
        ItemStaysIn(cfg, registries, snapshot, skills, it);
      }
    case _ =>
  }

  /** What a phase works with are the skills of one of the registries. */
  lemma FromARegistry(cfg: Config, registries: iset<seq<SkillRow>>, snapshot: seq<Spec>, skills: seq<SkillRow>)
    returns (origin: seq<SkillRow>)
    requires skills in registries && FrozenFrom(cfg, registries, snapshot)
    ensures origin in registries && Declaratives(snapshot, skills, cfg.org).checks == Load(origin, cfg.org)
    ensures FrozenFrom(cfg, registries, Declaratives(snapshot, skills, cfg.org).snapshot)
  {
    if snapshot == [] {
      origin := skills;
    } else {
      origin :| origin in registries && snapshot == SpecsOf(Load(origin, cfg.org));
      SnapshotRoundTrip(origin, cfg.org);
    }
  }

  lemma FreezeStaysIn(cfg: Config, registries: iset<seq<SkillRow>>, w: World)
    requires WorldIn(cfg, registries, w)
    ensures WorldIn(cfg, registries, w.(snapshot := Declaratives(w.snapshot, w.skills, cfg.org).snapshot))
  {
    var later := Declaratives(w.snapshot, w.skills, cfg.org).snapshot;
    var origin := FromARegistry(cfg, registries, w.snapshot, w.skills);
    forall id | id in w.rows ensures RowIn(cfg, registries, later, w.rows[id]) {
      RowStaysIn(cfg, registries, w.snapshot, w.skills, w.rows[id]);
    }
    forall t | t in w.tasks ensures TaskIn(cfg, registries, later, w.tasks[t]) {
      TaskStaysIn(cfg, registries, w.snapshot, w.skills, w.tasks[t]);
    }
  }

  /** To keep a world in it is enough to look at what an action changed. */
  lemma ChangedStaysIn(cfg: Config, registries: iset<seq<SkillRow>>, w: World, w': World)
    requires WorldIn(cfg, registries, w) && LogIn(cfg, registries, w'.log)
    requires w'.skills == w.skills && w'.snapshot == w.snapshot
    requires forall id :: id in w'.rows ==>
      (id in w.rows && w'.rows[id] == w.rows[id]) || RowIn(cfg, registries, w.snapshot, w'.rows[id])
    requires forall t :: t in w'.tasks ==>
      (t in w.tasks && w'.tasks[t] == w.tasks[t]) || TaskIn(cfg, registries, w.snapshot, w'.tasks[t])
    ensures WorldIn(cfg, registries, w')
  {
  }

  lemma TaskSet(cfg: Config, registries: iset<seq<SkillRow>>, w: World, t: nat, task: Task)
    requires WorldIn(cfg, registries, w) && TaskIn(cfg, registries, w.snapshot, task)
    ensures WorldIn(cfg, registries, w.(tasks := w.tasks[t := task]))
  {
  }

  lemma RowSet(cfg: Config, registries: iset<seq<SkillRow>>, w: World, id: nat, row: Row, log: seq<Event>)
    requires WorldIn(cfg, registries, w) && RowIn(cfg, registries, w.snapshot, row) && LogIn(cfg, registries, log)
    ensures WorldIn(cfg, registries, w.(rows := w.rows[id := row], log := log))
  {
  }

  lemma LogSet(cfg: Config, registries: iset<seq<SkillRow>>, w: World, log: seq<Event>)
    requires WorldIn(cfg, registries, w) && LogIn(cfg, registries, log)
    ensures WorldIn(cfg, registries, w.(log := log))
  {
  }

  // The actions.

  lemma DraftIn(cfg: Config, registries: iset<seq<SkillRow>>, skills: seq<SkillRow>, snapshot: seq<Spec>, c: Check)
    requires skills in registries && ChecksFrom(snapshot) == Load(skills, cfg.org)
    requires c in Candidates(skills, cfg.org) && Plannable(cfg, c)
    ensures RowIn(cfg, registries, snapshot, Draft(c))
  {
    var k := Resolve(c.Name(), c.Class(), Load(skills, cfg.org));
    if k.Some? && Gate(cfg.record, c.Class(), k.value) == Ok {
      RunnableExactly(cfg, skills, c, k.value);
      assert Runnable(cfg, skills, c, k.value);
    }
  }

  lemma PlanStaysIn(cfg: Config, registries: iset<seq<SkillRow>>, w: World, t: nat, picks: seq<nat>)
    requires WorldIn(cfg, registries, w)
    ensures WorldIn(cfg, registries, AfterPlan(cfg, w, t, picks))
  {
    var w' := AfterPlan(cfg, w, t, picks);
    var f := Declaratives(w.snapshot, w.skills, cfg.org);
    var candidates := BUILTINS + f.checks;
    if !(t in w.tasks || exists p :: p in picks && (p >= |candidates| || !Plannable(cfg, candidates[p]))) {
      FreezeStaysIn(cfg, registries, w);
      var origin := FromARegistry(cfg, registries, w.snapshot, w.skills);
      forall d | d in w'.tasks[t].drafts ensures RowIn(cfg, registries, f.snapshot, d) {
        var k :| 0 <= k < |picks| && w'.tasks[t].drafts[k] == d;
        assert picks[k] in picks;
        DraftIn(cfg, registries, origin, f.snapshot, candidates[picks[k]]);
      }
    }
  }

  lemma WritePlanStaysIn(cfg: Config, registries: iset<seq<SkillRow>>, w: World, t: nat)
    requires WorldIn(cfg, registries, w)
    ensures WorldIn(cfg, registries, AfterWritePlan(w, t))
  {
    var w' := AfterWritePlan(w, t);
    if t in w.tasks && w.tasks[t].Drafted? {
      var drafts := w.tasks[t].drafts;
      assert TaskIn(cfg, registries, w.snapshot, w.tasks[t]);
      forall id | id in w'.rows ensures RowIn(cfg, registries, w.snapshot, w'.rows[id]) {
        if w.nextId <= id < w.nextId + |drafts| {
          assert w'.rows[id] == drafts[Offset(id, w.nextId)];
        }
      }
    }
  }

  lemma {:induction false} ItemsStayIn(cfg: Config, registries: iset<seq<SkillRow>>, snapshot: seq<Spec>,
                                       rows: map<nat, Row>, ids: seq<nat>)
    requires (forall id :: id in ids ==> id in rows) && forall id :: id in rows ==> RowIn(cfg, registries, snapshot, rows[id])
    ensures forall it :: it in ItemsWith(rows, ids, Approved) ==> ItemIn(cfg, registries, snapshot, it)
    decreases |ids|
  {
    if ids != [] {
      assert RowIn(cfg, registries, snapshot, rows[ids[0]]);
      ItemsStayIn(cfg, registries, snapshot, rows, ids[1..]);
    }
  }

  lemma GatedRowIn(cfg: Config, registries: iset<seq<SkillRow>>, snapshot: seq<Spec>, row: Row, checks: seq<Check>)
    requires RowIn(cfg, registries, snapshot, row) && checks == ChecksFrom(snapshot)
    ensures RowIn(cfg, registries, snapshot, row.(status := StatusAfter(cfg, row, checks)))
  {
  }

  lemma GatedRowsIn(cfg: Config, registries: iset<seq<SkillRow>>, snapshot: seq<Spec>, rows: map<nat, Row>, ids: seq<nat>,
                    checks: seq<Check>)
    requires (forall id :: id in rows ==> RowIn(cfg, registries, snapshot, rows[id])) && checks == ChecksFrom(snapshot)
    ensures forall id :: id in rows ==> RowIn(cfg, registries, snapshot, GateRows(cfg, rows, ids, checks)[id])
  {
    forall id | id in rows ensures RowIn(cfg, registries, snapshot, GateRows(cfg, rows, ids, checks)[id]) {
      GatedRowIn(cfg, registries, snapshot, rows[id], checks);
    }
  }

  lemma MoreGatesIn(cfg: Config, registries: iset<seq<SkillRow>>, log: seq<Event>, rows: map<nat, Row>, ids: seq<nat>,
                    checks: seq<Check>)
    requires LogIn(cfg, registries, log) && forall id :: id in ids ==> id in rows
    ensures LogIn(cfg, registries, log + GateEvents(cfg, rows, ids, checks))
  {
    GateEventsAreHonest(cfg, rows, ids, checks);
  }

  lemma PolicyStaysIn(cfg: Config, registries: iset<seq<SkillRow>>, w: World, t: nat)
    requires WorldIn(cfg, registries, w)
    ensures WorldIn(cfg, registries, AfterPolicy(cfg, w, t))
  {
    if t in w.tasks && w.tasks[t].Gating? && forall id :: id in w.tasks[t].ids ==> id in w.rows {
      var ids := w.tasks[t].ids;
      var f := Declaratives(w.snapshot, w.skills, cfg.org);
      var task := PolicyCommits(cfg, w, t, f);
      FreezeStaysIn(cfg, registries, w);
      GatedRowsIn(cfg, registries, f.snapshot, w.rows, ids, f.checks);
      MoreGatesIn(cfg, registries, w.log, w.rows, ids, f.checks);
      ItemsStayIn(cfg, registries, f.snapshot, GateRows(cfg, w.rows, ids, f.checks), ids);
      ChangedStaysIn(cfg, registries, w.(snapshot := f.snapshot), AfterPolicy(cfg, w, t));
    }
  }

  lemma PolicyCommits(cfg: Config, w: World, t: nat, f: Frozen) returns (task: Task)
    requires t in w.tasks && w.tasks[t].Gating? && forall id :: id in w.tasks[t].ids ==> id in w.rows
    requires f == Declaratives(w.snapshot, w.skills, cfg.org)
    ensures AfterPolicy(cfg, w, t) ==
            w.(rows := GateRows(cfg, w.rows, w.tasks[t].ids, f.checks), snapshot := f.snapshot,
               log := w.log + GateEvents(cfg, w.rows, w.tasks[t].ids, f.checks), tasks := w.tasks[t := task])
    ensures task.Polling? && task.ready == ItemsWith(GateRows(cfg, w.rows, w.tasks[t].ids, f.checks), w.tasks[t].ids, Approved)
  {
    var ids := w.tasks[t].ids;
    var rows := GateRows(cfg, w.rows, ids, f.checks);
    task := Polling(ItemsWith(rows, ids, Approved), set id | id in ids && rows[id].status == Awaiting);
  }

  lemma OneMoreReady(cfg: Config, registries: iset<seq<SkillRow>>, snapshot: seq<Spec>, ready: seq<Item>, id: nat, row: Row,
                     pending: set<nat>, left: set<nat>)
    requires TaskIn(cfg, registries, snapshot, Polling(ready, pending)) && RowIn(cfg, registries, snapshot, row)
    ensures TaskIn(cfg, registries, snapshot, Polling(ready, left)) && TaskIn(cfg, registries, snapshot, Chosen(ready))
    ensures row.status == Approved ==>
      TaskIn(cfg, registries, snapshot, Polling(ready + [Item(id, row.name, row.checkClass)], left))
  {
  }

  lemma PollStaysIn(cfg: Config, registries: iset<seq<SkillRow>>, w: World, t: nat, id: nat)
    requires WorldIn(cfg, registries, w)
    ensures WorldIn(cfg, registries, AfterPollOne(w, t, id))
  {
    var w' := AfterPollOne(w, t, id);
    if w' != w {
      var ready, pending := w.tasks[t].ready, w.tasks[t].pending;
      assert TaskIn(cfg, registries, w.snapshot, w.tasks[t]) && w.tasks[t] == Polling(ready, pending);
      OneMoreReady(cfg, registries, w.snapshot, ready, id, w.rows[id], pending, pending - {id});
      TaskSet(cfg, registries, w, t, w'.tasks[t]);
    }
  }

  lemma StopStaysIn(cfg: Config, registries: iset<seq<SkillRow>>, w: World, t: nat)
    requires WorldIn(cfg, registries, w)
    ensures WorldIn(cfg, registries, AfterStopWaiting(w, t))
  {
    if t in w.tasks && w.tasks[t].Polling? {
      assert TaskIn(cfg, registries, w.snapshot, w.tasks[t]);
      TaskSet(cfg, registries, w, t, Chosen(w.tasks[t].ready));
    }
  }

  lemma SelectStaysIn(cfg: Config, registries: iset<seq<SkillRow>>, w: World, t: nat, ids: seq<nat>)
    requires WorldIn(cfg, registries, w)
    ensures WorldIn(cfg, registries, AfterSelectPlanned(w, t, ids))
    ensures WorldIn(cfg, registries, AfterSelectApproved(w, t, ids))
  {
    if forall id :: id in ids ==> id in w.rows {
      ItemsStayIn(cfg, registries, w.snapshot, w.rows, ids);
    }
  }

  lemma DecidedRowIn(cfg: Config, registries: iset<seq<SkillRow>>, snapshot: seq<Spec>, row: Row)
    requires RowIn(cfg, registries, snapshot, row)
    ensures row.status == Awaiting ==> RowIn(cfg, registries, snapshot, row.(status := Approved))
    ensures RowIn(cfg, registries, snapshot, row.(status := Refused)) && RowIn(cfg, registries, snapshot, row.(status := Skipped))
  {
  }

  lemma DecideStaysIn(cfg: Config, registries: iset<seq<SkillRow>>, w: World, id: nat)
    requires WorldIn(cfg, registries, w)
    ensures WorldIn(cfg, registries, AfterApprove(w, id))
    ensures WorldIn(cfg, registries, AfterDeny(w, id))
  {
    if id in w.rows && w.rows[id].status == Awaiting {
      DecidedRowIn(cfg, registries, w.snapshot, w.rows[id]);
      RowSet(cfg, registries, w, id, w.rows[id].(status := Approved), w.log + [OperatorApproved(id)]);
      RowSet(cfg, registries, w, id, w.rows[id].(status := Refused), w.log + [OperatorDenied(id)]);
    }
  }

  lemma BlockStaysIn(cfg: Config, registries: iset<seq<SkillRow>>, w: World, ids: seq<nat>)
    requires WorldIn(cfg, registries, w)
    ensures WorldIn(cfg, registries, AfterLateBlocked(w, ids))
  {
    forall id | id in w.rows ensures RowIn(cfg, registries, w.snapshot, w.rows[id].(status := Skipped)) {
      DecidedRowIn(cfg, registries, w.snapshot, w.rows[id]);
    }
  }

  lemma {:induction false} AgentsIn(cfg: Config, registries: iset<seq<SkillRow>>, snapshot: seq<Spec>, items: seq<Item>)
    requires forall it :: it in items ==> ItemIn(cfg, registries, snapshot, it)
    ensures forall g :: g in AgentsFor(items, ChecksFrom(snapshot)) ==> CanRun(cfg, registries, g.checkClass, g.check)
    decreases |items|
  {
    if items != [] {
      assert ItemIn(cfg, registries, snapshot, items[0]);
      AgentsIn(cfg, registries, snapshot, items[1..]);
    }
  }

  lemma BuildStaysIn(cfg: Config, registries: iset<seq<SkillRow>>, w: World, t: nat)
    requires WorldIn(cfg, registries, w)
    ensures WorldIn(cfg, registries, AfterBuildAgents(cfg, w, t))
  {
    if t in w.tasks && w.tasks[t].Chosen? && w.tasks[t].items != [] {
      var items := w.tasks[t].items;
      var f := Declaratives(w.snapshot, w.skills, cfg.org);
      FreezeStaysIn(cfg, registries, w);
      TaskStaysIn(cfg, registries, w.snapshot, w.skills, w.tasks[t]);
      ChosenRunIn(cfg, registries, f.snapshot, items, f.checks);
      BuildCommits(cfg, w, t, items, f);
      ChangedStaysIn(cfg, registries, w.(snapshot := f.snapshot), AfterBuildAgents(cfg, w, t));
    }
  }

  lemma ChosenRunIn(cfg: Config, registries: iset<seq<SkillRow>>, snapshot: seq<Spec>, items: seq<Item>, checks: seq<Check>)
    requires TaskIn(cfg, registries, snapshot, Chosen(items)) && items != [] && checks == ChecksFrom(snapshot)
    ensures TaskIn(cfg, registries, snapshot, Running(AgentsFor(items, checks), checks))
  {
    AgentsIn(cfg, registries, snapshot, items);
    assert ItemIn(cfg, registries, snapshot, items[0]);
  }

  lemma BuildCommits(cfg: Config, w: World, t: nat, items: seq<Item>, f: Frozen)
    requires t in w.tasks && w.tasks[t] == Chosen(items) && items != [] && f == Declaratives(w.snapshot, w.skills, cfg.org)
    ensures AfterBuildAgents(cfg, w, t) ==
            w.(snapshot := f.snapshot, tasks := w.tasks[t := Running(AgentsFor(items, f.checks), f.checks)])
  {
  }

  lemma EndedRowIn(cfg: Config, registries: iset<seq<SkillRow>>, snapshot: seq<Spec>, row: Row, status: Status)
    requires RowIn(cfg, registries, snapshot, row) && (status == Done || status == Errored)
    ensures RowIn(cfg, registries, snapshot, row.(status := status))
  {
  }

  lemma ExecuteStaysIn(cfg: Config, registries: iset<seq<SkillRow>>, w: World, t: nat, k: nat, persist: Persist)
    requires WorldIn(cfg, registries, w)
    ensures WorldIn(cfg, registries, AfterExecute(w, t, k, persist))
  {
    if t in w.tasks && w.tasks[t].Running? && k < |w.tasks[t].agents| {
      var g := w.tasks[t].agents[k];
      var log := w.log + [Executed(g.id, g.checkClass, g.check)];
      assert TaskIn(cfg, registries, w.snapshot, w.tasks[t]) && g in w.tasks[t].agents;
      OneMoreExecution(cfg, registries, w.log, g);
      if g.id in w.rows {
        var status := if persist == Failed then Errored else Done;
        EndedRowIn(cfg, registries, w.snapshot, w.rows[g.id], status);
        RowSet(cfg, registries, w, g.id, w.rows[g.id].(status := status), log);
      }
      LogSet(cfg, registries, w, log);
    }
  }

  lemma OneMoreExecution(cfg: Config, registries: iset<seq<SkillRow>>, log: seq<Event>, g: Agent)
    requires LogIn(cfg, registries, log) && CanRun(cfg, registries, g.checkClass, g.check)
    ensures LogIn(cfg, registries, log + [Executed(g.id, g.checkClass, g.check)])
  {
  }

  /** A replanned item can run, whatever skills are around. */
  lemma ReplannedIn(cfg: Config, registries: iset<seq<SkillRow>>, snapshot: seq<Spec>, it: Item, check: Check)
    requires cfg.replans && Opens(cfg, registries) && it.name == check.Name()
    requires Fits(BUILTINS, cfg.record, it.checkClass, check)
    ensures ItemIn(cfg, registries, snapshot, it) && CanRun(cfg, registries, it.checkClass, check)
    ensures forall declaratives :: Resolve(it.name, it.checkClass, declaratives) == Some(check)
  {
    BuiltInResolves(check, it.checkClass);
    ClosesExactly(BUILTINS, cfg.record, it.checkClass, check);
    assert ByReplan(cfg, registries, it.checkClass, check);
  }

  ghost predicate Replannable(cfg: Config, registries: iset<seq<SkillRow>>, it: Item) {
    exists check ::
      CanRun(cfg, registries, it.checkClass, check) &&
      forall declaratives :: Resolve(it.name, it.checkClass, declaratives) == Some(check)
  }

  lemma {:induction false} AddedAgentsIn(cfg: Config, registries: iset<seq<SkillRow>>, items: seq<Item>, declaratives: seq<Check>)
    requires forall it :: it in items ==> Replannable(cfg, registries, it)
    ensures forall g :: g in AgentsFor(items, declaratives) ==> CanRun(cfg, registries, g.checkClass, g.check)
    decreases |items|
  {
    if items != [] {
      assert Replannable(cfg, registries, items[0]);
      AddedAgentsIn(cfg, registries, items[1..], declaratives);
    }
  }

  lemma ReplannedItemsIn(cfg: Config, registries: iset<seq<SkillRow>>, snapshot: seq<Spec>, checks: seq<Check>, gaps: seq<string>,
                         nextId: nat)
    requires cfg.replans && Opens(cfg, registries) && |checks| == |gaps|
    requires forall k :: 0 <= k < |gaps| ==> Fits(BUILTINS, cfg.record, gaps[k], checks[k])
    ensures forall it :: it in ReplanItems(checks, gaps, nextId) ==>
      ItemIn(cfg, registries, snapshot, it) && Replannable(cfg, registries, it)
  {
    var items := ReplanItems(checks, gaps, nextId);
    forall it | it in items ensures ItemIn(cfg, registries, snapshot, it) && Replannable(cfg, registries, it) {
      var k :| 0 <= k < |items| && items[k] == it;
      ReplannedIn(cfg, registries, snapshot, it, checks[k]);
    }
  }

  lemma ReplannedRowIn(cfg: Config, registries: iset<seq<SkillRow>>, snapshot: seq<Spec>, it: Item)
    requires ItemIn(cfg, registries, snapshot, it)
    ensures RowIn(cfg, registries, snapshot, Row(it.name, it.checkClass, Approved))
  {
  }

  lemma ReplannedRowsIn(cfg: Config, registries: iset<seq<SkillRow>>, snapshot: seq<Spec>, checks: seq<Check>, gaps: seq<string>,
                        nextId: nat)
    requires |checks| == |gaps|
    requires forall it :: it in ReplanItems(checks, gaps, nextId) ==> ItemIn(cfg, registries, snapshot, it)
    ensures forall id :: id in ReplanRows(checks, gaps, nextId) ==>
      RowIn(cfg, registries, snapshot, ReplanRows(checks, gaps, nextId)[id])
  {
    var rows := ReplanRows(checks, gaps, nextId);
    forall id | id in rows ensures RowIn(cfg, registries, snapshot, rows[id]) {
      var it := ReplanRowIsItem(checks, gaps, nextId, id);
      ReplannedRowIn(cfg, registries, snapshot, it);
    }
  }

  lemma MoreAgentsIn(cfg: Config, registries: iset<seq<SkillRow>>, snapshot: seq<Spec>, task: Task, added: seq<Agent>)
    requires task.Running? && TaskIn(cfg, registries, snapshot, task)
    requires forall g :: g in added ==> CanRun(cfg, registries, g.checkClass, g.check)
    ensures TaskIn(cfg, registries, snapshot, task.(agents := task.agents + added))
  {
  }

  lemma ReplansAreNoExecutions(cfg: Config, registries: iset<seq<SkillRow>>, log: seq<Event>, checks: seq<Check>, gaps: seq<string>,
                               nextId: nat)
    requires LogIn(cfg, registries, log) && |checks| == |gaps|
    ensures LogIn(cfg, registries, log + ReplanEvents(checks, gaps, nextId))
  {
  }

  lemma ReplanWithStaysIn(cfg: Config, registries: iset<seq<SkillRow>>, w: World, t: nat, checks: seq<Check>, gaps: seq<string>)
    requires WorldIn(cfg, registries, w) && t in w.tasks && w.tasks[t].Running? && |checks| == |gaps| && cfg.replans
    requires forall k :: 0 <= k < |gaps| ==> Fits(BUILTINS, cfg.record, gaps[k], checks[k])
    ensures WorldIn(cfg, registries, ReplanWith(w, t, checks, gaps))
  {
    var items := ReplanItems(checks, gaps, w.nextId);
    assert TaskIn(cfg, registries, w.snapshot, w.tasks[t]);
    ReplannedItemsIn(cfg, registries, w.snapshot, checks, gaps, w.nextId);
    AddedAgentsIn(cfg, registries, items, w.tasks[t].declaratives);
    MoreAgentsIn(cfg, registries, w.snapshot, w.tasks[t], AgentsFor(items, w.tasks[t].declaratives));
    ReplannedRowsIn(cfg, registries, w.snapshot, checks, gaps, w.nextId);
    ReplansAreNoExecutions(cfg, registries, w.log, checks, gaps, w.nextId);
    ChangedStaysIn(cfg, registries, w, ReplanWith(w, t, checks, gaps));
  }

  lemma ReplanStaysIn(cfg: Config, registries: iset<seq<SkillRow>>, w: World, t: nat, gaps: seq<string>)
    requires WorldIn(cfg, registries, w)
    ensures WorldIn(cfg, registries, AfterReplan(cfg, w, t, gaps))
  {
    if cfg.replans && t in w.tasks && w.tasks[t].Running? && forall c :: c in gaps ==> ReplanClass(BUILTINS, cfg.record, c) {
      var checks := Fillers(BUILTINS, cfg.record, gaps);
      ReplanWithStaysIn(cfg, registries, w, t, checks, gaps);
    }
  }

  lemma StepStaysIn(cfg: Config, registries: iset<seq<SkillRow>>, w: World, a: Action)
    requires WorldIn(cfg, registries, w) && (a.Register? ==> a.skills in registries)
    ensures WorldIn(cfg, registries, Next(cfg, w, a))
  {
    match a
    case Plan(t, picks) => PlanStaysIn(cfg, registries, w, t, picks);
    case WritePlan(t) => WritePlanStaysIn(cfg, registries, w, t);
    case SelectPlanned(t, ids) => SelectStaysIn(cfg, registries, w, t, ids);
    case Policy(t) => PolicyStaysIn(cfg, registries, w, t);
    case PollOne(t, id) => PollStaysIn(cfg, registries, w, t, id);
    case StopWaiting(t) => StopStaysIn(cfg, registries, w, t);
    case SelectApproved(t, ids) => SelectStaysIn(cfg, registries, w, t, ids);
    case LateBlocked(ids) => BlockStaysIn(cfg, registries, w, ids);
    case BuildAgents(t) => BuildStaysIn(cfg, registries, w, t);
    case Execute(t, k, persist) => ExecuteStaysIn(cfg, registries, w, t, k, persist);
    case Replan(t, gaps) => ReplanStaysIn(cfg, registries, w, t, gaps);
    case Approve(id) => DecideStaysIn(cfg, registries, w, id);
    case Deny(id) => DecideStaysIn(cfg, registries, w, id);
    case _ =>
  }

  lemma {:induction false} RunStaysIn(cfg: Config, registries: iset<seq<SkillRow>>, w: World, actions: seq<Action>)
    requires WorldIn(cfg, registries, w) && forall a :: a in actions && a.Register? ==> a.skills in registries
    ensures WorldIn(cfg, registries, Run(cfg, w, actions))
    decreases |actions|
  {
    if actions != [] {
      StepStaysIn(cfg, registries, w, actions[0]);
      RunStaysIn(cfg, registries, Next(cfg, w, actions[0]), actions[1..]);
    }
  }

  // ---- Everything told can run -------------------------------------------------------------------------

  /** A run in which the registry does not change: where it starts, what happens, where it is. */
  datatype Path = Path(start: World, actions: seq<Action>, world: World)

  ghost predicate Walked(cfg: Config, p: Path) {
    Run(cfg, p.start, p.actions) == p.world && forall a :: a in p.actions ==> !a.Register?
  }

  lemma {:induction false} RunLast(cfg: Config, w: World, actions: seq<Action>, a: Action)
    ensures Run(cfg, w, actions + [a]) == Next(cfg, Run(cfg, w, actions), a)
    decreases |actions|
  {
    if actions == [] {
      assert actions + [a] == [a] && [a][1..] == [];
    } else {
      assert (actions + [a])[1..] == actions[1..] + [a];
      RunLast(cfg, Next(cfg, w, actions[0]), actions[1..], a);
    }
  }

  lemma Walk(cfg: Config, p: Path, a: Action, next: World) returns (q: Path)
    requires Walked(cfg, p) && !a.Register? && Next(cfg, p.world, a) == next
    ensures Walked(cfg, q) && q.start == p.start && q.world == next
  {
    RunLast(cfg, p.start, p.actions, a);
    q := Path(p.start, p.actions + [a], next);
  }

  /** The registry, and what the phases made of it, stay as they are. */
  ghost predicate Settled(cfg: Config, w: World, skills: seq<SkillRow>) {
    w.skills == skills && w.snapshot == Declaratives([], skills, cfg.org).snapshot
  }

  lemma SettledPhase(cfg: Config, w: World, skills: seq<SkillRow>)
    requires Settled(cfg, w, skills)
    ensures Declaratives(w.snapshot, w.skills, cfg.org) == Frozen(Load(skills, cfg.org), w.snapshot)
  {
    SnapshotRoundTrip(skills, cfg.org);
  }

  lemma PlanOne(cfg: Config, w: World, skills: seq<SkillRow>, c: Check) returns (pick: nat)
    requires w == Start(skills) && c in Candidates(skills, cfg.org) && Plannable(cfg, c)
    ensures AfterPlan(cfg, w, 0, [pick]) ==
            w.(snapshot := Declaratives([], skills, cfg.org).snapshot, tasks := map[0 := Drafted([Draft(c)])])
  {
    var f := Declaratives([], skills, cfg.org);
    var candidates := BUILTINS + f.checks;
    pick :| 0 <= pick < |candidates| && candidates[pick] == c;
    assert [pick][0] == pick && forall p: nat :: p in [pick] ==> p == pick;
    assert AfterPlan(cfg, w, 0, [pick]).tasks[0].drafts == [Draft(c)];
  }

  lemma WriteOne(w: World, row: Row)
    requires w.rows == map[] && w.nextId == 0 && w.tasks == map[0 := Drafted([row])]
    ensures AfterWritePlan(w, 0) == w.(rows := map[0 := row], nextId := 1, tasks := map[0 := Gating([0])])
  {
    var w' := AfterWritePlan(w, 0);
    assert w'.tasks[0].ids == [0];
    assert 0 in w'.rows && w'.rows[0] == [row][Offset(0, 0)];
    assert w'.rows == map[0 := row];
  }

  lemma GateOne(cfg: Config, rows: map<nat, Row>, row: Row, checks: seq<Check>)
    requires rows == map[0 := row]
    ensures GateRows(cfg, rows, [0], checks) == map[0 := row.(status := StatusAfter(cfg, row, checks))]
  {
    assert [0][0] == 0;
  }

  /** A step about to be executed: approved, and known to nobody. */
  ghost predicate AtStep(cfg: Config, w: World, skills: seq<SkillRow>, row: Row) {
    Settled(cfg, w, skills) && w.rows == map[0 := row] && 1 !in w.tasks
  }

  lemma WalkToGate(cfg: Config, skills: seq<SkillRow>, c: Check) returns (p: Path)
    requires c in Candidates(skills, cfg.org) && Plannable(cfg, c)
    ensures Walked(cfg, p) && p.start == Start(skills) && AtStep(cfg, p.world, skills, Draft(c)) && p.world.log == []
    ensures p.world.tasks == map[0 := Gating([0])]
  {
    var w := Start(skills);
    p := Path(w, [], w);
    var pick := PlanOne(cfg, w, skills, c);
    p := Walk(cfg, p, Plan(0, [pick]), AfterPlan(cfg, w, 0, [pick]));
    WriteOne(p.world, Draft(c));
    p := Walk(cfg, p, WritePlan(0), AfterWritePlan(p.world, 0));
  }

  lemma GatePasses(cfg: Config, w: World, skills: seq<SkillRow>, row: Row, status: Status)
    requires AtStep(cfg, w, skills, row) && w.tasks == map[0 := Gating([0])]
    requires status == StatusAfter(cfg, row, Load(skills, cfg.org))
    ensures AtStep(cfg, AfterPolicy(cfg, w, 0), skills, row.(status := status))
  {
    var f := Frozen(Load(skills, cfg.org), w.snapshot);
    SettledPhase(cfg, w, skills);
    assert forall id :: id in w.tasks[0].ids ==> id == 0;
    var task := PolicyCommits(cfg, w, 0, f);
    GateOne(cfg, w.rows, row, f.checks);
  }

  lemma NextIsPolicy(cfg: Config, w: World, t: nat, a: Action)
    requires a == Policy(t)
    ensures Next(cfg, w, a) == AfterPolicy(cfg, w, t)
  {
  }

  lemma WalkPastGate(cfg: Config, p: Path, skills: seq<SkillRow>, row: Row, status: Status) returns (q: Path)
    requires Walked(cfg, p) && AtStep(cfg, p.world, skills, row) && p.world.tasks == map[0 := Gating([0])]
    requires status == StatusAfter(cfg, row, Load(skills, cfg.org))
    ensures Walked(cfg, q) && q.start == p.start && AtStep(cfg, q.world, skills, row.(status := status))
  {
    GatePasses(cfg, p.world, skills, row, status);
    NextIsPolicy(cfg, p.world, 0, Policy(0));
    q := Walk(cfg, p, Policy(0), AfterPolicy(cfg, p.world, 0));
  }

  /** The operator approves the step if it is held. */
  lemma WalkToApproved(cfg: Config, p: Path, skills: seq<SkillRow>, row: Row) returns (q: Path)
    requires Walked(cfg, p) && AtStep(cfg, p.world, skills, row) && (row.status == Approved || row.status == Awaiting)
    ensures Walked(cfg, q) && q.start == p.start && AtStep(cfg, q.world, skills, row.(status := Approved))
  {
    q := p;
    if row.status == Awaiting {
      assert p.world.rows[0 := row.(status := Approved)] == map[0 := row.(status := Approved)];
      q := Walk(cfg, p, Approve(0), AfterApprove(p.world, 0));
    }
  }

  lemma ReadyOne(rows: map<nat, Row>, ids: seq<nat>, row: Row)
    requires rows == map[0 := row] && ids == [0] && row.status == Approved
    ensures ItemsWith(rows, ids, Approved) == [Item(0, row.name, row.checkClass)]
  {
    assert ids[1..] == [] && ItemsWith(rows, [], Approved) == [];
  }

  lemma SelectOne(w: World, row: Row)
    requires w.rows == map[0 := row] && row.status == Approved && 1 !in w.tasks
    ensures AfterSelectApproved(w, 1, [0]) == w.(tasks := w.tasks[1 := Chosen([Item(0, row.name, row.checkClass)])])
  {
    var ids: seq<nat> := [0];
    assert forall id :: id in ids ==> id == 0;
    ReadyOne(w.rows, ids, row);
  }

  lemma OneAgent(it: Item, check: Check, checks: seq<Check>)
    requires Resolve(it.name, it.checkClass, checks) == Some(check)
    ensures AgentsFor([it], checks) == [Agent(it.id, it.checkClass, check)]
  {
    assert [it][1..] == [] && AgentsFor([], checks) == [];
  }

  /** Task 1 runs the agents. */
  ghost predicate Runs(w: World, agents: seq<Agent>) {
    1 in w.tasks && w.tasks[1].Running? && w.tasks[1].agents == agents
  }

  lemma BuildOne(cfg: Config, w: World, skills: seq<SkillRow>, it: Item, k: Check)
    requires Settled(cfg, w, skills) && 1 in w.tasks && w.tasks[1] == Chosen([it])
    requires Resolve(it.name, it.checkClass, Load(skills, cfg.org)) == Some(k)
    ensures Runs(AfterBuildAgents(cfg, w, 1), [Agent(it.id, it.checkClass, k)])
  {
    var f := Frozen(Load(skills, cfg.org), w.snapshot);
    SettledPhase(cfg, w, skills);
    BuildCommits(cfg, w, 1, [it], f);
    OneAgent(it, k, f.checks);
  }

  lemma NextIsBuild(cfg: Config, w: World, t: nat, a: Action)
    requires a == BuildAgents(t)
    ensures Next(cfg, w, a) == AfterBuildAgents(cfg, w, t)
  {
  }

  lemma WalkToRunning(cfg: Config, p: Path, skills: seq<SkillRow>, row: Row, k: Check) returns (q: Path)
    requires Walked(cfg, p) && AtStep(cfg, p.world, skills, row) && row.status == Approved
    requires Resolve(row.name, row.checkClass, Load(skills, cfg.org)) == Some(k)
    ensures Walked(cfg, q) && q.start == p.start && Runs(q.world, [Agent(0, row.checkClass, k)])
  {
    var it := Item(0, row.name, row.checkClass);
    SelectOne(p.world, row);
    q := Walk(cfg, p, SelectApproved(1, [0]), p.world.(tasks := p.world.tasks[1 := Chosen([it])]));
    BuildOne(cfg, q.world, skills, it, k);
    NextIsBuild(cfg, q.world, 1, BuildAgents(1));
    q := Walk(cfg, q, BuildAgents(1), AfterBuildAgents(cfg, q.world, 1));
  }

  /** Plan, store, gate, approve if asked, pick up and bind to its check. */
  lemma WalkToCandidate(cfg: Config, skills: seq<SkillRow>, c: Check, k: Check) returns (p: Path)
    requires Runnable(cfg, skills, c, k)
    ensures Walked(cfg, p) && p.start == Start(skills) && Runs(p.world, [Agent(0, c.Class(), k)])
  {
    var status := StatusAfter(cfg, Draft(c), Load(skills, cfg.org));
    RunnableExactly(cfg, skills, c, k);
    p := WalkToGate(cfg, skills, c);
    p := WalkPastGate(cfg, p, skills, Draft(c), status);
    p := WalkToApproved(cfg, p, skills, Draft(c).(status := status));
    p := WalkToRunning(cfg, p, skills, Draft(c).(status := Approved), k);
  }

  lemma WalkToEvent(cfg: Config, p: Path, agents: seq<Agent>, i: nat) returns (q: Path)
    requires Walked(cfg, p) && Runs(p.world, agents) && i < |agents|
    ensures Walked(cfg, q) && q.start == p.start && Executes(q.world.log, agents[i].checkClass, agents[i].check)
  {
    q := Walk(cfg, p, Execute(1, i, Lost), AfterExecute(p.world, 1, i, Lost));
    assert q.world.log[|q.world.log| - 1] == Executed(agents[i].id, agents[i].checkClass, agents[i].check);
  }

  lemma ReplanCommits(cfg: Config, w: World, t: nat, gaps: seq<string>) returns (checks: seq<Check>)
    requires cfg.replans && t in w.tasks && w.tasks[t].Running? && forall c :: c in gaps ==> ReplanClass(BUILTINS, cfg.record, c)
    ensures |checks| == |gaps| && forall k :: 0 <= k < |gaps| ==> Fits(BUILTINS, cfg.record, gaps[k], checks[k])
    ensures AfterReplan(cfg, w, t, gaps) == ReplanWith(w, t, checks, gaps)
  {
    checks := Fillers(BUILTINS, cfg.record, gaps);
  }

  lemma ItemOfOne(gap: string, check: Check, nextId: nat)
    ensures ReplanItems([check], [gap], nextId) == [Item(nextId, check.Name(), gap)]
  {
  }

  /** Replanning one gap gives task 1 one more agent. */
  lemma ReplanOne(cfg: Config, w: World, agent: Agent, gap: string, k: Check) returns (added: Agent)
    requires Runs(w, [agent]) && cfg.replans
    requires ReplanClass(BUILTINS, cfg.record, gap) && FirstOfClass(BUILTINS, gap) == Some(k)
    ensures Runs(AfterReplan(cfg, w, 1, [gap]), [agent, added]) && added.checkClass == gap && added.check == k
  {
    var gaps := [gap];
    assert gaps[0] == gap && forall c :: c in gaps ==> c == gap;
    var checks := ReplanCommits(cfg, w, 1, gaps);
    assert Fits(BUILTINS, cfg.record, gaps[0], checks[0]) && checks == [k];
    BuiltInResolves(k, gap);
    added := Agent(w.nextId, gap, k);
    ItemOfOne(gap, k, w.nextId);
    OneAgent(Item(w.nextId, k.Name(), gap), k, w.tasks[1].declaratives);
    SecondAgent(w, checks, gaps, agent, added);
  }

  lemma SecondAgent(w: World, checks: seq<Check>, gaps: seq<string>, agent: Agent, added: Agent)
    requires Runs(w, [agent]) && |checks| == |gaps|
    requires AgentsFor(ReplanItems(checks, gaps, w.nextId), w.tasks[1].declaratives) == [added]
    ensures Runs(ReplanWith(w, 1, checks, gaps), [agent, added])
  {
    assert [agent] + [added] == [agent, added];
  }

  lemma NextIsReplan(cfg: Config, w: World, t: nat, gaps: seq<string>, a: Action)
    requires a == Replan(t, gaps)
    ensures Next(cfg, w, a) == AfterReplan(cfg, w, t, gaps)
  {
  }

  lemma WalkToReplanned(cfg: Config, p: Path, agent: Agent, gap: string, k: Check) returns (q: Path, added: Agent)
    requires Walked(cfg, p) && Runs(p.world, [agent]) && cfg.replans
    requires ReplanClass(BUILTINS, cfg.record, gap) && FirstOfClass(BUILTINS, gap) == Some(k)
    ensures Walked(cfg, q) && q.start == p.start && Runs(q.world, [agent, added])
    ensures added.checkClass == gap && added.check == k
  {
    added := ReplanOne(cfg, p.world, agent, gap, k);
    NextIsReplan(cfg, p.world, 1, [gap], Replan(1, [gap]));
    q := Walk(cfg, p, Replan(1, [gap]), AfterReplan(cfg, p.world, 1, [gap]));
  }

  lemma RunFound(cfg: Config, registries: iset<seq<SkillRow>>, skills: seq<SkillRow>, p: Path, checkClass: string, k: Check)
    requires skills in registries && Walked(cfg, p) && p.start == Start(skills) && Executes(p.world.log, checkClass, k)
    ensures ExecutedInSomeRun(cfg, registries, checkClass, k)
  {
    assert Within(registries, skills, p.actions);
  }

  lemma PlannedRuns(cfg: Config, registries: iset<seq<SkillRow>>, skills: seq<SkillRow>, c: Check, k: Check)
    requires skills in registries && Runnable(cfg, skills, c, k)
    ensures ExecutedInSomeRun(cfg, registries, c.Class(), k)
  {
    var p := WalkToCandidate(cfg, skills, c, k);
    p := WalkToEvent(cfg, p, [Agent(0, c.Class(), k)], 0);
    RunFound(cfg, registries, skills, p, c.Class(), k);
  }

  lemma ReplannedRuns(cfg: Config, registries: iset<seq<SkillRow>>, gap: string, k: Check)
    requires ByReplan(cfg, registries, gap, k)
    ensures ExecutedInSomeRun(cfg, registries, gap, k)
  {
    var skills, c, first :| skills in registries && Runnable(cfg, skills, c, first);
    var p := WalkToCandidate(cfg, skills, c, first);
    var agent, added := Agent(0, c.Class(), first), Agent(0, gap, k);
    ClosesExactly(BUILTINS, cfg.record, gap, k);
    p, added := WalkToReplanned(cfg, p, agent, gap, k);
    p := WalkToEvent(cfg, p, [agent, added], 1);
    RunFound(cfg, registries, skills, p, gap, k);
  }

  // ---- Main result -------------------------------------------------------------------------------------

  /** Over all runs in which the registry is always one of the given ones, exactly the checks that
   *  can be told before are executed. */
  lemma ExactlyTheseRun(cfg: Config, registries: iset<seq<SkillRow>>, checkClass: string, k: Check)
    ensures ExecutedInSomeRun(cfg, registries, checkClass, k) <==> CanRun(cfg, registries, checkClass, k)
  {
    if ByPlan(cfg, registries, checkClass, k) {
      var skills, c :| skills in registries && Runnable(cfg, skills, c, k) && c.Class() == checkClass;
      PlannedRuns(cfg, registries, skills, c, k);
    } else if ByReplan(cfg, registries, checkClass, k) {
      ReplannedRuns(cfg, registries, checkClass, k);
    } else if ExecutedInSomeRun(cfg, registries, checkClass, k) {
      var skills, actions :|
        Within(registries, skills, actions) && Executes(Run(cfg, Start(skills), actions).log, checkClass, k);
      RunStaysIn(cfg, registries, Start(skills), actions);
      assert false;
    }
  }
}
