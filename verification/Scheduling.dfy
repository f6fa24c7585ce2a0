/** Two levels of concurrency limits: a supervised run takes its organisation's slot and then a
 *  global one; a late execution of approved steps takes a global slot only. One action is what
 *  one task does between two points where it may be suspended.
 */
module Scheduling {
  import opened Prelude

  /** What a task runs, which is also its key in the registry of running tasks. */
  datatype Key = Assess(id: string) | Steps(id: string, steps: seq<string>)

  datatype Pc =
    | Lookup       // finding the organisation
    | WaitOrg
    | WaitGlobal
    | Live         // the engine runs
    | Ended        // still inside both slots
    | Unwinding    // the global slot is given back
    | Gone

  datatype Task = Task(key: Key, pc: Pc)

  datatype Resource = Global | Org(org: string)

  /** The limits, and which organisation an assessment belongs to (None: no quota applies). */
  datatype Config = Config(globalCap: nat, orgCap: nat, orgOf: string -> Option<string>) {
    function Cap(r: Resource): nat { if r.Global? then globalCap else orgCap }

    /** The organisation slot that the task needs. */
    function Quota(key: Key): Option<Resource> {
      if key.Assess? && orgOf(key.id).Some? then Some(Org(orgOf(key.id).value)) else None
    }

    /** The task is between taking and giving back a slot of r. */
    predicate Holds(t: Task, r: Resource) {
      if r.Global? then t.pc in {Live, Ended}
      else Quota(t.key) == Some(r) && t.pc in {WaitGlobal, Live, Ended, Unwinding}
    }
  }

  /** Tasks in order of creation, the registry, and the free slots of the semaphores created
   *  so far. */
  datatype World = World(tasks: seq<Task>, running: map<Key, nat>, free: map<Resource, int>) {
    function Free(cfg: Config, r: Resource): int { if r in free then free[r] else cfg.Cap(r) }
  }

  datatype Action =
    | Start(key: Key)
    | FindOrg(task: nat, found: bool)
    | AcquireOrg(task: nat)
    | AcquireGlobal(task: nat)
    | Finish(task: nat)             // the engine returns or crashes
    | ReleaseGlobal(task: nat)
    | Unwind(task: nat)

  function Launch(w: World, key: Key): World {
    if key in w.running && w.running[key] < |w.tasks| && w.tasks[w.running[key]].pc != Gone then w
    else w.(tasks := w.tasks + [Task(key, if key.Assess? then Lookup else WaitGlobal)],
            running := w.running[key := |w.tasks|])
  }

  function Move(w: World, i: nat, pc: Pc): World
    requires i < |w.tasks|
  {
    w.(tasks := w.tasks[i := w.tasks[i].(pc := pc)])
  }

  function Take(cfg: Config, w: World, r: Resource, amount: int): World {
    w.(free := w.free[r := w.Free(cfg, r) - amount])
  }

  function Forget(w: World, key: Key): World { w.(running := w.running - {key}) }

  /** The effect of an action, None when it is not enabled. */
  function Next(cfg: Config, w: World, a: Action): Option<World> {
    if a.Start? then Some(Launch(w, a.key))
    else if a.task >= |w.tasks| then None
    else
      var t, i := w.tasks[a.task], a.task;
      var quota := cfg.Quota(t.key);
      match a
      case FindOrg(_, found) =>
        if t.pc != Lookup then None
        else Some(Move(w, i, if !found then Gone else if quota.Some? then WaitOrg else WaitGlobal))
      case AcquireOrg(_) =>
        if t.pc != WaitOrg || quota.None? || w.Free(cfg, quota.value) <= 0 then None
        else Some(Take(cfg, Move(w, i, WaitGlobal), quota.value, 1))
      case AcquireGlobal(_) =>
        if t.pc != WaitGlobal || w.Free(cfg, Global) <= 0 then None
        else Some(Take(cfg, Move(w, i, Live), Global, 1))
      case Finish(_) =>
        if t.pc != Live then None
        else if t.key.Assess? then Some(Forget(Move(w, i, Ended), t.key))
        else Some(Move(w, i, Ended))
      case ReleaseGlobal(_) =>
        if t.pc != Ended then None else Some(Take(cfg, Move(w, i, Unwinding), Global, -1))
      case Unwind(_) =>
        if t.pc != Unwinding then None
        else if t.key.Steps? then Some(Forget(Move(w, i, Gone), t.key))
        else if quota.None? then Some(Move(w, i, Gone))
        else Some(Take(cfg, Move(w, i, Gone), quota.value, -1))
  }

  /** A run of enabled actions from w to w'. */
  ghost predicate Reaches(cfg: Config, w: World, actions: seq<Action>, w': World)
    decreases |actions|
  {
    if actions == [] then w == w'
    else Next(cfg, w, actions[0]).Some? && Reaches(cfg, Next(cfg, w, actions[0]).value, actions[1..], w')
  }

  const EMPTY := World([], map[], map[])

  // ---- Counting ------------------------------------------------------------------------------

  function Holders(cfg: Config, tasks: seq<Task>, r: Resource): nat {
    if tasks == [] then 0
    else Holders(cfg, tasks[..|tasks| - 1], r) + if cfg.Holds(tasks[|tasks| - 1], r) then 1 else 0
  }

  lemma {:induction false} HoldersAfterMove(cfg: Config, tasks: seq<Task>, i: nat, t: Task, r: Resource)
    requires i < |tasks|
    ensures Holders(cfg, tasks[i := t], r) ==
            Holders(cfg, tasks, r) - (if cfg.Holds(tasks[i], r) then 1 else 0) + (if cfg.Holds(t, r) then 1 else 0)
    decreases |tasks|
  {
    var n := |tasks| - 1;
    if i == n {
      assert tasks[i := t][..n] == tasks[..n];
    } else {
      assert tasks[i := t][..n] == tasks[..n][i := t];
      HoldersAfterMove(cfg, tasks[..n], i, t, r);
    }
  }

  lemma {:induction false} SomeHolder(cfg: Config, tasks: seq<Task>, r: Resource)
    ensures Holders(cfg, tasks, r) > 0 ==> exists t :: t in tasks && cfg.Holds(t, r)
    decreases |tasks|
  {
    if tasks != [] {
      SomeHolder(cfg, tasks[..|tasks| - 1], r);
    }
  }

  // ---- Invariant -------------------------------------------------------------------------------

  ghost predicate SlotsAddUp(cfg: Config, w: World, r: Resource) {
    w.Free(cfg, r) >= 0 && w.Free(cfg, r) + Holders(cfg, w.tasks, r) == cfg.Cap(r)
  }

  ghost predicate Registered(cfg: Config, w: World, i: nat)
    requires i < |w.tasks|
  {
    var t := w.tasks[i];
    (t.pc == WaitOrg ==> cfg.Quota(t.key).Some?) &&
    (t.key.Assess? && t.pc in {Lookup, WaitOrg, WaitGlobal, Live} ==> t.key in w.running && w.running[t.key] == i)
  }

  /** Free slots and holders add up to the limit, and the registry names every supervised task
   *  whose engine has not ended. */
  ghost predicate Inv(cfg: Config, w: World) {
    (forall r :: SlotsAddUp(cfg, w, r)) &&
    (forall i :: 0 <= i < |w.tasks| ==> Registered(cfg, w, i)) &&
    (forall k :: k in w.running ==> w.running[k] < |w.tasks|)
  }

  lemma EmptyInv(cfg: Config)
    ensures Inv(cfg, EMPTY)
  {
    forall r
      ensures SlotsAddUp(cfg, EMPTY, r)
    {
    }
  }

  lemma LaunchKeepsInv(cfg: Config, w: World, key: Key)
    requires Inv(cfg, w)
    ensures Inv(cfg, Launch(w, key))
  {
    var w' := Launch(w, key);
    if w' != w {
      assert w'.tasks[..|w'.tasks| - 1] == w.tasks;
      forall r
        ensures SlotsAddUp(cfg, w', r)
      {
        assert SlotsAddUp(cfg, w, r);
      }
      forall i | 0 <= i < |w'.tasks|
        ensures Registered(cfg, w', i)
      {
        if i < |w.tasks| {
          assert Registered(cfg, w, i);
        }
      }
    }
  }

  /** Moving task i while taking `amount` slots of one resource, which is what the move needs. */
  lemma MoveKeepsSlots(cfg: Config, w: World, i: nat, pc: Pc, w': World, held: Option<Resource>, amount: int)
    requires i < |w.tasks| && w'.tasks == Move(w, i, pc).tasks
    requires forall r :: SlotsAddUp(cfg, w, r)
    requires forall r :: w'.Free(cfg, r) == w.Free(cfg, r) - (if held == Some(r) then amount else 0)
    requires forall r :: w'.Free(cfg, r) >= 0
    requires var t := w.tasks[i];
             forall r :: (if cfg.Holds(t.(pc := pc), r) then 1 else 0) ==
                         (if cfg.Holds(t, r) then 1 else 0) + (if held == Some(r) then amount else 0)
    ensures forall r :: SlotsAddUp(cfg, w', r)
  {
    forall r
      ensures SlotsAddUp(cfg, w', r)
    {
      assert SlotsAddUp(cfg, w, r);
      HoldersAfterMove(cfg, w.tasks, i, w.tasks[i].(pc := pc), r);
    }
  }

  lemma MoveKeepsRegistry(cfg: Config, w: World, i: nat, pc: Pc, w': World)
    requires Inv(cfg, w) && i < |w.tasks| && w'.tasks == Move(w, i, pc).tasks
    requires w'.running == w.running ||
             (w'.running == w.running - {w.tasks[i].key} &&
              (w.tasks[i].key.Assess? ==> w.tasks[i].pc == Live))
    requires w.tasks[i].key.Assess? && pc in {Lookup, WaitOrg, WaitGlobal, Live} ==>
             w.tasks[i].pc in {Lookup, WaitOrg, WaitGlobal, Live} && w'.running == w.running
    requires w'.running != w.running ==> pc !in {Lookup, WaitOrg, WaitGlobal, Live}
    requires pc == WaitOrg ==> cfg.Quota(w.tasks[i].key).Some?
    ensures forall j :: 0 <= j < |w'.tasks| ==> Registered(cfg, w', j)
    ensures forall k :: k in w'.running ==> w'.running[k] < |w'.tasks|
  {
    forall j | 0 <= j < |w'.tasks|
      ensures Registered(cfg, w', j)
    {
      assert Registered(cfg, w, j) && Registered(cfg, w, i);
    }
  }

  /** The slot a step of a task takes (or, negative, gives back). */
  function Taken(cfg: Config, w: World, a: Action): (Option<Resource>, int)
    requires !a.Start? && a.task < |w.tasks|
  {
    var quota := cfg.Quota(w.tasks[a.task].key);
    match a
    case AcquireOrg(_) => (quota, 1)
    case AcquireGlobal(_) => (Some(Global), 1)
    case ReleaseGlobal(_) => (Some(Global), -1)
    case Unwind(_) => (quota, -1)
    case _ => (None, 0)
  }

  lemma StepKeepsInv(cfg: Config, w: World, a: Action)
    requires Inv(cfg, w) && Next(cfg, w, a).Some?
    ensures Inv(cfg, Next(cfg, w, a).value)
  {
    if a.Start? {
      LaunchKeepsInv(cfg, w, a.key);
    } else {
      var w' := Next(cfg, w, a).value;
      var (held, amount) := Taken(cfg, w, a);
      var pc := w'.tasks[a.task].pc;
      assert w'.tasks == Move(w, a.task, pc).tasks;
      assert Registered(cfg, w, a.task);
      forall r
        ensures w'.Free(cfg, r) == w.Free(cfg, r) - (if held == Some(r) then amount else 0)
        ensures w'.Free(cfg, r) >= 0
      {
        assert SlotsAddUp(cfg, w, r);
      }
      MoveKeepsSlots(cfg, w, a.task, pc, w', held, amount);
      MoveKeepsRegistry(cfg, w, a.task, pc, w');
    }
  }

  lemma {:induction false} ReachableInv(cfg: Config, w: World, actions: seq<Action>, w': World)
    requires Inv(cfg, w) && Reaches(cfg, w, actions, w')
    ensures Inv(cfg, w')
    decreases |actions|
  {
    if actions != [] {
      StepKeepsInv(cfg, w, actions[0]);
      ReachableInv(cfg, Next(cfg, w, actions[0]).value, actions[1..], w');
    }
  }

  // ---- Limits ------------------------------------------------------------------------------------

  function Count(tasks: seq<Task>, p: Task -> bool): nat {
    if tasks == [] then 0 else Count(tasks[..|tasks| - 1], p) + if p(tasks[|tasks| - 1]) then 1 else 0
  }

  lemma {:induction false} CountedHold(cfg: Config, tasks: seq<Task>, p: Task -> bool, r: Resource)
    requires forall t :: p(t) ==> cfg.Holds(t, r)
    ensures Count(tasks, p) <= Holders(cfg, tasks, r)
    decreases |tasks|
  {
    if tasks != [] {
      CountedHold(cfg, tasks[..|tasks| - 1], p, r);
    }
  }

  /** In every reachable state: engines of either kind are within the global limit, supervised
   *  engines of one organisation within its quota, and no assessment has two of them. */
  lemma LimitsHold(cfg: Config, actions: seq<Action>, w: World)
    requires Reaches(cfg, EMPTY, actions, w)
    ensures Count(w.tasks, (t: Task) => t.pc == Live) <= cfg.globalCap
    ensures forall org :: Count(w.tasks, (t: Task) =>
              t.pc == Live && t.key.Assess? && cfg.orgOf(t.key.id) == Some(org)) <= cfg.orgCap
    ensures forall i, j :: 0 <= i < j < |w.tasks| && w.tasks[i].pc == w.tasks[j].pc == Live && w.tasks[i].key.Assess? ==>
              w.tasks[i].key != w.tasks[j].key
  {
    EmptyInv(cfg);
    ReachableInv(cfg, EMPTY, actions, w);
    CountedHold(cfg, w.tasks, (t: Task) => t.pc == Live, Global);
    assert SlotsAddUp(cfg, w, Global);
    forall org
      ensures Count(w.tasks, (t: Task) =>
                t.pc == Live && t.key.Assess? && cfg.orgOf(t.key.id) == Some(org)) <= cfg.orgCap
    {
      CountedHold(cfg, w.tasks, (t: Task) =>
        t.pc == Live && t.key.Assess? && cfg.orgOf(t.key.id) == Some(org), Org(org));
      assert SlotsAddUp(cfg, w, Org(org));
    }
    forall i, j | 0 <= i < j < |w.tasks| && w.tasks[i].pc == w.tasks[j].pc == Live && w.tasks[i].key.Assess?
      ensures w.tasks[i].key != w.tasks[j].key
    {
      assert Registered(cfg, w, i) && Registered(cfg, w, j);
    }
  }

  // ---- Progress ----------------------------------------------------------------------------------

  ghost predicate CanMove(cfg: Config, w: World) {
    exists a: Action :: !a.Start? && Next(cfg, w, a).Some?
  }

  predicate Unfinished(w: World) { exists t :: t in w.tasks && t.pc != Gone }

  /** Every limit that some task must pass lets at least one through. */
  ghost predicate LimitsAdmit(cfg: Config) {
    cfg.globalCap >= 1 && (cfg.orgCap >= 1 || forall id :: cfg.orgOf(id).None?)
  }

  /** No deadlock: whenever a task is unfinished, some task can step. */
  lemma SomeTaskCanMove(cfg: Config, w: World)
    requires Inv(cfg, w) && LimitsAdmit(cfg) && Unfinished(w)
    ensures CanMove(cfg, w)
  {
    var t :| t in w.tasks && t.pc != Gone;
    var i :| 0 <= i < |w.tasks| && w.tasks[i] == t;
    if j: nat :| j < |w.tasks| && Busy(w.tasks[j]) {
      BusyTaskCanMove(cfg, w, j);
    } else if j: nat :| j < |w.tasks| && w.tasks[j].pc == WaitGlobal {
      SomeHolder(cfg, w.tasks, Global);
      assert SlotsAddUp(cfg, w, Global);
      assert Next(cfg, w, AcquireGlobal(j)).Some?;
    } else {
      assert Registered(cfg, w, i);
      var quota := cfg.Quota(t.key);
      SomeHolder(cfg, w.tasks, quota.value);
      assert SlotsAddUp(cfg, w, quota.value);
      assert Next(cfg, w, AcquireOrg(i)).Some?;
    }
  }

  predicate Busy(t: Task) { t.pc in {Lookup, Live, Ended, Unwinding} }

  lemma BusyTaskCanMove(cfg: Config, w: World, i: nat)
    requires i < |w.tasks| && Busy(w.tasks[i])
    ensures CanMove(cfg, w)
  {
    match w.tasks[i].pc
    case Lookup => assert Next(cfg, w, FindOrg(i, true)).Some?;
    case Live => assert Next(cfg, w, Finish(i)).Some?;
    case Ended => assert Next(cfg, w, ReleaseGlobal(i)).Some?;
    case Unwinding => assert Next(cfg, w, Unwind(i)).Some?;
  }

  ghost predicate DeadlockFree(cfg: Config) {
    forall actions, w :: Reaches(cfg, EMPTY, actions, w) && Unfinished(w) ==> CanMove(cfg, w)
  }

  /** Taking the organisation's slot before the global one never deadlocks, exactly when the
   *  limits let anything through at all. */
  lemma DeadlockFreeExactly(cfg: Config)
    ensures DeadlockFree(cfg) <==> LimitsAdmit(cfg)
  {
    if LimitsAdmit(cfg) {
      forall actions, w | Reaches(cfg, EMPTY, actions, w) && Unfinished(w)
        ensures CanMove(cfg, w)
      {
        EmptyInv(cfg);
        ReachableInv(cfg, EMPTY, actions, w);
        SomeTaskCanMove(cfg, w);
      }
    } else if cfg.globalCap == 0 {
      var key := Steps("", []);
      var w := Launch(EMPTY, key);
      StuckAfter(cfg, [Start(key)], w, Task(key, WaitGlobal));
    } else {
      var id :| cfg.orgOf(id).Some?;
      var key := Assess(id);
      var one := Launch(EMPTY, key);
      var w := Move(one, 0, WaitOrg);
      assert [Start(key), FindOrg(0, true)][1..] == [FindOrg(0, true)];
      assert Reaches(cfg, one, [FindOrg(0, true)], w);
      StuckAfter(cfg, [Start(key), FindOrg(0, true)], w, Task(key, WaitOrg));
    }
  }

  lemma StuckAfter(cfg: Config, actions: seq<Action>, w: World, t: Task)
    requires Reaches(cfg, EMPTY, actions, w) && w.tasks == [t] && w.free == map[]
    requires (t.pc == WaitGlobal && cfg.globalCap == 0) || (t.pc == WaitOrg && cfg.orgCap == 0)
    ensures !DeadlockFree(cfg)
  {
    assert t in w.tasks;
    assert Unfinished(w) && !CanMove(cfg, w);
  }

  /** How many steps a task has at most ahead of it. */
  function StepsAhead(pc: Pc): nat {
    match pc
    case Lookup => 6
    case WaitOrg => 5
    case WaitGlobal => 4
    case Live => 3
    case Ended => 2
    case Unwinding => 1
    case Gone => 0
  }

  function WorkAhead(tasks: seq<Task>): nat {
    if tasks == [] then 0 else WorkAhead(tasks[..|tasks| - 1]) + StepsAhead(tasks[|tasks| - 1].pc)
  }

  lemma {:induction false} WorkAfterMove(tasks: seq<Task>, i: nat, t: Task)
    requires i < |tasks|
    ensures WorkAhead(tasks[i := t]) == WorkAhead(tasks) - StepsAhead(tasks[i].pc) + StepsAhead(t.pc)
    decreases |tasks|
  {
    var n := |tasks| - 1;
    if i == n {
      assert tasks[i := t][..n] == tasks[..n];
    } else {
      assert tasks[i := t][..n] == tasks[..n][i := t];
      WorkAfterMove(tasks[..n], i, t);
    }
  }

  /** Without new launches tasks cannot go round in circles: a run is at most as long as the
   *  work ahead of it, and a run that cannot be extended leaves no task unfinished. */
  lemma {:induction false} EveryTaskFinishes(cfg: Config, w: World, actions: seq<Action>, w': World)
    requires Inv(cfg, w) && LimitsAdmit(cfg) && Reaches(cfg, w, actions, w')
    requires forall a :: a in actions ==> !a.Start?
    ensures |actions| + WorkAhead(w'.tasks) <= WorkAhead(w.tasks)
    ensures !CanMove(cfg, w') ==> !Unfinished(w')
    decreases |actions|
  {
    if actions == [] {
      if Unfinished(w) {
        SomeTaskCanMove(cfg, w);
      }
    } else {
      var a := actions[0];
      var next := Next(cfg, w, a).value;
      StepKeepsInv(cfg, w, a);
      assert next.tasks == w.tasks[a.task := w.tasks[a.task].(pc := next.tasks[a.task].pc)];
      WorkAfterMove(w.tasks, a.task, next.tasks[a.task]);
      EveryTaskFinishes(cfg, next, actions[1..], w');
    }
  }
}
