/** What every run of the step machine in Approvals guarantees, whatever the interleaving. */
module StepSafety {
  import opened Prelude
  import opened Scope
  import opened Checks
  import opened Approvals
  import opened PolicyTerms

  /** Approval safety: in every interleaving, a step whose check changes state or is invasive
   *  runs only after an operator approved that step. */
  lemma ApprovalSafety(cfg: Config, skills: seq<SkillRow>, actions: seq<Action>, i: nat)
    requires cfg.approvalRequired
    requires var log := Run(cfg, Start(skills), actions).log;
             i < |log| && log[i].Executed? && (SaysStateChanging(log[i].check) || SaysInvasive(log[i].check))
    ensures var log := Run(cfg, Start(skills), actions).log;
            exists j :: 0 <= j < i && log[j] == OperatorApproved(log[i].id)
  {
    var log := Run(cfg, Start(skills), actions).log;
    RunKeepsInv(cfg, Start(skills), actions);
    assert EventJustified(cfg, log[..i], log[i]);
    WordsOfLevels(log[i].check);
    var j :| 0 <= j < |log[..i]| && log[..i][j] == OperatorApproved(log[i].id);
    assert log[j] == OperatorApproved(log[i].id);
  }

  /** The gated check is the check that runs: what a step executes is the very check that policy
   *  permitted for it (or that replanning picked), and the record permits that check under the
   *  class of the step. For the check's own class see RequestedClasses. */
  lemma GatedCheckRuns(cfg: Config, skills: seq<SkillRow>, actions: seq<Action>, i: nat)
    requires var log := Run(cfg, Start(skills), actions).log; i < |log| && log[i].Executed?
    ensures var log := Run(cfg, Start(skills), actions).log;
            exists j :: 0 <= j < i && ((log[j].Gated? && log[j].decision == Ok) || log[j].Replanned?) &&
              log[j].id == log[i].id && log[j].check == log[i].check && log[j].checkClass == log[i].checkClass
    ensures var e := Run(cfg, Start(skills), actions).log[i]; WithinRecord(cfg.record, e.checkClass, e.check)
  {
    var log := Run(cfg, Start(skills), actions).log;
    RunKeepsInv(cfg, Start(skills), actions);
    assert EventJustified(cfg, log[..i], log[i]);
    var e :| e in log[..i] && (e == Gated(log[i].id, log[i].checkClass, log[i].check, Ok) ||
                               e == Replanned(log[i].id, log[i].checkClass, log[i].check));
    var j :| 0 <= j < |log[..i]| && log[..i][j] == e;
    assert log[j] == e && EventJustified(cfg, log[..j], log[j]);
    GateExactly(cfg.record, e.checkClass, e.check);
  }

  /** Operators decide only steps that policy permitted and that need a decision. */
  lemma DecisionsAreAskedFor(cfg: Config, skills: seq<SkillRow>, actions: seq<Action>, i: nat)
    requires var log := Run(cfg, Start(skills), actions).log;
             i < |log| && (log[i].OperatorApproved? || log[i].OperatorDenied?)
    ensures var log := Run(cfg, Start(skills), actions).log;
            exists j :: 0 <= j < i && log[j].Gated? && log[j].id == log[i].id &&
              WithinRecord(cfg.record, log[j].checkClass, log[j].check) &&
              (SaysStateChanging(log[j].check) || SaysInvasive(log[j].check))
  {
    var log := Run(cfg, Start(skills), actions).log;
    RunKeepsInv(cfg, Start(skills), actions);
    assert EventJustified(cfg, log[..i], log[i]);
    var e :| e in log[..i] && e.Gated? && e.id == log[i].id && e.decision == Ok && e.check.NeedsApproval();
    var j :| 0 <= j < |log[..i]| && log[..i][j] == e;
    assert log[j] == e && EventJustified(cfg, log[..j], log[j]);
    GateExactly(cfg.record, e.checkClass, e.check);
    WordsOfLevels(e.check);
  }

  /** A skill runs only inside the environments it names, and only if the record allows state
   *  changes in case it makes any; its class, its intensity and production are as the record says. */
  lemma SkillsStayInside(cfg: Config, skills: seq<SkillRow>, actions: seq<Action>, i: nat, spec: Spec)
    requires var log := Run(cfg, Start(skills), actions).log;
             i < |log| && log[i].Executed? && log[i].check == Declarative(spec)
    ensures spec.environments == [] || cfg.record.environment in spec.environments
    ensures spec.stateChanging ==> cfg.record.allowStateChanging
    ensures cfg.record.allowedChecks == {} || Run(cfg, Start(skills), actions).log[i].checkClass in cfg.record.allowedChecks
    ensures spec.intensity == "safe_active" ==> cfg.record.intensity in {"safe_active", "invasive"}
    ensures spec.intensity == "invasive" ==>
      cfg.record.intensity == "invasive" && cfg.record.environment in {"staging", "development", "lab"}
  {
    GatedCheckRuns(cfg, skills, actions, i);
  }

  /** What can have set the status of a step, by the action between two states. Names and classes never
   *  change. */
  predicate MayBecome(was: Row, row: Row, a: Action, id: nat) {
    row.name == was.name && row.checkClass == was.checkClass &&
    (row.status != was.status ==>
       match row.status
       case Planned => false
       case Awaiting => a.Policy?
       case Approved => a.Policy? || (a == Approve(id) && was.status == Awaiting)
       case Refused => a.Policy? || (a == Deny(id) && was.status == Awaiting)
       case Skipped => a.Policy? || (a.LateBlocked? && id in a.ids)
       case Done => a.Execute? && a.persist == Succeeded
       case Errored => a.Execute? && a.persist == Failed)
  }

  /** Steps change their status in no other way, and new ones are planned, or approved by replanning. */
  lemma StatusChanges(cfg: Config, w: World, a: Action, id: nat)
    ensures var w' := Next(cfg, w, a);
            id in w'.rows ==>
              if id in w.rows && id < w.nextId then MayBecome(w.rows[id], w'.rows[id], a, id)
              else id in w.rows || (a.WritePlan? || (a.Replan? && w'.rows[id].status == Approved))
  {
    if a.Policy? {
      PolicyChanges(cfg, w, a.task, id);
    } else if a.Replan? || a.WritePlan? {
      AdditionsChangeNothing(cfg, w, a, id);
    } else if a.Execute? {
      ExecutionChanges(w, a.task, a.agent, a.persist, id);
    }
  }

  lemma PolicyChanges(cfg: Config, w: World, t: nat, id: nat)
    ensures AfterPolicy(cfg, w, t).rows.Keys == w.rows.Keys
    ensures id in w.rows ==> var row := AfterPolicy(cfg, w, t).rows[id];
              row.name == w.rows[id].name && row.checkClass == w.rows[id].checkClass &&
              row.status in {w.rows[id].status, Awaiting, Approved, Refused, Skipped}
  {
  }

  lemma AdditionsChangeNothing(cfg: Config, w: World, a: Action, id: nat)
    requires a.Replan? || a.WritePlan?
    ensures var w' := Next(cfg, w, a);
            id in w.rows && id < w.nextId ==> id in w'.rows && w'.rows[id] == w.rows[id]
    ensures var w' := Next(cfg, w, a);
            id in w'.rows && id !in w.rows && a.Replan? ==> w'.rows[id].status == Approved
  {
    match a
    case WritePlan(_) =>
    case Replan(t, classes) => ReplanAdds(cfg, w, t, classes, id);
  }

  lemma ReplanAdds(cfg: Config, w: World, t: nat, classes: seq<string>, id: nat)
    ensures var rows := AfterReplan(cfg, w, t, classes).rows;
            (id in w.rows && id < w.nextId ==> id in rows && rows[id] == w.rows[id]) &&
            (id in rows && id !in w.rows ==> rows[id].status == Approved)
  {
    if cfg.replans && t in w.tasks && w.tasks[t].Running? && forall c :: c in classes ==> ReplanClass(BUILTINS, cfg.record, c) {
      var checks := Fillers(BUILTINS, cfg.record, classes);
      RowsAfterReplan(w, t, checks, classes);
      MoreRows(w.rows, checks, classes, w.nextId, id);
    }
  }

  lemma RowsAfterReplan(w: World, t: nat, checks: seq<Check>, classes: seq<string>)
    requires t in w.tasks && w.tasks[t].Running? && |checks| == |classes|
    ensures ReplanWith(w, t, checks, classes).rows == w.rows + ReplanRows(checks, classes, w.nextId)
  {
  }

  lemma MoreRows(rows: map<nat, Row>, checks: seq<Check>, classes: seq<string>, nextId: nat, id: nat)
    requires |checks| == |classes|
    ensures var all := rows + ReplanRows(checks, classes, nextId);
            (id in rows && id < nextId ==> id in all && all[id] == rows[id]) &&
            (id in all && id !in rows ==> all[id].status == Approved)
  {
  }

  /** An execution records how it ended, unless that is lost. */
  lemma ExecutionChanges(w: World, t: nat, k: nat, persist: Persist, id: nat)
    ensures var rows := AfterExecute(w, t, k, persist).rows;
            rows.Keys == w.rows.Keys &&
            (id in w.rows ==>
               if t in w.tasks && w.tasks[t].Running? && k < |w.tasks[t].agents| && w.tasks[t].agents[k].id == id && persist != Lost
               then rows[id] == w.rows[id].(status := if persist == Succeeded then Done else Errored) else rows[id] == w.rows[id])
  {
  }

  // ---- What else an action does to a task and its steps ---------------------------------------------

  /** Storing a plan gives every draft a new step. */
  lemma DraftIsStored(w: World, t: nat, k: nat)
    requires t in w.tasks && w.tasks[t].Drafted? && k < |w.tasks[t].drafts|
    ensures var w' := AfterWritePlan(w, t); w.nextId + k in w'.rows && w'.rows[w.nextId + k] == w.tasks[t].drafts[k]
  {
    assert Offset(w.nextId + k, w.nextId) == k;
  }

  /** Replanning stores a step for every gap, approved, with the check that fills it. */
  lemma RowOfGap(rows: map<nat, Row>, checks: seq<Check>, gaps: seq<string>, nextId: nat, k: nat)
    requires |checks| == |gaps| && k < |gaps|
    ensures var all := rows + ReplanRows(checks, gaps, nextId);
            nextId + k in all && all[nextId + k] == Row(checks[k].Name(), gaps[k], Approved)
  {
    assert Offset(nextId + k, nextId) == k;
  }

  /** A task takes up only steps that are still planned for the gate, and copies of approved steps for
   *  execution. */
  lemma SelectionsExactly(w: World, t: nat, ids: seq<nat>)
    requires t !in w.tasks
    ensures var w' := AfterSelectPlanned(w, t, ids);
            (t in w'.tasks <==> forall id :: id in ids ==> id in w.rows && w.rows[id].status == Planned) &&
            (t in w'.tasks ==> w'.tasks[t] == Gating(ids))
    ensures var w' := AfterSelectApproved(w, t, ids);
            (t in w'.tasks <==> forall id :: id in ids ==> id in w.rows) &&
            (t in w'.tasks ==> w'.tasks[t].Chosen? && forall it :: it in w'.tasks[t].items <==>
               it.id in ids && w.rows[it.id].status == Approved && it.name == w.rows[it.id].name && it.checkClass == w.rows[it.id].checkClass)
  {
    if forall id :: id in ids ==> id in w.rows {
      ItemsExactly(w.rows, ids, Approved);
    }
  }

  lemma {:induction false} ItemsExactly(rows: map<nat, Row>, ids: seq<nat>, status: Status)
    requires forall id :: id in ids ==> id in rows
    ensures forall it :: it in ItemsWith(rows, ids, status) <==>
      it.id in ids && rows[it.id].status == status && it.name == rows[it.id].name && it.checkClass == rows[it.id].checkClass
    decreases |ids|
  {
    if ids != [] {
      ItemsExactly(rows, ids[1..], status);
      assert forall id :: id in ids <==> id == ids[0] || id in ids[1..];
    }
  }

  /** A look at a held step takes it off the pending ones if it is decided, and takes it up if it was
   *  approved; whatever waited for it before. */
  lemma PollExactly(w: World, t: nat, id: nat)
    requires t in w.tasks && w.tasks[t].Polling? && id in w.tasks[t].pending && id in w.rows
    ensures var task, next, row := w.tasks[t], AfterPollOne(w, t, id).tasks[t], w.rows[id];
            next.Polling? &&
            next.pending == (if row.status in {Approved, Refused, Skipped} then task.pending - {id} else task.pending) &&
            next.ready == task.ready + if row.status == Approved then [Item(id, row.name, row.checkClass)] else []
  {
  }
}
