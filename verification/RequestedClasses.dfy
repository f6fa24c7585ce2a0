/** Whether runs keep to the requested and to the authorized classes. What counts is the class of
 *  the check that runs, which need not be that of its step: steps find their checks by name.
 */
module RequestedClasses {
  import opened Prelude
  import opened Scope
  import opened Checks
  import opened Approvals
  import opened PolicyTerms
  import opened RunnableChecks

  // ---- Requested classes ---------------------------------------------------------------------------

  /** Every check executed in such a run has one of the classes. */
  ghost predicate KeepsTo(cfg: Config, registries: iset<seq<SkillRow>>, classes: set<string>) {
    forall skills, actions, e ::
      Within(registries, skills, actions) && e in Run(cfg, Start(skills), actions).log && e.Executed? ==>
      e.check.Class() in classes
  }

  lemma KeepsToExactly(cfg: Config, registries: iset<seq<SkillRow>>, classes: set<string>)
    ensures KeepsTo(cfg, registries, classes) <==>
            forall checkClass, k :: CanRun(cfg, registries, checkClass, k) ==> k.Class() in classes
  {
    if KeepsTo(cfg, registries, classes) {
      forall checkClass, k | CanRun(cfg, registries, checkClass, k)
        ensures k.Class() in classes
      {
        ExactlyTheseRun(cfg, registries, checkClass, k);
        var skills, actions :|
          Within(registries, skills, actions) && Executes(Run(cfg, Start(skills), actions).log, checkClass, k);
      }
    } else {
      var skills, actions, e :|
        Within(registries, skills, actions) && e in Run(cfg, Start(skills), actions).log && e.Executed? &&
        e.check.Class() !in classes;
      assert Executes(Run(cfg, Start(skills), actions).log, e.checkClass, e.check);
      ExactlyTheseRun(cfg, registries, e.checkClass, e.check);
    }
  }

  /** What the planner can make a step of means, if policy permits it, a check of a requested
   *  class; and replanning, if it is switched on and anything runs at all, finds no built-in for
   *  another. */
  ghost predicate Contained(cfg: Config, registries: iset<seq<SkillRow>>) {
    (forall skills, c, k :: skills in registries && Runnable(cfg, skills, c, k) ==> k.Class() in cfg.requested) &&
    (cfg.replans && Opens(cfg, registries) ==>
       forall gap, k :: Closes(cfg.record, gap, k) ==> gap in cfg.requested)
  }

  lemma ContainedMeansKept(cfg: Config, registries: iset<seq<SkillRow>>, checkClass: string, k: Check)
    requires Contained(cfg, registries) && CanRun(cfg, registries, checkClass, k)
    ensures k.Class() in cfg.requested
  {
    if ByPlan(cfg, registries, checkClass, k) {
      var skills, c :| skills in registries && Runnable(cfg, skills, c, k) && c.Class() == checkClass;
    }
  }

  lemma KeptMeansContained(cfg: Config, registries: iset<seq<SkillRow>>)
    requires forall checkClass, k :: CanRun(cfg, registries, checkClass, k) ==> k.Class() in cfg.requested
    ensures Contained(cfg, registries)
  {
    forall skills, c, k | skills in registries && Runnable(cfg, skills, c, k)
      ensures k.Class() in cfg.requested
    {
      assert CanRun(cfg, registries, c.Class(), k);
    }
    forall gap, k | cfg.replans && Opens(cfg, registries) && Closes(cfg.record, gap, k)
      ensures gap in cfg.requested
    {
      assert CanRun(cfg, registries, gap, k);
    }
  }

  /** With the given registries, every executed check is of a requested class exactly when the
   *  runs are contained. */
  lemma KeepsToRequestExactly(cfg: Config, registries: iset<seq<SkillRow>>)
    ensures KeepsTo(cfg, registries, cfg.requested) <==> Contained(cfg, registries)
  {
    KeepsToExactly(cfg, registries, cfg.requested);
    if Contained(cfg, registries) {
      forall checkClass, k | CanRun(cfg, registries, checkClass, k)
        ensures k.Class() in cfg.requested
      {
        ContainedMeansKept(cfg, registries, checkClass, k);
      }
    } else if KeepsTo(cfg, registries, cfg.requested) {
      KeptMeansContained(cfg, registries);
    }
  }

  // ---- Names of one class ----------------------------------------------------------------------------

  /** Every candidate has the class of the first check that bears its name. */
  ghost predicate OneClassPerName(skills: seq<SkillRow>, org: string) {
    forall c :: c in Candidates(skills, org) && c.Name() != "" ==>
      FindByName(Candidates(skills, org), c.Name()).value.Class() == c.Class()
  }

  /** The registries in which every candidate has the class of the first bearer of its name. */
  ghost function OneClassRegistries(org: string): iset<seq<SkillRow>> {
    iset skills | OneClassPerName(skills, org)
  }

  /** The first bearer of a candidate's name is what the name means. */
  lemma FirstBearer(skills: seq<SkillRow>, org: string, c: Check)
    requires c in Candidates(skills, org) && c.Name() != ""
    ensures Resolve(c.Name(), c.Class(), Load(skills, org)) == FindByName(Candidates(skills, org), c.Name())
  {
    FindInBoth(BUILTINS, Load(skills, org), c.Name());
  }

  lemma {:induction false} FindInBoth(a: seq<Check>, b: seq<Check>, name: string)
    ensures FindByName(a + b, name) == if FindByName(a, name).Some? then FindByName(a, name) else FindByName(b, name)
    decreases |a|
  {
    if a == [] {
      assert a + b == b;
    } else {
      assert (a + b)[1..] == a[1..] + b;
      FindInBoth(a[1..], b, name);
    }
  }

  lemma SameClass(cfg: Config, skills: seq<SkillRow>, c: Check, k: Check)
    requires OneClassPerName(skills, cfg.org) && Runnable(cfg, skills, c, k)
    ensures k.Class() == c.Class()
  {
    RunnableExactly(cfg, skills, c, k);
    if c.Name() != "" {
      FirstBearer(skills, cfg.org, c);
    }
  }

  /** Some requested class is authorized, and replanning, which looks at all authorized classes,
   *  finds no built-in for any other. */
  ghost predicate StepsContained(cfg: Config) {
    cfg.requested * cfg.record.allowedChecks != {} &&
    (cfg.replans ==> forall gap, k :: Closes(cfg.record, gap, k) ==> gap in cfg.requested)
  }

  /** A passive skill of the class. */
  function Skill(checkClass: string): Spec { Spec("x", checkClass, "passive", false, [], true) }

  function Shared(spec: Spec): seq<SkillRow> { [SkillRow(None, true, true, spec)] }

  lemma LoadedAlone(spec: Spec, org: string)
    requires spec.executable
    ensures Load(Shared(spec), org) == [Declarative(spec)]
  {
    var rows := Shared(spec);
    assert rows[1..] == [] && Load([], org) == [];
  }

  lemma SkillRuns(cfg: Config, c: string)
    requires Plannable(cfg, Declarative(Skill(c))) && (cfg.record.allowedChecks == {} || c in cfg.record.allowedChecks)
    ensures Runnable(cfg, Shared(Skill(c)), Declarative(Skill(c)), Declarative(Skill(c)))
  {
    var skill := Declarative(Skill(c));
    LoadedAlone(Skill(c), cfg.org);
    assert [skill][0] == skill && skill in Candidates(Shared(Skill(c)), cfg.org);
    ShortNameIsNoBuiltIn("x");
    assert Resolve("x", c, [skill]) == Some(skill);
    assert Gate(cfg.record, c, skill) == Ok;
    RunnableExactly(cfg, Shared(Skill(c)), skill, skill);
  }

  lemma SkillHasOneClass(c: string, org: string)
    ensures OneClassPerName(Shared(Skill(c)), org)
  {
    var skill := Declarative(Skill(c));
    LoadedAlone(Skill(c), org);
    forall d | d in Candidates(Shared(Skill(c)), org) && d.Name() != ""
      ensures FindByName(Candidates(Shared(Skill(c)), org), d.Name()).value.Class() == d.Class()
    {
      FindInBoth(BUILTINS, [skill], d.Name());
      if d in BUILTINS {
        BuiltInFoundByItsName(d);
      } else {
        assert d == skill;
        ShortNameIsNoBuiltIn("x");
        assert FindByName([skill], "x") == Some(skill);
      }
    }
  }

  lemma SkillCanRun(cfg: Config, c: string)
    requires Plannable(cfg, Declarative(Skill(c))) && (cfg.record.allowedChecks == {} || c in cfg.record.allowedChecks)
    ensures CanRun(cfg, OneClassRegistries(cfg.org), c, Declarative(Skill(c)))
  {
    SkillRuns(cfg, c);
    SkillHasOneClass(c, cfg.org);
  }

  lemma RequestedSkillCanRun(cfg: Config, c: string)
    requires c in cfg.requested * cfg.record.allowedChecks
    ensures CanRun(cfg, OneClassRegistries(cfg.org), c, Declarative(Skill(c)))
  {
    SkillCanRun(cfg, c);
  }

  lemma OtherSkillCanRun(cfg: Config) returns (c: string)
    requires cfg.requested != {} && cfg.requested * cfg.record.allowedChecks == {}
    ensures c !in cfg.requested && CanRun(cfg, OneClassRegistries(cfg.org), c, Declarative(Skill(c)))
  {
    c := SomeOtherClass(cfg.requested, cfg.record.allowedChecks);
    SkillCanRun(cfg, c);
  }

  lemma GapCanRun(cfg: Config, registries: iset<seq<SkillRow>>, gap: string, k: Check)
    requires cfg.replans && Opens(cfg, registries) && Closes(cfg.record, gap, k)
    ensures k.Class() == gap && CanRun(cfg, registries, gap, k)
  {
  }

  /** If the steps are not contained, a check outside the request can run, even if every name has
   *  one class. */
  lemma SomethingOutside(cfg: Config) returns (c: string, k: Check)
    requires cfg.requested != {} && !StepsContained(cfg)
    ensures c !in cfg.requested && k.Class() == c && CanRun(cfg, OneClassRegistries(cfg.org), c, k)
  {
    if cfg.requested * cfg.record.allowedChecks == {} {
      c := OtherSkillCanRun(cfg);
      k := Declarative(Skill(c));
    } else {
      var inside :| inside in cfg.requested * cfg.record.allowedChecks;
      RequestedSkillCanRun(cfg, inside);
      SomethingOpens(cfg, OneClassRegistries(cfg.org), inside, Declarative(Skill(inside)));
      c, k :| Closes(cfg.record, c, k) && c !in cfg.requested;
      GapCanRun(cfg, OneClassRegistries(cfg.org), c, k);
    }
  }

  lemma StepInside(cfg: Config, registries: iset<seq<SkillRow>>, checkClass: string, k: Check)
    requires StepsContained(cfg) && CanRun(cfg, registries, checkClass, k)
    ensures checkClass in cfg.requested
  {
    if ByPlan(cfg, registries, checkClass, k) {
      var skills, c :| skills in registries && Runnable(cfg, skills, c, k) && c.Class() == checkClass;
      assert PlannerTakes(cfg, c);
    }
  }

  /** When every candidate has the class of the first bearer of its name, runs keep to the
   *  requested classes exactly when one of them is authorized and replanning, if it is switched
   *  on, has no built-in for an authorized class that was not requested. */
  lemma OneClassKeepsToRequestExactly(cfg: Config)
    requires cfg.requested != {}
    ensures KeepsTo(cfg, OneClassRegistries(cfg.org), cfg.requested) <==> StepsContained(cfg)
  {
    var registries := OneClassRegistries(cfg.org);
    KeepsToExactly(cfg, registries, cfg.requested);
    if StepsContained(cfg) {
      forall checkClass, k | CanRun(cfg, registries, checkClass, k)
        ensures k.Class() in cfg.requested
      {
        StepInside(cfg, registries, checkClass, k);
        OwnClass(cfg, registries, checkClass, k);
      }
    } else {
      var c, k := SomethingOutside(cfg);
    }
  }

  lemma OwnClass(cfg: Config, registries: iset<seq<SkillRow>>, checkClass: string, k: Check)
    requires registries <= OneClassRegistries(cfg.org) && CanRun(cfg, registries, checkClass, k)
    ensures k.Class() == checkClass
  {
    if ByPlan(cfg, registries, checkClass, k) {
      var skills, c :| skills in registries && Runnable(cfg, skills, c, k) && c.Class() == checkClass;
      SameClass(cfg, skills, c, k);
    }
  }

  /** The class written on every executed step was requested, whatever is registered. */
  ghost predicate StepsKeepToRequest(cfg: Config) {
    forall skills, actions, e ::
      e in Run(cfg, Start(skills), actions).log && e.Executed? ==> e.checkClass in cfg.requested
  }

  /** The condition without names: it decides about the classes written on the steps. */
  lemma StepsKeepToRequestExactly(cfg: Config)
    requires cfg.requested != {}
    ensures StepsKeepToRequest(cfg) <==> StepsContained(cfg)
  {
    if StepsContained(cfg) {
      var registries := iset skills: seq<SkillRow> | |skills| >= 0;
      forall skills, actions, e | e in Run(cfg, Start(skills), actions).log && e.Executed?
        ensures e.checkClass in cfg.requested
      {
        assert Within(registries, skills, actions);
        assert Executes(Run(cfg, Start(skills), actions).log, e.checkClass, e.check);
        ExactlyTheseRun(cfg, registries, e.checkClass, e.check);
        StepInside(cfg, registries, e.checkClass, e.check);
      }
    } else {
      var c, k := SomethingOutside(cfg);
      ExactlyTheseRun(cfg, OneClassRegistries(cfg.org), c, k);
    }
  }

  // ---- What the record says of the check itself ------------------------------------------------------

  /** The record permits every executed check under the check's own class. */
  ghost predicate OwnClassesPermitted(cfg: Config, registries: iset<seq<SkillRow>>) {
    forall skills, actions, e ::
      Within(registries, skills, actions) && e in Run(cfg, Start(skills), actions).log && e.Executed? ==>
      WithinRecord(cfg.record, e.check.Class(), e.check)
  }

  lemma CanRunIsPermitted(cfg: Config, registries: iset<seq<SkillRow>>, checkClass: string, k: Check)
    requires CanRun(cfg, registries, checkClass, k)
    ensures WithinRecord(cfg.record, checkClass, k)
  {
  }

  /** What the planner can make a step of means, if policy permits it, a check of an authorized
   *  class. */
  ghost predicate NamesAuthorized(cfg: Config, registries: iset<seq<SkillRow>>) {
    forall skills, c, k :: skills in registries && Runnable(cfg, skills, c, k) ==> ClassGranted(cfg.record, k.Class())
  }

  lemma PermittedOwnClass(cfg: Config, registries: iset<seq<SkillRow>>, checkClass: string, k: Check)
    requires CanRun(cfg, registries, checkClass, k) && NamesAuthorized(cfg, registries)
    ensures WithinRecord(cfg.record, k.Class(), k)
  {
    CanRunIsPermitted(cfg, registries, checkClass, k);
    if ByPlan(cfg, registries, checkClass, k) {
      var skills, c :| skills in registries && Runnable(cfg, skills, c, k) && c.Class() == checkClass;
    }
  }

  /** Policy looks at the class of the step and at the check that its name means. The record permits
   *  what runs under its own class exactly when no name leads to a class that is not authorized. */
  lemma OwnClassesPermittedExactly(cfg: Config, registries: iset<seq<SkillRow>>)
    ensures OwnClassesPermitted(cfg, registries) <==> NamesAuthorized(cfg, registries)
  {
    if NamesAuthorized(cfg, registries) {
      forall skills, actions, e |
        Within(registries, skills, actions) && e in Run(cfg, Start(skills), actions).log && e.Executed?
        ensures WithinRecord(cfg.record, e.check.Class(), e.check)
      {
        assert Executes(Run(cfg, Start(skills), actions).log, e.checkClass, e.check);
        ExactlyTheseRun(cfg, registries, e.checkClass, e.check);
        PermittedOwnClass(cfg, registries, e.checkClass, e.check);
      }
    } else {
      var skills, c, k :| skills in registries && Runnable(cfg, skills, c, k) && !ClassGranted(cfg.record, k.Class());
      PlannedRuns(cfg, registries, skills, c, k);
    }
  }

  /** One class per name is enough. */
  lemma OneClassIsPermitted(cfg: Config, registries: iset<seq<SkillRow>>)
    requires registries <= OneClassRegistries(cfg.org)
    ensures OwnClassesPermitted(cfg, registries)
  {
    forall skills, c, k | skills in registries && Runnable(cfg, skills, c, k)
      ensures ClassGranted(cfg.record, k.Class())
    {
      SameClass(cfg, skills, c, k);
    }
    OwnClassesPermittedExactly(cfg, registries);
  }

  // ---- Both causes happen ------------------------------------------------------------------------------

  lemma BuiltInRuns(cfg: Config, c: Check)
    requires c in BUILTINS && PlannerTakes(cfg, c) && WithinRecord(cfg.record, c.Class(), c)
    ensures Runnable(cfg, [], c, c)
  {
    BuiltInResolves(c, c.Class());
    PlannerTakesExactly(cfg, c);
    GateExactly(cfg.record, c.Class(), c);
    RunnableExactly(cfg, [], c, c);
  }

  /** Scripting checks are requested, access control checks are authorized as well, nothing is
   *  registered: replanning runs an access control check. */
  lemma ReplanningWidensARequest(cfg: Config)
    requires cfg.requested == {"xss"} && cfg.record.allowedChecks == {"xss", "bola"} && cfg.replans
    requires CoerceIntensity(cfg.record.intensity) != Passive
    ensures !KeepsTo(cfg, iset{[]}, cfg.requested)
  {
    var xss, bola := BUILTINS[7], BUILTINS[0];
    XssAndBola();
    assert "bola"[0] != "xss"[0];
    assert xss.Class() in cfg.requested * cfg.record.allowedChecks;
    BuiltInRuns(cfg, xss);
    assert Opens(cfg, iset{[]});
    ClosesExactly(BUILTINS, cfg.record, "bola", bola);
    KeepsToRequestExactly(cfg, iset{[]});
  }

  lemma XssAndBola()
    ensures BUILTINS[7] == BuiltIn("xss.reflected", "xss", SafeActive, false) && BUILTINS[7] in BUILTINS
    ensures FirstOfClass(BUILTINS, "bola") == Some(BUILTINS[0])
    ensures BUILTINS[0] == BuiltIn("bola.cross_account", "bola", SafeActive, false)
  {
  }

  /** A skill that bears a built-in's name under another class. */
  function Namesake(): Spec { Spec("sqli.reflected", "cors", "safe_active", false, [], true) }

  /** Only `cors` is requested and authorized, and there is one skill of that class: what runs is the
   *  injection check whose name it bears, of a class that is neither. */
  lemma ANameLeadsToAnotherClass(cfg: Config)
    requires cfg.requested == cfg.record.allowedChecks == {"cors"}
    requires CoerceIntensity(cfg.record.intensity) != Passive
    ensures var registries := iset{Shared(Namesake())};
            ExecutedInSomeRun(cfg, registries, "cors", BUILTINS[6]) && BUILTINS[6].Class() == "sqli" &&
            !KeepsTo(cfg, registries, cfg.requested) && !OwnClassesPermitted(cfg, registries)
  {
    var registries, sqli, skill := iset{Shared(Namesake())}, BUILTINS[6], Declarative(Namesake());
    NamesakeRuns(cfg);
    PlannedRuns(cfg, registries, Shared(Namesake()), skill, sqli);
    assert "sqli"[0] != "cors"[0];
    KeepsToRequestExactly(cfg, registries);
    OwnClassesPermittedExactly(cfg, registries);
  }

  /** A skill that the planner takes runs whatever its name leads to. */
  lemma LedByName(cfg: Config, spec: Spec, k: Check)
    requires spec.executable && spec.name == k.Name() && k in BUILTINS && PlannerTakes(cfg, Declarative(spec))
    requires WithinRecord(cfg.record, spec.checkClass, k)
    ensures Runnable(cfg, Shared(spec), Declarative(spec), k)
  {
    var skill := Declarative(spec);
    LoadedAlone(spec, cfg.org);
    assert [skill][0] == skill && skill in Candidates(Shared(spec), cfg.org);
    BuiltInResolves(k, spec.checkClass);
    PlannerTakesExactly(cfg, skill);
    GateExactly(cfg.record, spec.checkClass, k);
    RunnableExactly(cfg, Shared(spec), skill, k);
  }

  lemma Injection()
    ensures BUILTINS[6] == BuiltIn("sqli.reflected", "sqli", SafeActive, false) && BUILTINS[6] in BUILTINS
  {
  }

  lemma NamesakeRuns(cfg: Config)
    requires cfg.requested == cfg.record.allowedChecks == {"cors"}
    requires CoerceIntensity(cfg.record.intensity) != Passive
    ensures BUILTINS[6].Class() == "sqli"
    ensures Runnable(cfg, Shared(Namesake()), Declarative(Namesake()), BUILTINS[6])
  {
    Injection();
    assert cfg.requested * cfg.record.allowedChecks == {"cors"};
    LedByName(cfg, Namesake(), BUILTINS[6]);
  }
}
