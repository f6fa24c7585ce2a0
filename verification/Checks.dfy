/** The built-in check registry, declarative skills, their per-run snapshot, and the one
 *  function that turns a plan step into the check that runs.
 */
module Checks {
  import opened Prelude
  import opened Scope

  /** The runnable specification of a declarative skill, as a run snapshot stores it.
   *  `executable` says that its detector is one the runtime knows. */
  datatype Spec = Spec(
    name: string, checkClass: string, intensity: string, stateChanging: bool,
    environments: seq<string>, executable: bool)

  datatype Check =
    | BuiltIn(name: string, checkClass: string, intensity: Intensity, stateChanging: bool)
    | Declarative(spec: Spec)
  {
    function Name(): string { if BuiltIn? then name else spec.name }

    function Class(): string { if BuiltIn? then checkClass else spec.checkClass }

    function Level(): Intensity { if BuiltIn? then intensity else CoerceIntensity(spec.intensity) }

    predicate ChangesState() { if BuiltIn? then stateChanging else spec.stateChanging }

    /** Needs an operator's approval for each step: it may change the target, or is invasive. */
    predicate NeedsApproval() { ChangesState() || Level() == Invasive }
  }

  /** A registered skill row; `org` None is shared by every organisation. */
  datatype SkillRow = SkillRow(org: Option<string>, declarative: bool, enabled: bool, spec: Spec)

  // ---- Registry ------------------------------------------------------------------------------

  /** The built-in checks in registration order. */
  const BUILTINS: seq<Check> := [
    BuiltIn("bola.cross_account", "bola", SafeActive, false),
    BuiltIn("business_logic.numeric_bounds", "business_logic", SafeActive, false),
    BuiltIn("business_flow.multi_step", "business_flow", SafeActive, false),
    BuiltIn("headers.security", "security_headers", Passive, false),
    BuiltIn("llm.prompt_injection", "llm_prompt_injection", SafeActive, false),
    BuiltIn("redirect.open", "open_redirect", SafeActive, false),
    BuiltIn("sqli.reflected", "sqli", SafeActive, false),
    BuiltIn("xss.reflected", "xss", SafeActive, false)]

  /** What is registered, and under which classes; only the header check is passive. */
  lemma BuiltInTable()
    ensures forall k :: 0 <= k < |BUILTINS| ==>
      BUILTINS[k].Name() == ["bola.cross_account", "business_logic.numeric_bounds", "business_flow.multi_step",
        "headers.security", "llm.prompt_injection", "redirect.open", "sqli.reflected", "xss.reflected"][k]
    ensures forall k :: 0 <= k < |BUILTINS| ==>
      BUILTINS[k].Class() == ["bola", "business_logic", "business_flow",
        "security_headers", "llm_prompt_injection", "open_redirect", "sqli", "xss"][k]
    ensures |BUILTINS| == 8 && forall k :: 0 <= k < 8 ==> BUILTINS[k].Level() == if k == 3 then Passive else SafeActive
  {
  }

  function FindByName(checks: seq<Check>, name: string): (r: Option<Check>)
    ensures r.Some? ==> r.value in checks && r.value.Name() == name
    ensures r.None? ==> forall c :: c in checks ==> c.Name() != name
  {
    if checks == [] then None
    else if checks[0].Name() == name then Some(checks[0])
    else FindByName(checks[1..], name)
  }

  function FirstOfClass(checks: seq<Check>, checkClass: string): (r: Option<Check>)
    ensures r.Some? ==> r.value in checks && r.value.Class() == checkClass
    ensures r.None? ==> forall c :: c in checks ==> c.Class() != checkClass
  {
    if checks == [] then None
    else if checks[0].Class() == checkClass then Some(checks[0])
    else FirstOfClass(checks[1..], checkClass)
  }

  predicate IsBuiltIn(name: string) { FindByName(BUILTINS, name).Some? }

  /** No built-in check changes state or is invasive, so none is ever held for approval. */
  lemma BuiltInsNeedNoApproval(c: Check)
    requires c in BUILTINS
    ensures !c.NeedsApproval()
  {
  }

  lemma NamesOfBuiltIns()
    ensures forall k :: 0 <= k < 8 ==> |BUILTINS[k].Name()| == [18, 29, 24, 16, 20, 13, 14, 13][k]
    ensures BUILTINS[5].Name()[0] != BUILTINS[7].Name()[0]
  {
  }

  lemma BuiltInNamesAreLong(c: Check)
    requires c in BUILTINS
    ensures |c.Name()| >= 13
  {
    NamesOfBuiltIns();
    var k :| 0 <= k < 8 && BUILTINS[k] == c;
  }

  lemma ShortNameIsNoBuiltIn(name: string)
    requires |name| < 13
    ensures FindByName(BUILTINS, name).None?
  {
    var found := FindByName(BUILTINS, name);
    if found.Some? {
      BuiltInNamesAreLong(found.value);
    }
  }

  lemma {:induction false} FoundByDistinctName(checks: seq<Check>, i: nat)
    requires i < |checks|
    requires forall j :: 0 <= j < i ==> checks[j].Name() != checks[i].Name()
    ensures FindByName(checks, checks[i].Name()) == Some(checks[i])
    decreases |checks|
  {
    if i > 0 {
      assert checks[1..][i - 1] == checks[i];
      forall j | 0 <= j < i - 1
        ensures checks[1..][j].Name() != checks[1..][i - 1].Name()
      {
        assert checks[1..][j] == checks[j + 1];
      }
      FoundByDistinctName(checks[1..], i - 1);
    }
  }

  lemma FoundByItsName(checks: seq<Check>, c: Check)
    requires c in checks
    requires forall i, j :: 0 <= i < j < |checks| ==> checks[i].Name() != checks[j].Name()
    ensures FindByName(checks, c.Name()) == Some(c)
  {
    var i :| 0 <= i < |checks| && checks[i] == c;
    FoundByDistinctName(checks, i);
  }

  /** Built-in names are distinct: a built-in found by class is found again by its name. */
  lemma BuiltInFoundByItsName(c: Check)
    requires c in BUILTINS
    ensures c.Name() != "" && FindByName(BUILTINS, c.Name()) == Some(c)
  {
    BuiltInNamesAreLong(c);
    BuiltInNamesDiffer();
    FoundByItsName(BUILTINS, c);
  }

  lemma BuiltInNamesDiffer()
    ensures forall i, j :: 0 <= i < j < |BUILTINS| ==> BUILTINS[i].Name() != BUILTINS[j].Name()
  {
    NamesOfBuiltIns();
  }

  // ---- Declarative skills ------------------------------------------------------------------------

  function Build(spec: Spec): Option<Check> {
    if spec.executable then Some(Declarative(spec)) else None
  }

  /** The checks of every buildable spec, in order. */
  function ChecksFrom(snapshot: seq<Spec>): (checks: seq<Check>)
    ensures forall c :: c in checks ==> c.Declarative?
  {
    if snapshot == [] then []
    else match Build(snapshot[0])
         case Some(c) => [c] + ChecksFrom(snapshot[1..])
         case None => ChecksFrom(snapshot[1..])
  }

  function Load(rows: seq<SkillRow>, org: string): (checks: seq<Check>)
    ensures forall c :: c in checks ==> c.Declarative?
  {
    if rows == [] then []
    else
      var r := rows[0];
      var rest := Load(rows[1..], org);
      if (r.org == None || r.org == Some(org)) && r.declarative && r.enabled && Build(r.spec).Some?
      then [Build(r.spec).value] + rest else rest
  }

  predicate Loadable(r: SkillRow, org: string) {
    (r.org == None || r.org == Some(org)) && r.declarative && r.enabled && r.spec.executable
  }

  /** Loaded are the checks of exactly the rows that are enabled, declarative, runnable, and shared or of
   *  this organisation, in the order of the rows. */
  ghost predicate LoadsFrom(checks: seq<Check>, rows: seq<SkillRow>, org: string)
    decreases |rows|
  {
    if rows == [] then checks == []
    else if !Loadable(rows[0], org) then LoadsFrom(checks, rows[1..], org)
    else checks != [] && checks[0] == Declarative(rows[0].spec) && LoadsFrom(checks[1..], rows[1..], org)
  }

  lemma {:induction false} LoadExactly(rows: seq<SkillRow>, org: string)
    ensures LoadsFrom(Load(rows, org), rows, org)
    ensures forall c :: c in Load(rows, org) <==> exists r :: r in rows && Loadable(r, org) && c == Declarative(r.spec)
    decreases |rows|
  {
    if rows != [] {
      LoadExactly(rows[1..], org);
      assert forall r :: r in rows <==> r == rows[0] || r in rows[1..];
      if Loadable(rows[0], org) {
        assert Load(rows, org)[1..] == Load(rows[1..], org);
        assert rows[0] in rows;
      }
    }
  }

  function SpecsOf(checks: seq<Check>): seq<Spec>
    requires forall c :: c in checks ==> c.Declarative?
  {
    seq(|checks|, k requires 0 <= k < |checks| => assert checks[k] in checks; checks[k].spec)
  }

  lemma {:induction false} RebuiltChecks(checks: seq<Check>)
    requires forall c :: c in checks ==> c.Declarative? && c.spec.executable
    ensures ChecksFrom(SpecsOf(checks)) == checks
    decreases |checks|
  {
    if checks != [] {
      assert checks[0] in checks;
      assert SpecsOf(checks)[0] == checks[0].spec;
      assert SpecsOf(checks)[1..] == SpecsOf(checks[1..]);
      RebuiltChecks(checks[1..]);
    }
  }

  lemma {:induction false} LoadedAreExecutable(rows: seq<SkillRow>, org: string)
    ensures forall c :: c in Load(rows, org) ==> c.spec.executable
    decreases |rows|
  {
    if rows != [] {
      LoadedAreExecutable(rows[1..], org);
    }
  }

  /** Freezing the loaded checks and rebuilding them gives the same checks. */
  lemma SnapshotRoundTrip(rows: seq<SkillRow>, org: string)
    ensures ChecksFrom(SpecsOf(Load(rows, org))) == Load(rows, org)
  {
    LoadedAreExecutable(rows, org);
    RebuiltChecks(Load(rows, org));
  }

  /** What a phase sees: the checks it works with and the snapshot it leaves behind. */
  datatype Frozen = Frozen(checks: seq<Check>, snapshot: seq<Spec>)

  /** The first phase that finds no snapshot loads the registry and freezes it. An empty
   *  registry leaves the snapshot empty, so a later phase loads again. */
  function Declaratives(snapshot: seq<Spec>, rows: seq<SkillRow>, org: string): (f: Frozen)
    ensures f.checks == ChecksFrom(f.snapshot)
    ensures snapshot != [] ==> f.snapshot == snapshot
  {
    if snapshot != [] then Frozen(ChecksFrom(snapshot), snapshot)
    else
      SnapshotRoundTrip(rows, org);
      Frozen(Load(rows, org), SpecsOf(Load(rows, org)))
  }

  // ---- Resolution ----------------------------------------------------------------------------------

  function Resolve(name: string, checkClass: string, declaratives: seq<Check>): Option<Check> {
    if name != "" && FindByName(BUILTINS, name).Some? then FindByName(BUILTINS, name)
    else if name != "" && FindByName(declaratives, name).Some? then FindByName(declaratives, name)
    else FirstOfClass(BUILTINS, checkClass)
  }

  /** A name whose meaning the snapshot fixes: every name a planner can have picked. */
  predicate Fixed(name: string, snapshot: seq<Spec>) {
    name == "" || IsBuiltIn(name) || FindByName(ChecksFrom(snapshot), name).Some?
  }

  /** The name of a built-in means that built-in, whatever skills are around. */
  lemma BuiltInResolves(c: Check, checkClass: string)
    requires c in BUILTINS
    ensures forall declaratives :: Resolve(c.Name(), checkClass, declaratives) == Some(c)
    ensures forall snapshot :: Fixed(c.Name(), snapshot)
  {
    BuiltInFoundByItsName(c);
  }

  lemma FixedStaysFixed(name: string, snapshot: seq<Spec>, rows: seq<SkillRow>, org: string)
    requires Fixed(name, snapshot)
    ensures Fixed(name, Declaratives(snapshot, rows, org).snapshot)
  {
  }

  /** Whether the check a name resolves to is the same before and after any later phase. */
  ghost predicate Stable(name: string, snapshot: seq<Spec>) {
    forall checkClass, rows, org ::
      Resolve(name, checkClass, Declaratives(snapshot, rows, org).checks) ==
      Resolve(name, checkClass, ChecksFrom(snapshot))
  }

  /** The gated check is the check that runs, whatever is registered in between, exactly when
   *  something was frozen or the name is one that planning with nothing frozen can pick. */
  lemma ResolutionIsStable(name: string, snapshot: seq<Spec>)
    ensures Stable(name, snapshot) <==> snapshot != [] || Fixed(name, snapshot)
  {
    if snapshot == [] && !Fixed(name, snapshot) {
      var spec := Spec(name, "", "passive", false, [], true);
      LaterSkillIsPickedUp(spec, "");
    }
  }

  /** Planning with an empty registry freezes nothing: a skill registered later under a name
   *  no built-in has is picked up by the next phase. */
  lemma LaterSkillIsPickedUp(spec: Spec, org: string)
    requires spec.executable && !Fixed(spec.name, [])
    ensures var rows := [SkillRow(None, true, true, spec)];
            Resolve(spec.name, spec.checkClass, Declaratives([], rows, org).checks) == Some(Declarative(spec))
    ensures Resolve(spec.name, spec.checkClass, ChecksFrom([])) != Some(Declarative(spec))
  {
    var rows := [SkillRow(None, true, true, spec)];
    assert rows[1..] == [];
    assert Load(rows, org) == [Declarative(spec)];
    assert [Declarative(spec)][0].Name() == spec.name;
    BuiltInsAreBuiltIn(FirstOfClass(BUILTINS, spec.checkClass));
  }

  lemma BuiltInsAreBuiltIn(c: Option<Check>)
    requires c.Some? ==> c.value in BUILTINS
    ensures c.Some? ==> c.value.BuiltIn?
  {
  }
}
