/** What policy decides about a step, in the terms of the authorization record, of the check's own
 *  fields and of where a name stands in the lists of checks.
 */
module PolicyTerms {
  import opened Prelude
  import opened Scope
  import opened Checks
  import opened Approvals

  // ---- The words of a check ----------------------------------------------------------------------

  predicate SaysSafeActive(c: Check) {
    match c
    case BuiltIn(_, _, intensity, _) => intensity == SafeActive
    case Declarative(spec) => spec.intensity == "safe_active"
  }

  predicate SaysInvasive(c: Check) {
    match c
    case BuiltIn(_, _, intensity, _) => intensity == Invasive
    case Declarative(spec) => spec.intensity == "invasive"
  }

  predicate SaysStateChanging(c: Check) {
    match c
    case BuiltIn(_, _, _, stateChanging) => stateChanging
    case Declarative(spec) => spec.stateChanging
  }

  // ---- What the record must say ------------------------------------------------------------------

  predicate ClassGranted(r: AuthRecord, checkClass: string) { r.allowedChecks == {} || checkClass in r.allowedChecks }

  predicate IntensityGranted(r: AuthRecord, c: Check) {
    (SaysSafeActive(c) ==> r.intensity in {"safe_active", "invasive"}) && (SaysInvasive(c) ==> r.intensity == "invasive")
  }

  /** Nothing invasive in production, or in an environment that nobody can name. */
  predicate EnvironmentGranted(r: AuthRecord, c: Check) {
    SaysInvasive(c) ==> r.environment in {"staging", "development", "lab"}
  }

  /** A skill that changes state needs a record that allows it. */
  predicate StateChangeGranted(r: AuthRecord, c: Check) {
    c.Declarative? && c.spec.stateChanging ==> r.allowStateChanging
  }

  /** A skill that names environments stays inside them. */
  predicate OwnEnvironment(r: AuthRecord, c: Check) {
    c.Declarative? && c.spec.environments != [] ==> r.environment in c.spec.environments
  }

  predicate WithinRecord(r: AuthRecord, checkClass: string, c: Check) {
    ClassGranted(r, checkClass) && IntensityGranted(r, c) && EnvironmentGranted(r, c) &&
    StateChangeGranted(r, c) && OwnEnvironment(r, c)
  }

  /** Policy permits exactly what is within the record. */
  lemma GateExactly(r: AuthRecord, checkClass: string, c: Check)
    ensures Gate(r, checkClass, c) == Ok <==> WithinRecord(r, checkClass, c)
  {
    WordsOfLevels(c);
    WordsOfRecord(r);
  }

  lemma WordsOfLevels(c: Check)
    ensures c.Level() == SafeActive <==> SaysSafeActive(c)
    ensures c.Level() == Invasive <==> SaysInvasive(c)
    ensures c.ChangesState() <==> SaysStateChanging(c)
  {
    assert "safe_active"[0] != "invasive"[0];
  }

  lemma WordsOfRecord(r: AuthRecord)
    ensures CoerceIntensity(r.intensity) == SafeActive <==> r.intensity == "safe_active"
    ensures CoerceIntensity(r.intensity) == Invasive <==> r.intensity == "invasive"
    ensures CoerceEnv(r.environment) == Production <==> r.environment !in {"staging", "development", "lab"}
  {
    assert "safe_active"[0] != "invasive"[0];
  }

  /** The code of a refusal names the first of these that fails. */
  lemma RefusalCode(r: AuthRecord, checkClass: string, c: Check)
    ensures Gate(r, checkClass, c) ==
            if !ClassGranted(r, checkClass) then CheckNotAuthorized
            else if !IntensityGranted(r, c) then IntensityExceeded
            else if !EnvironmentGranted(r, c) then InvasiveInProd
            else if !StateChangeGranted(r, c) then DeclarativeStateChangeDenied
            else if !OwnEnvironment(r, c) then DeclarativeEnvironmentDenied
            else Ok
  {
    WordsOfLevels(c);
    WordsOfRecord(r);
  }

  // ---- What a name means -------------------------------------------------------------------------

  predicate FirstNamed(checks: seq<Check>, name: string, k: nat) {
    k < |checks| && checks[k].Name() == name && forall i :: 0 <= i < k ==> checks[i].Name() != name
  }

  predicate FirstOf(checks: seq<Check>, checkClass: string, k: nat) {
    k < |checks| && checks[k].Class() == checkClass && forall i :: 0 <= i < k ==> checks[i].Class() != checkClass
  }

  predicate Nameless(checks: seq<Check>, name: string) { name == "" || forall i :: 0 <= i < |checks| ==> checks[i].Name() != name }

  /** The check is the first bearer of the step's name, built-ins first; or, when the name is empty
   *  or nobody bears it, the first built-in of the step's class. */
  ghost predicate Means(row: Row, declaratives: seq<Check>, c: Check) {
    (row.name != "" && exists k: nat :: FirstNamed(BUILTINS + declaratives, row.name, k) && (BUILTINS + declaratives)[k] == c) ||
    (Nameless(BUILTINS + declaratives, row.name) && exists k: nat :: FirstOf(BUILTINS, row.checkClass, k) && BUILTINS[k] == c)
  }

  ghost predicate MeansNothing(row: Row, declaratives: seq<Check>) {
    Nameless(BUILTINS + declaratives, row.name) && forall i :: 0 <= i < |BUILTINS| ==> BUILTINS[i].Class() != row.checkClass
  }

  lemma {:induction false} FoundIsFirst(checks: seq<Check>, name: string) returns (k: nat)
    ensures match FindByName(checks, name)
            case Some(c) => FirstNamed(checks, name, k) && checks[k] == c
            case None => forall i :: 0 <= i < |checks| ==> checks[i].Name() != name
    decreases |checks|
  {
    k := 0;
    if checks != [] && checks[0].Name() != name {
      k := FoundIsFirst(checks[1..], name);
      assert forall i :: 0 < i < |checks| ==> checks[i] == checks[1..][i - 1];
      k := k + 1;
    }
  }

  lemma {:induction false} OfClassIsFirst(checks: seq<Check>, checkClass: string) returns (k: nat)
    ensures match FirstOfClass(checks, checkClass)
            case Some(c) => FirstOf(checks, checkClass, k) && checks[k] == c
            case None => forall i :: 0 <= i < |checks| ==> checks[i].Class() != checkClass
    decreases |checks|
  {
    k := 0;
    if checks != [] && checks[0].Class() != checkClass {
      k := OfClassIsFirst(checks[1..], checkClass);
      assert forall i :: 0 < i < |checks| ==> checks[i] == checks[1..][i - 1];
      k := k + 1;
    }
  }

  /** Resolving a name finds what it means. */
  lemma ResolveExactly(stock: seq<Check>, row: Row, declaratives: seq<Check>)
    requires stock == BUILTINS
    ensures match Resolve(row.name, row.checkClass, declaratives)
            case Some(c) => Means(row, declaratives, c)
            case None => MeansNothing(row, declaratives)
  {
    var k := FoundInBoth(stock, declaratives, row.name);
    var f := OfClassIsFirst(stock, row.checkClass);
  }

  lemma FoundInBoth(stock: seq<Check>, declaratives: seq<Check>, name: string) returns (k: nat)
    ensures var both := stock + declaratives;
            match (if FindByName(stock, name).Some? then FindByName(stock, name) else FindByName(declaratives, name))
            case Some(c) => FirstNamed(both, name, k) && both[k] == c
            case None => forall i :: 0 <= i < |both| ==> both[i].Name() != name
  {
    var both := stock + declaratives;
    assert forall i :: 0 <= i < |both| ==> both[i] == if i < |stock| then stock[i] else declaratives[i - |stock|];
    k := FoundIsFirst(stock, name);
    if FindByName(stock, name).None? {
      var d := FoundIsFirst(declaratives, name);
      k := |stock| + d;
    }
  }

  /** A name means at most one check. */
  lemma MeansOne(row: Row, declaratives: seq<Check>, c: Check, d: Check)
    requires Means(row, declaratives, c)
    ensures Means(row, declaratives, d) ==> c == d
    ensures !MeansNothing(row, declaratives)
  {
  }

  // ---- What becomes of a step ----------------------------------------------------------------------

  predicate MustBeApproved(cfg: Config, c: Check) { cfg.approvalRequired && (SaysStateChanging(c) || SaysInvasive(c)) }

  /** The status fits the check that the step means and the record. */
  ghost predicate Judged(cfg: Config, row: Row, declaratives: seq<Check>, status: Status) {
    (status == Skipped <==> MeansNothing(row, declaratives)) &&
    (status == Refused <==> exists c :: Means(row, declaratives, c) && !WithinRecord(cfg.record, row.checkClass, c)) &&
    (status == Awaiting <==>
       exists c :: Means(row, declaratives, c) && WithinRecord(cfg.record, row.checkClass, c) && MustBeApproved(cfg, c)) &&
    (status == Approved <==>
       exists c :: Means(row, declaratives, c) && WithinRecord(cfg.record, row.checkClass, c) && !MustBeApproved(cfg, c))
  }

  lemma StatusIsJudged(cfg: Config, row: Row, declaratives: seq<Check>)
    ensures Judged(cfg, row, declaratives, StatusAfter(cfg, row, declaratives))
  {
    ResolveExactly(BUILTINS, row, declaratives);
    match Resolve(row.name, row.checkClass, declaratives)
    case None =>
      forall c
        ensures !Means(row, declaratives, c)
      {
        if Means(row, declaratives, c) {
          MeansOne(row, declaratives, c, c);
        }
      }
    case Some(check) =>
      GateExactly(cfg.record, row.checkClass, check);
      WordsOfLevels(check);
      forall c
        ensures Means(row, declaratives, c) <==> c == check
        ensures !MeansNothing(row, declaratives)
      {
        MeansOne(row, declaratives, check, c);
      }
  }
}
