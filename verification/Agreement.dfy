/** Detector, validator and regression test: three separately written deciders over the replies
 *  of one target. The target is any function from requests to replies.
 */
module Agreement {
  import opened Prelude
  import Scope

  datatype Response = Response(status: int, contentType: string, text: string)

  /** The target answers, cannot be reached, or the request is refused by the scope guard. */
  datatype Reply = Answer(r: Response) | Unreachable | Blocked

  /** One parameter with one value, in the query or in the body. */
  datatype Request = Request(verb: string, url: string, param: string, value: string, inQuery: bool)

  /** A target with the two regular expressions that are applied to its bodies: database error
   *  signatures, and word characters. */
  datatype Target = Target(reply: Request -> Reply, showsDbError: string -> bool, isWord: char -> bool)

  /** What a finding leaves behind for replaying it. */
  datatype Recipe = Recipe(
    verb: string, url: string, param: string, detector: string,
    payload: string, truePayload: string, falsePayload: string, marker: string, baselineValue: string)

  datatype Detection = Found(recipe: Recipe) | Nothing | Halted

  datatype Verdict = Confirmed | Suspected | Inconclusive | Rejected

  datatype Regression = Fixed | StillVulnerable | Undecided

  // ---- Text helpers ------------------------------------------------------------------------------

  function LowerChar(c: char): char { if 'A' <= c <= 'Z' then c - 'A' + 'a' else c }

  function Lower(s: string): string { seq(|s|, i requires 0 <= i < |s| => LowerChar(s[i])) }

  predicate OccursAt(text: string, part: string, i: nat) { i + |part| <= |text| && text[i..i + |part|] == part }

  predicate Occurs(text: string, part: string) { exists i :: 0 <= i <= |text| && OccursAt(text, part, i) }

  /** The part occurs exactly if the text is something before it, the part, and something after it. */
  lemma OccursExactly(text: string, part: string)
    ensures Occurs(text, part) <==> exists before: string, after: string :: text == before + part + after
  {
    if Occurs(text, part) {
      var i :| 0 <= i <= |text| && OccursAt(text, part, i);
      assert text == text[..i] + part + text[i + |part|..];
    }
    if before: string, after: string :| text == before + part + after {
      assert text[|before|..|before| + |part|] == part;
      assert OccursAt(text, part, |before|);
    }
  }

  /** The value stands in the body as a number of its own. */
  predicate Echoes(t: Target, body: string, value: string) {
    exists i :: 0 <= i <= |body| && OccursAt(body, value, i) &&
      (i > 0 ==> !t.isWord(body[i - 1]) && body[i - 1] != '.' && body[i - 1] != '-') &&
      (i + |value| < |body| ==> !t.isWord(body[i + |value|]) && body[i + |value|] != '.')
  }

  function Distance(a: nat, b: nat): nat { if a >= b then a - b else b - a }

  function Larger(a: nat, b: nat): nat { if a >= b then a else b }

  /** The lengths differ by more than the threshold, relative to the larger. */
  predicate LengthsDiffer(a: string, b: string, threshold: real) {
    Larger(|a|, |b|) != 0 && Distance(|a|, |b|) as real / Larger(|a|, |b|) as real > threshold
  }

  predicate Renderable(r: Response) {
    r.status < 400 && (Lower(r.contentType) == "" || Occurs(Lower(r.contentType), "html"))
  }

  // ---- SQL injection: the detector -----------------------------------------------------------------

  const ERROR_PAYLOADS: seq<string> := ["'", "\"", "')", "';", "\"))", "' OR '1'='1' -- "]
  const TRUE_PAYLOAD := "1' OR '1'='1"
  const FALSE_PAYLOAD := "1' AND '1'='2"
  const ALTERNATE := "'\""
  const DB_ERROR := "db_error_signature"
  const BOOLEAN := "boolean_differential"

  /** How a check sends a value. */
  function Probe(t: Target, verb: string, url: string, param: string, value: string): Reply {
    t.reply(Request(verb, url, param, value, verb == "GET"))
  }

  function ErrorRecipe(verb: string, url: string, param: string, payload: string): Recipe {
    Recipe(verb, url, param, DB_ERROR, payload, "", "", "", "")
  }

  function BooleanRecipe(verb: string, url: string, param: string): Recipe {
    Recipe(verb, url, param, BOOLEAN, "", TRUE_PAYLOAD, FALSE_PAYLOAD, "", "")
  }

  /** The first payload that draws a database error; payloads that draw no reply are passed over. */
  function FirstError(t: Target, verb: string, url: string, param: string, payloads: seq<string>): Detection {
    if payloads == [] then Nothing
    else match Probe(t, verb, url, param, "1" + payloads[0])
      case Blocked => Halted
      case Unreachable => FirstError(t, verb, url, param, payloads[1..])
      case Answer(r) =>
        if t.showsDbError(r.text) then Found(ErrorRecipe(verb, url, param, "1" + payloads[0]))
        else FirstError(t, verb, url, param, payloads[1..])
  }

  predicate BooleanDiffers(baseline: Response, rTrue: Response, rFalse: Response) {
    if rTrue.status != rFalse.status then true
    else
      var lt, lf := |rTrue.text|, |rFalse.text|;
      var lb := if |baseline.text| == 0 then 1 else |baseline.text|;
      Larger(lt, lf) != 0 &&
      Distance(lt, lf) as real / Larger(lt, lf) as real > 0.30 &&
      Distance(lt, lb) as real / Larger(lt, lb) as real < 0.15
  }

  function DetectBoolean(t: Target, verb: string, url: string, param: string, baseline: Response): Detection {
    match Probe(t, verb, url, param, TRUE_PAYLOAD)
    case Blocked => Halted
    case Unreachable => Nothing
    case Answer(rTrue) =>
      match Probe(t, verb, url, param, FALSE_PAYLOAD)
      case Blocked => Halted
      case Unreachable => Nothing
      case Answer(rFalse) =>
        if BooleanDiffers(baseline, rTrue, rFalse) then Found(BooleanRecipe(verb, url, param)) else Nothing
  }

  /** Error-based detection first, then the boolean differential. */
  function DetectSqli(t: Target, verb: string, url: string, param: string): Detection {
    match Probe(t, verb, url, param, "1")
    case Blocked => Halted
    case Unreachable => Nothing
    case Answer(baseline) =>
      var byError := FirstError(t, verb, url, param, ERROR_PAYLOADS);
      if byError.Nothing? then DetectBoolean(t, verb, url, param, baseline) else byError
  }

  method ProbeForErrors(t: Target, verb: string, url: string, param: string, payloads: seq<string>) returns (d: Detection)
    ensures d == FirstError(t, verb, url, param, payloads)
    ensures ErrorsTell(t, verb, url, param, payloads, d)
  {
    ErrorsTellExactly(t, verb, url, param, payloads);
    for i := 0 to |payloads|
      invariant FirstError(t, verb, url, param, payloads) == FirstError(t, verb, url, param, payloads[i..])
    {
      assert payloads[i..][1..] == payloads[i + 1..];
      var reply := Probe(t, verb, url, param, "1" + payloads[i]);
      if reply.Blocked? {
        return Halted;
      }
      if reply.Answer? && t.showsDbError(reply.r.text) {
        return Found(ErrorRecipe(verb, url, param, "1" + payloads[i]));
      }
    }
    d := Nothing;
  }

  method ProbeParam(t: Target, verb: string, url: string, param: string) returns (d: Detection)
    ensures d == DetectSqli(t, verb, url, param)
    ensures SqliTells(t, verb, url, param, d)
  {
    var baseline := Probe(t, verb, url, param, "1");
    if !baseline.Answer? {
      return if baseline.Blocked? then Halted else Nothing;
    }
    d := ProbeForErrors(t, verb, url, param, ERROR_PAYLOADS);
    if d.Nothing? {
      d := DetectBoolean(t, verb, url, param, baseline.r);
      BooleanTellsExactly(t, verb, url, param, baseline.r);
    }
  }

  // ---- What the injection detector finds, told from the replies -----------------------------------------

  /** The payload, sent after the base value, draws an answer with a database error. */
  predicate Errs(t: Target, verb: string, url: string, param: string, payload: string) {
    var reply := t.reply(Request(verb, url, param, "1" + payload, verb == "GET"));
    reply.Answer? && t.showsDbError(reply.r.text)
  }

  predicate Refused(t: Target, verb: string, url: string, param: string, value: string) {
    t.reply(Request(verb, url, param, value, verb == "GET")).Blocked?
  }

  /** Payload k is the first that errs or is refused. */
  predicate DecidesAt(t: Target, verb: string, url: string, param: string, payloads: seq<string>, k: nat) {
    k < |payloads| && (Errs(t, verb, url, param, payloads[k]) || Refused(t, verb, url, param, "1" + payloads[k])) &&
    forall i :: 0 <= i < k ==> !Errs(t, verb, url, param, payloads[i]) && !Refused(t, verb, url, param, "1" + payloads[i])
  }

  ghost predicate FoundAt(t: Target, verb: string, url: string, param: string, payloads: seq<string>, d: Detection, k: nat) {
    DecidesAt(t, verb, url, param, payloads, k) && Errs(t, verb, url, param, payloads[k]) &&
    d == Found(Recipe(verb, url, param, "db_error_signature", "1" + payloads[k], "", "", "", ""))
  }

  ghost predicate HaltedAt(t: Target, verb: string, url: string, param: string, payloads: seq<string>, k: nat) {
    DecidesAt(t, verb, url, param, payloads, k) && Refused(t, verb, url, param, "1" + payloads[k])
  }

  /** Something is found exactly at the first payload that errs, if none before it is refused; the
   *  probe halts exactly at the first refusal, if none before it errs; and otherwise there is
   *  nothing. */
  ghost predicate ErrorsTell(t: Target, verb: string, url: string, param: string, payloads: seq<string>, d: Detection) {
    (d.Found? <==> exists k: nat :: FoundAt(t, verb, url, param, payloads, d, k)) &&
    (d.Halted? <==> exists k: nat :: HaltedAt(t, verb, url, param, payloads, k)) &&
    (d.Nothing? <==> forall i :: 0 <= i < |payloads| ==>
       !Errs(t, verb, url, param, payloads[i]) && !Refused(t, verb, url, param, "1" + payloads[i]))
  }

  lemma {:induction false} FirstDecides(t: Target, verb: string, url: string, param: string, payloads: seq<string>) returns (k: nat)
    ensures match FirstError(t, verb, url, param, payloads)
            case Found(_) => FoundAt(t, verb, url, param, payloads, FirstError(t, verb, url, param, payloads), k)
            case Halted => HaltedAt(t, verb, url, param, payloads, k)
            case Nothing => forall i :: 0 <= i < |payloads| ==>
              !Errs(t, verb, url, param, payloads[i]) && !Refused(t, verb, url, param, "1" + payloads[i])
    decreases |payloads|
  {
    k := 0;
    if payloads != [] && !Errs(t, verb, url, param, payloads[0]) && !Refused(t, verb, url, param, "1" + payloads[0]) {
      k := FirstDecides(t, verb, url, param, payloads[1..]);
      assert forall i :: 0 < i < |payloads| ==> payloads[i] == payloads[1..][i - 1];
      k := k + 1;
    }
  }

  lemma DecidesOnce(t: Target, verb: string, url: string, param: string, payloads: seq<string>, k: nat, m: nat)
    requires DecidesAt(t, verb, url, param, payloads, k) && DecidesAt(t, verb, url, param, payloads, m)
    ensures k == m
  {
  }

  lemma ErrorsTellExactly(t: Target, verb: string, url: string, param: string, payloads: seq<string>)
    ensures ErrorsTell(t, verb, url, param, payloads, FirstError(t, verb, url, param, payloads))
  {
    var d := FirstError(t, verb, url, param, payloads);
    var k := FirstDecides(t, verb, url, param, payloads);
    forall m: nat
      ensures FoundAt(t, verb, url, param, payloads, d, m) ==> d.Found?
      ensures HaltedAt(t, verb, url, param, payloads, m) ==> d.Halted?
    {
      if DecidesAt(t, verb, url, param, payloads, m) && !d.Nothing? {
        DecidesOnce(t, verb, url, param, payloads, k, m);
      }
    }
  }

  /** |a - b| / max(a, b) exceeds percent / 100. */
  predicate FurtherApart(a: nat, b: nat, percent: nat) {
    if a >= b then 100 * (a - b) > percent * a else 100 * (b - a) > percent * b
  }

  predicate CloserThan(a: nat, b: nat, percent: nat) {
    if a >= b then 100 * (a - b) < percent * a else 100 * (b - a) < percent * b
  }

  /** The true and the false reply differ: in their status, or by more than 30 percent in length while
   *  the true one is within 15 percent of the baseline. */
  predicate TellsApart(baseline: Response, rTrue: Response, rFalse: Response) {
    rTrue.status != rFalse.status ||
    (FurtherApart(|rTrue.text|, |rFalse.text|, 30) &&
     CloserThan(|rTrue.text|, if baseline.text == "" then 1 else |baseline.text|, 15))
  }

  lemma QuotientExceeds(a: nat, b: nat, percent: nat)
    requires b > 0
    ensures a as real / b as real > percent as real / 100.0 <==> 100 * a > percent * b
    ensures a as real / b as real < percent as real / 100.0 <==> 100 * a < percent * b
  {
    var q, p := a as real / b as real, percent as real / 100.0;
    assert a as real == q * b as real;
    assert percent as real * b as real == 100.0 * (p * b as real);
    Scales(q, p, b as real);
    assert (100 * a) as real == 100.0 * a as real;
    ProductOfReals(percent, b);
  }

  lemma ProductOfReals(a: nat, b: nat)
    ensures (a * b) as real == a as real * b as real
  {
  }

  lemma Scales(x: real, y: real, b: real)
    requires b > 0.0
    ensures x > y <==> x * b > y * b
    ensures x < y <==> x * b < y * b
  {
  }

  lemma BooleanDiffersExactly(baseline: Response, rTrue: Response, rFalse: Response)
    ensures BooleanDiffers(baseline, rTrue, rFalse) <==> TellsApart(baseline, rTrue, rFalse)
  {
    var lt, lf := |rTrue.text|, |rFalse.text|;
    var lb := if |baseline.text| == 0 then 1 else |baseline.text|;
    assert baseline.text == "" <==> |baseline.text| == 0;
    if Larger(lt, lf) != 0 {
      QuotientExceeds(Distance(lt, lf), Larger(lt, lf), 30);
    }
    QuotientExceeds(Distance(lt, lb), Larger(lt, lb), 15);
  }

  lemma LengthsDifferExactly(a: string, b: string, percent: nat)
    ensures LengthsDiffer(a, b, percent as real / 100.0) <==> FurtherApart(|a|, |b|, percent)
  {
    if Larger(|a|, |b|) != 0 {
      QuotientExceeds(Distance(|a|, |b|), Larger(|a|, |b|), percent);
    }
  }

  /** The differential: halted if one of its two values is refused before the other draws no answer;
   *  found exactly if both draw answers that tell apart. */
  ghost predicate BooleanTells(t: Target, verb: string, url: string, param: string, baseline: Response, d: Detection) {
    var first := t.reply(Request(verb, url, param, "1' OR '1'='1", verb == "GET"));
    var second := t.reply(Request(verb, url, param, "1' AND '1'='2", verb == "GET"));
    (d.Halted? <==> first.Blocked? || (first.Answer? && second.Blocked?)) &&
    (d.Found? <==> first.Answer? && second.Answer? && TellsApart(baseline, first.r, second.r)) &&
    (d.Found? ==> d.recipe == Recipe(verb, url, param, "boolean_differential", "", "1' OR '1'='1", "1' AND '1'='2", "", ""))
  }

  lemma BooleanTellsExactly(t: Target, verb: string, url: string, param: string, baseline: Response)
    ensures BooleanTells(t, verb, url, param, baseline, DetectBoolean(t, verb, url, param, baseline))
  {
    var first, second := Probe(t, verb, url, param, TRUE_PAYLOAD), Probe(t, verb, url, param, FALSE_PAYLOAD);
    if first.Answer? && second.Answer? {
      BooleanDiffersExactly(baseline, first.r, second.r);
    }
  }

  /** The whole detector: without an answer to the base value there is nothing, or a halt; errors come
   *  first, and the differential is looked at exactly when no payload errs or is refused. */
  ghost predicate SqliTells(t: Target, verb: string, url: string, param: string, d: Detection) {
    var payloads := ["'", "\"", "')", "';", "\"))", "' OR '1'='1' -- "];
    match t.reply(Request(verb, url, param, "1", verb == "GET"))
    case Blocked => d == Halted
    case Unreachable => d == Nothing
    case Answer(baseline) =>
      if exists k: nat :: DecidesAt(t, verb, url, param, payloads, k) then ErrorsTell(t, verb, url, param, payloads, d)
      else BooleanTells(t, verb, url, param, baseline, d)
  }

  // ---- Replaying ---------------------------------------------------------------------------------------

  /** How the validator and the regression test send a value: any spelling of GET uses the query. */
  function Replay(t: Target, verb: string, url: string, param: string, value: string): Reply {
    if verb == "" || Scope.Upper(verb) == "GET" then t.reply(Request("GET", url, param, value, true))
    else t.reply(Request(verb, url, param, value, false))
  }

  function ValidateError(t: Target, r: Recipe): Verdict {
    match Replay(t, r.verb, r.url, r.param, r.payload)
    case Answer(resp) =>
      if t.showsDbError(resp.text) then Confirmed
      else (match Replay(t, r.verb, r.url, r.param, ALTERNATE)
            case Answer(resp2) => if t.showsDbError(resp2.text) then Confirmed else Rejected
            case _ => Inconclusive)
    case _ => Inconclusive
  }

  /** The three replies of a boolean differential, if all of them come. */
  function BooleanReplies(t: Target, r: Recipe): Option<(Response, Response, Response)> {
    var baseline := Replay(t, r.verb, r.url, r.param, "1");
    var rTrue := Replay(t, r.verb, r.url, r.param, r.truePayload);
    var rFalse := Replay(t, r.verb, r.url, r.param, r.falsePayload);
    if baseline.Answer? && rTrue.Answer? && rFalse.Answer? then Some((baseline.r, rTrue.r, rFalse.r)) else None
  }

  function ValidateSqli(t: Target, r: Recipe): Verdict {
    if r.detector == DB_ERROR then ValidateError(t, r)
    else if r.detector == BOOLEAN then
      match BooleanReplies(t, r)
      case None => Inconclusive
      case Some((baseline, rTrue, rFalse)) =>
        var differs := rTrue.status != rFalse.status || LengthsDiffer(rTrue.text, rFalse.text, 0.30);
        var close := !LengthsDiffer(rTrue.text, baseline.text, 0.15);
        if differs && close then Confirmed else if differs then Suspected else Rejected
    else Inconclusive
  }

  function RegressSqli(t: Target, r: Recipe): Regression {
    if r.detector == DB_ERROR then
      match Replay(t, r.verb, r.url, r.param, r.payload)
      case Answer(resp) => if t.showsDbError(resp.text) then StillVulnerable else Fixed
      case _ => Undecided
    else
      match BooleanReplies(t, r)
      case None => Undecided
      case Some((baseline, rTrue, rFalse)) =>
        if (rTrue.status != rFalse.status || LengthsDiffer(rTrue.text, rFalse.text, 0.30)) &&
           !LengthsDiffer(rTrue.text, baseline.text, 0.15)
        then StillVulnerable else Fixed
  }

  // ---- Cross-site scripting ------------------------------------------------------------------------------

  function RawMark(token: string): string { "<szx" + token + ">" }

  function EscapedMark(token: string): string { "&lt;szx" + token + "&gt;" }

  function MarkerPayload(token: string): string { "<szx" + token + ">'\"</szx" + token + ">" }

  function DetectXss(t: Target, verb: string, url: string, param: string, token: string): Detection {
    match Probe(t, verb, url, param, MarkerPayload(token))
    case Blocked => Halted
    case Unreachable => Nothing
    case Answer(r) =>
      if !Renderable(r.(contentType := Lower(r.contentType))) then Nothing
      else if Occurs(r.text, RawMark(token)) && !Occurs(r.text, EscapedMark(token))
      then Found(Recipe(verb, url, param, "unescaped_reflection", MarkerPayload(token), "", "", token, ""))
      else Nothing
  }

  /** The marker comes back as a tag, not escaped, in an answer that a browser renders. */
  predicate Reflects(r: Response, token: string) {
    r.status < 400 && (r.contentType == "" || Occurs(Lower(r.contentType), "html")) &&
    Occurs(r.text, "<szx" + token + ">") && !Occurs(r.text, "&lt;szx" + token + "&gt;")
  }

  lemma LowerExactly(s: string)
    ensures |Lower(s)| == |s|
    ensures forall i :: 0 <= i < |s| ==>
      if 'A' <= s[i] <= 'Z' then Lower(s)[i] as int == s[i] as int - 'A' as int + 'a' as int else Lower(s)[i] == s[i]
    ensures Lower(Lower(s)) == Lower(s)
  {
  }

  /** The scripting check finds something exactly if its marker is reflected. */
  lemma XssFoundExactly(t: Target, verb: string, url: string, param: string, token: string)
    ensures var payload := "<szx" + token + ">'\"</szx" + token + ">";
            var reply := t.reply(Request(verb, url, param, payload, verb == "GET"));
            (DetectXss(t, verb, url, param, token).Halted? <==> reply.Blocked?) &&
            (DetectXss(t, verb, url, param, token).Found? <==> reply.Answer? && Reflects(reply.r, token)) &&
            (reply.Answer? && Reflects(reply.r, token) ==>
               DetectXss(t, verb, url, param, token).recipe ==
               Recipe(verb, url, param, "unescaped_reflection", payload, "", "", token, ""))
  {
    var reply := Probe(t, verb, url, param, MarkerPayload(token));
    if reply.Answer? {
      LowerExactly(reply.r.contentType);
    }
  }

  function ValidateXss(t: Target, r: Recipe): Verdict {
    match Replay(t, r.verb, r.url, r.param, r.payload)
    case Answer(resp) =>
      var raw := if r.marker != "" then RawMark(r.marker) else r.payload;
      if raw != "" && Occurs(resp.text, raw) && (r.marker == "" || !Occurs(resp.text, EscapedMark(r.marker)))
      then (if Renderable(resp) then Confirmed else Rejected)
      else Rejected
    case _ => Inconclusive
  }

  function RegressXss(t: Target, r: Recipe): Regression {
    match Replay(t, r.verb, r.url, r.param, r.payload)
    case Answer(resp) =>
      var raw := if r.marker != "" then RawMark(r.marker) else r.payload;
      if Renderable(resp) && raw != "" && Occurs(resp.text, raw) &&
         (r.marker == "" || !Occurs(resp.text, EscapedMark(r.marker)))
      then StillVulnerable else Fixed
    case _ => Undecided
  }

  // ---- Numeric bounds ----------------------------------------------------------------------------------------

  const OUT_OF_RANGE: seq<string> := ["-1", "0"]
  const NON_NUMERIC := "abc"

  predicate Accepted(r: Response) { 200 <= r.status < 300 }

  function NumericRecipe(url: string, param: string, value: string): Recipe {
    Recipe("GET", url, param, "numeric_bounds", value, "", "", "", "1")
  }

  /** The first out-of-range value that is accepted and applied; any failure ends the probe. */
  function FirstApplied(t: Target, url: string, param: string, values: seq<string>): Detection {
    if values == [] then Nothing
    else match Probe(t, "GET", url, param, values[0])
      case Blocked => Halted
      case Unreachable => Nothing
      case Answer(r) =>
        if Accepted(r) && Echoes(t, r.text, values[0]) then Found(NumericRecipe(url, param, values[0]))
        else FirstApplied(t, url, param, values[1..])
  }

  function DetectNumeric(t: Target, url: string, param: string): Detection {
    match Probe(t, "GET", url, param, "1")
    case Blocked => Halted
    case Unreachable => Nothing
    case Answer(baseline) =>
      if !Accepted(baseline) then Nothing
      else match Probe(t, "GET", url, param, NON_NUMERIC)
        case Blocked => Halted
        case Unreachable => Nothing
        case Answer(typed) => if typed.status < 400 then Nothing else FirstApplied(t, url, param, OUT_OF_RANGE)
  }

  method ProbeOutOfRange(t: Target, url: string, param: string, values: seq<string>) returns (d: Detection)
    ensures d == FirstApplied(t, url, param, values)
    ensures RangeTells(t, url, param, values, d)
  {
    RangeTellsExactly(t, url, param, values);
    for i := 0 to |values|
      invariant FirstApplied(t, url, param, values) == FirstApplied(t, url, param, values[i..])
    {
      assert values[i..][1..] == values[i + 1..];
      var reply := Probe(t, "GET", url, param, values[i]);
      if !reply.Answer? {
        return if reply.Blocked? then Halted else Nothing;
      }
      if Accepted(reply.r) && Echoes(t, reply.r.text, values[i]) {
        return Found(NumericRecipe(url, param, values[i]));
      }
    }
    d := Nothing;
  }

  /** The value is accepted and stands in the answer as a number of its own. */
  predicate Applies(t: Target, url: string, param: string, value: string) {
    var reply := t.reply(Request("GET", url, param, value, true));
    reply.Answer? && 200 <= reply.r.status <= 299 && Echoes(t, reply.r.text, value)
  }

  predicate NoAnswer(t: Target, url: string, param: string, value: string) {
    !t.reply(Request("GET", url, param, value, true)).Answer?
  }

  /** Value k is the first that applies or draws no answer. */
  predicate SettlesAt(t: Target, url: string, param: string, values: seq<string>, k: nat) {
    k < |values| && (Applies(t, url, param, values[k]) || NoAnswer(t, url, param, values[k])) &&
    forall i :: 0 <= i < k ==> !Applies(t, url, param, values[i]) && !NoAnswer(t, url, param, values[i])
  }

  ghost predicate AppliedAt(t: Target, url: string, param: string, values: seq<string>, d: Detection, k: nat) {
    SettlesAt(t, url, param, values, k) && Applies(t, url, param, values[k]) &&
    d == Found(Recipe("GET", url, param, "numeric_bounds", values[k], "", "", "", "1"))
  }

  ghost predicate RefusedAt(t: Target, url: string, param: string, values: seq<string>, k: nat) {
    SettlesAt(t, url, param, values, k) && t.reply(Request("GET", url, param, values[k], true)).Blocked?
  }

  /** Something is found exactly at the first value that applies, if every one before it draws an
   *  answer; a refusal that comes first halts. */
  ghost predicate RangeTells(t: Target, url: string, param: string, values: seq<string>, d: Detection) {
    (d.Found? <==> exists k: nat :: AppliedAt(t, url, param, values, d, k)) &&
    (d.Halted? <==> exists k: nat :: RefusedAt(t, url, param, values, k))
  }

  lemma {:induction false} FirstSettles(t: Target, url: string, param: string, values: seq<string>) returns (k: nat)
    ensures var d := FirstApplied(t, url, param, values);
            (d.Found? ==> AppliedAt(t, url, param, values, d, k)) &&
            (d.Halted? ==> RefusedAt(t, url, param, values, k)) &&
            (d.Nothing? ==> if k < |values| then SettlesAt(t, url, param, values, k) && t.reply(Request("GET", url, param, values[k], true)).Unreachable?
                            else forall i :: 0 <= i < |values| ==> !Applies(t, url, param, values[i]) && !NoAnswer(t, url, param, values[i]))
    decreases |values|
  {
    k := 0;
    if values != [] && !Applies(t, url, param, values[0]) && !NoAnswer(t, url, param, values[0]) {
      k := FirstSettles(t, url, param, values[1..]);
      assert forall i :: 0 < i < |values| ==> values[i] == values[1..][i - 1];
      k := k + 1;
    }
  }

  lemma SettlesOnce(t: Target, url: string, param: string, values: seq<string>, k: nat, m: nat)
    requires SettlesAt(t, url, param, values, k) && SettlesAt(t, url, param, values, m)
    ensures k == m
  {
  }

  lemma RangeTellsExactly(t: Target, url: string, param: string, values: seq<string>)
    ensures RangeTells(t, url, param, values, FirstApplied(t, url, param, values))
  {
    var d := FirstApplied(t, url, param, values);
    var k := FirstSettles(t, url, param, values);
    forall m: nat
      ensures AppliedAt(t, url, param, values, d, m) ==> d.Found?
      ensures RefusedAt(t, url, param, values, m) ==> d.Halted?
    {
      if SettlesAt(t, url, param, values, m) && k < |values| {
        SettlesOnce(t, url, param, values, k, m);
      }
    }
  }

  /** The numeric check finds something exactly if 1 is accepted, text is refused with an error status,
   *  and -1 applies, or -1 draws an answer and 0 applies. */
  lemma NumericFoundExactly(t: Target, url: string, param: string)
    ensures var one, text := t.reply(Request("GET", url, param, "1", true)), t.reply(Request("GET", url, param, "abc", true));
            DetectNumeric(t, url, param).Found? <==>
            one.Answer? && 200 <= one.r.status <= 299 && text.Answer? && text.r.status >= 400 &&
            (Applies(t, url, param, "-1") || (!NoAnswer(t, url, param, "-1") && Applies(t, url, param, "0")))
  {
    var values := OUT_OF_RANGE;
    assert values[0] == "-1" && values[1] == "0";
    RangeTellsExactly(t, url, param, values);
    if Applies(t, url, param, "-1") {
      assert SettlesAt(t, url, param, values, 0);
    } else if !NoAnswer(t, url, param, "-1") && Applies(t, url, param, "0") {
      assert SettlesAt(t, url, param, values, 1);
    }
    var k := FirstSettles(t, url, param, values);
  }

  /** A number inside a longer one, or with a sign or a decimal point to it, is not echoed. */
  lemma EchoExamples(t: Target)
    requires forall c :: t.isWord(c) <==> '0' <= c <= '9'
    ensures Echoes(t, "0", "0") && Echoes(t, "n = 0;", "0") && Echoes(t, "-1", "-1")
    ensures !Echoes(t, "10", "0") && !Echoes(t, "01", "0") && !Echoes(t, "-1", "1") && !Echoes(t, "1.0", "1") && !Echoes(t, "1.0", "0")
  {
    assert OccursAt("0", "0", 0) && OccursAt("-1", "-1", 0);
    assert "n = 0;"[4..5] == "0" && OccursAt("n = 0;", "0", 4);
  }

  function ValidateNumeric(t: Target, r: Recipe): Verdict {
    if r.url == "" || r.param == "" then Inconclusive
    else
      var baseline := Replay(t, Scope.Upper(r.verb), r.url, r.param, r.baselineValue);
      var probe := Replay(t, Scope.Upper(r.verb), r.url, r.param, r.payload);
      if !baseline.Answer? || !probe.Answer? then Inconclusive
      else if !Accepted(baseline.r) then Inconclusive
      else if Accepted(probe.r) && Echoes(t, probe.r.text, r.payload) then Confirmed
      else if probe.r.status >= 400 then Rejected
      else Suspected
  }

  /** The validator's verdict on a bound: nothing can be said without a recipe, two answers and an accepted
   *  baseline; otherwise the value is accepted and echoed, refused with an error status, or neither. */
  lemma NumericVerdictExactly(t: Target, r: Recipe)
    requires r.verb == "GET"
    ensures var base, probe := t.reply(Request("GET", r.url, r.param, r.baselineValue, true)), t.reply(Request("GET", r.url, r.param, r.payload, true));
            var decided := r.url != "" && r.param != "" && base.Answer? && probe.Answer? && 200 <= base.r.status <= 299;
            (ValidateNumeric(t, r) == Inconclusive <==> !decided) &&
            (ValidateNumeric(t, r) == Confirmed <==> decided && 200 <= probe.r.status <= 299 && Echoes(t, probe.r.text, r.payload)) &&
            (ValidateNumeric(t, r) == Rejected <==> decided && probe.r.status >= 400) &&
            (ValidateNumeric(t, r) == Suspected <==>
               decided && probe.r.status < 400 && !(200 <= probe.r.status <= 299 && Echoes(t, probe.r.text, r.payload)))
  {
    assert Scope.Upper("GET") == "GET";
  }

  // ---- Agreement ------------------------------------------------------------------------------------------------

  /** Endpoint methods are stored in upper case; then a replay is the request of the check. */
  predicate Canonical(verb: string) { verb != "" && (Scope.Upper(verb) == "GET" ==> verb == "GET") }

  lemma ReplayIsProbe(t: Target, verb: string, url: string, param: string, value: string)
    requires Canonical(verb)
    ensures Replay(t, verb, url, param, value) == Probe(t, verb, url, param, value)
  {
    assert Scope.Upper("GET") == "GET";
  }

  lemma {:induction false} FirstErrorFound(t: Target, verb: string, url: string, param: string, payloads: seq<string>)
    requires FirstError(t, verb, url, param, payloads).Found?
    ensures var r := FirstError(t, verb, url, param, payloads).recipe;
            r == ErrorRecipe(verb, url, param, r.payload) &&
            var reply := Probe(t, verb, url, param, r.payload);
            reply.Answer? && t.showsDbError(reply.r.text)
    decreases |payloads|
  {
    var reply := Probe(t, verb, url, param, "1" + payloads[0]);
    if !(reply.Answer? && t.showsDbError(reply.r.text)) {
      FirstErrorFound(t, verb, url, param, payloads[1..]);
    }
  }

  /** An error-based finding is confirmed, and its regression test finds the target vulnerable. */
  lemma ErrorFindingIsConfirmed(t: Target, verb: string, url: string, param: string)
    requires Canonical(verb) && DetectSqli(t, verb, url, param).Found?
    requires DetectSqli(t, verb, url, param).recipe.detector == DB_ERROR
    ensures ValidateSqli(t, DetectSqli(t, verb, url, param).recipe) == Confirmed
    ensures RegressSqli(t, DetectSqli(t, verb, url, param).recipe) == StillVulnerable
  {
    var r := DetectSqli(t, verb, url, param).recipe;
    assert DB_ERROR != BOOLEAN;
    FirstErrorFound(t, verb, url, param, ERROR_PAYLOADS);
    ReplayIsProbe(t, verb, url, param, r.payload);
  }

  /** The answers a boolean finding rests on. */
  lemma BooleanFinding(t: Target, verb: string, url: string, param: string) returns (b: Response, rTrue: Response, rFalse: Response)
    requires Canonical(verb) && DetectSqli(t, verb, url, param).Found?
    requires DetectSqli(t, verb, url, param).recipe.detector == BOOLEAN
    ensures DetectSqli(t, verb, url, param).recipe == BooleanRecipe(verb, url, param)
    ensures BooleanReplies(t, BooleanRecipe(verb, url, param)) == Some((b, rTrue, rFalse))
    ensures BooleanDiffers(b, rTrue, rFalse)
  {
    assert |DB_ERROR| != |BOOLEAN|;
    if FirstError(t, verb, url, param, ERROR_PAYLOADS).Found? {
      FirstErrorFound(t, verb, url, param, ERROR_PAYLOADS);
    }
    ReplayIsProbe(t, verb, url, param, "1");
    ReplayIsProbe(t, verb, url, param, TRUE_PAYLOAD);
    ReplayIsProbe(t, verb, url, param, FALSE_PAYLOAD);
    b := Probe(t, verb, url, param, "1").r;
    rTrue := Probe(t, verb, url, param, TRUE_PAYLOAD).r;
    rFalse := Probe(t, verb, url, param, FALSE_PAYLOAD).r;
  }

  /** A boolean finding is confirmed or suspected, never rejected. It is only suspected exactly
   *  when the true reply is not close in length to the baseline, which takes replies of
   *  different status, or an empty baseline and a true reply of one character. */
  lemma BooleanFindingIsNeverRejected(t: Target, verb: string, url: string, param: string)
    requires Canonical(verb) && DetectSqli(t, verb, url, param).Found?
    requires DetectSqli(t, verb, url, param).recipe.detector == BOOLEAN
    ensures var r := DetectSqli(t, verb, url, param).recipe;
            BooleanReplies(t, r).Some? &&
            var (b, rTrue, rFalse) := BooleanReplies(t, r).value;
            var close := !LengthsDiffer(rTrue.text, b.text, 0.15);
            ValidateSqli(t, r) == (if close then Confirmed else Suspected) &&
            (close || rTrue.status != rFalse.status || (b.text == "" && |rTrue.text| == 1))
  {
    var b, rTrue, rFalse := BooleanFinding(t, verb, url, param);
    assert |DB_ERROR| != |BOOLEAN|;
  }

  /** On any target and for any recipe of a boolean differential, the regression test says that
   *  the target is still vulnerable exactly when the validator confirms. */
  lemma BooleanRegressionAgrees(t: Target, r: Recipe)
    requires r.detector == BOOLEAN
    ensures RegressSqli(t, r) == StillVulnerable <==> ValidateSqli(t, r) == Confirmed
    ensures RegressSqli(t, r) == Undecided <==> ValidateSqli(t, r) == Inconclusive
  {
    assert |DB_ERROR| != |BOOLEAN|;
  }

  /** For an error-based recipe the validator tries one payload more: it alone still sees the
   *  flaw exactly when the recipe's payload draws an answer without an error and the other
   *  payload draws one with an error. */
  lemma ErrorRegressionAgrees(t: Target, r: Recipe)
    requires r.detector == DB_ERROR
    ensures RegressSqli(t, r) == StillVulnerable ==> ValidateSqli(t, r) == Confirmed
    ensures var first, second := Replay(t, r.verb, r.url, r.param, r.payload), Replay(t, r.verb, r.url, r.param, ALTERNATE);
            (ValidateSqli(t, r) == Confirmed && RegressSqli(t, r) != StillVulnerable) <==>
            first.Answer? && !t.showsDbError(first.r.text) && second.Answer? && t.showsDbError(second.r.text)
  {
  }

  /** The two really part: on some target the regression test reports a finding fixed that the
   *  validator still confirms. */
  lemma ErrorRegressionCanDisagree() returns (t: Target, r: Recipe)
    ensures r.detector == DB_ERROR && ValidateSqli(t, r) == Confirmed && RegressSqli(t, r) == Fixed
  {
    t := Target((q: Request) => Answer(Response(200, "", if q.value == ALTERNATE then "e" else "")),
                (body: string) => body == "e", (c: char) => false);
    r := ErrorRecipe("GET", "u", "p", "1'");
    assert ALTERNATE[0] != r.payload[0];
  }

  /** A scripting finding is confirmed, and its regression test finds the target vulnerable. */
  lemma XssFindingIsConfirmed(t: Target, verb: string, url: string, param: string, token: string)
    requires Canonical(verb) && token != "" && DetectXss(t, verb, url, param, token).Found?
    ensures ValidateXss(t, DetectXss(t, verb, url, param, token).recipe) == Confirmed
    ensures RegressXss(t, DetectXss(t, verb, url, param, token).recipe) == StillVulnerable
  {
    ReplayIsProbe(t, verb, url, param, MarkerPayload(token));
    var resp := Probe(t, verb, url, param, MarkerPayload(token)).r;
    assert Lower(Lower(resp.contentType)) == Lower(resp.contentType);
  }

  /** For any recipe and target the scripting validator and regression test agree. */
  lemma XssRegressionAgrees(t: Target, r: Recipe)
    ensures RegressXss(t, r) == StillVulnerable <==> ValidateXss(t, r) == Confirmed
    ensures RegressXss(t, r) == Undecided <==> ValidateXss(t, r) == Inconclusive
  {
  }

  lemma {:induction false} FirstAppliedFound(t: Target, url: string, param: string, values: seq<string>)
    requires FirstApplied(t, url, param, values).Found?
    ensures var r := FirstApplied(t, url, param, values).recipe;
            r == NumericRecipe(url, param, r.payload) &&
            var reply := Probe(t, "GET", url, param, r.payload);
            reply.Answer? && Accepted(reply.r) && Echoes(t, reply.r.text, r.payload)
    decreases |values|
  {
    var reply := Probe(t, "GET", url, param, values[0]);
    if !(Accepted(reply.r) && Echoes(t, reply.r.text, values[0])) {
      FirstAppliedFound(t, url, param, values[1..]);
    }
  }

  /** A numeric-bounds finding is confirmed exactly when its recipe names a URL and a parameter. */
  lemma NumericFindingIsConfirmed(t: Target, url: string, param: string)
    requires DetectNumeric(t, url, param).Found?
    ensures ValidateNumeric(t, DetectNumeric(t, url, param).recipe) == Confirmed <==> url != "" && param != ""
  {
    var r := DetectNumeric(t, url, param).recipe;
    FirstAppliedFound(t, url, param, OUT_OF_RANGE);
    assert Scope.Upper("GET") == "GET";
    ReplayIsProbe(t, "GET", url, param, "1");
    ReplayIsProbe(t, "GET", url, param, r.payload);
  }
}
