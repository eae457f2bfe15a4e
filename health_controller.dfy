/** The score endpoint's controller: the required-income check, the in-place conversion of the
    ten numeric fields of the request body, the `||` defaults, and the single call into the
    scoring engine. */
module HealthController {
  import opened Wrappers
  import opened Http
  import opened FinancialHealth

  /** The body fields the controller converts, in the order it converts them. */
  const NumericFields: seq<string> := [
    "monthlyIncome", "monthlyExpenses", "totalSavings", "totalDebt", "emergencyFund",
    "investments", "creditScore", "monthlyDebtPayments", "age", "monthsOfExpenses"
  ]

  const IncomeRequired: string := "monthlyIncome is required"
  const ScoreCalculated: string := "Financial health score calculated successfully"

  /** What the score endpoint answers. */
  datatype ScoreResponse = ScoreError(error: ErrorResponse) | ScoreSuccess(message: string, data: Assessment)

  /** `!input.monthlyIncome && input.monthlyIncome !== 0`: the income is absent, or falsy
      without being the number 0. */
  predicate IncomeMissing(body: map<string, Raw>) {
    "monthlyIncome" !in body || (!Truthy(body["monthlyIncome"]) && body["monthlyIncome"] != Num(0.0))
  }

  /** A field the conversion loop rejects: present, not null, and `Number()` of it is NaN or negative. */
  predicate Bad(body: map<string, Raw>, f: string) {
    && f in body && body[f] != Null
    && (ToNumber(body[f]).None? || ToNumber(body[f]).value < 0.0)
  }

  function InvalidMessage(f: string): string {
    f + " must be a valid positive number"
  }

  /** The conversion loop over `fields`: each present, non-null field is replaced by its number
      until a field is found that does not convert to a non-negative number. Yields the body
      as the loop leaves it and the rejected field, if any. */
  function Convert(body: map<string, Raw>, fields: seq<string>): (map<string, Raw>, Option<string>) {
    if fields == [] then (body, None)
    else
      var f := fields[0];
      if f in body && body[f] != Null then
        match ToNumber(body[f])
        case None => (body, Some(f))
        case Some(x) => if x < 0.0 then (body, Some(f)) else Convert(body[f := Num(x)], fields[1..])
      else Convert(body, fields[1..])
  }

  /** `input[f] || d` once the loop has run: a non-zero number is kept, anything else falls back to `d`. */
  function FieldOr(body: map<string, Raw>, f: string, d: real): real {
    if f in body && body[f].Num? && body[f].x != 0.0 then body[f].x else d
  }

  /** The profile the controller builds from the converted body. */
  function ProfileOf(body: map<string, Raw>): Profile {
    Profile(
      FieldOr(body, "monthlyIncome", 0.0),
      FieldOr(body, "monthlyExpenses", 0.0),
      FieldOr(body, "totalSavings", 0.0),
      FieldOr(body, "totalDebt", 0.0),
      FieldOr(body, "emergencyFund", 0.0),
      FieldOr(body, "investments", 0.0),
      FieldOr(body, "creditScore", 0.0),
      FieldOr(body, "monthlyDebtPayments", 0.0),
      FieldOr(body, "age", 30.0),
      FieldOr(body, "monthsOfExpenses", 6.0))
  }

  /** The endpoint's answer for a request body. */
  function ScoreFor(body: map<string, Raw>): ScoreResponse {
    if IncomeMissing(body) then ScoreError(ErrorResponse(400, IncomeRequired))
    else
      var (converted, bad) := Convert(body, NumericFields);
      if bad.Some? then ScoreError(ErrorResponse(400, InvalidMessage(bad.value)))
      else ScoreSuccess(ScoreCalculated, Assess(ProfileOf(converted)))
  }

  /** The request body as the controller leaves it: converted up to the first rejected field,
      untouched when the income is missing. */
  function BodyAfter(body: map<string, Raw>): map<string, Raw> {
    if IncomeMissing(body) then body else Convert(body, NumericFields).0
  }

  /** `calculateScore`: validates and converts `req.body` in place, then scores the profile. */
  method CalculateScore(req: Request) returns (response: ScoreResponse)
    modifies req
    ensures response == ScoreFor(old(req.body))
    ensures req.body == BodyAfter(old(req.body))
    ensures req.authorization == old(req.authorization) && req.user == old(req.user)
    ensures req.userId == old(req.userId) && req.userRole == old(req.userRole)
  {
    var input := req.body;
    if "monthlyIncome" !in input || (!Truthy(input["monthlyIncome"]) && input["monthlyIncome"] != Num(0.0)) {
      return ScoreError(ErrorResponse(400, IncomeRequired));
    }
    var i := 0;
    while i < |NumericFields|
      invariant 0 <= i <= |NumericFields|
      invariant Convert(old(req.body), NumericFields) == Convert(req.body, NumericFields[i..])
      invariant req.authorization == old(req.authorization) && req.user == old(req.user)
      invariant req.userId == old(req.userId) && req.userRole == old(req.userRole)
    {
      var field := NumericFields[i];
      if field in req.body && req.body[field] != Null {
        var value := ToNumber(req.body[field]);
        if value.None? || value.value < 0.0 {
          return ScoreError(ErrorResponse(400, InvalidMessage(field)));
        }
        req.body := req.body[field := Num(value.value)];
      }
      i := i + 1;
    }
    var profileData := ProfileOf(req.body);
    var result := CalculateHealthScore(profileData);
    return ScoreSuccess(ScoreCalculated, result);
  }

  // ---------------------------------------------------------------------------------------
  // Properties

  lemma NumericFieldsDistinct()
    ensures forall i, j :: 0 <= i < j < |NumericFields| ==> NumericFields[i] != NumericFields[j]
  {
  }

  /** The first of `fields` that is bad in `body`, read without converting anything. */
  function FirstBad(body: map<string, Raw>, fields: seq<string>): Option<string> {
    if fields == [] then None
    else if Bad(body, fields[0]) then Some(fields[0])
    else FirstBad(body, fields[1..])
  }

  /** There is no bad field exactly when none of the fields is bad; otherwise it is a bad field
      with no bad field before it. */
  lemma {:induction false} FirstBadFacts(body: map<string, Raw>, fields: seq<string>)
    ensures FirstBad(body, fields).None? <==> forall k :: 0 <= k < |fields| ==> !Bad(body, fields[k])
    ensures FirstBad(body, fields).Some? ==>
      exists k :: && 0 <= k < |fields| && fields[k] == FirstBad(body, fields).value
                  && Bad(body, fields[k]) && (forall j :: 0 <= j < k ==> !Bad(body, fields[j]))
  {
    if fields != [] {
      var rest := fields[1..];
      FirstBadFacts(body, rest);
      assert forall k :: 1 <= k < |fields| ==> fields[k] == rest[k - 1];
      if !Bad(body, fields[0]) && FirstBad(body, rest).Some? {
        var k :| && 0 <= k < |rest| && rest[k] == FirstBad(body, rest).value
                 && Bad(body, rest[k]) && (forall j :: 0 <= j < k ==> !Bad(body, rest[j]));
        assert fields[k + 1] == rest[k];
      }
    }
  }

  /** Bodies that agree on which fields are bad agree on the first bad one. */
  lemma {:induction false} FirstBadAgrees(b1: map<string, Raw>, b2: map<string, Raw>, fields: seq<string>)
    requires forall k :: 0 <= k < |fields| ==> Bad(b1, fields[k]) == Bad(b2, fields[k])
    ensures FirstBad(b1, fields) == FirstBad(b2, fields)
  {
    if fields != [] {
      assert forall k :: 1 <= k < |fields| ==> fields[k] == fields[1..][k - 1];
      FirstBadAgrees(b1, b2, fields[1..]);
    }
  }

  /** Which field the loop rejects depends only on the original body: converting a field
      touches only that field, so every later field is seen as it arrived. */
  lemma {:induction false} ConvertRejectsFirstBad(body: map<string, Raw>, fields: seq<string>)
    requires forall i, j :: 0 <= i < j < |fields| ==> fields[i] != fields[j]
    ensures Convert(body, fields).1 == FirstBad(body, fields)
  {
    if fields != [] {
      var f, rest := fields[0], fields[1..];
      if !Bad(body, f) {
        var next := if f in body && body[f] != Null then body[f := Num(ToNumber(body[f]).value)] else body;
        assert Convert(body, fields) == Convert(next, rest);
        forall k | 0 <= k < |rest| ensures Bad(next, rest[k]) == Bad(body, rest[k]) {
          assert rest[k] == fields[k + 1];
        }
        FirstBadAgrees(next, body, rest);
        ConvertRejectsFirstBad(next, rest);
      }
    }
  }

  /** The endpoint fails exactly when the income is missing or some numeric field is bad, and
      then names the first bad field; a request that fails nowhere is scored. */
  lemma ScoreOutcome(body: map<string, Raw>)
    ensures ScoreFor(body).ScoreError? <==> IncomeMissing(body) || FirstBad(body, NumericFields).Some?
    ensures !IncomeMissing(body) && FirstBad(body, NumericFields).Some? ==>
      ScoreFor(body) == ScoreError(ErrorResponse(400, InvalidMessage(FirstBad(body, NumericFields).value)))
    ensures ScoreFor(body).ScoreSuccess? ==> ScoreFor(body).message == ScoreCalculated
  {
    NumericFieldsDistinct();
    ConvertRejectsFirstBad(body, NumericFields);
  }

  /** A successful loop leaves every field it converted as that field's number, every other
      entry of the body as it was, and no key added or removed. */
  lemma {:induction false} ConvertedValues(body: map<string, Raw>, fields: seq<string>)
    requires forall i, j :: 0 <= i < j < |fields| ==> fields[i] != fields[j]
    requires Convert(body, fields).1.None?
    ensures var out := Convert(body, fields).0;
      && out.Keys == body.Keys
      && (forall f :: f in body && f !in fields ==> out[f] == body[f])
      && (forall f :: f in fields && f in body && body[f] != Null ==>
            ToNumber(body[f]).Some? && ToNumber(body[f]).value >= 0.0 && out[f] == Num(ToNumber(body[f]).value))
      && (forall f :: f in fields && f in body && body[f] == Null ==> out[f] == Null)
  {
    if fields != [] {
      var f, rest := fields[0], fields[1..];
      assert forall k :: 1 <= k < |fields| ==> fields[k] == rest[k - 1];
      var next := if f in body && body[f] != Null then body[f := Num(ToNumber(body[f]).value)] else body;
      assert Convert(body, fields) == Convert(next, rest);
      assert f !in rest by {
        forall k | 0 <= k < |rest| ensures rest[k] != f {
          assert rest[k] == fields[k + 1];
        }
      }
      ConvertedValues(next, rest);
    }
  }

  /** A body whose numeric fields are all absent, null or non-negative numbers passes the loop unchanged. */
  lemma {:induction false} ConvertKeepsNumbers(body: map<string, Raw>, fields: seq<string>)
    requires forall f :: f in fields && f in body ==> body[f] == Null || (body[f].Num? && body[f].x >= 0.0)
    ensures Convert(body, fields) == (body, None)
  {
    if fields != [] {
      var f := fields[0];
      if f in body && body[f] != Null {
        assert body[f := Num(body[f].x)] == body;
      }
      ConvertKeepsNumbers(body, fields[1..]);
    }
  }

  /** Each numeric field of `out` is absent, null or a non-negative number. */
  ghost predicate NumericFieldsClean(out: map<string, Raw>) {
    forall f :: f in NumericFields && f in out ==> out[f] == Null || (out[f].Num? && out[f].x >= 0.0)
  }

  /** The `||` defaults keep a value non-negative, and a positive default keeps it positive. */
  lemma FieldOrBounds(out: map<string, Raw>, f: string, d: real)
    requires f in NumericFields && NumericFieldsClean(out) && d >= 0.0
    ensures FieldOr(out, f, d) >= 0.0
    ensures d > 0.0 ==> FieldOr(out, f, d) > 0.0
  {
  }

  /** After a successful loop every numeric field is absent, null or a non-negative number. */
  lemma ConvertedClean(body: map<string, Raw>)
    requires Convert(body, NumericFields).1.None?
    ensures NumericFieldsClean(Convert(body, NumericFields).0)
  {
    NumericFieldsDistinct();
    ConvertedValues(body, NumericFields);
  }

  /** Every profile the controller scores has non-negative amounts and a positive age and horizon. */
  lemma ProfileBounds(body: map<string, Raw>)
    requires ScoreFor(body).ScoreSuccess?
    ensures var p := ProfileOf(Convert(body, NumericFields).0);
      && p.monthlyIncome >= 0.0 && p.monthlyExpenses >= 0.0 && p.totalSavings >= 0.0
      && p.totalDebt >= 0.0 && p.emergencyFund >= 0.0 && p.investments >= 0.0
      && p.creditScore >= 0.0 && p.monthlyDebtPayments >= 0.0 && p.age > 0.0 && p.monthsOfExpenses > 0.0
  {
    var out := Convert(body, NumericFields).0;
    ConvertedClean(body);
    FieldOrBounds(out, "monthlyIncome", 0.0);
    FieldOrBounds(out, "monthlyExpenses", 0.0);
    FieldOrBounds(out, "totalSavings", 0.0);
    FieldOrBounds(out, "totalDebt", 0.0);
    FieldOrBounds(out, "emergencyFund", 0.0);
    FieldOrBounds(out, "investments", 0.0);
    FieldOrBounds(out, "creditScore", 0.0);
    FieldOrBounds(out, "monthlyDebtPayments", 0.0);
    FieldOrBounds(out, "age", 30.0);
    FieldOrBounds(out, "monthsOfExpenses", 6.0);
  }

  /** A numeric field given as a positive value reaches the engine as that value; one left out,
      null or converting to 0 reaches it as the default. */
  lemma GivenValuesReachEngine(body: map<string, Raw>, k: nat, d: real)
    requires k < |NumericFields|
    requires Convert(body, NumericFields).1.None?
    ensures var out := Convert(body, NumericFields).0;
      var f := NumericFields[k];
      FieldOr(out, f, d) == (if f in body && body[f] != Null && ToNumber(body[f]) != Some(0.0)
                             then ToNumber(body[f]).GetOr(0.0) else d)
  {
    NumericFieldsDistinct();
    ConvertedValues(body, NumericFields);
    assert NumericFields[k] in NumericFields;
  }

  /** An explicit income of 0 is accepted: it is the one falsy value the required check lets through. */
  lemma ZeroIncomeAccepted(body: map<string, Raw>)
    requires "monthlyIncome" in body
    ensures !IncomeMissing(body) <==> Truthy(body["monthlyIncome"]) || body["monthlyIncome"] == Num(0.0)
    ensures body == map["monthlyIncome" := Num(0.0)] ==>
      ScoreFor(body) == ScoreSuccess(ScoreCalculated, Assess(ProfileOf(body)))
  {
    if body == map["monthlyIncome" := Num(0.0)] {
      ConvertKeepsNumbers(body, NumericFields);
    }
  }

  /** Without an income, or with a falsy one other than 0, the answer is 400 "monthlyIncome is required". */
  lemma MissingIncomeRejected(body: map<string, Raw>)
    ensures IncomeMissing(body) <==> ScoreFor(body) == ScoreError(ErrorResponse(400, IncomeRequired))
  {
    if !IncomeMissing(body) {
      var bad := Convert(body, NumericFields).1;
      if bad.Some? {
        var m := InvalidMessage(bad.value);
        assert m[|m| - 1] == 'r' && IncomeRequired[|IncomeRequired| - 1] == 'd';
      }
    }
  }
}
