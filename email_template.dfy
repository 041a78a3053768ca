/** The e-mail template of the mail integration (`EmailTemplate`): required
    field validation, the failure rate it adds to the data, the body rendered
    from a fixed template with `str.format`, and the attachment list. The
    data dict is a shared object: the template keeps a reference to the
    caller's dict and updates it in place. */
module EmailTemplates {
  import opened Common
  import opened Strings
  import opened Values

  /** A dict object that several owners may hold. */
  class DataDict {
    var entries: Dict

    constructor (entries: Dict)
      ensures this.entries == entries
    {
      this.entries := entries;
    }
  }

  // ---------------------------------------------------------------------------
  // Validation

  const BUILD_VERSION: string := "build_version"
  const SUITE_NAME: string := "suite_name"
  const DATE: string := "date"
  const DURATION: string := "duration"
  const BRANCH: string := "branch"
  const TRIGGERED_BY: string := "triggered_by"
  const TOTAL: string := "total"
  const PASSED: string := "passed"
  const FAILED: string := "failed"
  const SKIPPED: string := "skipped"
  const FAIL_RATE: string := "fail_rate"
  const YOUR_NAME: string := "your_name"
  const YOUR_POSITION: string := "your_position"
  const HTML_REPORT_PATH: string := "html_report_path"

  /** The fields the caller must supply. */
  const REQUIRED_FIELDS: seq<string> :=
    [BUILD_VERSION, SUITE_NAME, DURATION, BRANCH, TRIGGERED_BY, TOTAL, PASSED, FAILED, SKIPPED,
     YOUR_NAME, YOUR_POSITION]

  const MISSING_FIELDS: string := "Missing required fields: "

  /** The fields of `fields` that `d` lacks, in their order in `fields`. */
  function MissingAmong(fields: seq<string>, d: Dict): (m: seq<string>)
    ensures forall f :: f in m <==> f in fields && f !in d
    decreases |fields|
  {
    if fields == [] then []
    else (if fields[0] in d then [] else [fields[0]]) + MissingAmong(fields[1..], d)
  }

  /** `s` is `t` with some elements left out. */
  predicate SubsequenceOf(s: seq<string>, t: seq<string>)
    decreases |t|
  {
    if s == [] then true
    else if t == [] then false
    else if s[0] == t[0] then SubsequenceOf(s[1..], t[1..])
    else SubsequenceOf(s, t[1..])
  }

  /** The missing fields are listed in the order the list gives them. */
  lemma {:induction false} MissingInOrder(fields: seq<string>, d: Dict)
    ensures SubsequenceOf(MissingAmong(fields, d), fields)
    decreases |fields|
  {
    if fields != [] {
      MissingInOrder(fields[1..], d);
      var rest := MissingAmong(fields[1..], d);
      if fields[0] in d {
        assert MissingAmong(fields, d) == rest;
        if rest != [] {
          assert rest[0] in fields[1..];
          assert rest[0] != fields[0];
        }
      } else {
        assert MissingAmong(fields, d) == [fields[0]] + rest;
        assert ([fields[0]] + rest)[1..] == rest;
      }
    }
  }

  /** `_validate_data`: a ValueError listing the missing required fields,
      joined by ", ", when there is any. */
  function FieldCheck(d: Dict): (r: Result<()>)
    ensures r.Ok? <==> forall f :: f in REQUIRED_FIELDS ==> f in d
    ensures r.Err? ==> r.error == ValueError(MISSING_FIELDS + Join(MissingAmong(REQUIRED_FIELDS, d), ", "))
  {
    var missing := MissingAmong(REQUIRED_FIELDS, d);
    if missing == [] then Ok(())
    else
      assert missing[0] in REQUIRED_FIELDS && missing[0] !in d;
      Err(ValueError(MISSING_FIELDS + Join(missing, ", ")))
  }

  // ---------------------------------------------------------------------------
  // The failure rate

  /** A number as a count of hundredths: ints and bools (which are ints in
      Python) and two-decimal floats; None for other values. */
  function Hundredths(v: Value): (h: Option<int>)
    ensures v.Int? ==> h == Some(100 * v.n)
    ensures v.Str? || v.NoneValue? ==> h.None?
  {
    match v
    case Int(n) => Some(100 * n)
    case Bool(b) => Some(if b then 100 else 0)
    case Float2(x) => Some(x)
    case _ => None
  }

  /** `a / b` rounded to the nearest integer, ties to the even one. */
  function RoundDiv(a: int, b: int): (r: int)
    requires b > 0
    ensures 2 * (r * b - a) <= b && 2 * (a - r * b) <= b
    ensures 2 * (r * b - a) == b || 2 * (a - r * b) == b ==> r % 2 == 0
  {
    var q, rem := a / b, a % b;
    assert a == q * b + rem && 0 <= rem < b;
    if 2 * rem > b || (2 * rem == b && q % 2 != 0) then
      assert (q + 1) * b - a == b - rem;
      q + 1
    else
      assert q * b - a == -rem;
      q
  }

  /** An exact quotient is not moved by the rounding, and a proportion of
      at most the whole rounds into [0, 10000] hundredths of a percent. */
  lemma RoundDivExact(a: int, b: int)
    requires b > 0
    ensures a % b == 0 ==> RoundDiv(a, b) == a / b
    ensures 0 <= a <= 10000 * b ==> 0 <= RoundDiv(a, b) <= 10000
  {
    var q, rem := a / b, a % b;
    assert a == b * q + rem && 0 <= rem < b;
    if 0 <= a <= 10000 * b {
      if q < 0 {
        MulAtMost(b, q, -1);
      }
      if q > 10000 {
        MulAtMost(b, 10001, q);
      }
      if q == 10000 {
        assert rem == 0;
      }
    }
  }

  lemma MulAtMost(b: int, x: int, y: int)
    requires b > 0 && x <= y
    ensures b * x <= b * y
  {
    assert b * y - b * x == b * (y - x);
  }

  /** `_calculate_failure_rate`: with a positive total the percentage of
      failed tests rounded to two decimals, otherwise 0.0; comparing or
      dividing a value that is not a number is a TypeError. */
  function FailRate(d: Dict): (r: Result<Value>)
    ensures r.Ok? ==> r.value.Float2?
    ensures var total := Hundredths(Get(d, TOTAL, Int(0)));
      && (total.None? ==> r == Err(TypeError))
      && (total.Some? && total.value <= 0 ==> r == Ok(Float2(0)))
    ensures var total, failed := Hundredths(Get(d, TOTAL, Int(0))), Hundredths(Get(d, FAILED, Int(0)));
      total.Some? && total.value > 0 ==>
        && (failed.None? <==> r.Err?)
        && (failed.Some? ==> r == Ok(Float2(RoundDiv(failed.value * 10000, total.value))))
  {
    match Hundredths(Get(d, TOTAL, Int(0)))
    case None => Err(TypeError)
    case Some(total) =>
      if total > 0 then
        match Hundredths(Get(d, FAILED, Int(0)))
        case None => Err(TypeError)
        case Some(failed) => Ok(Float2(RoundDiv(failed * 10000, total)))
      else Ok(Float2(0))
  }

  /** With integer counts and no more failures than tests the rate is a
      percentage between 0.0 and 100.0, within half a hundredth of
      `failed / total * 100`. */
  lemma FailRateIsPercentage(d: Dict, total: int, failed: int)
    requires TOTAL in d && d[TOTAL] == Int(total) && FAILED in d && d[FAILED] == Int(failed)
    requires 0 <= failed <= total
    ensures FailRate(d).Ok? && 0 <= FailRate(d).value.hundredths <= 10000
    ensures total > 0 ==> var h := FailRate(d).value.hundredths;
      2 * (h * total - failed * 10000) <= total && 2 * (failed * 10000 - h * total) <= total
  {
    if total > 0 {
      var h := RoundDiv(failed * 100 * 10000, total * 100);
      RoundDivExact(failed * 100 * 10000, total * 100);
      assert 2 * (h * (total * 100) - failed * 100 * 10000) <= total * 100;
      assert 2 * (failed * 100 * 10000 - h * (total * 100)) <= total * 100;
    }
  }

  // ---------------------------------------------------------------------------
  // The body

  /** `data[DATE]` after the default of `prepare_body`: kept when present
      and truthy, the current time otherwise. */
  function WithDate(d: Dict, now: string): (d': Dict)
    ensures d'.Keys == d.Keys + {DATE}
    ensures DATE in d && Truthy(d[DATE]) ==> d' == d
    ensures !(DATE in d && Truthy(d[DATE])) ==> d' == d[DATE := Str(now)]
  {
    if DATE in d && Truthy(d[DATE]) then d else d[DATE := Str(now)]
  }

  const RULE: string := "\U{2500}\U{2500}\U{2500}\U{2500}\U{2500}\U{2500}\U{2500}\U{2500}\U{2500}\U{2500}\U{2500}\U{2500}\U{2500}\U{2500}\U{2500}\U{2500}\U{2500}\U{2500}\U{2500}\U{2500}\U{2500}\U{2500}\U{2500}\U{2500}\U{2500}\U{2500}\U{2500}\U{2500}\U{2500}\U{2500}\U{2500}\U{2500}\U{2500}\U{2500}\U{2500}\U{2500}\U{2500}\U{2500}"

  /** The template's text between its placeholders. */
  const TEMPLATE_TEXT: seq<string> := [
    "Hello Team,\n\nBelow are the automation test results for the latest build **",
    "**:\n\n" + RULE + "\n\n\U{1F4CC} **Execution Summary**\n\n" + RULE + "\n\n\U{2022} Suite Name: ",
    "\n\n\U{2022} Execution Date: ",
    "\n\n\U{2022} Duration: ",
    "\n\n\U{2022} Branch: ",
    "\n\n\U{2022} Triggered By: ",
    "\n\n" + RULE + "\n\n\U{1F4CA} **Test Statistics**\n\n" + RULE + "\n\n\U{2022} Total Tests: ",
    "\n\n\U{2022} Passed: ",
    "\n\n\U{2022} Failed: ",
    "\n\n\U{2022} Skipped: ",
    "\n\n\U{2022} Failure Rate: ",
    "%\n\n" + RULE + "\n\n\U{1F4CE} Attachments\n\n" + RULE
      + "\n\n\U{2022} HTML report\n\nReport is attached for your review.\n\nRegards,  \n\n",
    "  \n\n",
    "\n"]

  /** The template's placeholders, in order. */
  const TEMPLATE_FIELDS: seq<string> := [
    BUILD_VERSION, SUITE_NAME, DATE, DURATION, BRANCH, TRIGGERED_BY,
    TOTAL, PASSED, FAILED, SKIPPED, FAIL_RATE, YOUR_NAME, YOUR_POSITION]

  /** `str.format` of the text and placeholders with the values of `d`:
      a KeyError for the first placeholder `d` lacks. */
  function Render(text: seq<string>, fields: seq<string>, d: Dict): (r: Result<string>)
    requires |text| == |fields| + 1
    ensures r.Ok? <==> forall k :: 0 <= k < |fields| ==> fields[k] in d
    ensures r.Err? ==> r.error.KeyError? && r.error.key in fields && r.error.key !in d
    decreases |fields|
  {
    if fields == [] then Ok(text[0])
    else if fields[0] !in d then Err(KeyError(fields[0]))
    else
      match Render(text[1..], fields[1..], d)
      case Err(e) => Err(e)
      case Ok(rest) => Ok(text[0] + Text(d[fields[0]]) + rest)
  }

  const MISSING_VARIABLE: string := "Missing template variable: "

  /** `prepare_body` on the data `d`: the date default, then the template
      rendered; a missing placeholder becomes a ValueError quoting its name. */
  function Body(d: Dict, now: string): (r: Result<string>)
    ensures r.Err? ==> exists k :: k in TEMPLATE_FIELDS && k !in WithDate(d, now)
                                  && r.error == ValueError(MISSING_VARIABLE + "'" + k + "'")
  {
    match Render(TEMPLATE_TEXT, TEMPLATE_FIELDS, WithDate(d, now))
    case Ok(body) => Ok(body)
    case Err(e) => Err(ValueError(MISSING_VARIABLE + "'" + e.key + "'"))
  }

  /** Every placeholder of the template is a required field, `date` or `fail_rate`. */
  lemma PlaceholdersCovered()
    ensures forall f :: f in TEMPLATE_FIELDS ==> f in REQUIRED_FIELDS || f == DATE || f == FAIL_RATE
  {
  }

  /** So once the data passed validation and holds a failure rate,
      `prepare_body` always renders. */
  lemma PrepareBodyTotal(d: Dict, now: string)
    requires FieldCheck(d).Ok? && FAIL_RATE in d
    ensures Body(d, now).Ok?
  {
    PlaceholdersCovered();
    var d' := WithDate(d, now);
    forall k | 0 <= k < |TEMPLATE_FIELDS|
      ensures TEMPLATE_FIELDS[k] in d'
    {
      assert TEMPLATE_FIELDS[k] in TEMPLATE_FIELDS;
    }
  }

  /** `get_attachments`: the HTML report path when it is truthy. */
  function Attachments(d: Dict): (a: seq<Value>)
    ensures |a| <= 1
    ensures a != [] <==> HTML_REPORT_PATH in d && Truthy(d[HTML_REPORT_PATH])
    ensures a != [] ==> a[0] == d[HTML_REPORT_PATH]
  {
    var path := Get(d, HTML_REPORT_PATH, NoneValue);
    if Truthy(path) then [path] else []
  }

  /** What `prepare_email_data` returns: exactly a body and the attachments. */
  datatype EmailData = EmailData(body: string, attachments: seq<Value>)

  // ---------------------------------------------------------------------------
  // The template object

  class EmailTemplate {
    const data: DataDict

    /** `self.data = data`: the caller's dict itself, not a copy. */
    constructor (data: DataDict)
      ensures this.data == data
    {
      this.data := data;
    }

    /** `_validate_data`. */
    method ValidateData() returns (r: Result<()>)
      ensures r == FieldCheck(data.entries)
    {
      var missing := MissingAmong(REQUIRED_FIELDS, data.entries);
      if missing != [] {
        return Err(ValueError(MISSING_FIELDS + Join(missing, ", ")));
      }
      return Ok(());
    }

    /** `_calculate_failure_rate`: stores the rate under `fail_rate`, or
        raises and leaves the dict alone. */
    method CalculateFailureRate() returns (r: Result<()>)
      modifies data
      ensures var rate := FailRate(old(data.entries));
        && (r.Ok? <==> rate.Ok?)
        && (rate.Err? ==> r.error == rate.error && data.entries == old(data.entries))
        && (rate.Ok? ==> data.entries == old(data.entries)[FAIL_RATE := rate.value])
    {
      var rate := FailRate(data.entries);
      if rate.Err? {
        return Err(rate.error);
      }
      data.entries := data.entries[FAIL_RATE := rate.value];
      return Ok(());
    }

    /** `prepare_body`: the date default is written into the dict before
        the template is rendered. */
    method PrepareBody(now: string) returns (r: Result<string>)
      modifies data
      ensures data.entries == WithDate(old(data.entries), now)
      ensures r == Body(old(data.entries), now)
    {
      if !(DATE in data.entries && Truthy(data.entries[DATE])) {
        data.entries := data.entries[DATE := Str(now)];
      }
      var rendered := Render(TEMPLATE_TEXT, TEMPLATE_FIELDS, data.entries);
      if rendered.Err? {
        return Err(ValueError(MISSING_VARIABLE + "'" + rendered.error.key + "'"));
      }
      return Ok(rendered.value);
    }

    /** `get_attachments`. */
    method GetAttachments() returns (a: seq<Value>)
      ensures a == Attachments(data.entries)
    {
      a := [];
      var path := Get(data.entries, HTML_REPORT_PATH, NoneValue);
      if Truthy(path) {
        a := a + [path];
      }
    }

    /** `prepare_email_data`: the body first, then the attachments. */
    method PrepareEmailData(now: string) returns (r: Result<EmailData>)
      modifies data
      ensures data.entries == WithDate(old(data.entries), now)
      ensures r.Ok? <==> Body(old(data.entries), now).Ok?
      ensures r.Err? ==> r.error == Body(old(data.entries), now).error
      ensures r.Ok? ==> r.value == EmailData(Body(old(data.entries), now).value, Attachments(data.entries))
    {
      var body := PrepareBody(now);
      if body.Err? {
        return Err(body.error);
      }
      var attachments := GetAttachments();
      return Ok(EmailData(body.value, attachments));
    }
  }

  /** `EmailTemplate(data)`: validation, then the failure rate, written into
      the caller's dict; a failure leaves the dict as it was. */
  method NewEmailTemplate(data: DataDict) returns (r: Result<EmailTemplate>)
    modifies data
    ensures FieldCheck(old(data.entries)).Err? ==> r == Err(FieldCheck(old(data.entries)).error)
    ensures FieldCheck(old(data.entries)).Ok? ==> (r.Ok? <==> FailRate(old(data.entries)).Ok?)
    ensures FieldCheck(old(data.entries)).Ok? && FailRate(old(data.entries)).Err? ==>
      r == Err(FailRate(old(data.entries)).error)
    ensures r.Err? ==> data.entries == old(data.entries)
    ensures r.Ok? ==> && fresh(r.value) && r.value.data == data
                      && data.entries == old(data.entries)[FAIL_RATE := FailRate(old(data.entries)).value]
  {
    var t := new EmailTemplate(data);
    var valid := t.ValidateData();
    if valid.Err? {
      return Err(valid.error);
    }
    var rate := t.CalculateFailureRate();
    if rate.Err? {
      return Err(rate.error);
    }
    return Ok(t);
  }

  /** A template that was built renders its body, whatever the date. */
  lemma BuiltTemplateRenders(before: Dict, now: string)
    requires FieldCheck(before).Ok? && FailRate(before).Ok?
    ensures Body(before[FAIL_RATE := FailRate(before).value], now).Ok?
  {
    PrepareBodyTotal(before[FAIL_RATE := FailRate(before).value], now);
  }
}
