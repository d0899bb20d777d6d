/** What the two option validators decide, before any request is built:
    the address-format checks raise at once, ahead of the list of
    "Field 'X' is required" messages gathered for falsy required fields. */
module Validators {
  import opened PyValue

  /** How validation ends: it passes, or it raises `ValidationException`
      with either one field and its message or the list of required-field
      messages. */
  datatype Verdict =
    | Passed
    | FieldError(field: string, message: string)
    | RequiredErrors(messages: seq<string>)

  const EMAIL_REQUIRED: seq<string> := ["fromName", "fromEmail", "subject", "htmlText"]
  const CAMPAIGN_REQUIRED: seq<string> := ["fromName", "fromEmail", "title", "subject", "htmlText"]
  const INVALID_EMAIL: string := "Invalid email format"

  function RequiredMessage(field: string): string {
    "Field '" + field + "' is required"
  }

  function Messages(fields: seq<string>): seq<string> {
    seq(|fields|, k requires 0 <= k < |fields| => RequiredMessage(fields[k]))
  }

  /** `not options.get(field)`: the field is absent or falsy. */
  predicate IsMissing(options: Dict, field: string) {
    !Truthy(GetOr(options, field, PyNone))
  }

  /** The required fields that are missing, in the order they are required. */
  function Missing(required: seq<string>, options: Dict): (r: seq<string>)
    ensures |r| <= |required|
    ensures forall f :: f in r <==> f in required && IsMissing(options, f)
    decreases |required|
  {
    if required == [] then []
    else
      var init, last := required[..|required| - 1], required[|required| - 1];
      assert required == init + [last];
      Missing(init, options) + (if IsMissing(options, last) then [last] else [])
  }

  /** The messages the validator gathers for `required`. */
  function RequiredReport(required: seq<string>, options: Dict): seq<string> {
    Messages(Missing(required, options))
  }

  /** `'@' in v` does not raise: `v` is a str, a list or a dict. */
  predicate AtTestable(v: Value) {
    v.PyStr? || v.PyList? || v.PyDict?
  }

  /** `'@' in v`: a substring test on a str, a search among the items of a
      list and among the keys of a dict. */
  predicate HasAt(v: Value)
    requires AtTestable(v)
    ensures HasAt(v) ==> Truthy(v)
  {
    if v.PyStr? then '@' in v.s
    else if v.PyList? then PyStr("@") in v.items
    else "@" in Keys(v.entries)
  }

  /** `'@' in options['fromEmail']` does not raise when `fromEmail` is present. */
  predicate FromEmailTestable(options: Dict) {
    Get(options, "fromEmail").Some? ==> AtTestable(Get(options, "fromEmail").value)
  }

  /** Iterating `options['to']`, when present, yields strings. */
  predicate ToIterable(options: Dict) {
    Get(options, "to").Some? ==> StrItems(Get(options, "to").value).Some?
  }

  /** The shapes of `fromEmail` and `to` for which the email validator raises
      no `TypeError`: `to` is only iterated once the `fromEmail` check passed. */
  predicate EmailShape(options: Dict) {
    FromEmailTestable(options) && (!FromEmailMalformed(options) ==> ToIterable(options))
  }

  /** `'fromEmail' in options and '@' not in options['fromEmail']`. */
  predicate FromEmailMalformed(options: Dict)
    requires FromEmailTestable(options)
  {
    Get(options, "fromEmail").Some? && !HasAt(Get(options, "fromEmail").value)
  }

  /** What `for email in options['to']` visits, in order (nothing when `to` is
      absent): the items of a list, the characters of a str, the keys of a dict. */
  function Addresses(options: Dict): (r: seq<string>)
    requires ToIterable(options)
    ensures Get(options, "to").None? ==> r == []
    ensures Get(options, "to").Some? && Get(options, "to").value.PyList? ==>
              |r| == |Get(options, "to").value.items| &&
              forall k :: 0 <= k < |r| ==> Get(options, "to").value.items[k] == PyStr(r[k])
    ensures Get(options, "to").Some? && Get(options, "to").value.PyDict? ==>
              r == Keys(Get(options, "to").value.entries)
    ensures Get(options, "to").Some? && Get(options, "to").value.PyStr? ==>
              |r| == |Get(options, "to").value.s| &&
              forall k :: 0 <= k < |r| ==> r[k] == [Get(options, "to").value.s[k]]
  {
    match Get(options, "to")
    case None => []
    case Some(v) => StrItems(v).value
  }

  /** The position of the first address without an `@`. */
  function FirstLackingAt(addrs: seq<string>): (r: Option<nat>)
    ensures r.Some? ==> r.value < |addrs| && '@' !in addrs[r.value]
    ensures r.Some? ==> forall j :: 0 <= j < r.value ==> '@' in addrs[j]
    ensures r.None? <==> forall j :: 0 <= j < |addrs| ==> '@' in addrs[j]
  {
    if addrs == [] then None
    else if '@' !in addrs[0] then Some(0)
    else match FirstLackingAt(addrs[1..])
      case None => None
      case Some(i) => Some(i + 1)
  }

  /** What `_validate_email_options` decides. */
  function EmailVerdict(options: Dict): (r: Verdict)
    requires EmailShape(options)
    ensures r.FieldError? ==>
              || r == FieldError("fromEmail", INVALID_EMAIL)
              || (r.field == "to" && INVALID_EMAIL + ": " <= r.message)
    ensures r.RequiredErrors? ==> r.messages != []
  {
    var errors := RequiredReport(EMAIL_REQUIRED, options);
    if FromEmailMalformed(options) then FieldError("fromEmail", INVALID_EMAIL)
    else
      var bad := FirstLackingAt(Addresses(options));
      if bad.Some? then FieldError("to", INVALID_EMAIL + ": " + Addresses(options)[bad.value])
      else if errors != [] then RequiredErrors(errors)
      else Passed
  }

  /** What `_validate_campaign_options` decides: the same checks without `to`.
      Its only field error is about `fromEmail`. */
  function CampaignVerdict(options: Dict): (r: Verdict)
    requires FromEmailTestable(options)
    ensures r.FieldError? ==> r == FieldError("fromEmail", INVALID_EMAIL)
    ensures r.RequiredErrors? ==> r.messages != []
  {
    var errors := RequiredReport(CAMPAIGN_REQUIRED, options);
    if FromEmailMalformed(options) then FieldError("fromEmail", INVALID_EMAIL)
    else if errors != [] then RequiredErrors(errors)
    else Passed
  }

  // ---------------------------------------------------------------------
  // Properties of the two verdicts.

  /** Different fields give different messages. */
  lemma RequiredMessageInjective(f: string, g: string)
    requires RequiredMessage(f) == RequiredMessage(g)
    ensures f == g
  {
    var m := RequiredMessage(f);
    assert m[7..|m| - 13] == f;
    assert RequiredMessage(g)[7..|m| - 13] == g;
  }

  /** The gathered list holds a field's message exactly when that required field
      is missing, one message per missing field, in the order of `required`. */
  lemma RequiredReportExact(required: seq<string>, options: Dict, f: string)
    ensures RequiredMessage(f) in RequiredReport(required, options) <==>
              f in required && IsMissing(options, f)
    ensures |RequiredReport(required, options)| == |Missing(required, options)|
    ensures RequiredReport(required, options) == [] <==>
              forall g :: g in required ==> !IsMissing(options, g)
  {
    var ms := Missing(required, options);
    var report := RequiredReport(required, options);
    if RequiredMessage(f) in report {
      var k :| 0 <= k < |report| && report[k] == RequiredMessage(f);
      RequiredMessageInjective(f, ms[k]);
    }
    if f in required && IsMissing(options, f) {
      var k :| 0 <= k < |ms| && ms[k] == f;
      assert report[k] == RequiredMessage(f);
    }
    if report == [] {
      assert ms == [];
    } else {
      assert ms[0] in required && IsMissing(options, ms[0]);
    }
  }

  /** Missing fields keep the order in which they are required. */
  lemma {:induction false} MissingInOrder(required: seq<string>, options: Dict, i: int, j: int)
    requires 0 <= i < j < |Missing(required, options)|
    ensures exists p, q :: 0 <= p < q < |required| &&
              required[p] == Missing(required, options)[i] &&
              required[q] == Missing(required, options)[j]
    decreases |required|
  {
    var r := Missing(required, options);
    var init, last := required[..|required| - 1], required[|required| - 1];
    var head := Missing(init, options);
    assert r == head + (if IsMissing(options, last) then [last] else []);
    if j < |head| {
      MissingInOrder(init, options, i, j);
      var p, q :| 0 <= p < q < |init| && init[p] == head[i] && init[q] == head[j];
      assert required[p] == r[i] && required[q] == r[j];
    } else {
      assert r[i] in head;
      var p :| 0 <= p < |init| && init[p] == r[i];
      assert required[p] == r[i] && required[|required| - 1] == r[j];
    }
  }

  /** A malformed `fromEmail` decides the email verdict, whatever else is
      missing or wrong, even when it is the empty string. */
  lemma EmailFromEmailFirst(options: Dict)
    requires EmailShape(options) && FromEmailMalformed(options)
    ensures EmailVerdict(options) == FieldError("fromEmail", INVALID_EMAIL)
  {
  }

  /** A str `to` is iterated character by character, so `to="bob@x.com"` is
      reported at its first character. */
  lemma StrToExample()
    ensures EmailShape([("to", PyStr("bob@x.com"))])
    ensures EmailVerdict([("to", PyStr("bob@x.com"))]) == FieldError("to", "Invalid email format: b")
  {
    var options := [("to", PyStr("bob@x.com"))];
    assert Addresses(options)[0] == "b";
    EmailFirstBadAddress(options, 0);
  }

  /** `to` is never iterated once `fromEmail` is malformed, so a `to` that
      cannot be iterated does not matter then. */
  lemma MalformedFromEmailExample()
    ensures EmailShape([("fromEmail", PyStr("nope")), ("to", PyInt(5))])
    ensures EmailVerdict([("fromEmail", PyStr("nope")), ("to", PyInt(5))]) == FieldError("fromEmail", INVALID_EMAIL)
  {
    var options := [("fromEmail", PyStr("nope")), ("to", PyInt(5))];
    assert Get(options, "fromEmail") == Some(PyStr("nope"));
    assert '@' !in "nope";
  }

  /** With `fromEmail` well-formed or absent, the first address of `to` without
      an `@` is the one reported, ahead of any missing field. */
  lemma EmailFirstBadAddress(options: Dict, i: nat)
    requires EmailShape(options) && !FromEmailMalformed(options)
    requires i < |Addresses(options)| && '@' !in Addresses(options)[i]
    requires forall j :: 0 <= j < i ==> '@' in Addresses(options)[j]
    ensures EmailVerdict(options) == FieldError("to", INVALID_EMAIL + ": " + Addresses(options)[i])
  {
  }

  /** When no address check fires, the email verdict is the list of required
      messages: one per missing required field, or a pass when there are none. */
  lemma EmailRequiredReport(options: Dict)
    requires EmailShape(options) && !FromEmailMalformed(options)
    requires forall a :: a in Addresses(options) ==> '@' in a
    ensures EmailVerdict(options) ==
              if Missing(EMAIL_REQUIRED, options) == [] then Passed
              else RequiredErrors(RequiredReport(EMAIL_REQUIRED, options))
  {
    var addrs := Addresses(options);
    assert forall j :: 0 <= j < |addrs| ==> '@' in addrs[j] by {
      forall j | 0 <= j < |addrs| ensures '@' in addrs[j] {
        assert addrs[j] in addrs;
      }
    }
  }

  /** Email validation passes exactly when every required field is present and
      truthy, `fromEmail` has an `@`, and so does every address of `to`. */
  lemma EmailPassedIff(options: Dict)
    requires EmailShape(options)
    ensures EmailVerdict(options) == Passed <==>
              && (forall f :: f in EMAIL_REQUIRED ==> !IsMissing(options, f))
              && HasAt(GetOr(options, "fromEmail", PyStr("")))
              && (forall a :: a in Addresses(options) ==> '@' in a)
  {
    if FromEmailMalformed(options) {
      EmailFromEmailFirst(options);
    } else {
      var addrs := Addresses(options);
      RequiredReportExact(EMAIL_REQUIRED, options, "");
      if forall f :: f in EMAIL_REQUIRED ==> !IsMissing(options, f) {
        assert !IsMissing(options, "fromEmail");
      }
      if forall a :: a in addrs ==> '@' in a {
        forall j | 0 <= j < |addrs| ensures '@' in addrs[j] {
          assert addrs[j] in addrs;
        }
      }
    }
  }

  /** The campaign validator never looks at `to`: its verdict is the same as on
      options without a `to` entry. */
  lemma CampaignIgnoresTo(options: Dict, to: Value)
    requires FromEmailTestable(options) && "to" !in Keys(options)
    ensures FromEmailTestable(Set(options, "to", to))
    ensures CampaignVerdict(Set(options, "to", to)) == CampaignVerdict(options)
  {
    var other := Set(options, "to", to);
    forall f | f in CAMPAIGN_REQUIRED
      ensures IsMissing(other, f) == IsMissing(options, f)
    {
    }
    MissingAgree(CAMPAIGN_REQUIRED, options, other);
  }

  lemma {:induction false} MissingAgree(required: seq<string>, a: Dict, b: Dict)
    requires forall f :: f in required ==> IsMissing(a, f) == IsMissing(b, f)
    ensures Missing(required, a) == Missing(required, b)
    decreases |required|
  {
    if required != [] {
      var init := required[..|required| - 1];
      forall f | f in init ensures IsMissing(a, f) == IsMissing(b, f) {
        assert f in required;
      }
      MissingAgree(init, a, b);
    }
  }

  /** A malformed `fromEmail` decides the campaign verdict too, ahead of the
      required-field list. */
  lemma CampaignFromEmailFirst(options: Dict)
    requires FromEmailTestable(options) && FromEmailMalformed(options)
    ensures CampaignVerdict(options) == FieldError("fromEmail", INVALID_EMAIL)
  {
  }

  /** Otherwise the campaign verdict is the list of required messages, one per
      missing required field in the order they are required, or a pass. */
  lemma CampaignRequiredReport(options: Dict)
    requires FromEmailTestable(options) && !FromEmailMalformed(options)
    ensures CampaignVerdict(options) ==
              if Missing(CAMPAIGN_REQUIRED, options) == [] then Passed
              else RequiredErrors(RequiredReport(CAMPAIGN_REQUIRED, options))
  {
  }

  /** Campaign validation passes exactly when every required field is present
      and truthy and `fromEmail` has an `@`. */
  lemma CampaignPassedIff(options: Dict)
    requires FromEmailTestable(options)
    ensures CampaignVerdict(options) == Passed <==>
              && (forall f :: f in CAMPAIGN_REQUIRED ==> !IsMissing(options, f))
              && HasAt(GetOr(options, "fromEmail", PyStr("")))
  {
    RequiredReportExact(CAMPAIGN_REQUIRED, options, "");
    if forall f :: f in CAMPAIGN_REQUIRED ==> !IsMissing(options, f) {
      assert !IsMissing(options, "fromEmail");
    }
  }

  /** A required field that is not missing is a key of the options. */
  lemma PresentWhenNotMissing(options: Dict, f: string)
    requires !IsMissing(options, f)
    ensures f in Keys(options)
  {
  }
}
