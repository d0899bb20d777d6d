/** The `SkrybeSDK` client object: its key and base URL, the time of the last
    request, and its methods up to the point where the form is posted. */
module Client {
  import opened PyValue
  import opened FormEncoding
  import opened Validators
  import opened Payloads

  const DEFAULT_BASE_URL: string := "https://dashboard.skry.be"
  /** 0.1 s, in milliseconds. */
  const MIN_REQUEST_INTERVAL: int := 100

  /** The POST a method would send, with the sleep `_handle_rate_limit` took
      before it (in milliseconds): the pause, the full URL and the form. */
  datatype Request = Request(pause: nat, url: string, form: Dict)

  /** A validated operation either raises `ValidationException` before any
      request, or posts. */
  datatype Outcome = Rejected(verdict: Verdict) | Posted(request: Request)

  /** How long `_handle_rate_limit` sleeps when the last request was recorded at
      `last` and the clock now reads `now`. */
  function ThrottleDelay(last: int, now: int): (d: nat)
    ensures d == 0 <==> now - last >= MIN_REQUEST_INTERVAL
    ensures d > 0 ==> now + d == last + MIN_REQUEST_INTERVAL
  {
    if now - last < MIN_REQUEST_INTERVAL then MIN_REQUEST_INTERVAL - (now - last) else 0
  }

  /** A clock that reads at least `now + delay` after the sleep puts the new
      request at least the minimum interval after the last one. */
  lemma ThrottleSpacing(last: int, now: int, resumed: int)
    requires resumed >= now + ThrottleDelay(last, now)
    ensures resumed - last >= MIN_REQUEST_INTERVAL
  {
  }

  /** The times a run of requests records when each sleep lasts exactly its
      delay, the clock reading `nows[i]` as request `i` starts. */
  function Recorded(last: int, nows: seq<int>): seq<int>
    decreases |nows|
  {
    if nows == [] then []
    else
      var t := nows[0] + ThrottleDelay(last, nows[0]);
      [t] + Recorded(t, nows[1..])
  }

  /** In such a run every recorded time is at least the minimum interval after
      the one before it, whatever the clock reads. */
  lemma {:induction false} RecordedSpacing(last: int, nows: seq<int>)
    ensures |Recorded(last, nows)| == |nows|
    ensures nows != [] ==> Recorded(last, nows)[0] - last >= MIN_REQUEST_INTERVAL
    ensures forall i :: 0 <= i < |nows| - 1 ==>
              Recorded(last, nows)[i + 1] - Recorded(last, nows)[i] >= MIN_REQUEST_INTERVAL
    decreases |nows|
  {
    if nows != [] {
      var r := Recorded(last, nows);
      var t := r[0];
      RecordedSpacing(t, nows[1..]);
      assert r[1..] == Recorded(t, nows[1..]);
    }
  }

  class SkrybeSdk {
    const apiKey: Value
    const baseUrl: string
    var lastRequestTime: int

    /** `SkrybeSDK(api_key, base_url=None)`; a falsy base URL means the default. */
    constructor (apiKey: Value, baseUrl: Option<string>)
      ensures this.apiKey == apiKey
      ensures baseUrl.Some? && baseUrl.value != "" ==> this.baseUrl == baseUrl.value
      ensures baseUrl.None? || baseUrl.value == "" ==> this.baseUrl == DEFAULT_BASE_URL
      ensures lastRequestTime == 0
    {
      this.apiKey := apiKey;
      this.baseUrl := if baseUrl.Some? && baseUrl.value != "" then baseUrl.value else DEFAULT_BASE_URL;
      lastRequestTime := 0;
    }

    /** `_create_form_data(data)`. */
    method CreateFormData(data: Dict) returns (form: Dict)
      ensures form == FormData(apiKey, data)
    {
      form := [(API_KEY, apiKey)];
      ghost var target := FormData(apiKey, data);
      assert data[0..] == data;
      for i := 0 to |data|
        invariant Update(form, Kept(data[i..])) == target
      {
        var (key, value) := data[i];
        KeptStep(data, i);
        if value != PyNone {
          UpdateCons(form, (key, FormValue(value)), Kept(data[i + 1..]));
          form := Set(form, key, FormValue(value));
        } else {
          assert Kept(data[i..]) == Kept(data[i + 1..]);
        }
      }
      assert data[|data|..] == [];
    }

    /** `_handle_rate_limit()`: `now` is the clock before the sleep, `resumed`
        the clock after it; the sleep's length is returned. */
    method HandleRateLimit(now: int, resumed: int) returns (pause: nat)
      modifies this`lastRequestTime
      ensures pause == ThrottleDelay(old(lastRequestTime), now)
      ensures lastRequestTime == resumed
      ensures resumed >= now + pause ==> lastRequestTime - old(lastRequestTime) >= MIN_REQUEST_INTERVAL
    {
      var sinceLast := now - lastRequestTime;
      pause := 0;
      if sinceLast < MIN_REQUEST_INTERVAL {
        pause := MIN_REQUEST_INTERVAL - sinceLast;
      }
      lastRequestTime := resumed;
    }

    /** `_make_request(endpoint, data)` up to the POST: throttle, then the URL
        and the form. */
    method MakeRequest(endpoint: string, data: Dict, now: int, resumed: int) returns (request: Request)
      modifies this`lastRequestTime
      ensures request == Request(ThrottleDelay(old(lastRequestTime), now), baseUrl + endpoint, FormData(apiKey, data))
      ensures lastRequestTime == resumed
      ensures resumed >= now + request.pause ==>
                lastRequestTime - old(lastRequestTime) >= MIN_REQUEST_INTERVAL
    {
      var pause := HandleRateLimit(now, resumed);
      var url := baseUrl + endpoint;
      var form := CreateFormData(data);
      request := Request(pause, url, form);
    }

    /** `_validate_email_options(options)`. */
    method ValidateEmailOptions(options: Dict) returns (verdict: Verdict)
      requires EmailShape(options)
      ensures verdict == EmailVerdict(options)
    {
      var required := EMAIL_REQUIRED;
      var errors := GatherRequired(required, options);
      if "fromEmail" in Keys(options) && !HasAt(Get(options, "fromEmail").value) {
        EmailFromEmailFirst(options);
        return FieldError("fromEmail", INVALID_EMAIL);
      }
      var addresses := [];
      if "to" in Keys(options) {
        addresses := StrItems(Get(options, "to").value).value;
        for i := 0 to |addresses|
          invariant forall j :: 0 <= j < i ==> '@' in addresses[j]
        {
          if '@' !in addresses[i] {
            EmailFirstBadAddress(options, i);
            return FieldError("to", INVALID_EMAIL + ": " + addresses[i]);
          }
        }
      }
      assert addresses == Addresses(options);
      EmailRequiredReport(options);
      if errors != [] {
        return RequiredErrors(errors);
      }
      return Passed;
    }

    /** `_validate_campaign_options(options)`. */
    method ValidateCampaignOptions(options: Dict) returns (verdict: Verdict)
      requires FromEmailTestable(options)
      ensures verdict == CampaignVerdict(options)
    {
      var required := CAMPAIGN_REQUIRED;
      var errors := GatherRequired(required, options);
      if "fromEmail" in Keys(options) && !HasAt(Get(options, "fromEmail").value) {
        return FieldError("fromEmail", INVALID_EMAIL);
      }
      if errors != [] {
        return RequiredErrors(errors);
      }
      return Passed;
    }

    /** The loop both validators open with: one message per required field
        that `options.get` finds falsy. */
    static method GatherRequired(required: seq<string>, options: Dict) returns (errors: seq<string>)
      ensures errors == RequiredReport(required, options)
    {
      errors := [];
      for i := 0 to |required|
        invariant errors == Messages(Missing(required[..i], options))
      {
        assert required[..i + 1][..i] == required[..i];
        if !Truthy(GetOr(options, required[i], PyNone)) {
          errors := errors + [RequiredMessage(required[i])];
        }
      }
      assert required[..|required|] == required;
    }

    /** `send_email(options)`: validate, then post the payload. */
    method SendEmail(options: Dict, now: int, resumed: int) returns (outcome: Outcome)
      requires EmailShape(options)
      requires EmailVerdict(options) == Passed ==> Resolvable(JoinedIds("listIds"), options)
      modifies this`lastRequestTime
      ensures EmailVerdict(options) != Passed ==>
                outcome == Rejected(EmailVerdict(options)) && lastRequestTime == old(lastRequestTime)
      ensures EmailVerdict(options) == Passed ==>
                && AllResolvable(SEND_EMAIL_FIELDS, options)
                && outcome == Posted(Request(ThrottleDelay(old(lastRequestTime), now), baseUrl + SEND_EMAIL_PATH,
                                             FormData(apiKey, Build(SEND_EMAIL_FIELDS, options))))
                && lastRequestTime == resumed
    {
      var verdict := ValidateEmailOptions(options);
      if verdict != Passed {
        return Rejected(verdict);
      }
      EmailPassedIff(options);
      RequiredPresent(EMAIL_REQUIRED, options);
      SendEmailResolvable(options);
      var request := MakeRequest(SEND_EMAIL_PATH, Build(SEND_EMAIL_FIELDS, options), now, resumed);
      outcome := Posted(request);
    }

    /** `create_campaign(options)`: validate, then post the payload. */
    method CreateCampaign(options: Dict, now: int, resumed: int) returns (outcome: Outcome)
      requires FromEmailTestable(options)
      modifies this`lastRequestTime
      ensures CampaignVerdict(options) != Passed ==>
                outcome == Rejected(CampaignVerdict(options)) && lastRequestTime == old(lastRequestTime)
      ensures CampaignVerdict(options) == Passed ==>
                && AllResolvable(CREATE_CAMPAIGN_FIELDS, options)
                && outcome == Posted(Request(ThrottleDelay(old(lastRequestTime), now), baseUrl + CREATE_CAMPAIGN_PATH,
                                             FormData(apiKey, Build(CREATE_CAMPAIGN_FIELDS, options))))
                && lastRequestTime == resumed
    {
      var verdict := ValidateCampaignOptions(options);
      if verdict != Passed {
        return Rejected(verdict);
      }
      CampaignPassedIff(options);
      RequiredPresent(CAMPAIGN_REQUIRED, options);
      CreateCampaignResolvable(options);
      var request := MakeRequest(CREATE_CAMPAIGN_PATH, Build(CREATE_CAMPAIGN_FIELDS, options), now, resumed);
      outcome := Posted(request);
    }

    /** `get_lists(include_hidden=False)`. */
    method GetLists(includeHidden: Option<Value>, now: int, resumed: int) returns (request: Request)
      modifies this`lastRequestTime
      ensures request == Request(ThrottleDelay(old(lastRequestTime), now), baseUrl + GET_LISTS_PATH,
                                 FormData(apiKey, Build(GetListsFields(IncludeHidden(includeHidden)), [])))
      ensures lastRequestTime == resumed
    {
      var fields := GetListsFields(IncludeHidden(includeHidden));
      request := MakeRequest(GET_LISTS_PATH, Build(fields, []), now, resumed);
    }

    /** `get_campaigns(options=None)`. */
    method GetCampaigns(options: Option<Dict>, now: int, resumed: int) returns (request: Request)
      modifies this`lastRequestTime
      ensures request == Request(ThrottleDelay(old(lastRequestTime), now), baseUrl + GET_CAMPAIGNS_PATH, FormData(apiKey, Build(PAGING_FIELDS, OrEmpty(options))))
      ensures lastRequestTime == resumed
    {
      request := MakeRequest(GET_CAMPAIGNS_PATH, Build(PAGING_FIELDS, OrEmpty(options)), now, resumed);
    }

    /** `get_subscribers(list_id, options=None)`. */
    method GetSubscribers(listId: Value, options: Option<Dict>, now: int, resumed: int) returns (request: Request)
      modifies this`lastRequestTime
      ensures request == Request(ThrottleDelay(old(lastRequestTime), now), baseUrl + GET_SUBSCRIBERS_PATH,
                                 FormData(apiKey, Build(GetSubscribersFields(listId), OrEmpty(options))))
      ensures lastRequestTime == resumed
    {
      request := MakeRequest(GET_SUBSCRIBERS_PATH, Build(GetSubscribersFields(listId), OrEmpty(options)), now, resumed);
    }

    /** `add_subscriber(list_id, subscriber_data)`: the payload starts as
        `{'list_id': list_id}` and takes the caller's entries one by one. */
    method AddSubscriber(listId: Value, subscriberData: Dict, now: int, resumed: int) returns (request: Request)
      modifies this`lastRequestTime
      ensures request == Request(ThrottleDelay(old(lastRequestTime), now), baseUrl + ADD_SUBSCRIBER_PATH, FormData(apiKey, AddSubscriberPayload(listId, subscriberData)))
      ensures lastRequestTime == resumed
    {
      var data: Dict := [("list_id", listId)];
      assert subscriberData[0..] == subscriberData;
      for i := 0 to |subscriberData|
        invariant Update(data, subscriberData[i..]) == AddSubscriberPayload(listId, subscriberData)
      {
        assert subscriberData[i..][1..] == subscriberData[i + 1..];
        data := Set(data, subscriberData[i].0, subscriberData[i].1);
      }
      request := MakeRequest(ADD_SUBSCRIBER_PATH, data, now, resumed);
    }
  }

  /** Once validation has passed, every lookup of the `send_email` literal succeeds. */
  lemma SendEmailResolvable(options: Dict)
    requires forall f :: f in EMAIL_REQUIRED ==> f in Keys(options)
    requires Resolvable(JoinedIds("listIds"), options)
    ensures AllResolvable(SEND_EMAIL_FIELDS, options)
  {
    assert "fromName" in EMAIL_REQUIRED && "fromEmail" in EMAIL_REQUIRED;
    assert "subject" in EMAIL_REQUIRED && "htmlText" in EMAIL_REQUIRED;
  }

  /** Once validation has passed, every lookup of the `create_campaign` literal succeeds. */
  lemma CreateCampaignResolvable(options: Dict)
    requires forall f :: f in CAMPAIGN_REQUIRED ==> f in Keys(options)
    ensures AllResolvable(CREATE_CAMPAIGN_FIELDS, options)
  {
    assert "fromName" in CAMPAIGN_REQUIRED && "fromEmail" in CAMPAIGN_REQUIRED && "title" in CAMPAIGN_REQUIRED;
    assert "subject" in CAMPAIGN_REQUIRED && "htmlText" in CAMPAIGN_REQUIRED;
  }

  /** When no required field is missing, every one of them is a key. */
  lemma RequiredPresent(required: seq<string>, options: Dict)
    requires forall f :: f in required ==> !IsMissing(options, f)
    ensures forall f :: f in required ==> f in Keys(options)
  {
    forall f | f in required ensures f in Keys(options) {
      PresentWhenNotMissing(options, f);
    }
  }
}
