/** The payload dicts the request methods hand to the form encoder. Each dict
    literal is written as a table of wire keys, in the literal's order, and
    where each value comes from. */
module Payloads {
  import opened PyValue
  import opened FormEncoding
  import Json

  /** Where one payload value comes from. */
  datatype Source =
    | Required(option: string)                  // options['x']
    | Optional(option: string)                  // options.get('x')
    | JoinedIds(option: string)                 // ','.join(options['x']) if options.get('x') else None
    | Defaulted(option: string, default: Value) // options.get('x', default)
    | Given(value: Value)                       // an argument of the method

  type Fields = seq<(string, Source)>

  const SEND_EMAIL_PATH: string := "/api/emails/send.php"
  const CREATE_CAMPAIGN_PATH: string := "/api/campaigns/create.php"
  const GET_LISTS_PATH: string := "/api/lists/get-lists.php"
  const GET_CAMPAIGNS_PATH: string := "/api/campaigns/get-campaigns.php"
  const GET_SUBSCRIBERS_PATH: string := "/api/subscribers/get-subscribers.php"
  const ADD_SUBSCRIBER_PATH: string := "/api/subscribers/add.php"

  const SEND_EMAIL_FIELDS: Fields := [
    ("from_name", Required("fromName")),
    ("from_email", Required("fromEmail")),
    ("reply_to", Optional("replyTo")),
    ("subject", Required("subject")),
    ("html_text", Required("htmlText")),
    ("plain_text", Optional("plainText")),
    ("to", Optional("to")),
    ("recipient-variables", Optional("recipientVariables")),
    ("list_ids", JoinedIds("listIds")),
    ("query_string", Optional("queryString")),
    ("track_opens", Optional("trackOpens")),
    ("track_clicks", Optional("trackClicks")),
    ("schedule_date_time", Optional("scheduleDateTime")),
    ("schedule_timezone", Optional("scheduleTimezone"))
  ]

  const CREATE_CAMPAIGN_FIELDS: Fields := [
    ("from_name", Required("fromName")),
    ("from_email", Required("fromEmail")),
    ("reply_to", Optional("replyTo")),
    ("title", Required("title")),
    ("subject", Required("subject")),
    ("html_text", Required("htmlText")),
    ("plain_text", Optional("plainText")),
    ("list_ids", Optional("listIds")),
    ("segment_ids", Optional("segmentIds")),
    ("exclude_list_ids", Optional("excludeListIds")),
    ("exclude_segments_ids", Optional("excludeSegmentIds")),
    ("query_string", Optional("queryString")),
    ("track_opens", Optional("trackOpens")),
    ("track_clicks", Optional("trackClicks")),
    ("send_campaign", Optional("sendCampaign")),
    ("schedule_date_time", Optional("scheduleDateTime")),
    ("schedule_timezone", Optional("scheduleTimezone"))
  ]

  /** `include_hidden=False`: the argument, or False when it is left out. */
  function IncludeHidden(arg: Option<Value>): Value {
    match arg
    case None => PyBool(false)
    case Some(v) => v
  }

  function GetListsFields(includeHidden: Value): Fields {
    [("include_hidden", Given(PyStr(if Truthy(includeHidden) then "yes" else "no")))]
  }

  const PAGING_FIELDS: Fields := [
    ("page", Defaulted("page", PyInt(1))),
    ("limit", Defaulted("limit", PyInt(10))),
    ("status", Optional("status"))
  ]

  function GetSubscribersFields(listId: Value): Fields {
    [("list_id", Given(listId))] + PAGING_FIELDS
  }

  /** `options or {}` for the optional options argument. */
  function OrEmpty(options: Option<Dict>): Dict {
    match options
    case None => []
    case Some(d) => d
  }

  /** The lookups of `src` do not raise: a subscripted option is present, and a
      joined one, when truthy, holds strings. */
  predicate Resolvable(src: Source, options: Dict) {
    match src
    case Required(o) => o in Keys(options)
    case JoinedIds(o) => Truthy(GetOr(options, o, PyNone)) ==> StrItems(GetOr(options, o, PyNone)).Some?
    case _ => true
  }

  predicate AllResolvable(fields: Fields, options: Dict) {
    forall k :: 0 <= k < |fields| ==> Resolvable(fields[k].1, options)
  }

  /** The value one entry of a literal evaluates to. */
  function Resolve(src: Source, options: Dict): (r: Value)
    requires Resolvable(src, options)
    ensures src.Required? ==> Get(options, src.option) == Some(r)
    ensures src.Optional? ==> (r == PyNone <==> Get(options, src.option) in {None, Some(PyNone)})
    ensures src.JoinedIds? ==> (r == PyNone <==> !Truthy(GetOr(options, src.option, PyNone)))
    ensures src.Defaulted? && src.option !in Keys(options) ==> r == src.default
  {
    match src
    case Required(o) => Get(options, o).value
    case Optional(o) => GetOr(options, o, PyNone)
    case JoinedIds(o) =>
      var v := GetOr(options, o, PyNone);
      if Truthy(v) then PyStr(Join(",", StrItems(v).value)) else PyNone
    case Defaulted(o, d) => GetOr(options, o, d)
    case Given(v) => v
  }

  /** The payload dict a table describes. */
  function Build(fields: Fields, options: Dict): (r: Dict)
    requires AllResolvable(fields, options)
    ensures |r| == |fields|
    ensures forall k :: 0 <= k < |r| ==> r[k].0 == fields[k].0 && r[k].1 == Resolve(fields[k].1, options)
  {
    seq(|fields|, k requires 0 <= k < |fields| => (fields[k].0, Resolve(fields[k].1, options)))
  }

  function WireKeys(fields: Fields): seq<string> {
    seq(|fields|, k requires 0 <= k < |fields| => fields[k].0)
  }

  /** Each wire key occurs once and none of them is `api_key`. */
  predicate WellKeyed(fields: Fields) {
    && (forall i, j :: 0 <= i < j < |fields| ==> fields[i].0 != fields[j].0)
    && (forall k :: 0 <= k < |fields| ==> fields[k].0 != API_KEY)
  }

  /** The payload of `add_subscriber`: `{'list_id': list_id}` updated with the
      caller's entries. */
  function AddSubscriberPayload(listId: Value, subscriberData: Dict): (r: Dict)
    ensures "list_id" in Keys(r)
    ensures Distinct(r)
    ensures forall k :: k in Keys(subscriberData) ==> k in Keys(r)
  {
    assert Keys([("list_id", listId)]) == ["list_id"];
    assert [("list_id", listId)][1..] == [];
    assert Distinct([("list_id", listId)]);
    UpdateKeysFrom([("list_id", listId)], subscriberData);
    Update([("list_id", listId)], subscriberData)
  }

  // ---------------------------------------------------------------------
  // What reaches the form.

  /** The `send_email` literal has 14 entries, with distinct wire keys and none of them `api_key`. */
  lemma SendEmailFieldsWellKeyed()
    ensures |SEND_EMAIL_FIELDS| == 14 && WellKeyed(SEND_EMAIL_FIELDS)
  {
  }

  /** The `create_campaign` literal has 17 entries, with distinct wire keys and none of them `api_key`. */
  lemma CreateCampaignFieldsWellKeyed()
    ensures |CREATE_CAMPAIGN_FIELDS| == 17 && WellKeyed(CREATE_CAMPAIGN_FIELDS)
  {
  }

  /** The paging literal of `get_campaigns` is `page`, `limit`, `status`, and
      `get_subscribers` puts `list_id` in front of it; each key occurs once. */
  lemma PagingFieldsWellKeyed(listId: Value)
    ensures WireKeys(PAGING_FIELDS) == ["page", "limit", "status"] && WellKeyed(PAGING_FIELDS)
    ensures WireKeys(GetSubscribersFields(listId)) == ["list_id", "page", "limit", "status"]
    ensures WellKeyed(GetSubscribersFields(listId))
  {
  }

  lemma {:induction false} BuildKeys(fields: Fields, options: Dict)
    requires AllResolvable(fields, options)
    ensures Keys(Build(fields, options)) == WireKeys(fields)
  {
    var b := Build(fields, options);
    if fields != [] {
      assert b[1..] == Build(fields[1..], options);
      BuildKeys(fields[1..], options);
      assert WireKeys(fields) == [fields[0].0] + WireKeys(fields[1..]);
    }
  }

  lemma {:induction false} BuildDistinct(fields: Fields, options: Dict)
    requires AllResolvable(fields, options) && WellKeyed(fields)
    ensures Distinct(Build(fields, options))
    ensures API_KEY !in Keys(Build(fields, options))
  {
    var b := Build(fields, options);
    BuildKeys(fields, options);
    if fields != [] {
      assert b[1..] == Build(fields[1..], options);
      assert WellKeyed(fields[1..]);
      BuildDistinct(fields[1..], options);
      BuildKeys(fields[1..], options);
    }
  }

  /** The entry at position `i` of a payload is what its key looks up. */
  lemma BuildGet(fields: Fields, options: Dict, i: int)
    requires AllResolvable(fields, options) && WellKeyed(fields)
    requires 0 <= i < |fields|
    ensures Get(Build(fields, options), fields[i].0) == Some(Resolve(fields[i].1, options))
  {
    BuildDistinct(fields, options);
    GetAt(Build(fields, options), i);
  }

  /** For every wire key of a payload: the form holds it exactly when its
      resolved value is not None, and then holds that value's form value (its
      JSON text for a list or dict). */
  lemma PayloadFormGet(apiKey: Value, fields: Fields, options: Dict, i: int)
    requires AllResolvable(fields, options) && WellKeyed(fields)
    requires 0 <= i < |fields|
    ensures Get(FormData(apiKey, Build(fields, options)), fields[i].0) ==
              var v := Resolve(fields[i].1, options);
              if v == PyNone then None else Some(FormValue(v))
  {
    BuildDistinct(fields, options);
    BuildGet(fields, options, i);
    FormDataGet(apiKey, Build(fields, options), fields[i].0);
  }

  /** The form of a payload is `api_key` with the client key, then the payload
      entries that are not None, in the literal's order; nothing else. */
  lemma PayloadFormLayout(apiKey: Value, fields: Fields, options: Dict)
    requires AllResolvable(fields, options) && WellKeyed(fields)
    ensures FormData(apiKey, Build(fields, options)) == [(API_KEY, apiKey)] + Kept(Build(fields, options))
  {
    BuildDistinct(fields, options);
    FormDataLayout(apiKey, Build(fields, options));
  }

  /** An entry joined with `','.join` is in the form as the comma-join of a
      truthy option, and left out of it otherwise. */
  lemma JoinedForm(apiKey: Value, fields: Fields, options: Dict, i: int, o: string)
    requires AllResolvable(fields, options) && WellKeyed(fields)
    requires 0 <= i < |fields| && fields[i].1 == JoinedIds(o)
    ensures Truthy(GetOr(options, o, PyNone)) ==>
              && StrItems(GetOr(options, o, PyNone)).Some?
              && Get(FormData(apiKey, Build(fields, options)), fields[i].0) ==
                   Some(PyStr(Join(",", StrItems(GetOr(options, o, PyNone)).value)))
    ensures !Truthy(GetOr(options, o, PyNone)) ==>
              fields[i].0 !in Keys(FormData(apiKey, Build(fields, options)))
  {
    assert Resolvable(fields[i].1, options);
    PayloadFormGet(apiKey, fields, options, i);
  }

  /** An entry read with `.get` reaches the form as the caller's value, a list
      or dict as its JSON text; an absent or None value is left out. */
  lemma PassedThroughForm(apiKey: Value, fields: Fields, options: Dict, i: int, o: string)
    requires AllResolvable(fields, options) && WellKeyed(fields)
    requires 0 <= i < |fields| && fields[i].1 == Optional(o)
    ensures Get(FormData(apiKey, Build(fields, options)), fields[i].0) ==
              match Get(options, o)
              case None => None
              case Some(v) =>
                if v == PyNone then None
                else if v.PyList? || v.PyDict? then Some(PyStr(Json.Dumps(v)))
                else Some(v)
  {
    PayloadFormGet(apiKey, fields, options, i);
  }

  /** `send_email` sends `list_ids` as the comma-join of a truthy `listIds`,
      and leaves it out of the form otherwise. */
  lemma SendEmailListIds(apiKey: Value, options: Dict)
    requires AllResolvable(SEND_EMAIL_FIELDS, options)
    ensures Truthy(GetOr(options, "listIds", PyNone)) ==>
              && StrItems(GetOr(options, "listIds", PyNone)).Some?
              && Get(FormData(apiKey, Build(SEND_EMAIL_FIELDS, options)), "list_ids") ==
                   Some(PyStr(Join(",", StrItems(GetOr(options, "listIds", PyNone)).value)))
    ensures !Truthy(GetOr(options, "listIds", PyNone)) ==>
              "list_ids" !in Keys(FormData(apiKey, Build(SEND_EMAIL_FIELDS, options)))
  {
    SendEmailFieldsWellKeyed();
    assert SEND_EMAIL_FIELDS[8] == ("list_ids", JoinedIds("listIds"));
    JoinedForm(apiKey, SEND_EMAIL_FIELDS, options, 8, "listIds");
  }

  /** `create_campaign` passes `listIds` through, so a list reaches the form as
      its JSON text; an absent or None `listIds` is left out. */
  lemma CreateCampaignListIds(apiKey: Value, options: Dict)
    requires AllResolvable(CREATE_CAMPAIGN_FIELDS, options)
    ensures Get(FormData(apiKey, Build(CREATE_CAMPAIGN_FIELDS, options)), "list_ids") ==
              match Get(options, "listIds")
              case None => None
              case Some(v) =>
                if v == PyNone then None
                else if v.PyList? || v.PyDict? then Some(PyStr(Json.Dumps(v)))
                else Some(v)
  {
    CreateCampaignFieldsWellKeyed();
    assert CREATE_CAMPAIGN_FIELDS[7] == ("list_ids", Optional("listIds"));
    PassedThroughForm(apiKey, CREATE_CAMPAIGN_FIELDS, options, 7, "listIds");
  }

  /** The ids "1", "2", "3" as `send_email` sends them: `1,2,3`. */
  lemma ListIdsCommaExample()
    ensures StrItems(PyList([PyStr("1"), PyStr("2"), PyStr("3")])) == Some(["1", "2", "3"])
    ensures Join(",", ["1", "2", "3"]) == "1,2,3"
  {
    assert StrItems(PyList([PyStr("1"), PyStr("2"), PyStr("3")])).value == ["1", "2", "3"];
    JoinThree(",", "1", "2", "3");
  }

  /** The same ids as `create_campaign` sends them: the JSON array `["1", "2", "3"]`. */
  lemma ListIdsJsonExample()
    ensures Json.Dumps(PyList([PyStr("1"), PyStr("2"), PyStr("3")])) == "[\"1\", \"2\", \"3\"]"
  {
    var ids := [PyStr("1"), PyStr("2"), PyStr("3")];
    var parts := seq(|ids|, k requires 0 <= k < |ids| => Json.Dumps(ids[k]));
    assert parts[0] == "\"1\"" by { Json.EscapePlain("1"); }
    assert parts[1] == "\"2\"" by { Json.EscapePlain("2"); }
    assert parts[2] == "\"3\"" by { Json.EscapePlain("3"); }
    assert parts == ["\"1\"", "\"2\"", "\"3\""];
    JoinThree(", ", "\"1\"", "\"2\"", "\"3\"");
  }

  /** `get_lists` sends `include_hidden` as "yes" exactly when its argument is
      truthy and as "no" otherwise, and nothing but the key besides. */
  lemma GetListsForm(apiKey: Value, includeHidden: Option<Value>)
    ensures FormData(apiKey, Build(GetListsFields(IncludeHidden(includeHidden)), []))
              == [(API_KEY, apiKey),
                  ("include_hidden", PyStr(if includeHidden.Some? && Truthy(includeHidden.value) then "yes" else "no"))]
  {
    var fields := GetListsFields(IncludeHidden(includeHidden));
    var b := Build(fields, []);
    assert b == [("include_hidden", PyStr(if Truthy(IncludeHidden(includeHidden)) then "yes" else "no"))];
    PayloadFormLayout(apiKey, fields, []);
    assert Kept(b[1..]) == [];
  }

  /** `page` and `limit` default to 1 and 10 when the caller leaves them out;
      a caller's explicit None leaves them out of the form instead. */
  lemma PagingDefaults(apiKey: Value, fields: Fields, options: Dict, i: int, o: string, d: Value)
    requires AllResolvable(fields, options) && WellKeyed(fields)
    requires 0 <= i < |fields| && fields[i].1 == Defaulted(o, d) && d != PyNone
    ensures Get(FormData(apiKey, Build(fields, options)), fields[i].0) ==
              match Get(options, o)
              case None => Some(FormValue(d))
              case Some(v) => (if v == PyNone then None else Some(FormValue(v)))
  {
    PayloadFormGet(apiKey, fields, options, i);
  }

  /** An option read with `.get` is in the form exactly when the caller gave it
      a value other than None; absent optional fields never reach the wire. */
  lemma OptionalOmitted(apiKey: Value, fields: Fields, options: Dict, i: int)
    requires AllResolvable(fields, options) && WellKeyed(fields)
    requires 0 <= i < |fields| && fields[i].1.Optional?
    ensures fields[i].0 in Keys(FormData(apiKey, Build(fields, options))) <==>
              GetOr(options, fields[i].1.option, PyNone) != PyNone
  {
    PayloadFormGet(apiKey, fields, options, i);
  }

  /** `get_campaigns` sends `page` and `limit` with their defaults 1 and 10, and
      `status` only when the caller gave one that is not None. */
  lemma GetCampaignsForm(apiKey: Value, options: Option<Dict>)
    ensures Get(FormData(apiKey, Build(PAGING_FIELDS, OrEmpty(options))), "page")
              == match Get(OrEmpty(options), "page")
                 case None => Some(PyInt(1))
                 case Some(v) => (if v == PyNone then None else Some(FormValue(v)))
    ensures Get(FormData(apiKey, Build(PAGING_FIELDS, OrEmpty(options))), "limit")
              == match Get(OrEmpty(options), "limit")
                 case None => Some(PyInt(10))
                 case Some(v) => (if v == PyNone then None else Some(FormValue(v)))
    ensures ("status" in Keys(FormData(apiKey, Build(PAGING_FIELDS, OrEmpty(options)))))
              == (GetOr(OrEmpty(options), "status", PyNone) != PyNone)
  {
    var opts := OrEmpty(options);
    PagingFieldsWellKeyed(PyNone);
    PagingDefaults(apiKey, PAGING_FIELDS, opts, 0, "page", PyInt(1));
    PagingDefaults(apiKey, PAGING_FIELDS, opts, 1, "limit", PyInt(10));
    OptionalOmitted(apiKey, PAGING_FIELDS, opts, 2);
  }

  /** `get_subscribers` adds `list_id`, whatever the caller passed, to the
      paging entries of `get_campaigns`. */
  lemma GetSubscribersForm(apiKey: Value, listId: Value, options: Option<Dict>)
    ensures Get(FormData(apiKey, Build(GetSubscribersFields(listId), OrEmpty(options))), "list_id")
              == (if listId == PyNone then None else Some(FormValue(listId)))
    ensures Get(FormData(apiKey, Build(GetSubscribersFields(listId), OrEmpty(options))), "page")
              == match Get(OrEmpty(options), "page")
                 case None => Some(PyInt(1))
                 case Some(v) => (if v == PyNone then None else Some(FormValue(v)))
    ensures Get(FormData(apiKey, Build(GetSubscribersFields(listId), OrEmpty(options))), "limit")
              == match Get(OrEmpty(options), "limit")
                 case None => Some(PyInt(10))
                 case Some(v) => (if v == PyNone then None else Some(FormValue(v)))
    ensures ("status" in Keys(FormData(apiKey, Build(GetSubscribersFields(listId), OrEmpty(options)))))
              == (GetOr(OrEmpty(options), "status", PyNone) != PyNone)
  {
    var fields := GetSubscribersFields(listId);
    var opts := OrEmpty(options);
    PagingFieldsWellKeyed(listId);
    PayloadFormGet(apiKey, fields, opts, 0);
    PagingDefaults(apiKey, fields, opts, 1, "page", PyInt(1));
    PagingDefaults(apiKey, fields, opts, 2, "limit", PyInt(10));
    OptionalOmitted(apiKey, fields, opts, 3);
  }

  /** In `add_subscriber` the caller's entries win: `list_id` is the argument
      only when the caller's data has no `list_id` of its own, and every key of
      the caller's data keeps its value. */
  lemma AddSubscriberOverrides(listId: Value, subscriberData: Dict, k: string)
    requires Distinct(subscriberData)
    ensures Get(AddSubscriberPayload(listId, subscriberData), k) ==
              if k in Keys(subscriberData) then Get(subscriberData, k)
              else if k == "list_id" then Some(listId)
              else None
  {
    UpdateGet([("list_id", listId)], subscriberData, k);
  }
}
