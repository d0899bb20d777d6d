# skrybe-sdk-py client core in Dafny

This project models the part of the Skrybe Python client (`SkrybeSDK` in
`skrybe_sdk/sdk.py`) that runs before anything reaches the network:

- the constructor;
- the two option validators (`_validate_email_options`, `_validate_campaign_options`);
- the payload dicts built by `send_email`, `create_campaign`, `get_lists`,
  `get_campaigns`, `get_subscribers` and `add_subscriber`;
- the form encoder `_create_form_data`, with the `json.dumps` it calls for
  list and dict values;
- the request throttle `_handle_rate_limit` and its `last_request_time` field.

Files and modules:

- `values.dfy` (`PyValue`): Python values and insertion-ordered dicts, with
  `d[k] = v` (`Set`) and `d.update(e)` (`Update`).
- `json.dfy` (`Json`): `json.dumps` with its default settings (`", "` and
  `": "` separators, `ensure_ascii` escapes). It also has a reader for JSON
  string bodies, used to show that the escaping is lossless.
- `form.dfy` (`FormEncoding`): the form that `_create_form_data` builds, as
  a function.
- `validation.dfy` (`Validators`): what each validator decides, as a
  `Verdict`.
- `payloads.dfy` (`Payloads`): each payload dict literal, written as a table
  of wire keys and the place each value comes from, plus the properties of
  the forms these tables produce.
- `client.dfy` (`Client`): the `SkrybeSdk` class. Its fields are the key,
  the base URL and the time of the last request. Its methods keep the
  source's loops and its update of `last_request_time`. Each method is proved
  equal to the specification functions of the other modules.

Time is an integer number of milliseconds. Each request method takes two
clock readings: `now` is the clock before the throttle's sleep and
`resumed` is the clock after it. A request method returns the `Request`
it would post, made of the length of the throttle's sleep, the full URL and the form.

Three behaviours of the code that a reader might not expect, all kept as
written:

- The constructor accepts any key, including an empty one (`sdk.py:10-13`).
- A `fromEmail` that is present but has no `@`, even the empty string,
  raises "Invalid email format" before the required-field list is reported
  (`sdk.py:56-57`). `Validators.EmailFromEmailFirst` states this.
- Values other than lists and dicts are stored in the form unchanged
  (`sdk.py:26-27`, `FormEncoding.FormValue`).

## Model

| member | source | states |
|---|---|---|
| PyValue.Truthy | skrybe_sdk/sdk.py:54 | `not options.get(field)`: the falsy values are exactly None, False, 0, "", [] and {}. |
| PyValue.StrItems | skrybe_sdk/sdk.py:59 | What iterating a value yields, when that is only strings: the characters of a str (one string each), the items of a list of str, the keys of a dict. It is defined exactly for those three shapes. It is used for `for email in options['to']` and for `','.join` at line 87. |
| PyValue.GetOr | skrybe_sdk/sdk.py:54 | `d.get(k, default)`: the value of a present key, the default for an absent one. |
| PyValue.Join | skrybe_sdk/sdk.py:87 | `sep.join(parts)`: it starts with the first part, and its length is the parts' total length plus one separator between each two parts. |
| PyValue.Update | skrybe_sdk/sdk.py:141 | `d.update(e)` assigns the entries of `e` one by one, in order. Every key of `d` stays, and distinct keys stay distinct. |
| PyValue.UpdateKeysFrom | skrybe_sdk/sdk.py:141 | After `d.update(e)`, every key of `e` is present. |
| PyValue.Set | skrybe_sdk/sdk.py:25-27 | After `d[k] = v`, `k` maps to `v` and every other key is unchanged. An existing key keeps its place and a new key goes last. Keys stay distinct. |
| PyValue.UpdateGet | skrybe_sdk/sdk.py:140-141 | After `d.update(e)`, each key of `e` has its value from `e`, and every other key keeps its value from `d`. |
| PyValue.UpdateFresh | skrybe_sdk/sdk.py:20-28 | When no key of `e` is already in `d`, `d.update(e)` is `d` followed by the entries of `e` in order. |
| Json.Dumps | skrybe_sdk/sdk.py:25 | `json.dumps` with default settings: `null`, `true`/`false`, decimal ints, quoted escaped strings, `[a, b]` and `{"k": v}` with ", " and ": " separators. With `ensure_ascii`, every character it produces is ASCII. |
| Json.EscapePlain | skrybe_sdk/sdk.py:25 | Printable ASCII other than `"` and `\` is written unescaped. |
| Json.Hex4RoundTrip | skrybe_sdk/sdk.py:25 | Reading back the four lower-case hex digits of a `\uXXXX` escape gives the code unit. |
| Json.EscapeCharRoundTrip | skrybe_sdk/sdk.py:25 | Reading back any one escaped character gives the character, including surrogate pairs above U+FFFF, and continues right after the escape. |
| Json.QuoteRoundTrip | skrybe_sdk/sdk.py:25 | Reading back a JSON string literal gives exactly the original string and leaves whatever followed the closing quote. |
| Json.EscapeRoundTrip | skrybe_sdk/sdk.py:25 | Reading back the escaped body of a string up to its closing quote gives the string. |
| FormEncoding.FormValue | skrybe_sdk/sdk.py:23-27 | A form value is never a list or dict. It is None only for None. A list or dict becomes its `json.dumps` text, which is ASCII. Every other value is unchanged. |
| FormEncoding.Kept | skrybe_sdk/sdk.py:22-27 | The entries the loop assigns, in payload order. There are no more of them than payload entries, and none of their values is None, a list or a dict. |
| FormEncoding.FormData | skrybe_sdk/sdk.py:20-28 | The form starts as `{"api_key": key}` and takes the kept entries one by one. It always has an `api_key` entry, and each key occurs once. |
| FormEncoding.KeptGet | skrybe_sdk/sdk.py:22-27 | A payload key is among the encoded entries exactly when its value is not None, and then with its form value. |
| FormEncoding.FormDataGet | skrybe_sdk/sdk.py:20-28 | For each key, the form maps `api_key` to the client key unless the payload gives `api_key` a non-None value. It holds every other payload key whose value is not None, with its form value, and no other key. |
| FormEncoding.FormDataLayout | skrybe_sdk/sdk.py:20-28 | When the payload has no `api_key`, the form is the `api_key` entry followed by the non-None payload entries in their original order. |
| Validators.Missing | skrybe_sdk/sdk.py:51-55 | The missing fields are exactly the required fields that `options.get` finds falsy, and there are no more of them than there are required fields. |
| Validators.MissingInOrder | skrybe_sdk/sdk.py:53-55 | Missing fields appear in the order of the required list. |
| Validators.RequiredMessageInjective | skrybe_sdk/sdk.py:55 | Different fields give different "Field 'X' is required" messages. |
| Validators.RequiredReportExact | skrybe_sdk/sdk.py:51-55 | The gathered list contains a field's message exactly when that required field is missing, with one message per missing field. It is empty exactly when no required field is missing. |
| Validators.Addresses | skrybe_sdk/sdk.py:58-59 | The strings `for email in options['to']` visits, in order: the items of a list, the characters of a str, the keys of a dict. There are none when `to` is absent. |
| Validators.FirstLackingAt | skrybe_sdk/sdk.py:58-61 | This is the position of the first address without `@`: the address there lacks it and every earlier one has it. There is no position exactly when every address has `@`. |
| Validators.EmailVerdict | skrybe_sdk/sdk.py:50-63 | The email validator's decision, checks in the source's order. A field error is `fromEmail` with "Invalid email format", or `to` with "Invalid email format: " followed by the address. A required-field error is never an empty list. |
| Validators.HasAt | skrybe_sdk/sdk.py:56 | `'@' in v` for the `fromEmail` value, at lines 56 and 71: a substring test on a str, an item test on a list, a key test on a dict. A value that has `@` is truthy, so "", [] and {} never pass the test. |
| Validators.EmailFromEmailFirst | skrybe_sdk/sdk.py:56-57 | A present `fromEmail` without `@`, even an empty one, yields exactly `FieldError("fromEmail", "Invalid email format")`, whatever else is missing. |
| Validators.EmailFirstBadAddress | skrybe_sdk/sdk.py:58-61 | When the `fromEmail` check passes, the first address of `to` without `@` is the one reported, ahead of missing fields. |
| Validators.MalformedFromEmailExample | skrybe_sdk/sdk.py:56-59 | With a malformed `fromEmail`, `to` is never iterated: `{"fromEmail": "nope", "to": 5}` yields the `fromEmail` error and no `TypeError`. |
| Validators.StrToExample | skrybe_sdk/sdk.py:58-61 | A str `to` is iterated by character: for `to="bob@x.com"` the error is "Invalid email format: b". |
| Validators.EmailRequiredReport | skrybe_sdk/sdk.py:62-63 | When no format check fires, the verdict is the required-field list if any field is missing, and a pass otherwise. |
| Validators.EmailPassedIff | skrybe_sdk/sdk.py:50-63 | Email validation passes exactly when every required field is truthy, `fromEmail` has `@` and every address of `to` has `@`. |
| Validators.CampaignVerdict | skrybe_sdk/sdk.py:65-74 | The only field error the campaign validator raises is about `fromEmail`. A required-field error is never an empty list. |
| Validators.CampaignFromEmailFirst | skrybe_sdk/sdk.py:71-72 | A present `fromEmail` without `@` yields exactly `FieldError("fromEmail", "Invalid email format")` from the campaign validator, ahead of any required-field list. |
| Validators.CampaignRequiredReport | skrybe_sdk/sdk.py:66-70 | With `fromEmail` well-formed or absent, the campaign verdict is the list of messages of the missing required fields, in required order, or a pass when none is missing. |
| Validators.CampaignIgnoresTo | skrybe_sdk/sdk.py:65-74 | Adding any `to` entry does not change the campaign verdict. |
| Validators.CampaignPassedIff | skrybe_sdk/sdk.py:65-74 | Campaign validation passes exactly when every required field is truthy and `fromEmail` has `@`. |
| Payloads.Resolve | skrybe_sdk/sdk.py:79-87 | The value of one literal entry. `options['x']` is the present value. `options.get('x')` is None exactly when `x` is absent or None. The `','.join(...) if options.get(...) else None` of line 87 is None exactly when the option is falsy. `options.get('x', d)` (lines 125-126) is `d` when `x` is absent. |
| Payloads.Build | skrybe_sdk/sdk.py:78-93 | Evaluating a dict literal: one entry per table row, in the literal's order, each wire key with its resolved value. |
| Payloads.SendEmailFieldsWellKeyed | skrybe_sdk/sdk.py:78-93 | The `send_email` literal (`SEND_EMAIL_FIELDS`) has 14 entries with distinct wire keys, none of them `api_key`. |
| Payloads.CreateCampaignFieldsWellKeyed | skrybe_sdk/sdk.py:97-115 | The `create_campaign` literal (`CREATE_CAMPAIGN_FIELDS`) has 17 entries with distinct wire keys, none of them `api_key`. |
| Payloads.PagingFieldsWellKeyed | skrybe_sdk/sdk.py:124-137 | The `get_campaigns` literal (`PAGING_FIELDS`) has the keys `page`, `limit`, `status`. `GetSubscribersFields` puts `list_id` in front of them. Each key occurs once. |
| Payloads.AddSubscriberPayload | skrybe_sdk/sdk.py:140-141 | The `add_subscriber` payload always has `list_id` and every key of the caller's data, each key once. |
| Payloads.BuildGet | skrybe_sdk/sdk.py:78-93 | In a payload literal with distinct keys, each wire key looks up the value its source resolves to. |
| Payloads.PayloadFormGet | skrybe_sdk/sdk.py:78-93 | A payload entry is in the form exactly when its resolved value is not None, and then with that value's form value. |
| Payloads.PayloadFormLayout | skrybe_sdk/sdk.py:97-115 | A payload's form is the `api_key` entry, then the payload entries that are not None, in the literal's order. |
| Payloads.JoinedForm | skrybe_sdk/sdk.py:87 | An entry built with `','.join` is sent as the comma-join when its option is truthy, and is absent from the form otherwise. |
| Payloads.PassedThroughForm | skrybe_sdk/sdk.py:105 | An entry read with `.get` is sent as the caller's value, with a list or dict sent as its JSON text. An absent or None option is left out. |
| Payloads.SendEmailListIds | skrybe_sdk/sdk.py:87 | `send_email` sends `list_ids` as the comma-join of a truthy `listIds`, and omits the key otherwise. |
| Payloads.CreateCampaignListIds | skrybe_sdk/sdk.py:105 | `create_campaign` sends a list `listIds` as its JSON text, sends any other non-None value as it is, and omits an absent or None one. |
| Payloads.ListIdsCommaExample | skrybe_sdk/sdk.py:87 | The ids "1", "2" and "3" go out as `1,2,3` from `send_email`. |
| Payloads.ListIdsJsonExample | skrybe_sdk/sdk.py:105 | The same ids go out as the JSON text `["1", "2", "3"]` from `create_campaign`. |
| Payloads.GetListsForm | skrybe_sdk/sdk.py:117-120 | The `get_lists` form is exactly the key followed by `include_hidden` (`GetListsFields`). That value is "yes" when an argument is given and truthy, and "no" otherwise, including when the argument is left out. |
| Payloads.PagingDefaults | skrybe_sdk/sdk.py:125-126 | A defaulted option gives its default when absent. A caller's explicit None leaves it out of the form. |
| Payloads.OptionalOmitted | skrybe_sdk/sdk.py:127 | An optional entry is in the form exactly when the caller gave it a value other than None. |
| Payloads.GetCampaignsForm | skrybe_sdk/sdk.py:122-128 | `page` defaults to 1 and `limit` to 10. `status` is sent only when given and not None. |
| Payloads.GetSubscribersForm | skrybe_sdk/sdk.py:130-137 | `list_id` is the argument. `page`, `limit` and `status` follow the same rules as in `get_campaigns`. |
| Payloads.AddSubscriberOverrides | skrybe_sdk/sdk.py:139-141 | The caller's keys win: `list_id` is the argument only when the caller's data has no `list_id`, and every key of the caller's data keeps its value. |
| Client.ThrottleDelay | skrybe_sdk/sdk.py:30-34 | The throttle sleeps nothing when at least 100 ms have passed. Otherwise it sleeps exactly long enough to reach 100 ms after the last request. |
| Client.ThrottleSpacing | skrybe_sdk/sdk.py:30-35 | If the clock after the sleep reads at least `now` plus the delay, the new request is at least 100 ms after the last one. |
| Client.RecordedSpacing | skrybe_sdk/sdk.py:30-35 | In a run of requests where each sleep lasts exactly its delay, any two consecutive recorded times are at least 100 ms apart. |
| Client.SkrybeSdk.constructor | skrybe_sdk/sdk.py:10-13 | Stores the key. The base URL is the argument, or the default when the argument is falsy. The last request time starts at 0. |
| Client.SkrybeSdk.CreateFormData | skrybe_sdk/sdk.py:20-28 | The loop that fills the form builds exactly `FormEncoding.FormData`. |
| Client.SkrybeSdk.HandleRateLimit | skrybe_sdk/sdk.py:30-35 | Sleeps `ThrottleDelay` and records the clock after the sleep. With an exact sleep, the recorded time is at least 100 ms after the previous one. |
| Client.SkrybeSdk.MakeRequest | skrybe_sdk/sdk.py:37-41 | Sleeps exactly `ThrottleDelay` of the previous request time and `now`, records `resumed`, then posts to the base URL plus the endpoint, with the encoded form. With an exact sleep, the new request time is at least 100 ms after the previous one. |
| Client.SkrybeSdk.ValidateEmailOptions | skrybe_sdk/sdk.py:50-63 | The validator's loops decide exactly `EmailVerdict`. |
| Client.SkrybeSdk.ValidateCampaignOptions | skrybe_sdk/sdk.py:65-74 | The validator decides exactly `CampaignVerdict`. |
| Client.SkrybeSdk.GatherRequired | skrybe_sdk/sdk.py:51-55 | The loop collects exactly the messages of the missing required fields, in order. |
| Client.SkrybeSdk.SendEmail | skrybe_sdk/sdk.py:76-93 | A failed validation is raised and no request is made, so the throttle state is unchanged; `listIds` is not looked at then. Otherwise every lookup succeeds and the `send_email` payload is posted to `/api/emails/send.php`. The posted request carries the throttle's sleep, `ThrottleDelay` of the previous request time and `now`, and the new request time is `resumed`. |
| Client.SkrybeSdk.CreateCampaign | skrybe_sdk/sdk.py:95-115 | A failed validation is raised with no request. Otherwise the `create_campaign` payload is posted to `/api/campaigns/create.php`. The posted request carries the throttle's sleep, `ThrottleDelay` of the previous request time and `now`, and the new request time is `resumed`. |
| Client.SkrybeSdk.GetLists | skrybe_sdk/sdk.py:117-120 | Posts the `get_lists` payload to `/api/lists/get-lists.php`, with `include_hidden=False` when the argument is left out. The posted request carries the throttle's sleep, `ThrottleDelay` of the previous request time and `now`, and the new request time is `resumed`. |
| Client.SkrybeSdk.GetCampaigns | skrybe_sdk/sdk.py:122-128 | Posts the paging payload, built from `options or {}`, to `/api/campaigns/get-campaigns.php`. The posted request carries the throttle's sleep, `ThrottleDelay` of the previous request time and `now`, and the new request time is `resumed`. |
| Client.SkrybeSdk.GetSubscribers | skrybe_sdk/sdk.py:130-137 | Posts `list_id` and the paging payload to `/api/subscribers/get-subscribers.php`. The posted request carries the throttle's sleep, `ThrottleDelay` of the previous request time and `now`, and the new request time is `resumed`. |
| Client.SkrybeSdk.AddSubscriber | skrybe_sdk/sdk.py:139-142 | The in-place update loop builds `{'list_id': list_id}` updated with the caller's data, and that payload is posted to `/api/subscribers/add.php`. The posted request carries the throttle's sleep, `ThrottleDelay` of the previous request time and `now`, and the new request time is `resumed`. |
| Client.SendEmailResolvable | skrybe_sdk/sdk.py:79-87 | Once the required fields are present, every subscript in the `send_email` literal succeeds. |
| Client.CreateCampaignResolvable | skrybe_sdk/sdk.py:98-103 | Once the required fields are present, every subscript in the `create_campaign` literal succeeds. |

## Left out

- The HTTP exchange is not modelled: the requests session, its headers, `post`, `raise_for_status`, parsing the response as JSON with a fallback to text, and wrapping transport errors in `SkrybeException` (`sdk.py:14-18`, `sdk.py:40-48`). These are network I/O and foreign library calls. The request methods return the `Request` (sleep, URL and form) they would post.
- `time.time()` and `time.sleep` in float seconds become integer milliseconds. The two clock readings are method parameters and the sleep is not performed. The 100 ms spacing is proved for an exact sleep, or for any clock that reads at least `now` plus the delay after it.
- Inputs for which the validators raise `TypeError` are excluded (`EmailShape`, `FromEmailTestable`). A `fromEmail` that is None, a bool or an int cannot be tested with `'@' in`. A `to` that is None, a bool or an int cannot be iterated; this is excluded only when the `fromEmail` check passes, since `to` is not looked at otherwise (`Validators.MalformedFromEmailExample`). A str, list or dict `fromEmail` is modelled, as a substring test, an item test and a key test. A str or dict `to` is modelled by the characters or keys it yields.
- Validators.EmailShape: when the `fromEmail` check passes, a `to` list with an item that is not a str is excluded. For None, bool or int items `'@' in email` raises `TypeError`. For list or dict items the message would hold Python's `repr` of the item, which is not modelled.
- Client.SkrybeSdk.SendEmail: when validation passes, a truthy `listIds` must be a str, a list of str or a dict. For other values, `','.join` at line 87 raises a `TypeError`, which is not modelled. When validation fails, `listIds` is unconstrained.
- `skrybe_sdk/exceptions.py` is an empty class hierarchy. Here it is the `Verdict` datatype (`ValidationException`) and the `Outcome` datatype.
- The API key is kept as an arbitrary Python value, since the client never inspects it.
- The `base_url` argument is an optional string. Its only falsy values are None and "".
- Dict keys are strings, and list and dict values in `json.dumps` hold only None, bools, ints, strings, lists and dicts. Floats and other key types are not modelled.
- Concurrency is not modelled: the client has no locking, and the model is single-threaded.
- `setup.py` and `test_skrybe_sdk.py` are not part of this model. The one test assertion, that the key is stored, is the constructor's first `ensures`.
