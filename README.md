# comm_client, modelled in Dafny

This is a model of the synchronous core of `comm_client`, a thin Python HTTP
client for a messaging and search API (accounts, users, chats, hosted
account-linking and LinkedIn search). The model covers three parts:

- **Client configuration and the client stack** (`client.py`, module
  `Clients`, file `clients.dfy`).
  - `ClientOptions` and how it is normalised from `None`, a dict or an instance.
  - The `client` setter, which configures an `httpx.Client` (base URL, timeout,
    headers) and pushes it onto `_clients`.
  - `__enter__` and `__exit__`, which push and pop a client.
  - `_parse_response`, which classifies a response as a body, an API error or
    an HTTP error.
  - `request`, which maps a timeout to `RequestTimeoutError` and lets every
    other transport exception through.

  `BaseClient`/`Client` is a class with a `seq` field `clients`, and its
  methods change it in place. The transport (`send`) and the error-code table
  (`knownCode`) are parameters.
- **Endpoint facades** (`api_endpoints.py`, module `Endpoints`, file
  `endpoints.dfy`). Each endpoint method is a function that returns the
  `Call` (verb, path, query, body) it hands to `request`. The model covers:
  - the search default-page-size rule;
  - the hosted-link payload and its `expiresOn` timestamp.
- **Request and response shapes** (`models.py`, module `Models`, file
  `models.dfy`). Each is a datatype with a `Valid()` predicate. A `Make…`
  function plays the pydantic constructor: it returns either a valid value or
  a `ValidationError` naming every failing field. The classic search payload
  also has a dump (`model_dump(exclude_none=True)`) and a load, and a lemma
  proves that a load after a dump gives the payload back.

The supporting modules are:

- `Wrappers`: `Option` and `Result`.
- `Json`: JSON values, Python truthiness and `exclude_none`.
- `Text`: `str(n)`, zero padding, `[:n]`, and reading digits back.
- `Paths`: the segments of a URL path, as `str.split("/")` cuts them, with the
  lemmas that split a composed path back into its parts. The client never
  splits a path itself: segments are how the model states where each part of
  a URL ends up.

Error classification consults only the code of a failure body, never the
status: `is_api_error_code` receives the code alone (`client.py:123`). Two
failure responses with the same body therefore raise the same error, apart
from the status it carries (`Clients.ClassificationIgnoresStatus`).

## Model

| member | source | states |
|---|---|---|
| Clients.FromKeywords | application/integrations/comm_client/client.py:50-55 | `ClientOptions(**k)` succeeds exactly when no unexpected keyword is given (otherwise it raises `TypeError` for the first one); each given field replaces its default and every other field keeps it |
| Clients.DefaultOptions | application/integrations/comm_client/client.py:50-55 | with no keywords: auth absent, base URL `https://api2.unipile.com:13260`, timeout 60000 ms, log level WARNING (30), version `v1` |
| Clients.Normalise | application/integrations/comm_client/client.py:64-67 | `None` builds the options from the keyword arguments, a dict builds them from its entries, and an instance is used unchanged |
| Clients.NormaliseProperties | application/integrations/comm_client/client.py:64-67 | keyword arguments matter only when `options` is `None`; normalising already-normalised options again gives the same options |
| Clients.InstalledHeaders | application/integrations/comm_client/client.py:91-97 | the header set is exactly `User-Agent: salesloop/comm_client`, plus `X-API-KEY: auth` if and only if auth is a non-empty string |
| Clients.BaseUrl | application/integrations/comm_client/client.py:89 | the base URL installed on a client starts with the configured base URL and ends in `/`, so a path is appended without a slash added |
| Clients.RequestUrlSegments | application/integrations/comm_client/client.py:89 | a request URL is `{base_url}/api/{version}/` followed by the path: its segments are the base URL's, then `api` and the version, then the path's own segments, with no slash added or removed |
| Clients.Client.constructor | application/integrations/comm_client/client.py:146-154 | construction installs exactly one client, the one given or a fresh one, configured for the options |
| Clients.Client.Create | application/integrations/comm_client/client.py:64-72 | `Client(options, client, **kwargs)` fails exactly when normalisation fails; otherwise it yields a client whose stack holds one configured client and whose options are the normalised ones |
| Clients.Client.Current | application/integrations/comm_client/client.py:83-85 | the current client is the last element of the stack, and there is none when the stack is empty |
| Clients.Client.Install | application/integrations/comm_client/client.py:87-98 | the setter gives the client base URL `BaseUrl(options)`, the options' timeout and `InstalledHeaders(auth)`, and pushes exactly that client; every client on the stack stays configured |
| Clients.IsSuccess | application/integrations/comm_client/client.py:116 | `raise_for_status` lets through exactly the statuses 200 to 299 |
| Clients.ErrorCode | application/integrations/comm_client/client.py:120 | `body.get("code")` is the `code` field, or `null` when the body has none |
| Clients.Client.Enter | application/integrations/comm_client/client.py:156-159 | `__enter__` pushes one fresh, configured, opened client on top of the unchanged stack and returns the client itself |
| Clients.Client.Exit | application/integrations/comm_client/client.py:161-168 | `__exit__` closes the current client and pops exactly it; on an empty stack it fails (`IndexError`) and changes nothing |
| Clients.Client.EnterExit | application/integrations/comm_client/client.py:156-168 | a balanced enter/exit restores the previous stack, and with it the previous current client |
| Clients.ParseResponse | application/integrations/comm_client/client.py:114-128 | a 2xx response returns its decoded body unchanged, and nothing else succeeds. `APIResponseError(code, message)` is raised exactly for a failure status whose object body has a truthy, recognised `code` and a `message`. `HTTPResponseError` is raised exactly for a failure status whose body is undecodable or whose code is missing, falsy or unrecognised. The remaining cases raise the Python errors: `JSONDecodeError` for a 2xx body that is not JSON, `AttributeError` for a failure body that is JSON but not an object, and `KeyError("message")` for a recognised code without a message |
| Clients.ClassificationIgnoresStatus | application/integrations/comm_client/client.py:117-125 | two failure responses with the same body raise the same error, apart from the status it carries |
| Clients.Client.Request | application/integrations/comm_client/client.py:174-187 | the request sent is `{verb, BaseUrl(options) + path, query, body, installed headers}`; a timeout gives `RequestTimeoutError` without any parsing, and any other transport failure escapes as it is (`TransportError`); otherwise the result is `ParseResponse` of the response; with no client the result is `IndexError` and nothing is sent |
| Endpoints.Connect | application/integrations/comm_client/api_endpoints.py:61-67 | POST `accounts`, no query, and the body holds exactly the payload fields that are not `None`, each with the payload's own value |
| Endpoints.Me | application/integrations/comm_client/api_endpoints.py:78-84 | GET `users/me` with query exactly `{account_id}` and no body |
| Endpoints.Retrieve | application/integrations/comm_client/api_endpoints.py:98-104 | GET with query exactly `{account_id}`; the path always ends in `/` |
| Endpoints.RetrievePathSegments | application/integrations/comm_client/api_endpoints.py:100 | the profile path splits into `users`, the identifier and an empty last segment: the trailing slash is kept |
| Endpoints.RetrieveUrlSegments | application/integrations/comm_client/api_endpoints.py:100 | the full profile URL ends in the segments `api`, the version, `users`, the identifier and an empty segment |
| Endpoints.Invite | application/integrations/comm_client/api_endpoints.py:118-124 | POST `users/invite`, and the body holds exactly the payload fields that are not `None`, each with the payload's own value |
| Endpoints.Relations | application/integrations/comm_client/api_endpoints.py:140-151 | GET `users/relations` with query keys exactly `account_id`, `filter`, `cursor`, `limit`; `filter` is sent as `null` when absent |
| Endpoints.ChatAttendees | application/integrations/comm_client/api_endpoints.py:170-180 | GET `chat_attendees` with query keys exactly `account_id`, `cursor`, `limit` |
| Endpoints.ChatsByAttendee | application/integrations/comm_client/api_endpoints.py:195-205 | GET with query keys exactly `account_id`, `cursor`, `limit` |
| Endpoints.ChatsByAttendeePath | application/integrations/comm_client/api_endpoints.py:197 | the path splits into `chat_attendees`, the attendee id, `chats` |
| Endpoints.MessagesPathSegments | application/integrations/comm_client/api_endpoints.py:221 | the chat messages path splits into `chats`, the chat id, `messages` |
| Endpoints.Messages | application/integrations/comm_client/api_endpoints.py:220-229 | GET the chat messages path with query keys exactly `sender_id`, `cursor`, `limit`; `sender_id` is sent as `null` when absent |
| Endpoints.SendMessage | application/integrations/comm_client/api_endpoints.py:246-253 | POST the chat messages path with body keys exactly `account_id` and `text`, and `text` possibly `null` |
| Endpoints.SendMessageSharesPath | application/integrations/comm_client/api_endpoints.py:221-252 | listing and sending use the same path with different verbs; the send body has no `null` if and only if a text is given |
| Endpoints.SendMessageToAttendees | application/integrations/comm_client/api_endpoints.py:269-277 | POST `chats` with body keys exactly `account_id`, `attendees_ids`, `text`; `account_id` is the account given, `text` is the text or `null`, and the attendee list reads back as the ids given |
| Endpoints.Accounts | application/integrations/comm_client/api_endpoints.py:284-294 | GET `accounts` with query keys exactly `cursor` and `limit` |
| Endpoints.DeleteAccount | application/integrations/comm_client/api_endpoints.py:296-303 | DELETE with neither query nor body |
| Endpoints.DeleteAccountPath | application/integrations/comm_client/api_endpoints.py:301 | the path splits into `accounts` and the account id |
| Endpoints.ListingsForwardPaging | application/integrations/comm_client/api_endpoints.py:131-294 | all five listing endpoints (relations at 131-149, chat attendees at 161-179, chats by attendee at 188-204, messages at 213-228, accounts at 284-294) forward `cursor` and `limit` as given, and `limit` is 100 when left out |
| Endpoints.Fraction | application/integrations/comm_client/api_endpoints.py:324 | `str(microsecond)[:3]` is `str` of the leading three digits of the microsecond: one to three digits |
| Endpoints.ExpiresOn | application/integrations/comm_client/api_endpoints.py:324 | the stamp is `%Y-%m-%dT%H:%M:%S`, a dot, the first three digits of the unpadded microsecond and `Z`; its layout and read-back are stated by `ExpiresOnParts` and `ExpiresOnReadsBack` |
| Endpoints.DatePartReadsBack | application/integrations/comm_client/api_endpoints.py:324 | `%Y-%m-%d` is ten characters, with dashes at 4 and 7, and its digit groups read back as year, month and day |
| Endpoints.TimePartReadsBack | application/integrations/comm_client/api_endpoints.py:324 | `%H:%M:%S` is eight characters, with colons at 2 and 5, and its digit groups read back as hour, minute and second |
| Endpoints.ExpiresOnParts | application/integrations/comm_client/api_endpoints.py:324 | the stamp is the date, `T`, the time, `.`, the fraction and `Z`, each at a fixed offset |
| Endpoints.ExpiresOnReadsBack | application/integrations/comm_client/api_endpoints.py:324 | `expiresOn` is 22 to 24 characters, with separators at fixed offsets; every date and time field reads back as the date-time's own, and the fraction is the unpadded microsecond's leading three digits |
| Endpoints.FractionOfSixDigits | application/integrations/comm_client/api_endpoints.py:324 | for a six-digit microsecond the fraction is the milliseconds |
| Endpoints.FractionUnpadded | application/integrations/comm_client/api_endpoints.py:324 | without padding, microsecond 5000 gives `500`, 0 gives `0`, 5000 and 500000 give the same fraction, and every four-digit microsecond gives its tens |
| Endpoints.ExpiresOnCollides | application/integrations/comm_client/api_endpoints.py:324 | two date-times 5 ms and 500 ms past the second give the same `expiresOn` |
| Endpoints.HostedLink | application/integrations/comm_client/api_endpoints.py:309-341 | POST `hosted/accounts/link`, no query, and a body with exactly the eight payload keys: `type` and `providers` are the ones given or `"create"` and `["LINKEDIN"]`, `api_url` is the URL given, `expiresOn` is the formatted stamp, and each of the four optional strings is its own argument or `null` |
| Endpoints.LinkPayload | application/integrations/comm_client/api_endpoints.py:326-335 | the payload always holds all eight keys, each with its own argument: `type`, `api_url` and `expiresOn` as strings, `providers` as a list that reads back as the providers given, and each optional string as itself or `null`; it is free of `null` if and only if all four optional strings are given |
| Endpoints.LinkPayloadDefaults | application/integrations/comm_client/api_endpoints.py:316-328 | with the defaults, `type` is `"create"` and `providers` is `["LINKEDIN"]` |
| Endpoints.HostedLinkDefaults | application/integrations/comm_client/api_endpoints.py:316-335 | a link with the defaults has type `"create"`, providers `["LINKEDIN"]` and the formatted `expiresOn`; each optional string left out is `null` under its own key, and the body is free of `null` only when all four are given |
| Endpoints.DumpPayload | application/integrations/comm_client/api_endpoints.py:383 | the dump of every search payload variant has no `null` field; a classic dump is the payload's own `model_dump` and carries every field that is set under its own name; a Sales Navigator dump holds exactly the non-null fields, with their values; a URL dump holds the URL under `url` and exactly the other non-null fields, with their values |
| Endpoints.Search | application/integrations/comm_client/api_endpoints.py:379-385 | POST `linkedin/search` with query keys exactly `cursor`, `account_id`, `limit`, holding the cursor, the account and the limit given or the default page size; the body is the payload's dump (`DumpPayload`), so it has no `null` field |
| Endpoints.IsSalesSearch | application/integrations/comm_client/api_endpoints.py:367-371 | a search goes to Sales Navigator exactly for the Sales Navigator payload and for a URL payload whose URL starts with `https://www.linkedin.com/sales/search` |
| Endpoints.DefaultSearchLimit | application/integrations/comm_client/api_endpoints.py:372-376 | the page size without a `limit` is the sales size for a Sales Navigator search and the default size otherwise |
| Endpoints.SearchLimitRule | application/integrations/comm_client/api_endpoints.py:365-377 | an explicit limit passes through. Without one, the sales page size is used for the Sales Navigator payload and for a URL starting with the sales search prefix; the default size is used for the classic payload and for any other URL. The limit sent is never `null` |
| Endpoints.SalesPrefixExtends | application/integrations/comm_client/api_endpoints.py:371 | any URL that extends one starting with the sales search prefix is still a sales search |
| Endpoints.ClassicSearchBodyLoadsBack | application/integrations/comm_client/api_endpoints.py:383 | the body of a classic search, loaded as a payload, gives back the payload that was searched with |
| Endpoints.SearchParameters | application/integrations/comm_client/api_endpoints.py:400-404 | GET `linkedin/search/parameters` with query keys exactly `account_id`, `type`, `keywords`; `account_id` and `keywords` are sent as given, and the `type` sent names the parameter kind given |
| Endpoints.RetrieveCompany | application/integrations/comm_client/api_endpoints.py:416-420 | GET with query exactly `{account_id}` and no body |
| Endpoints.RetrieveCompanyPath | application/integrations/comm_client/api_endpoints.py:417 | the path splits into `linkedin`, `company` and the identifier |
| Models.MakeCursorParam | application/integrations/comm_client/models.py:54-55 | a cursor is accepted if and only if it is non-empty; otherwise the error names `cursor` |
| Models.ParsePriority | application/integrations/comm_client/models.py:160 | a priority string is accepted if and only if it is one of the three literals, and it maps to that literal |
| Models.ParseScope | application/integrations/comm_client/models.py:161 | a scope string is accepted if and only if it is one of the three literals, and it maps to that literal |
| Models.LiteralRoundTrips | application/integrations/comm_client/models.py:160-161 | every priority and scope literal is accepted back as itself |
| Models.MakeLocationParam | application/integrations/comm_client/models.py:158-161 | accepted if and only if the id is non-empty and the priority and scope are absent or listed literals; the error names `id` exactly when the id is empty |
| Models.ParseBadRequestType | application/integrations/comm_client/models.py:205-213 | the `type` is accepted if and only if it is one of the seven `errors/…` strings |
| Models.BadRequestTypeNamesInjective | application/integrations/comm_client/models.py:205-213 | the seven strings are distinct, so the string determines the error type |
| Models.MakeBadRequestResponse | application/integrations/comm_client/models.py:197-214 | accepted if and only if the status is exactly 400 and the type is one of the seven strings; each failing field is named in the error |
| Models.MakeSearchResultsPaging | application/integrations/comm_client/models.py:403-406 | accepted if and only if start, page_count and total_count are all at least 0; each negative one is named in the error |
| Models.DecodeSearchResponse | application/integrations/comm_client/models.py:188-193 | accepted if and only if `object` is `LinkedinSearch`, `items` is a list, `config` and `paging` are objects, and `cursor` is absent, `null` or a string; `cursor` defaults to absent |
| Models.ParseCommonSearchParameter | application/integrations/comm_client/models.py:353-363 | a string maps only to the parameter kind whose value it is |
| Models.CommonSearchParameterRoundTrip | application/integrations/comm_client/models.py:353-363 | every parameter kind is found again from its value |
| Models.ParseOpenTo | application/integrations/comm_client/models.py:261-263 | `proBono` and `boardMember` are accepted, and each maps to its member |
| Models.DefaultSearchPayload | application/integrations/comm_client/models.py:286-288 | the default payload is valid, and its dump is just `api: classic` and `category: people` |
| Models.LinkedinSearchPayload.Valid | application/integrations/comm_client/models.py:289-346 | the list filters with `min_length=1` are non-empty when present, and `profile_language` holds exactly two codes when present |
| Models.DumpSearchPayload | application/integrations/comm_client/api_endpoints.py:383 | `model_dump(exclude_none=True)` of the classic payload: the two literals and every filter that is set; see `DumpNoNull`, `DumpKeys` and `DumpCarriesFields` |
| Json.ExcludeNone | application/integrations/comm_client/api_endpoints.py:383 | `exclude_none` keeps exactly the fields that are not `null`, each with its own value, so the result has no `null` |
| Models.DumpNoNull | application/integrations/comm_client/models.py:285-350 | a dumped payload never contains `null` |
| Models.DumpKeys | application/integrations/comm_client/models.py:285-350 | a dumped payload holds no key other than the payload's field names |
| Models.DumpCarriesFields | application/integrations/comm_client/models.py:285-350 | a dumped payload holds every field that is set under its own name and omits every field that is `None` |
| Models.ListField | application/integrations/comm_client/models.py:289-346 | an absent or `null` list filter loads as absent; a present one loads exactly when it is a list of strings within its length bounds (at least one element, exactly two for `profile_language`), and then as those strings; otherwise it is rejected |
| Models.StrField | application/integrations/comm_client/models.py:288 | an absent or `null` string field loads as absent, a string loads as itself, and any other value is rejected |
| Models.OpenToField | application/integrations/comm_client/models.py:347-349 | `open_to` loads as absent when absent or `null`, as the listed literals when every element is one, and is rejected otherwise |
| Models.AdvancedField | application/integrations/comm_client/models.py:350 | `advanced_keywords` loads as absent when absent or `null`; an object loads when its known string fields load; any other value is rejected |
| Models.LoadSearchPayload | application/integrations/comm_client/models.py:285-350 | a successfully loaded payload is valid, and the `api` and `category` literals were absent or equal to their defaults |
| Models.LoadedIsHeld | application/integrations/comm_client/models.py:285-350 | a payload that loads is the one the object holds, field by field: each string and list filter is the value under its name, or absent exactly when the key is absent or `null` |
| Models.LoadRejectsEmptyList | application/integrations/comm_client/models.py:289-294 | an empty `industry` list is rejected by `min_length=1`, not loaded as an absent filter |
| Models.LoadCarried | application/integrations/comm_client/models.py:285-350 | any object holding the fields of a valid payload, the `api` and `category` literals included, loads back to that payload; other keys are ignored |
| Models.LoadEmptyObject | application/integrations/comm_client/models.py:285-350 | an empty object loads as the default payload: the literals and every filter take their defaults |
| Models.LoadDumpRoundTrip | application/integrations/comm_client/models.py:285-350 | loading the dump of a valid payload gives the payload back |
| Text.Digits | application/integrations/comm_client/api_endpoints.py:324 | `str(n)` is a non-empty string of digits with no leading zero, and it is `"0"` exactly for 0 |
| Text.ValueOfDigits | application/integrations/comm_client/api_endpoints.py:324 | `str(n)` reads back as `n` |
| Text.ValueOfZeroPad | application/integrations/comm_client/api_endpoints.py:324 | a zero-padded `strftime` field reads back as the number it was built from |
| Text.TakeDigits3 | application/integrations/comm_client/api_endpoints.py:324 | `str(n)[:3]` is `str` of the leading three digits of `n` |

## Left out

- `AsyncClient` (client.py:189-236) is left out. It is the concurrent variant, and its `request` passes five arguments to the four-argument `_build_request`, so that path fails as written.
- The httpx transport is a parameter (`send`): connection pools, `close`, and sending. Logging (`make_console_logger`, the `logger` option, `setLevel`, the `info`/`debug` calls) is left out, as output only.
- httpx internals are left out:
  - how query values are encoded, including `None` entries;
  - how a relative path is joined to the base URL;
  - how the headers setter adds httpx's own default headers.

  The model keeps URL composition as prefix plus path. It keeps the header set the client code assigns.
- Clients.Client.Install: the timeout is recorded in milliseconds. The conversion to seconds (`timeout_ms / 1_000`) is float arithmetic.
- `is_api_error_code`, the error classes and the known-code table live in errors.py, which is not part of this model. The recogniser is the parameter `knownCode`, and the errors are the constructors of `ClientError`.
- `Config.LINKEDIN_SEARCH_SALES_LEADS_PER_PAGE` and `Config.LINKEDIN_SEARCH_DEFAULT_LEADS_PER_PAGE` come from application.config, which is not part of this model. They are the parameter `PageSizes`.
- `LinkedinSalesNavSearchPayload`, `LinkedinURLSearchPayload`, `LinkedinAccountsConnect` and `LinkedinUsersInvitePayload` are imported but not defined in models.py. Their fields are given as JSON maps, with `None` as `null`. The URL variant carries its `url`.
- `network_distance` of `LinkedinSearchPayload` and `NetworkDistanceEnum` (float values) are not modelled. The same goes for the `ge`/`le` bound on a list in `ClassicPeopleSearch` (models.py:177), whose meaning is unclear.
- The response models with no constraint beyond their types are not decoded: `PeopleSearchResult`, `LinkedinUserMe`, `ChatsResponse` and the others. Every endpoint except search leaves its reply as JSON. Pydantic's type coercion (for example, a numeric string accepted as an int) is not modelled.
- `iterate_paginated_api` is not modelled. It is used by tests and examples, but its module is not part of this model.
- `schema.py` holds declarative query shapes with no logic, and it cannot be imported as written (mixed indentation).
- `HostedEndpoint.retrieve` does nothing (api_endpoints.py:343-344).
- Endpoints.DatePartReadsBack: years are padded to four digits. A platform `strftime` that leaves years below 1000 unpadded is not modelled.
- The `Annotated[str, StringConstraints(min_length=1)]` hints on endpoint arguments are not checked at run time (no validating decorator), so the endpoint functions accept any string.
- `BaseClient.__init__` attaches the accounts, users, hosted and search facades but not `MessagesEndpoint` (client.py:73-76). The messages endpoints are modelled as functions regardless of how a caller reaches them.
- Endpoints.Connect, Endpoints.Invite and Endpoints.DumpPayload: the Sales Navigator, URL, account-connect and invite payloads are given as JSON maps whose nested values are taken as already dumped. `exclude_none` is applied to their top level only, so a `null` inside a nested model stays in the model's body, where pydantic's `model_dump(exclude_none=True)` would omit it.
- Models.DecodeSearchResponse: the elements of `items` are not validated as `PeopleSearchResult | CompanySearchResult` (models.py:190). Those result models are not decoded, so any list is accepted.
- Aliasing of the options: the client keeps the caller's `ClientOptions` instance (client.py:70), which is a mutable dataclass, and the setter reads `self.options` again on every install (client.py:89-97). A caller that changes that instance after construction changes what a later `__enter__` installs. The model holds the options as an immutable value, so it does not capture that aliasing.
- JSON floating-point numbers are not modelled (`JValue` has no float case). A float error `code` therefore cannot be classified. Python treats `0.0` as false, so that body would raise `HTTPResponseError`.
- Clients.ParseResponse: the errors carry the status, code and message, but not the response object or its raw text.
