/**
 * The endpoint facades of api_endpoints.py. Every endpoint method builds a
 * path relative to the client's base URL, a query map and a body, and makes
 * one call to the client's `request`; here each is a function returning that
 * `Call`, and the client's `Clients.Client.Request` is what carries it out.
 */
module Endpoints {
  import opened Wrappers
  import opened Json
  import opened Text
  import opened Paths
  import opened Clients
  import opened Models

  /** The arguments of one `self.parent.request(path=…, method=…, query=…, body=…)`. */
  datatype Call = Call(verb: Method, path: string, query: Option<map<string, JValue>>, body: Option<JValue>)

  /** The default of every `limit: int = 100` parameter. */
  const DEFAULT_LIMIT: int := 100

  /** A `limit` argument: the one given, or the default when it is left out. */
  function LimitOr(limit: Option<int>): int {
    limit.GetOr(DEFAULT_LIMIT)
  }

  /** The query of a paged listing hands `cursor` and `limit` over as they were given. */
  predicate Pages(q: Option<map<string, JValue>>, cursor: Option<string>, limit: Option<int>) {
    && q.Some?
    && "cursor" in q.value && q.value["cursor"] == OptStr(cursor)
    && "limit" in q.value && q.value["limit"] == JInt(LimitOr(limit))
  }

  // --- UsersEndpoint ---------------------------------------------------------------

  /**
   * `connect`: POST `accounts` with the payload dumped without its `None`
   * fields; `fields` is the payload's model with `None` as `null`.
   */
  function Connect(fields: map<string, JValue>): (c: Call)
    ensures c.verb == POST && c.path == "accounts" && c.query.None?
    ensures c.body.Some? && c.body.value.JObj? && NoNullFields(c.body.value.fields)
    ensures forall k :: k in c.body.value.fields <==> k in fields && fields[k] != JNull
    ensures forall k :: k in c.body.value.fields ==> c.body.value.fields[k] == fields[k]
  {
    Call(POST, "accounts", None, Some(JObj(ExcludeNone(fields))))
  }

  function Me(accountId: string): (c: Call)
    ensures c.verb == GET && c.path == "users/me" && c.body.None?
    ensures c.query == Some(map["account_id" := JStr(accountId)])
  {
    Call(GET, "users/me", Some(map["account_id" := JStr(accountId)]), None)
  }

  /** `retrieve`: GET `users/{identifier}/`, keeping the trailing slash. */
  function Retrieve(accountId: string, identifier: string): (c: Call)
    ensures c.verb == GET && c.body.None?
    ensures c.query == Some(map["account_id" := JStr(accountId)])
    ensures |c.path| >= 1 && c.path[|c.path| - 1] == '/'
  {
    Call(GET, "users/" + identifier + "/", Some(map["account_id" := JStr(accountId)]), None)
  }

  /**
   * An identifier without a slash is exactly the middle segment of the
   * profile path, and the trailing slash leaves an empty last segment.
   */
  lemma RetrievePathSegments(accountId: string, identifier: string)
    requires NoSlash(identifier)
    ensures Split(Retrieve(accountId, identifier).path) == ["users", identifier, ""]
  {
    assert "users/" + identifier + "/" == "users" + "/" + identifier + "/" + "";
    Segments3("users", identifier, "");
  }

  /** The URL the profile request goes to ends in `/users/{identifier}/`. */
  lemma RetrieveUrlSegments(o: ClientOptions, accountId: string, identifier: string)
    requires NoSlash(o.unipileVersion) && NoSlash(identifier)
    ensures Split(BaseUrl(o) + Retrieve(accountId, identifier).path)
         == Split(o.baseUrl) + ["api", o.unipileVersion, "users", identifier, ""]
  {
    RequestUrlSegments(o, Retrieve(accountId, identifier).path);
    RetrievePathSegments(accountId, identifier);
  }

  /** `invite`: POST `users/invite` with the payload dumped without its `None` fields. */
  function Invite(fields: map<string, JValue>): (c: Call)
    ensures c.verb == POST && c.path == "users/invite" && c.query.None?
    ensures c.body.Some? && c.body.value.JObj? && NoNullFields(c.body.value.fields)
    ensures forall k :: k in c.body.value.fields <==> k in fields && fields[k] != JNull
    ensures forall k :: k in c.body.value.fields ==> c.body.value.fields[k] == fields[k]
  {
    Call(POST, "users/invite", None, Some(JObj(ExcludeNone(fields))))
  }

  /** `relations`: GET `users/relations`; `filter` and `cursor` are sent even when `None`. */
  function Relations(accountId: string, filter: Option<string>, cursor: Option<string>, limit: Option<int>)
    : (c: Call)
    ensures c.verb == GET && c.path == "users/relations" && c.body.None?
    ensures c.query.Some? && c.query.value.Keys == {"account_id", "filter", "cursor", "limit"}
    ensures c.query.value["account_id"] == JStr(accountId) && c.query.value["filter"] == OptStr(filter)
  {
    Call(GET, "users/relations",
         Some(map["account_id" := JStr(accountId), "filter" := OptStr(filter),
                  "cursor" := OptStr(cursor), "limit" := JInt(LimitOr(limit))]),
         None)
  }

  // --- MessagesEndpoint -------------------------------------------------------------

  function ChatAttendees(accountId: string, cursor: Option<string>, limit: Option<int>): (c: Call)
    ensures c.verb == GET && c.path == "chat_attendees" && c.body.None?
    ensures c.query.Some? && c.query.value.Keys == {"account_id", "cursor", "limit"}
    ensures c.query.value["account_id"] == JStr(accountId)
  {
    Call(GET, "chat_attendees",
         Some(map["account_id" := JStr(accountId), "cursor" := OptStr(cursor), "limit" := JInt(LimitOr(limit))]),
         None)
  }

  function ChatsByAttendee(attendeeId: string, accountId: string, cursor: Option<string>, limit: Option<int>)
    : (c: Call)
    ensures c.verb == GET && c.body.None?
    ensures c.query.Some? && c.query.value.Keys == {"account_id", "cursor", "limit"}
    ensures c.query.value["account_id"] == JStr(accountId)
  {
    Call(GET, "chat_attendees/" + attendeeId + "/chats",
         Some(map["account_id" := JStr(accountId), "cursor" := OptStr(cursor), "limit" := JInt(LimitOr(limit))]),
         None)
  }

  /** The path of the chats of an attendee names that attendee between two fixed segments. */
  lemma ChatsByAttendeePath(attendeeId: string, accountId: string, cursor: Option<string>, limit: Option<int>)
    requires NoSlash(attendeeId)
    ensures Split(ChatsByAttendee(attendeeId, accountId, cursor, limit).path)
         == ["chat_attendees", attendeeId, "chats"]
  {
    assert "chat_attendees/" + attendeeId + "/chats" == "chat_attendees" + "/" + attendeeId + "/" + "chats";
    Segments3("chat_attendees", attendeeId, "chats");
  }

  /** The messages of a chat, listed. */
  function MessagesPath(chatId: string): string {
    "chats/" + chatId + "/messages"
  }

  lemma MessagesPathSegments(chatId: string)
    requires NoSlash(chatId)
    ensures Split(MessagesPath(chatId)) == ["chats", chatId, "messages"]
  {
    assert "chats/" + chatId + "/messages" == "chats" + "/" + chatId + "/" + "messages";
    Segments3("chats", chatId, "messages");
  }

  /** `messages`: GET the chat's messages; `sender_id` is sent even when `None`. */
  function Messages(chatId: string, senderId: Option<string>, cursor: Option<string>, limit: Option<int>)
    : (c: Call)
    ensures c.verb == GET && c.path == MessagesPath(chatId) && c.body.None?
    ensures c.query.Some? && c.query.value.Keys == {"sender_id", "cursor", "limit"}
    ensures c.query.value["sender_id"] == OptStr(senderId)
  {
    Call(GET, MessagesPath(chatId),
         Some(map["sender_id" := OptStr(senderId), "cursor" := OptStr(cursor), "limit" := JInt(LimitOr(limit))]),
         None)
  }

  /** `send_message`: POST to the same path, body exactly `account_id` and `text`. */
  function SendMessage(chatId: string, accountId: string, text: Option<string>): (c: Call)
    ensures c.verb == POST && c.path == MessagesPath(chatId) && c.query.None?
    ensures c.body.Some? && c.body.value.JObj? && c.body.value.fields.Keys == {"account_id", "text"}
    ensures c.body.value.fields["account_id"] == JStr(accountId)
    ensures c.body.value.fields["text"] == OptStr(text)
  {
    Call(POST, MessagesPath(chatId), None,
         Some(JObj(map["account_id" := JStr(accountId), "text" := OptStr(text)])))
  }

  /**
   * Listing and sending address the same resource with different verbs, and
   * the send body keeps a `None` text as `null` instead of dropping it.
   */
  lemma SendMessageSharesPath(chatId: string, accountId: string, senderId: Option<string>,
                              cursor: Option<string>, limit: Option<int>, text: Option<string>)
    ensures var list := Messages(chatId, senderId, cursor, limit);
            var send := SendMessage(chatId, accountId, text);
            list.path == send.path && list.verb != send.verb
    ensures NoNullFields(SendMessage(chatId, accountId, text).body.value.fields) <==> text.Some?
  {
    var f := SendMessage(chatId, accountId, text).body.value.fields;
    if text.None? {
      assert f["text"] == JNull;
    }
  }

  function SendMessageToAttendees(attendeesIds: seq<string>, accountId: string, text: Option<string>): (c: Call)
    ensures c.verb == POST && c.path == "chats" && c.query.None?
    ensures c.body.Some? && c.body.value.JObj?
    ensures c.body.value.fields.Keys == {"account_id", "attendees_ids", "text"}
    ensures c.body.value.fields["attendees_ids"].JArr?
    ensures StringsOf(c.body.value.fields["attendees_ids"].items) == Some(attendeesIds)
    ensures c.body.value.fields["account_id"] == JStr(accountId)
    ensures c.body.value.fields["text"] == OptStr(text)
  {
    StringsOfStrs(attendeesIds);
    Call(POST, "chats", None,
         Some(JObj(map["account_id" := JStr(accountId), "attendees_ids" := JArr(Strs(attendeesIds)),
                       "text" := OptStr(text)])))
  }

  // --- AccountsEndpoint -------------------------------------------------------------

  function Accounts(cursor: Option<string>, limit: Option<int>): (c: Call)
    ensures c.verb == GET && c.path == "accounts" && c.body.None?
    ensures c.query.Some? && c.query.value.Keys == {"cursor", "limit"}
  {
    Call(GET, "accounts", Some(map["cursor" := OptStr(cursor), "limit" := JInt(LimitOr(limit))]), None)
  }

  /** `delete`: DELETE `accounts/{account_id}`, with neither query nor body. */
  function DeleteAccount(accountId: string): (c: Call)
    ensures c.verb == DELETE && c.query.None? && c.body.None?
  {
    Call(DELETE, "accounts/" + accountId, None, None)
  }

  /** The account to delete is the second and last segment of the path. */
  lemma DeleteAccountPath(accountId: string)
    requires NoSlash(accountId)
    ensures Split(DeleteAccount(accountId).path) == ["accounts", accountId]
  {
    assert "accounts/" + accountId == "accounts" + "/" + accountId;
    Segments2("accounts", accountId);
  }

  /**
   * Every listing endpoint forwards `cursor` and `limit` as given, and
   * `limit` is 100 when left out.
   */
  lemma ListingsForwardPaging(accountId: string, other: string, filter: Option<string>,
                              cursor: Option<string>, limit: Option<int>)
    ensures Pages(Relations(accountId, filter, cursor, limit).query, cursor, limit)
    ensures Pages(ChatAttendees(accountId, cursor, limit).query, cursor, limit)
    ensures Pages(ChatsByAttendee(other, accountId, cursor, limit).query, cursor, limit)
    ensures Pages(Messages(other, filter, cursor, limit).query, cursor, limit)
    ensures Pages(Accounts(cursor, limit).query, cursor, limit)
    ensures limit.None? ==> LimitOr(limit) == 100
    ensures limit.Some? ==> LimitOr(limit) == limit.value
  {
  }

  // --- HostedEndpoint ---------------------------------------------------------------

  /** A `datetime` reduced to the fields `strftime` and `microsecond` read. */
  datatype DateTime = DateTime(year: int, month: int, day: int, hour: int, minute: int, second: int,
                               microsecond: int)
  {
    /** The ranges `datetime` enforces on construction. */
    predicate Valid() {
      && 1 <= year <= 9999 && 1 <= month <= 12 && 1 <= day <= DaysInMonth(year, month)
      && 0 <= hour < 24 && 0 <= minute < 60 && 0 <= second < 60 && 0 <= microsecond < 1000000
    }
  }

  predicate IsLeapYear(y: int) {
    y % 4 == 0 && (y % 100 != 0 || y % 400 == 0)
  }

  function DaysInMonth(y: int, m: int): int {
    if m == 2 then (if IsLeapYear(y) then 29 else 28)
    else if m == 4 || m == 6 || m == 9 || m == 11 then 30
    else 31
  }

  /** `strftime('%Y-%m-%d')`. */
  function DatePart(dt: DateTime): string
    requires dt.Valid()
  {
    ZeroPad(dt.year, 4) + "-" + ZeroPad(dt.month, 2) + "-" + ZeroPad(dt.day, 2)
  }

  /** `strftime('%H:%M:%S')`. */
  function TimePart(dt: DateTime): string
    requires dt.Valid()
  {
    ZeroPad(dt.hour, 2) + ":" + ZeroPad(dt.minute, 2) + ":" + ZeroPad(dt.second, 2)
  }

  /** `str(microsecond)[:3]`: the first three characters of the unpadded number. */
  function Fraction(microsecond: nat): (f: string)
    ensures f == Digits(Leading3(microsecond))
    ensures 1 <= |f| <= 3 && AllDigits(f)
  {
    TakeDigits3(microsecond);
    Take(Digits(microsecond), 3)
  }

  /** The `expiresOn` string of `link`. */
  function ExpiresOn(dt: DateTime): string
    requires dt.Valid()
  {
    DatePart(dt) + "T" + TimePart(dt) + "." + Fraction(dt.microsecond) + "Z"
  }

  /** Three fields with a separator between each: where each one sits. */
  lemma Fields3(a: string, sep: char, b: string, c: string)
    ensures var s := a + [sep] + b + [sep] + c;
      && s[..|a|] == a && s[|a|] == sep && s[|a| + 1..|a| + 1 + |b|] == b
      && s[|a| + 1 + |b|] == sep && s[|a| + 2 + |b|..] == c
  {
    var s := a + [sep] + b + [sep] + c;
    assert s == a + ([sep] + (b + ([sep] + c)));
  }

  /** Where the pieces of a `{date}T{time}.{fraction}Z` stamp sit. */
  lemma StampLayout(d: string, t: string, f: string)
    requires |d| == 10 && |t| == 8
    ensures var s := d + "T" + t + "." + f + "Z";
      && |s| == 21 + |f|
      && s[..10] == d && s[10] == 'T' && s[11..19] == t
      && s[19] == '.' && s[20..|s| - 1] == f && s[|s| - 1] == 'Z'
  {
    var s := d + "T" + t + "." + f + "Z";
    assert s == d + ("T" + (t + ("." + (f + "Z"))));
  }

  lemma ExpiresOnParts(dt: DateTime)
    requires dt.Valid()
    ensures var s := ExpiresOn(dt);
      && |DatePart(dt)| == 10 && |TimePart(dt)| == 8 && |s| == 21 + |Fraction(dt.microsecond)|
      && s[..10] == DatePart(dt) && s[10] == 'T' && s[11..19] == TimePart(dt)
      && s[19] == '.' && s[20..|s| - 1] == Fraction(dt.microsecond) && s[|s| - 1] == 'Z'
  {
    DatePartReadsBack(dt);
    TimePartReadsBack(dt);
    StampLayout(DatePart(dt), TimePart(dt), Fraction(dt.microsecond));
  }

  /** The date reads back: four year digits, then month and day, each after a dash. */
  lemma DatePartReadsBack(dt: DateTime)
    requires dt.Valid()
    ensures var d := DatePart(dt);
      && |d| == 10 && d[4] == '-' && d[7] == '-'
      && AllDigits(d[0..4]) && Value(d[0..4]) == dt.year
      && AllDigits(d[5..7]) && Value(d[5..7]) == dt.month
      && AllDigits(d[8..10]) && Value(d[8..10]) == dt.day
  {
    assert Pow10(2) == 100 && Pow10(4) == 10000;
    Fields3(ZeroPad(dt.year, 4), '-', ZeroPad(dt.month, 2), ZeroPad(dt.day, 2));
    ValueOfZeroPad(dt.year, 4);
    ValueOfZeroPad(dt.month, 2);
    ValueOfZeroPad(dt.day, 2);
  }

  /** The time reads back: hours, minutes and seconds, two digits each, colon-separated. */
  lemma TimePartReadsBack(dt: DateTime)
    requires dt.Valid()
    ensures var t := TimePart(dt);
      && |t| == 8 && t[2] == ':' && t[5] == ':'
      && AllDigits(t[0..2]) && Value(t[0..2]) == dt.hour
      && AllDigits(t[3..5]) && Value(t[3..5]) == dt.minute
      && AllDigits(t[6..8]) && Value(t[6..8]) == dt.second
  {
    assert Pow10(2) == 100;
    Fields3(ZeroPad(dt.hour, 2), ':', ZeroPad(dt.minute, 2), ZeroPad(dt.second, 2));
    ValueOfZeroPad(dt.hour, 2);
    ValueOfZeroPad(dt.minute, 2);
    ValueOfZeroPad(dt.second, 2);
  }

  /**
   * `expiresOn` reads back: the date and time fields sit at fixed offsets
   * and denote the date-time's own fields, and the fraction after the dot is
   * `str` of the leading three digits of the microsecond.
   */
  lemma ExpiresOnReadsBack(dt: DateTime)
    requires dt.Valid()
    ensures var s := ExpiresOn(dt);
      && 22 <= |s| <= 24
      && s[4] == '-' && s[7] == '-' && s[10] == 'T' && s[13] == ':' && s[16] == ':' && s[19] == '.'
      && s[|s| - 1] == 'Z'
      && AllDigits(s[0..4]) && Value(s[0..4]) == dt.year
      && AllDigits(s[5..7]) && Value(s[5..7]) == dt.month
      && AllDigits(s[8..10]) && Value(s[8..10]) == dt.day
      && AllDigits(s[11..13]) && Value(s[11..13]) == dt.hour
      && AllDigits(s[14..16]) && Value(s[14..16]) == dt.minute
      && AllDigits(s[17..19]) && Value(s[17..19]) == dt.second
      && s[20..|s| - 1] == Digits(Leading3(dt.microsecond))
  {
    ExpiresOnParts(dt);
    DatePartReadsBack(dt);
    TimePartReadsBack(dt);
    var s, d, t := ExpiresOn(dt), DatePart(dt), TimePart(dt);
    assert s[0..10] == d;
    SliceWithin(s, d, 0, 0, 4);
    SliceWithin(s, d, 0, 5, 7);
    SliceWithin(s, d, 0, 8, 10);
    SliceWithin(s, t, 11, 0, 2);
    SliceWithin(s, t, 11, 3, 5);
    SliceWithin(s, t, 11, 6, 8);
  }

  /** With six microsecond digits the fraction is the milliseconds. */
  lemma FractionOfSixDigits(microsecond: nat)
    requires 100000 <= microsecond < 1000000
    ensures Value(Fraction(microsecond)) == microsecond / 1000
  {
    SixDigitLeading3(microsecond);
    ValueOfDigits(microsecond / 1000);
  }

  /**
   * Without zero-padding, shorter microsecond values are misread: 5000
   * (5 ms) gives `500`, 0 gives `0`, and 5 ms and 500 ms print alike.
   */
  lemma FractionUnpadded()
    ensures Fraction(5000) == "500"
    ensures Fraction(0) == "0"
    ensures Fraction(5000) == Fraction(500000)
    ensures forall m :: 1000 <= m < 10000 ==> Value(Fraction(m)) == m / 10
  {
    assert Leading3(5000) == 500;
    assert Leading3(500000) == 500;
    assert Digits(500) == "500" by {
      assert Digits(50) == "50" by { assert Digits(5) == "5"; }
    }
    forall m | 1000 <= m < 10000
      ensures Value(Fraction(m)) == m / 10
    {
      FourDigitLeading3(m);
      ValueOfDigits(m / 10);
    }
  }

  /** Two date-times a few milliseconds apart can give the same `expiresOn`. */
  lemma ExpiresOnCollides(dt: DateTime)
    requires dt.Valid() && dt.microsecond == 5000
    ensures ExpiresOn(dt) == ExpiresOn(dt.(microsecond := 500000))
    ensures dt != dt.(microsecond := 500000)
  {
    FractionUnpadded();
  }

  const DEFAULT_LINK_TYPE: string := "create"
  const DEFAULT_PROVIDERS: seq<string> := ["LINKEDIN"]

  /** The eight keys of the hosted-link payload. */
  const HOSTED_LINK_KEYS: set<string> := {
    "type", "providers", "api_url", "expiresOn", "notify_url", "name", "success_redirect_url",
    "failure_redirect_url"
  }

  /**
   * `link`: POST `hosted/accounts/link`. `linkType` and `providers` are
   * `None` when left out and take their defaults; the optional URLs and the
   * name are kept as `null` when absent.
   */
  function HostedLink(expiresOn: DateTime, apiUrl: string, successRedirectUrl: Option<string>,
                      failureRedirectUrl: Option<string>, notifyUrl: Option<string>, name: Option<string>,
                      linkType: Option<string>, providers: Option<seq<string>>): (c: Call)
    requires expiresOn.Valid()
    ensures c.verb == POST && c.path == "hosted/accounts/link" && c.query.None?
    ensures c.body.Some? && c.body.value.JObj? && c.body.value.fields.Keys == HOSTED_LINK_KEYS
    ensures var b := c.body.value.fields;
      && b["type"] == JStr(linkType.GetOr(DEFAULT_LINK_TYPE))
      && b["providers"].JArr? && StringsOf(b["providers"].items) == Some(providers.GetOr(DEFAULT_PROVIDERS))
      && b["api_url"] == JStr(apiUrl)
      && b["expiresOn"] == JStr(ExpiresOn(expiresOn))
      && b["notify_url"] == OptStr(notifyUrl) && b["name"] == OptStr(name)
      && b["success_redirect_url"] == OptStr(successRedirectUrl)
      && b["failure_redirect_url"] == OptStr(failureRedirectUrl)
  {
    Call(POST, "hosted/accounts/link", None,
         Some(JObj(LinkPayload(linkType.GetOr(DEFAULT_LINK_TYPE), providers.GetOr(DEFAULT_PROVIDERS), apiUrl,
                               ExpiresOn(expiresOn), notifyUrl, name, successRedirectUrl, failureRedirectUrl))))
  }

  /** The `payload` dict of `link`, every value as given. */
  function LinkPayload(linkType: string, providers: seq<string>, apiUrl: string, expiresOn: string,
                       notifyUrl: Option<string>, name: Option<string>, successRedirectUrl: Option<string>,
                       failureRedirectUrl: Option<string>): (b: map<string, JValue>)
    ensures b.Keys == HOSTED_LINK_KEYS
    ensures b["type"] == JStr(linkType)
    ensures b["providers"].JArr? && StringsOf(b["providers"].items) == Some(providers)
    ensures b["api_url"] == JStr(apiUrl)
    ensures b["expiresOn"] == JStr(expiresOn)
    ensures b["notify_url"] == OptStr(notifyUrl) && b["name"] == OptStr(name)
    ensures b["success_redirect_url"] == OptStr(successRedirectUrl)
    ensures b["failure_redirect_url"] == OptStr(failureRedirectUrl)
    // `None` values are kept as `null`, not dropped
    ensures NoNullFields(b) <==>
              notifyUrl.Some? && name.Some? && successRedirectUrl.Some? && failureRedirectUrl.Some?
  {
    StringsOfStrs(providers);
    map[
      "type" := JStr(linkType),
      "providers" := JArr(Strs(providers)),
      "api_url" := JStr(apiUrl),
      "expiresOn" := JStr(expiresOn),
      "notify_url" := OptStr(notifyUrl),
      "name" := OptStr(name),
      "success_redirect_url" := OptStr(successRedirectUrl),
      "failure_redirect_url" := OptStr(failureRedirectUrl)]
  }

  /** The literal defaults land under `type` and `providers`. */
  lemma LinkPayloadDefaults(apiUrl: string, expiresOn: string, notify: Option<string>, name: Option<string>,
                            success: Option<string>, failure: Option<string>)
    ensures var b := LinkPayload(DEFAULT_LINK_TYPE, DEFAULT_PROVIDERS, apiUrl, expiresOn, notify, name, success, failure);
      b["type"] == JStr("create") && b["providers"] == JArr([JStr("LINKEDIN")])
  {
    assert Strs(["LINKEDIN"]) == [JStr("LINKEDIN")];
  }

  /**
   * Left out, the link type is `"create"` and the providers are
   * `["LINKEDIN"]`; the body keeps a `null` for each optional string left out.
   */
  lemma HostedLinkDefaults(dt: DateTime, apiUrl: string, success: Option<string>, failure: Option<string>,
                           notify: Option<string>, name: Option<string>)
    requires dt.Valid()
    ensures var b := HostedLink(dt, apiUrl, success, failure, notify, name, None, None).body.value.fields;
      && b["type"] == JStr("create")
      && b["providers"] == JArr([JStr("LINKEDIN")])
      && b["expiresOn"] == JStr(ExpiresOn(dt))
      && (NoNullFields(b) <==> success.Some? && failure.Some? && notify.Some? && name.Some?)
      && (success.None? ==> b["success_redirect_url"] == JNull)
      && (failure.None? ==> b["failure_redirect_url"] == JNull)
      && (notify.None? ==> b["notify_url"] == JNull)
      && (name.None? ==> b["name"] == JNull)
  {
    LinkPayloadDefaults(apiUrl, ExpiresOn(dt), notify, name, success, failure);
  }

  // --- SearchEndpoint ---------------------------------------------------------------

  /**
   * The three payloads `search` accepts. The Sales Navigator and URL payload
   * models are not part of this model: their fields are given as JSON, with
   * `None` as `null`, and the URL variant carries its `url`.
   */
  datatype SearchPayload =
    | Classic(payload: LinkedinSearchPayload)
    | SalesNavigator(fields: map<string, JValue>)
    | ByUrl(url: string, others: map<string, JValue>)

  /** `Config.LINKEDIN_SEARCH_SALES_LEADS_PER_PAGE` and `…_DEFAULT_LEADS_PER_PAGE`. */
  datatype PageSizes = PageSizes(salesLeads: int, defaultLeads: int)

  const SALES_SEARCH_PREFIX: string := "https://www.linkedin.com/sales/search"

  /** Whether the search goes to Sales Navigator, which pages differently. */
  predicate IsSalesSearch(payload: SearchPayload) {
    || payload.SalesNavigator?
    || (payload.ByUrl? && StartsWith(payload.url, SALES_SEARCH_PREFIX))
  }

  /** The page size when `limit` is `None`. */
  function DefaultSearchLimit(payload: SearchPayload, sizes: PageSizes): (n: int)
    ensures IsSalesSearch(payload) ==> n == sizes.salesLeads
    ensures !IsSalesSearch(payload) ==> n == sizes.defaultLeads
  {
    if IsSalesSearch(payload) then sizes.salesLeads else sizes.defaultLeads
  }

  /** `payload.model_dump(exclude_none=True)`. */
  function DumpPayload(payload: SearchPayload): (m: map<string, JValue>)
    ensures NoNullFields(m)
    // the classic payload: every field that is set, under its own name
    ensures payload.Classic? ==> m == DumpSearchPayload(payload.payload) && CarriesFields(m, payload.payload)
    // the other two: every non-null field as given, and the URL under `url`
    ensures payload.SalesNavigator? ==>
              && (forall k :: k in m <==> k in payload.fields && payload.fields[k] != JNull)
              && (forall k :: k in m ==> m[k] == payload.fields[k])
    ensures payload.ByUrl? ==>
              && "url" in m && m["url"] == JStr(payload.url)
              && (forall k :: k != "url" ==> (k in m <==> k in payload.others && payload.others[k] != JNull))
              && (forall k :: k in m && k != "url" ==> m[k] == payload.others[k])
  {
    match payload
    case Classic(p) => DumpCarriesFields(p); DumpSearchPayload(p)
    case SalesNavigator(fields) => ExcludeNone(fields)
    case ByUrl(url, others) => ExcludeNone(others["url" := JStr(url)])
  }

  /** `search`: POST `linkedin/search` with the paging query and the dumped payload. */
  function Search(accountId: string, payload: SearchPayload, cursor: Option<string>, limit: Option<int>,
                  sizes: PageSizes): (c: Call)
    ensures c.verb == POST && c.path == "linkedin/search"
    ensures c.query.Some? && c.query.value.Keys == {"cursor", "account_id", "limit"}
    ensures c.query.value["cursor"] == OptStr(cursor) && c.query.value["account_id"] == JStr(accountId)
    ensures c.query.value["limit"] == JInt(limit.GetOr(DefaultSearchLimit(payload, sizes)))
    ensures c.body == Some(JObj(DumpPayload(payload)))
    ensures c.body.Some? && c.body.value.JObj? && NoNullFields(c.body.value.fields)
  {
    var n := if limit.None? then DefaultSearchLimit(payload, sizes) else limit.value;
    Call(POST, "linkedin/search",
         Some(map["cursor" := OptStr(cursor), "account_id" := JStr(accountId), "limit" := JInt(n)]),
         Some(JObj(DumpPayload(payload))))
  }

  /**
   * The page size of a search: an explicit `limit` passes through; without
   * one, the sales size is used exactly for a Sales Navigator payload or a
   * URL under the sales search prefix, and the default size otherwise. The
   * `limit` sent is never `null`.
   */
  lemma SearchLimitRule(accountId: string, payload: SearchPayload, cursor: Option<string>, limit: Option<int>,
                        sizes: PageSizes)
    ensures var q := Search(accountId, payload, cursor, limit, sizes).query.value;
      && (limit.Some? ==> q["limit"] == JInt(limit.value))
      && ((limit.None? && (payload.SalesNavigator? || (payload.ByUrl? && StartsWith(payload.url, SALES_SEARCH_PREFIX))))
          ==> q["limit"] == JInt(sizes.salesLeads))
      && ((limit.None? && (payload.Classic? || (payload.ByUrl? && !StartsWith(payload.url, SALES_SEARCH_PREFIX))))
          ==> q["limit"] == JInt(sizes.defaultLeads))
      && q["limit"] != JNull
  {
  }

  /** A URL under the sales search prefix stays a sales search whatever follows it. */
  lemma SalesPrefixExtends(url: string, rest: string, others: map<string, JValue>)
    requires StartsWith(url, SALES_SEARCH_PREFIX)
    ensures IsSalesSearch(ByUrl(url + rest, others))
  {
    assert (url + rest)[..|SALES_SEARCH_PREFIX|] == url[..|SALES_SEARCH_PREFIX|];
  }

  /** The body of a classic search loads back, as a payload, to the payload searched with. */
  lemma ClassicSearchBodyLoadsBack(accountId: string, p: LinkedinSearchPayload, cursor: Option<string>,
                                   limit: Option<int>, sizes: PageSizes)
    requires p.Valid()
    ensures var b := Search(accountId, Classic(p), cursor, limit, sizes).body.value;
      b.JObj? && LoadSearchPayload(b.fields) == Success(p)
  {
    LoadDumpRoundTrip(p);
  }

  /** `search_param`: GET `linkedin/search/parameters`, the type sent as its enum value. */
  function SearchParameters(accountId: string, paramType: CommonSearchParameter, keywords: string): (c: Call)
    ensures c.verb == GET && c.path == "linkedin/search/parameters" && c.body.None?
    ensures c.query.Some? && c.query.value.Keys == {"account_id", "type", "keywords"}
    ensures c.query.value["type"].JStr?
    ensures ParseCommonSearchParameter(c.query.value["type"].s) == Some(paramType)
    ensures c.query.value["account_id"] == JStr(accountId) && c.query.value["keywords"] == JStr(keywords)
  {
    CommonSearchParameterRoundTrip(paramType);
    Call(GET, "linkedin/search/parameters",
         Some(map["account_id" := JStr(accountId), "type" := JStr(CommonSearchParameterName(paramType)),
                  "keywords" := JStr(keywords)]),
         None)
  }

  /** `retrieve_company`: GET `linkedin/company/{identifier}`. */
  function RetrieveCompany(accountId: string, identifier: string): (c: Call)
    ensures c.verb == GET && c.body.None?
    ensures c.query == Some(map["account_id" := JStr(accountId)])
  {
    Call(GET, "linkedin/company/" + identifier, Some(map["account_id" := JStr(accountId)]), None)
  }

  /** The company identifier is the last segment of the path, after two fixed ones. */
  lemma RetrieveCompanyPath(accountId: string, identifier: string)
    requires NoSlash(identifier)
    ensures Split(RetrieveCompany(accountId, identifier).path) == ["linkedin", "company", identifier]
  {
    assert "linkedin/company/" + identifier == "linkedin" + "/" + "company" + "/" + identifier;
    Segments3("linkedin", "company", identifier);
  }
}
