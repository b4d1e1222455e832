/**
 * The read API: the middleware that checks the Mini App's signed `initData`
 * (Telegram's "Validating data received via the Mini App": drop `hash`, sort
 * the remaining pairs by key, join `key=value` lines with a line feed, sign
 * with HMAC-SHA-256 under the key HMAC-SHA-256("WebAppData", bot token),
 * compare the lowercase hex digest), its freshness window and user
 * extraction, and the two routes behind it, which are scoped by the user id
 * it yields.
 *
 * The foreign pieces are parameters (`Platform`): `URLSearchParams`
 * parsing, `localeCompare`, `TextEncoder`, HMAC-SHA-256 and `JSON.parse`.
 */
module ApiAuth {
  import opened Wrappers
  import opened JsonModel
  import opened JsText
  import opened Sorting
  import opened TelegramHandlers

  type byte = x: int | 0 <= x < 256

  /** One `key=value` pair of `initData`, as `URLSearchParams` decoded it. */
  type Param = (string, string)

  datatype Platform = Platform(
    parseQuery: string -> seq<Param>,
    localeCompare: (string, string) -> int,
    utf8: string -> seq<byte>,
    hmacSha256: (seq<byte>, seq<byte>) -> seq<byte>,
    parseJson: string -> Option<Json>)

  // ---------------------------------------------------------------------------
  // URLSearchParams

  /** `params.get(name)`: the first value under `name`. */
  function GetParam(params: seq<Param>, name: string): (r: Option<string>)
    ensures r.Some? <==> exists k :: 0 <= k < |params| && params[k].0 == name
    ensures r.Some? ==> (name, r.value) in params
    ensures r.Some? ==> exists k :: 0 <= k < |params| && params[k] == (name, r.value) && forall i :: 0 <= i < k ==> params[i].0 != name
  {
    if |params| == 0 then None
    else if params[0].0 == name then Some(params[0].1)
    else
      assert forall k :: 0 < k < |params| ==> params[k] == params[1..][k - 1];
      var r := GetParam(params[1..], name);
      assert r.Some? ==> exists k :: 0 <= k < |params| && params[k] == (name, r.value) && forall i :: 0 <= i < k ==> params[i].0 != name by {
        if r.Some? {
          var k :| 0 <= k < |params[1..]| && params[1..][k] == (name, r.value) && forall i :: 0 <= i < k ==> params[1..][i].0 != name;
          assert params[k + 1] == (name, r.value);
          forall i | 0 <= i < k + 1 ensures params[i].0 != name {
            if i > 0 { assert params[i] == params[1..][i - 1]; }
          }
        }
      }
      r
  }

  /** `params.delete(name)`: every pair under `name` goes, the others keep their order. */
  function DeleteParam(params: seq<Param>, name: string): (r: seq<Param>)
    ensures forall p :: p in r <==> p in params && p.0 != name
    ensures forall p :: multiset(r)[p] == if p.0 == name then 0 else multiset(params)[p]
  {
    if |params| == 0 then []
    else
      assert params == [params[0]] + params[1..];
      if params[0].0 == name then DeleteParam(params[1..], name)
      else [params[0]] + DeleteParam(params[1..], name)
  }

  /** `delete` works piecewise over concatenation, so the pairs it keeps stay in their order. */
  lemma {:induction false} DeleteDistributes(a: seq<Param>, b: seq<Param>, name: string)
    ensures DeleteParam(a + b, name) == DeleteParam(a, name) + DeleteParam(b, name)
    decreases |a|
  {
    if |a| > 0 {
      assert (a + b)[1..] == a[1..] + b;
      DeleteDistributes(a[1..], b, name);
    } else {
      assert a + b == b;
    }
  }

  /** Deleting `hash` leaves every other key's first value as it was. */
  lemma {:induction false} GetAfterDelete(params: seq<Param>, deleted: string, name: string)
    requires name != deleted
    ensures GetParam(DeleteParam(params, deleted), name) == GetParam(params, name)
    decreases |params|
  {
    if |params| > 0 {
      GetAfterDelete(params[1..], deleted, name);
    }
  }

  // ---------------------------------------------------------------------------
  // The data-check string

  /** The sort comparator `([a], [b]) => a.localeCompare(b)`: `x` goes before `y` when it compares below. */
  function KeyBefore(localeCompare: (string, string) -> int): (Param, Param) -> bool {
    (x: Param, y: Param) => localeCompare(x.0, y.0) < 0
  }

  /** The pairs that are signed: all but `hash`, stably sorted by key. */
  function CheckEntries(params: seq<Param>, localeCompare: (string, string) -> int): seq<Param> {
    SortBy(DeleteParam(params, "hash"), KeyBefore(localeCompare))
  }

  function Lines(entries: seq<Param>): (r: seq<string>)
    ensures |r| == |entries| && forall k :: 0 <= k < |entries| ==> r[k] == entries[k].0 + "=" + entries[k].1
  {
    seq(|entries|, k requires 0 <= k < |entries| => entries[k].0 + "=" + entries[k].1)
  }

  function DataCheckString(params: seq<Param>, localeCompare: (string, string) -> int): string {
    Join(Lines(CheckEntries(params, localeCompare)), "\n")
  }

  // ---------------------------------------------------------------------------
  // Hex encoding

  /**
   * The two hex digits of a byte, high nibble first: what
   * `b.toString(16).padStart(2, '0')` writes (`HexByteIsPaddedToString`).
   */
  function HexByte(b: byte): string {
    [DigitChar(b / 16), DigitChar(b % 16)]
  }

  /** `[...bytes].map(HexByte).join('')`. */
  function Hex(bytes: seq<byte>): string {
    if |bytes| == 0 then "" else HexByte(bytes[0]) + Hex(bytes[1..])
  }

  /** Reads two lowercase hex digits per byte: the inverse of `Hex`. */
  function Unhex(s: string): Option<seq<byte>> {
    if |s| == 0 then Some([])
    else if |s| == 1 then None
    else
      var hi, lo := DigitValue(s[0]), DigitValue(s[1]);
      if hi < 0 || lo < 0 then None
      else
        match Unhex(s[2..])
        case None => None
        case Some(rest) => Some([hi * 16 + lo] + rest)
  }

  /** One of `0`-`9`, `a`-`f`: exactly the characters with a digit value (`DigitValue` is -1 elsewhere). */
  predicate IsLowerHexDigit(c: char) {
    0 <= DigitValue(c) < 16
  }

  // ---------------------------------------------------------------------------
  // The middleware

  datatype Rejection = MissingHeader | InvalidHash | Outdated | UserNotFound | InvalidUser

  /** Every rejection is an `HTTPException(401)` with one of these messages. */
  function RejectionMessage(r: Rejection): string {
    match r
    case MissingHeader => "Unauthorized"
    case InvalidHash => "Unauthorized: Invalid hash"
    case Outdated => "Unauthorized: Outdated request"
    case UserNotFound => "Unauthorized: User data not found"
    case InvalidUser => "Unauthorized: Invalid user data"
  }

  /** The messages by name, for the middleware's literal texts. */
  lemma RejectionTexts()
    ensures RejectionMessage(MissingHeader) == "Unauthorized"
    ensures RejectionMessage(InvalidHash) == "Unauthorized: Invalid hash"
    ensures RejectionMessage(Outdated) == "Unauthorized: Outdated request"
  {
  }

  /**
   * What the middleware answers: nothing when the request is authorized (it
   * calls `next()` and the route answers), otherwise the `HTTPException`'s
   * 401 with the rejection's message.
   */
  function MiddlewareAnswer(r: AuthResult): Option<ApiResponse> {
    match r
    case Authorized(_) => None
    case Unauthorized(reason) => Some(HttpError(401, RejectionMessage(reason)))
  }

  /** On success the context's `userId` is the value of `user.id`, whatever its JSON type. */
  datatype AuthResult = Authorized(userId: Json) | Unauthorized(reason: Rejection)

  const MaxAgeSeconds: int := 3600

  /** The secret key HMAC-SHA-256("WebAppData", bot token), then the hex digest of the data-check string under it. */
  function ExpectedHash(params: seq<Param>, botToken: string, p: Platform): string {
    var secret := p.hmacSha256(p.utf8("WebAppData"), p.utf8(botToken));
    Hex(p.hmacSha256(secret, p.utf8(DataCheckString(params, p.localeCompare))))
  }

  /**
   * The freshness check runs only for a non-empty `auth_date`; `parseInt`
   * giving NaN makes the comparison false, so such a request passes.
   */
  predicate Fresh(authDate: Option<string>, now: int) {
    authDate.None? || authDate.value == ""
    || (var d := ParseInt10(authDate.value); d.None? || now - d.value <= MaxAgeSeconds)
  }

  /** `user` must be present and non-empty, parse as JSON, be truthy and have a truthy `id`. */
  function UserOf(userString: Option<string>, parseJson: string -> Option<Json>): (r: AuthResult)
    ensures r.Unauthorized? ==> r.reason == UserNotFound || r.reason == InvalidUser
  {
    if userString.None? || userString.value == "" then Unauthorized(UserNotFound)
    else
      match parseJson(userString.value)
      case None => Unauthorized(InvalidUser)
      case Some(user) =>
        var id := Get(Some(user), "id");
        if !Truthy(Some(user)) || !Truthy(id) then Unauthorized(InvalidUser) else Authorized(id.value)
  }

  /**
   * The middleware, in its order: the `tma ` header, the hash, the freshness
   * window (against `now`, `Math.floor(Date.now() / 1000)`), then the user.
   */
  function Authenticate(header: Option<string>, botToken: string, now: int, p: Platform): AuthResult {
    if header.None? || header.value == "" || !StartsWith(header.value, "tma ") then Unauthorized(MissingHeader)
    else
      var params := p.parseQuery(header.value[4..]);
      var hash := GetParam(params, "hash");
      var rest := DeleteParam(params, "hash");
      if hash != Some(ExpectedHash(params, botToken, p)) then Unauthorized(InvalidHash)
      else if !Fresh(GetParam(rest, "auth_date"), now) then Unauthorized(Outdated)
      else UserOf(GetParam(rest, "user"), p.parseJson)
  }

  /** The `URLSearchParams` object the middleware builds and then edits with `delete`. */
  class SearchParams {
    var entries: seq<Param>

    constructor(entries: seq<Param>)
      ensures this.entries == entries
    {
      this.entries := entries;
    }

    method Delete(name: string)
      modifies this
      ensures entries == DeleteParam(old(entries), name)
    {
      entries := DeleteParam(entries, name);
    }
  }

  /** The request context; the middleware's `c.set('userId', ...)` writes `userId`. */
  class RequestContext {
    var userId: Option<Json>

    constructor()
      ensures userId == None
    {
      userId := None;
    }
  }

  /**
   * The middleware as the handler runs it: it reads the parameters, deletes
   * `hash` from them in place, signs what is left, and sets `userId` only
   * when every check passes.
   */
  method AuthMiddleware(c: RequestContext, header: Option<string>, botToken: string, now: int, p: Platform)
    returns (r: AuthResult, answer: Option<ApiResponse>)
    modifies c
    ensures r == Authenticate(header, botToken, now, p)
    ensures answer == MiddlewareAnswer(r)
    ensures c.userId == if r.Authorized? then Some(r.userId) else old(c.userId)
  {
    RejectionTexts();
    if header.None? || header.value == "" || !StartsWith(header.value, "tma ") {
      return Unauthorized(MissingHeader), Some(HttpError(401, "Unauthorized"));
    }
    var initData := header.value[4..];
    ghost var query := p.parseQuery(initData);
    var params := new SearchParams(p.parseQuery(initData));
    var hash := GetParam(params.entries, "hash");
    params.Delete("hash");
    var rest := params.entries;
    assert rest == DeleteParam(query, "hash");
    var dataCheckString := Join(Lines(SortBy(rest, KeyBefore(p.localeCompare))), "\n");
    assert dataCheckString == DataCheckString(query, p.localeCompare);
    var secret := p.hmacSha256(p.utf8("WebAppData"), p.utf8(botToken));
    var hexHash := Hex(p.hmacSha256(secret, p.utf8(dataCheckString)));
    assert hexHash == ExpectedHash(query, botToken, p);
    if Some(hexHash) != hash {
      return Unauthorized(InvalidHash), Some(HttpError(401, "Unauthorized: Invalid hash"));
    }
    var authDate := GetParam(rest, "auth_date");
    var recent := true;
    if authDate.Some? && authDate.value != "" {
      var d := ParseInt10(authDate.value);
      recent := d.None? || now - d.value <= MaxAgeSeconds;
    }
    assert recent == Fresh(authDate, now);
    if !recent {
      return Unauthorized(Outdated), Some(HttpError(401, "Unauthorized: Outdated request"));
    }
    r := UserOf(GetParam(rest, "user"), p.parseJson);
    if r.Authorized? {
      c.userId := Some(r.userId);
    }
    answer := MiddlewareAnswer(r);
  }

  // ---------------------------------------------------------------------------
  // The routes behind the middleware

  /** A journey as `GET /journeys` returns it (`SELECT id, start_time, end_time, distance, avg_speed`). */
  datatype JourneyView = JourneyView(id: nat, startTime: int, endTime: Option<int>, distance: Option<real>, avgSpeed: Option<real>)

  /** A coordinate as `GET /journeys/:id/coordinates` returns it. */
  datatype CoordinateView = CoordinateView(latitude: real, longitude: real, timestamp: int, heading: Option<real>, horizontalAccuracy: Option<real>)

  datatype ApiResponse =
    | JourneyRows(journeys: seq<JourneyView>)
    | CoordinateRows(coordinates: seq<CoordinateView>)
    | HttpError(status: nat, message: string)

  /** `user_id = ?` bound to the context's user id: it matches when that id is the row's number. */
  predicate MatchesUser(rowUserId: real, userId: Json) {
    userId == JNumber(rowUserId)
  }

  function ViewOfJourney(j: Journey): JourneyView {
    JourneyView(j.id, j.startTime, j.endTime, j.distance, j.avgSpeed)
  }

  function ViewOfCoordinate(c: Coordinate): CoordinateView {
    CoordinateView(c.latitude, c.longitude, c.timestamp, c.heading, c.horizontalAccuracy)
  }

  /** The user's journeys in table order. */
  function UserJourneys(js: seq<Journey>, userId: Json): (r: seq<JourneyView>)
    ensures forall v :: v in r <==> exists j :: j in js && MatchesUser(j.userId, userId) && v == ViewOfJourney(j)
  {
    if |js| == 0 then []
    else
      var last := js[|js| - 1];
      assert forall j :: j in js <==> j in js[..|js| - 1] || j == last;
      UserJourneys(js[..|js| - 1], userId) + (if MatchesUser(last.userId, userId) then [ViewOfJourney(last)] else [])
  }

  /** `SELECT id FROM journey WHERE id = ? AND user_id = ?` has a row. */
  predicate Owns(js: seq<Journey>, journeyId: nat, userId: Json) {
    exists k :: 0 <= k < |js| && js[k].id == journeyId && MatchesUser(js[k].userId, userId)
  }

  function CoordinateViews(cs: seq<Coordinate>): (r: seq<CoordinateView>)
    ensures |r| == |cs| && forall k :: 0 <= k < |cs| ==> r[k] == ViewOfCoordinate(cs[k])
  {
    seq(|cs|, k requires 0 <= k < |cs| => ViewOfCoordinate(cs[k]))
  }

  /** `GET /journeys`: always scoped by the authenticated user; a storage failure is a 500. */
  method GetJourneys(db: Database, userId: Json, fault: bool) returns (resp: ApiResponse)
    ensures fault ==> resp == HttpError(500, "Failed to fetch journeys")
    ensures !fault ==> resp == JourneyRows(UserJourneys(db.journeys, userId))
    ensures !fault ==> forall v :: v in resp.journeys ==>
      exists j :: j in db.journeys && MatchesUser(j.userId, userId) && v == ViewOfJourney(j)
  {
    if fault {
      return HttpError(500, "Failed to fetch journeys");
    }
    var rows: seq<JourneyView> := [];
    var i := 0;
    while i < |db.journeys|
      invariant 0 <= i <= |db.journeys|
      invariant rows == UserJourneys(db.journeys[..i], userId)
    {
      assert db.journeys[..i + 1][..i] == db.journeys[..i];
      var j := db.journeys[i];
      if MatchesUser(j.userId, userId) {
        rows := rows + [ViewOfJourney(j)];
      }
      i := i + 1;
    }
    assert db.journeys[..i] == db.journeys;
    return JourneyRows(rows);
  }

  /**
   * `GET /journeys/:id/coordinates`: 404 unless the journey exists and
   * belongs to the user; then that journey's coordinates in table order.
   * Either query failing is a 500.
   */
  method GetJourneyCoordinates(db: Database, userId: Json, journeyId: nat, ownershipFault: bool, fetchFault: bool)
    returns (resp: ApiResponse)
    ensures ownershipFault ==> resp == HttpError(500, "Failed to fetch coordinates")
    ensures !ownershipFault && !Owns(db.journeys, journeyId, userId) ==>
      resp == HttpError(404, "Journey not found or does not belong to the user")
    ensures !ownershipFault && Owns(db.journeys, journeyId, userId) && fetchFault ==>
      resp == HttpError(500, "Failed to fetch coordinates")
    ensures !ownershipFault && Owns(db.journeys, journeyId, userId) && !fetchFault ==>
      resp == CoordinateRows(CoordinateViews(TraceOf(db.coordinates, journeyId)))
  {
    if ownershipFault {
      return HttpError(500, "Failed to fetch coordinates");
    }
    var found := false;
    var i := 0;
    while i < |db.journeys|
      invariant 0 <= i <= |db.journeys|
      invariant found <==> exists k :: 0 <= k < i && db.journeys[k].id == journeyId && MatchesUser(db.journeys[k].userId, userId)
    {
      if db.journeys[i].id == journeyId && MatchesUser(db.journeys[i].userId, userId) {
        found := true;
      }
      i := i + 1;
    }
    if !found {
      return HttpError(404, "Journey not found or does not belong to the user");
    }
    if fetchFault {
      return HttpError(500, "Failed to fetch coordinates");
    }
    return CoordinateRows(CoordinateViews(TraceOf(db.coordinates, journeyId)));
  }

  // ---------------------------------------------------------------------------
  // Properties

  /** `toString(16)` of a byte, padded to two characters with `0`, is its two nibbles. */
  lemma HexByteIsPaddedToString(b: byte)
    ensures PadStart(NatToString(b, 16), 2, '0') == HexByte(b)
  {
    HexOfByteDigits(b);
    if b < 16 {
      assert DigitChar(0) == '0';
    }
  }

  /** Each byte prints as two lowercase hex digits. */
  lemma HexByteShape(b: byte)
    ensures |HexByte(b)| == 2
    ensures forall c | c in HexByte(b) :: IsLowerHexDigit(c)
  {
  }

  /** Two characters per byte. */
  lemma {:induction false} HexLength(bytes: seq<byte>)
    ensures |Hex(bytes)| == 2 * |bytes|
    decreases |bytes|
  {
    if |bytes| > 0 {
      HexByteShape(bytes[0]);
      HexLength(bytes[1..]);
    }
  }

  /** Every character is a lowercase hex digit. */
  lemma {:induction false} HexDigits(bytes: seq<byte>)
    ensures forall c | c in Hex(bytes) :: IsLowerHexDigit(c)
    decreases |bytes|
  {
    if |bytes| > 0 {
      HexByteShape(bytes[0]);
      HexDigits(bytes[1..]);
      assert Hex(bytes) == HexByte(bytes[0]) + Hex(bytes[1..]);
    }
  }

  /** The digest text is two lowercase hex digits per byte. */
  lemma HexShape(bytes: seq<byte>)
    ensures |Hex(bytes)| == 2 * |bytes|
    ensures forall c | c in Hex(bytes) :: IsLowerHexDigit(c)
  {
    HexLength(bytes);
    HexDigits(bytes);
  }

  /** `Unhex` reads the first two digits, then the rest. */
  lemma UnhexCons(c0: char, c1: char, s: string)
    requires 0 <= DigitValue(c0) && 0 <= DigitValue(c1)
    ensures Unhex([c0, c1] + s) == if Unhex(s).None? then None else Some([DigitValue(c0) * 16 + DigitValue(c1)] + Unhex(s).value)
  {
    assert ([c0, c1] + s)[2..] == s;
  }

  /** `Unhex` undoes `Hex`. */
  lemma {:induction false} HexRoundTrip(bytes: seq<byte>)
    ensures Unhex(Hex(bytes)) == Some(bytes)
    decreases |bytes|
  {
    if |bytes| > 0 {
      var b, rest := bytes[0], bytes[1..];
      var c0, c1 := DigitChar(b / 16), DigitChar(b % 16);
      assert Hex(bytes) == [c0, c1] + Hex(rest);
      HexRoundTrip(rest);
      UnhexCons(c0, c1, Hex(rest));
      assert [b] + rest == bytes;
    }
  }

  /** Different digests never print as the same hex text. */
  lemma HexInjective(a: seq<byte>, b: seq<byte>)
    ensures Hex(a) == Hex(b) <==> a == b
  {
    if Hex(a) == Hex(b) {
      HexRoundTrip(a);
      HexRoundTrip(b);
    }
  }

  /** What `localeCompare` must be for the sort to be a sort: a strict order on keys. */
  ghost predicate StrictKeyOrder(localeCompare: (string, string) -> int) {
    && (forall x :: !(localeCompare(x, x) < 0))
    && (forall x, y, z :: localeCompare(x, y) < 0 && localeCompare(y, z) < 0 ==> localeCompare(x, z) < 0)
  }

  lemma KeyOrderStrict(localeCompare: (string, string) -> int)
    requires StrictKeyOrder(localeCompare)
    ensures StrictOrder(KeyBefore(localeCompare))
  {
    var before := KeyBefore(localeCompare);
    forall a: Param ensures !before(a, a) {
      assert !(localeCompare(a.0, a.0) < 0);
    }
    forall a: Param, b: Param, c: Param | before(a, b) && before(b, c) ensures before(a, c) {
      assert localeCompare(a.0, b.0) < 0 && localeCompare(b.0, c.0) < 0;
    }
  }

  /**
   * The signed entries are exactly the pairs other than `hash`, each as often
   * as it was sent, sorted by key.
   */
  lemma SignedEntries(params: seq<Param>, localeCompare: (string, string) -> int)
    requires StrictKeyOrder(localeCompare)
    ensures forall q :: q in CheckEntries(params, localeCompare) <==> q in params && q.0 != "hash"
    ensures forall q :: multiset(CheckEntries(params, localeCompare))[q] == if q.0 == "hash" then 0 else multiset(params)[q]
    ensures SortedBy(CheckEntries(params, localeCompare), KeyBefore(localeCompare))
  {
    var before := KeyBefore(localeCompare);
    KeyOrderStrict(localeCompare);
    SortBySorted(DeleteParam(params, "hash"), before);
  }

  /**
   * The data-check string does not depend on the order the client sent the
   * pairs in, when the keys are distinct and `localeCompare` ranks any two
   * different keys.
   */
  lemma DataCheckStringCanonical(p1: seq<Param>, p2: seq<Param>, localeCompare: (string, string) -> int)
    requires StrictKeyOrder(localeCompare)
    requires forall x, y :: x != y ==> localeCompare(x, y) < 0 || localeCompare(y, x) < 0
    requires forall i, j :: 0 <= i < j < |p1| ==> p1[i].0 != p1[j].0
    requires multiset(p1) == multiset(p2)
    ensures DataCheckString(p1, localeCompare) == DataCheckString(p2, localeCompare)
  {
    var e1, e2 := CheckEntries(p1, localeCompare), CheckEntries(p2, localeCompare);
    SignedMultisets(p1, p2, localeCompare);
    SignedEntries(p1, localeCompare);
    SignedEntries(p2, localeCompare);
    DistinctKeysRanked(e1, p1, localeCompare);
    SortedUnique(e1, e2, KeyBefore(localeCompare));
  }

  /** Lists with the same pairs sign the same pairs. */
  lemma SignedMultisets(p1: seq<Param>, p2: seq<Param>, localeCompare: (string, string) -> int)
    requires StrictKeyOrder(localeCompare)
    requires multiset(p1) == multiset(p2)
    ensures multiset(CheckEntries(p1, localeCompare)) == multiset(CheckEntries(p2, localeCompare))
  {
    var e1, e2 := CheckEntries(p1, localeCompare), CheckEntries(p2, localeCompare);
    SignedEntries(p1, localeCompare);
    SignedEntries(p2, localeCompare);
    forall q ensures multiset(e1)[q] == multiset(e2)[q] {
      assert multiset(p1)[q] == multiset(p2)[q];
    }
  }

  /** Different pairs drawn from a list with distinct keys are ranked one way or the other. */
  lemma DistinctKeysRanked(e: seq<Param>, params: seq<Param>, localeCompare: (string, string) -> int)
    requires forall x, y :: x != y ==> localeCompare(x, y) < 0 || localeCompare(y, x) < 0
    requires forall i, j :: 0 <= i < j < |params| ==> params[i].0 != params[j].0
    requires forall q :: q in e ==> q in params
    ensures forall x, y :: x in e && y in e && x != y ==> KeyBefore(localeCompare)(x, y) || KeyBefore(localeCompare)(y, x)
  {
    forall x, y | x in e && y in e && x != y
      ensures localeCompare(x.0, y.0) < 0 || localeCompare(y.0, x.0) < 0
    {
      var i :| 0 <= i < |params| && params[i] == x;
      var j :| 0 <= j < |params| && params[j] == y;
      assert i != j;
      assert x.0 != y.0;
    }
  }

  /** The window is one hour: an `auth_date` of `d` passes at `now` exactly when `now - d <= 3600`; an unreadable one always passes. */
  lemma FreshnessWindow(authDate: int, now: int)
    ensures Fresh(Some(IntToString(authDate)), now) <==> now - authDate <= MaxAgeSeconds
    ensures forall s :: ParseInt10(s).None? ==> Fresh(Some(s), now)
  {
    var text := IntToString(authDate);
    ParseIntRoundTrip(authDate);
    assert ParseInt10(text) == Some(authDate);
    assert text != "" by {
      assert ParseInt10("").None?;
    }
  }

  /** The user is accepted exactly when `user` is a non-empty JSON object with a truthy `id`, and that `id` is the result. */
  lemma UserAccepted(userString: Option<string>, parseJson: string -> Option<Json>, u: Json)
    ensures UserOf(userString, parseJson) == Authorized(u) <==>
      && userString.Some? && userString.value != ""
      && parseJson(userString.value).Some? && parseJson(userString.value).value.JObject?
      && "id" in parseJson(userString.value).value.fields
      && u == parseJson(userString.value).value.fields["id"]
      && Truthy(Some(u))
  {
  }

  /**
   * A request is authorized exactly when the header is `tma <initData>`, the
   * sent hash is the expected one, `auth_date` is fresh and `user` holds
   * a usable id; the checks read the parameters as sent.
   */
  lemma AuthorizedWhen(header: Option<string>, botToken: string, now: int, p: Platform, u: Json)
    ensures Authenticate(header, botToken, now, p) == Authorized(u) <==>
      && header.Some? && StartsWith(header.value, "tma ")
      && var params := p.parseQuery(header.value[4..]);
      && GetParam(params, "hash") == Some(ExpectedHash(params, botToken, p))
      && Fresh(GetParam(params, "auth_date"), now)
      && UserOf(GetParam(params, "user"), p.parseJson) == Authorized(u)
  {
    if header.Some? && StartsWith(header.value, "tma ") {
      var params := p.parseQuery(header.value[4..]);
      GetAfterDelete(params, "hash", "auth_date");
      GetAfterDelete(params, "hash", "user");
    }
  }

  /** Keyed with the bot's secret, a digest over another string prints differently. */
  lemma ForgedDigestDiffers(params: seq<Param>, botToken: string, p: Platform, forged: string)
    requires forall a, b :: p.utf8(a) == p.utf8(b) ==> a == b
    requires forall k, m1, m2 :: p.hmacSha256(k, m1) == p.hmacSha256(k, m2) ==> m1 == m2
    requires forged != DataCheckString(params, p.localeCompare)
    ensures Hex(p.hmacSha256(p.hmacSha256(p.utf8("WebAppData"), p.utf8(botToken)), p.utf8(forged)))
      != ExpectedHash(params, botToken, p)
  {
    var secret := p.hmacSha256(p.utf8("WebAppData"), p.utf8(botToken));
    var signed := DataCheckString(params, p.localeCompare);
    var sent, expected := p.hmacSha256(secret, p.utf8(forged)), p.hmacSha256(secret, p.utf8(signed));
    assert p.utf8(forged) != p.utf8(signed);
    assert sent != expected;
    HexInjective(sent, expected);
  }

  /**
   * A hash made over any other data-check string is refused, as long as the
   * encoder and the keyed HMAC are injective.
   */
  lemma ForgedHashRejected(header: string, botToken: string, now: int, p: Platform, forged: string)
    requires StartsWith(header, "tma ")
    requires forall a, b :: p.utf8(a) == p.utf8(b) ==> a == b
    requires forall k, m1, m2 :: p.hmacSha256(k, m1) == p.hmacSha256(k, m2) ==> m1 == m2
    requires forged != DataCheckString(p.parseQuery(header[4..]), p.localeCompare)
    requires GetParam(p.parseQuery(header[4..]), "hash")
      == Some(Hex(p.hmacSha256(p.hmacSha256(p.utf8("WebAppData"), p.utf8(botToken)), p.utf8(forged))))
    ensures Authenticate(Some(header), botToken, now, p) == Unauthorized(InvalidHash)
    ensures MiddlewareAnswer(Authenticate(Some(header), botToken, now, p)) == Some(HttpError(401, "Unauthorized: Invalid hash"))
  {
    ForgedDigestDiffers(p.parseQuery(header[4..]), botToken, p, forged);
  }

  /**
   * The checks run in order and the first failing one names the rejection:
   * a bad header before anything else, a wrong or missing hash before
   * freshness, a stale `auth_date` before the user.
   */
  lemma RejectionOrder(header: Option<string>, botToken: string, now: int, p: Platform)
    ensures header.None? || !StartsWith(header.value, "tma ") ==>
      Authenticate(header, botToken, now, p) == Unauthorized(MissingHeader)
    ensures header.Some? && StartsWith(header.value, "tma ") ==>
      var params := p.parseQuery(header.value[4..]);
      var r := Authenticate(header, botToken, now, p);
      && (GetParam(params, "hash") != Some(ExpectedHash(params, botToken, p)) ==> r == Unauthorized(InvalidHash))
      && (GetParam(params, "hash") == Some(ExpectedHash(params, botToken, p)) && !Fresh(GetParam(params, "auth_date"), now)
          ==> r == Unauthorized(Outdated))
      && (GetParam(params, "hash") == Some(ExpectedHash(params, botToken, p)) && Fresh(GetParam(params, "auth_date"), now)
          ==> r == UserOf(GetParam(params, "user"), p.parseJson))
  {
    if header.Some? && StartsWith(header.value, "tma ") {
      var params := p.parseQuery(header.value[4..]);
      GetAfterDelete(params, "hash", "auth_date");
      GetAfterDelete(params, "hash", "user");
    }
  }
}
