/** The request rules of the API server (server/index.js): JSON-field
    parsing, bearer-token extraction, the CORS origin test, the registration
    and settings validators, the owner/admin access rules, the three-slot
    preview-image array, and the like/follow tables.

    The database, `JSON.parse` and `jwt.verify` are not modelled: rows are
    parameters, and the two library calls are functions passed in. */
module Server {
  import opened TextUtil

  // ---------------------------------------------------------------------
  // JavaScript values
  // ---------------------------------------------------------------------

  /** The JavaScript values a request or a database row can carry. Array
      holes read as `JsUndefined`. */
  datatype JsValue =
    | JsUndefined
    | JsNull
    | JsBool(b: bool)
    | JsNum(n: real)
    | JsStr(s: string)
    | JsArr(items: seq<JsValue>)
    | JsObj(fields: seq<(string, JsValue)>)

  /** JavaScript's falsy values (NaN is not modelled). */
  predicate IsFalsy(v: JsValue)
  {
    v == JsUndefined || v == JsNull || v == JsBool(false) || v == JsNum(0.0) || v == JsStr("")
  }

  // ---------------------------------------------------------------------
  // parseJSONField
  // ---------------------------------------------------------------------

  /** `parseJSONField(field, fallback)`: the field itself when it is an
      array, the parsed array when it is a string holding JSON for an array,
      and the fallback otherwise. `parse` stands for `JSON.parse`, with
      `None` for a syntax error. */
  function ParseJsonField(field: JsValue, fallback: seq<JsValue>, parse: string -> Option<JsValue>)
    : (r: seq<JsValue>)
    ensures IsFalsy(field) ==> r == fallback
    ensures field.JsArr? ==> r == field.items
    ensures !field.JsArr? && !field.JsStr? ==> r == fallback
  {
    if IsFalsy(field) then fallback
    else if field.JsArr? then field.items
    else if field.JsStr? then
      match parse(field.s)
      case Some(JsArr(xs)) => xs
      case _ => fallback
    else fallback
  }

  /** Anything other than the fallback was either the field itself, an
      array, or the array a non-empty string parses to. */
  lemma ParseJsonFieldSource(field: JsValue, fallback: seq<JsValue>, parse: string -> Option<JsValue>)
    ensures var r := ParseJsonField(field, fallback, parse);
            r == fallback
            || (field.JsArr? && r == field.items)
            || (field.JsStr? && field.s != "" && parse(field.s) == Some(JsArr(r)))
  {
  }

  /** A string that parses to something other than an array, or does not
      parse at all, gives the fallback. */
  lemma ParseJsonFieldRejects(text: string, fallback: seq<JsValue>, parse: string -> Option<JsValue>)
    requires parse(text).None? || !parse(text).value.JsArr?
    ensures ParseJsonField(JsStr(text), fallback, parse) == fallback
  {
  }

  // ---------------------------------------------------------------------
  // parseInt
  // ---------------------------------------------------------------------

  predicate IsHexDigit(ch: char)
  {
    IsDigit(ch) || 'a' <= ch <= 'f' || 'A' <= ch <= 'F'
  }

  function HexDigitValue(ch: char): (r: nat)
    requires IsHexDigit(ch)
    ensures r < 16
  {
    if IsDigit(ch) then ch as int - '0' as int
    else if 'a' <= ch <= 'f' then ch as int - 'a' as int + 10
    else ch as int - 'A' as int + 10
  }

  /** The longest prefix of `s` made of decimal digits. */
  function DecimalPrefix(s: string): (r: string)
    ensures r <= s && AllDigits(r)
    ensures |r| < |s| ==> !IsDigit(s[|r|])
  {
    if s != [] && IsDigit(s[0]) then [s[0]] + DecimalPrefix(s[1..]) else []
  }

  /** The longest prefix of `s` made of hexadecimal digits. */
  function HexPrefix(s: string): (r: string)
    ensures r <= s && forall i :: 0 <= i < |r| ==> IsHexDigit(r[i])
    ensures |r| < |s| ==> !IsHexDigit(s[|r|])
  {
    if s != [] && IsHexDigit(s[0]) then [s[0]] + HexPrefix(s[1..]) else []
  }

  function HexValue(s: string): nat
    requires forall i :: 0 <= i < |s| ==> IsHexDigit(s[i])
  {
    if s == [] then 0 else HexValue(s[..|s| - 1]) * 16 + HexDigitValue(s[|s| - 1])
  }

  /** The magnitude `parseInt` reads after the sign: hexadecimal after a
      `0x`/`0X` prefix, decimal otherwise; `None` (NaN) without digits. */
  function Magnitude(u: string): Option<nat>
  {
    if |u| >= 2 && u[0] == '0' && (u[1] == 'x' || u[1] == 'X') then
      var h := HexPrefix(u[2..]);
      if h == [] then None else Some(HexValue(h))
    else
      var d := DecimalPrefix(u);
      if d == [] then None else Some(DigitsValue(d))
  }

  /** `parseInt(s)` with no radix; `None` stands for NaN. Leading whitespace
      and one sign are skipped, and reading stops at the first character
      that is not a digit. */
  function ParseInt(s: string): (r: Option<int>)
    ensures r.Some? ==> Magnitude(Unsigned(TrimStart(s))).Some?
    ensures Magnitude(Unsigned(TrimStart(s))).Some? ==> r.Some?
  {
    var t := TrimStart(s);
    match Magnitude(Unsigned(t))
    case None => None
    case Some(v) =>
      var n: int := if t != [] && t[0] == '-' then 0 - (v as int) else v as int;
      Some(n)
  }

  /** The text after an optional leading sign. */
  function Unsigned(t: string): (r: string)
    ensures r == t || (t != [] && r == t[1..] && (t[0] == '-' || t[0] == '+'))
  {
    if t != [] && (t[0] == '-' || t[0] == '+') then t[1..] else t
  }

  /** A whole decimal numeral is its own digit prefix. */
  lemma {:induction false} DecimalPrefixOfDigits(s: string)
    requires AllDigits(s)
    ensures DecimalPrefix(s) == s
  {
    if s != [] {
      DecimalPrefixOfDigits(s[1..]);
      assert [s[0]] + s[1..] == s;
    }
  }

  /** `parseInt` reads back what `toString` prints for a natural number. */
  lemma ParseIntOfNat(n: nat)
    ensures ParseInt(NatToString(n)) == Some(n)
  {
    var s := NatToString(n);
    assert !IsWhitespace(s[0]);
    assert TrimStart(s) == s;
    assert Unsigned(s) == s;
    DecimalPrefixOfDigits(s);
    DigitsValueOfNatToString(n);
    assert !(|s| >= 2 && s[1] == 'x') && !(|s| >= 2 && s[1] == 'X');
  }

  /** `parseInt(x) || 0`: NaN (and an absent field) count as 0. */
  function SlotOrZero(field: Option<string>): (r: int)
    ensures field.None? ==> r == 0
    ensures field.Some? && ParseInt(field.value).None? ==> r == 0
    ensures field.Some? && ParseInt(field.value).Some? ==> r == ParseInt(field.value).value
  {
    if field.None? then 0
    else match ParseInt(field.value)
      case None => 0
      case Some(v) => v
  }

  // ---------------------------------------------------------------------
  // Authentication
  // ---------------------------------------------------------------------

  /** The `authorization` header's token: the second space-separated field,
      which must be non-empty. The scheme word is not checked. */
  function TokenOf(header: Option<string>): (r: Option<string>)
    ensures r.Some? ==> header.Some? && |Split(header.value, ' ')| >= 2
                        && r.value == Split(header.value, ' ')[1]
    ensures r.Some? ==> r.value != "" && ' ' !in r.value
    ensures header.Some? && |Split(header.value, ' ')| >= 2 && Split(header.value, ' ')[1] != ""
            ==> r.Some?
  {
    if header.None? || header.value == "" then None
    else
      var parts := Split(header.value, ' ');
      if |parts| < 2 || parts[1] == "" then None else Some(parts[1])
  }

  /** `Bearer <token>` (or any other scheme word) yields the token. */
  lemma TokenOfScheme(scheme: string, token: string)
    requires ' ' !in scheme && ' ' !in token && token != ""
    ensures TokenOf(Some(scheme + " " + token)) == Some(token)
  {
    SplitAround(scheme, token, ' ');
    SplitNoSeparator(scheme, ' ');
    SplitNoSeparator(token, ' ');
    assert scheme + " " + token == scheme + [' '] + token;
  }

  /** A header without a space (a bare scheme word or a bare token) gives no
      token. */
  lemma NoSpaceNoToken(header: string)
    requires ' ' !in header
    ensures TokenOf(Some(header)) == None
  {
    SplitNoSeparator(header, ' ');
  }

  /** The JWT payload fields the server reads. */
  datatype User = User(id: int, isAdmin: JsValue)

  /** The answer of `authenticateToken`/`authenticateAdmin`. */
  datatype AuthResult = Unauthorized401 | Forbidden403 | Authenticated(user: User)

  /** `authenticateToken`: 401 without a token, 403 when `verify` (standing
      for `jwt.verify` with the server's secret) rejects it. */
  function Authenticate(header: Option<string>, verify: string -> Option<User>): (r: AuthResult)
    ensures r == Unauthorized401 <==> TokenOf(header).None?
    ensures r == Forbidden403 <==> TokenOf(header).Some? && verify(TokenOf(header).value).None?
    ensures r.Authenticated? ==> Some(r.user) == verify(TokenOf(header).value)
  {
    match TokenOf(header)
    case None => Unauthorized401
    case Some(token) =>
      match verify(token)
      case None => Forbidden403
      case Some(u) => Authenticated(u)
  }

  /** `authenticateAdmin`: an authenticated user whose `is_admin` is truthy
      (`is_admin === 1` adds nothing, since 1 is truthy). */
  function AuthenticateAdmin(header: Option<string>, verify: string -> Option<User>): (r: AuthResult)
    ensures r.Authenticated? <==> Authenticate(header, verify).Authenticated?
                                  && !IsFalsy(Authenticate(header, verify).user.isAdmin)
    ensures r.Authenticated? ==> r == Authenticate(header, verify)
    ensures r == Unauthorized401 <==> TokenOf(header).None?
  {
    match Authenticate(header, verify)
    case Authenticated(u) => if !IsFalsy(u.isAdmin) then Authenticated(u) else Forbidden403
    case other => other
  }

  // ---------------------------------------------------------------------
  // CORS
  // ---------------------------------------------------------------------

  const DefaultOrigin: string := "http://localhost:5173"

  /** `ALLOWED_ORIGINS` split on commas (pieces are not trimmed), or the
      development origin when the variable is unset or empty. */
  function AllowedOrigins(env: Option<string>): (r: seq<string>)
    ensures env.None? || env == Some("") ==> r == [DefaultOrigin]
    ensures env.Some? && env.value != "" ==> r == Split(env.value, ',')
  {
    if env.None? || env.value == "" then [DefaultOrigin] else Split(env.value, ',')
  }

  /** The origin callback: requests without an Origin (or with an empty
      one) pass, others must be listed exactly. */
  predicate OriginAllowed(origin: Option<string>, allowed: seq<string>)
  {
    origin.None? || origin.value == "" || origin.value in allowed
  }

  /** Every configured origin is allowed, and an origin containing a comma
      never is, since the list pieces contain none. */
  lemma ConfiguredOrigins(env: string, o: string)
    requires env != ""
    ensures o in Split(env, ',') ==> OriginAllowed(Some(o), AllowedOrigins(Some(env)))
    ensures ',' in o ==> !OriginAllowed(Some(o), AllowedOrigins(Some(env)))
  {
  }

  /** Without configuration only the development origin (and requests
      without an origin) pass. */
  lemma DefaultOriginsOnly(env: Option<string>, o: string)
    requires env.None? || env == Some("")
    requires o != ""
    ensures OriginAllowed(Some(o), AllowedOrigins(env)) <==> o == DefaultOrigin
  {
  }

  // ---------------------------------------------------------------------
  // Validators
  // ---------------------------------------------------------------------

  predicate IsAsciiLetter(ch: char) { IsAsciiLower(ch) || IsAsciiUpper(ch) }

  /** One of the special characters both server regexes require: `@#$%&`. */
  predicate IsServerSpecial(ch: char)
  {
    ch == '@' || ch == '#' || ch == '$' || ch == '%' || ch == '&'
  }

  predicate HasChar(s: string, p: char -> bool)
  {
    exists i :: 0 <= i < |s| && p(s[i])
  }

  /** `/^(?=.*[a-z])(?=.*\d)[a-z0-9]{6,}$/` */
  predicate UsernameOk(u: string)
  {
    |u| >= 6
    && (forall i :: 0 <= i < |u| ==> IsAsciiLower(u[i]) || IsDigit(u[i]))
    && HasChar(u, IsAsciiLower) && HasChar(u, IsDigit)
  }

  /** `/^(?=.*[a-zA-Z])(?=.*\d)(?=.*[@#$%&])[a-zA-Z\d@#$%&]{8,}$/` */
  predicate PasswordOk(p: string)
  {
    |p| >= 8
    && (forall i :: 0 <= i < |p| ==> IsAsciiLetter(p[i]) || IsDigit(p[i]) || IsServerSpecial(p[i]))
    && HasChar(p, IsAsciiLetter) && HasChar(p, IsDigit) && HasChar(p, IsServerSpecial)
  }

  datatype RegisterCheck = BadUsername400 | BadPassword400 | Accepted(username: string)

  /** The checks of `POST /api/auth/register`, in order: the username is
      lower-cased first, then validated, then the password. */
  function RegisterChecks(username: string, password: string): (r: RegisterCheck)
    ensures r.Accepted? <==> UsernameOk(ToLower(username)) && PasswordOk(password)
    ensures r == BadUsername400 <==> !UsernameOk(ToLower(username))
    ensures r.Accepted? ==> r.username == ToLower(username)
  {
    var u := ToLower(username);
    if !UsernameOk(u) then BadUsername400
    else if !PasswordOk(password) then BadPassword400
    else Accepted(u)
  }

  /** How the register handler ends for the `username` field as sent. */
  datatype RegisterOutcome = RegisterThrows | Checked(check: RegisterCheck)

  /** `POST /api/auth/register` on the body's `username` field (`JsUndefined`
      when absent). `toLowerCase` is called before the `try`, so a missing
      or non-string username throws a `TypeError` and neither 400 is sent;
      a string goes through `RegisterChecks`. */
  function RegisterRequest(username: JsValue, password: string): (r: RegisterOutcome)
    ensures r == RegisterThrows <==> !username.JsStr?
    ensures r.Checked? ==> r.check == RegisterChecks(username.s, password)
  {
    match username
    case JsStr(u) => Checked(RegisterChecks(u, password))
    case _ => RegisterThrows
  }

  /** An accepted username is already lower-case, so registering it in any
      letter case stores the same name. */
  lemma AcceptedUsernameIsLower(u: string)
    requires UsernameOk(u)
    ensures ToLower(u) == u
  {
  }

  /** `PUT /api/users/settings`: an empty (or absent) password is skipped;
      any other must pass the registration password rule. */
  predicate SettingsPasswordOk(password: Option<string>)
  {
    password.None? || password.value == "" || PasswordOk(password.value)
  }

  // ---------------------------------------------------------------------
  // Access rules
  // ---------------------------------------------------------------------

  /** A project row as the access checks read it. */
  datatype ProjectRow = ProjectRow(ownerId: int, isPublic: JsValue)

  datatype ReadResult = NotFound404 | Denied403 | Visible(row: ProjectRow)

  /** `GET /api/projects/:id`: `viewer` is the id decoded from a valid token
      (`None` without one). Public projects are readable by anyone; private
      ones only by their owner, whose id must be truthy (non-zero). */
  function ReadProject(row: Option<ProjectRow>, viewer: Option<int>): (r: ReadResult)
    ensures row.None? <==> r == NotFound404
    ensures r.Visible? ==> Some(r.row) == row
    ensures row.Some? ==>
              (r.Visible? <==> !IsFalsy(row.value.isPublic)
                               || (viewer.Some? && viewer.value != 0 && viewer.value == row.value.ownerId))
  {
    if row.None? then NotFound404
    else if !IsFalsy(row.value.isPublic) || (viewer.Some? && viewer.value != 0 && row.value.ownerId == viewer.value)
    then Visible(row.value)
    else Denied403
  }

  /** A private project is hidden from everyone but its owner, and from
      anonymous requests. */
  lemma PrivateProjectHidden(row: ProjectRow, viewer: Option<int>)
    requires IsFalsy(row.isPublic)
    requires viewer.None? || viewer.value != row.ownerId
    ensures ReadProject(Some(row), viewer) == Denied403
  {
  }

  /** Deleting a project or a comment: its owner or an admin. */
  predicate MayDeleteOwned(ownerId: int, user: User)
  {
    ownerId == user.id || !IsFalsy(user.isAdmin)
  }

  /** Deleting a user: `target` is `parseInt` of the path id (`None` for
      NaN, which never equals an id, so only admins pass). */
  predicate MayDeleteUser(target: Option<int>, user: User)
  {
    target == Some(user.id) || !IsFalsy(user.isAdmin)
  }

  /** A non-admin can delete only what they own, and only themselves. */
  lemma NonAdminLimits(user: User, ownerId: int, target: Option<int>)
    requires IsFalsy(user.isAdmin)
    ensures MayDeleteOwned(ownerId, user) <==> ownerId == user.id
    ensures MayDeleteUser(target, user) <==> target == Some(user.id)
  {
  }

  // ---------------------------------------------------------------------
  // Preview-image slots
  // ---------------------------------------------------------------------

  /** Reading index `i` of a JavaScript array: `undefined` past the end. */
  function Get(a: seq<JsValue>, i: nat): JsValue
  {
    if i < |a| then a[i] else JsUndefined
  }

  /** The largest array index: keys from 2^32 - 1 on are plain properties. */
  const MaxArrayIndex: nat := 4294967294

  predicate IsArrayIndex(i: int)
  {
    0 <= i <= MaxArrayIndex
  }

  /** Writing index `i` of a JavaScript array: past the end the array grows
      and the gap holds holes. */
  function Put(a: seq<JsValue>, i: nat, v: JsValue): (r: seq<JsValue>)
    requires i <= MaxArrayIndex
    ensures |r| == if i < |a| then |a| else i + 1
    ensures Get(r, i) == v
    ensures forall j :: 0 <= j < |r| && j != i ==> Get(r, j) == Get(a, j)
    ensures forall j: nat :: j != i ==> Get(r, j) == Get(a, j)
    ensures i < |a| ==> r == a[i := v]
  {
    if i < |a| then a[i := v] else a + seq(i - |a|, _ => JsUndefined) + [v]
  }

  /** `slice(0, 3)` */
  function TakeThree(a: seq<JsValue>): (r: seq<JsValue>)
    ensures |r| <= 3 && r <= a
    ensures |a| <= 3 ==> r == a
  {
    if |a| <= 3 then a else a[..3]
  }

  datatype PreviewResult =
    | Rejected(code: nat)
    | Saved(urls: seq<JsValue>, legacy: JsValue)

  /** `a[key] = v` for an integer key: an array index is written as by
      `Put`; any other key (negative, or 2^32 - 1 and above) becomes a plain
      property, which neither `slice` nor `JSON.stringify` sees. */
  function Write(a: seq<JsValue>, key: int, v: JsValue): (r: seq<JsValue>)
    ensures IsArrayIndex(key) ==> r == Put(a, key, v)
    ensures !IsArrayIndex(key) ==> r == a
  {
    if IsArrayIndex(key) then Put(a, key, v) else a
  }

  /** The new slot array of an upload: the new image written under key
      `slot`, then at most three entries are kept. */
  function UploadSlots(a: seq<JsValue>, slot: int, url: string): (r: seq<JsValue>)
    ensures |r| <= 3
    ensures 0 <= slot < 3 ==> Get(r, slot) == JsStr(url) && |r| > slot
    ensures forall j: nat :: j < 3 && j != slot ==> Get(r, j) == Get(a, j)
    ensures !IsArrayIndex(slot) ==> r == TakeThree(a)
    ensures 3 <= slot <= MaxArrayIndex ==> |r| == 3
  {
    TakeThree(Write(a, slot, JsStr(url)))
  }

  /** `POST /api/projects/:id/preview`. `stored` is the `preview_urls`
      column of the caller's project, `None` when no project of theirs has
      that id. The `UPDATE` binds entry 0 as the legacy `preview_url`; the
      MySQL driver refuses an `undefined` bind parameter, and the `catch`
      answers 500 without saving. */
  function UploadPreviewSpec(file: Option<string>, slotField: Option<string>, stored: Option<JsValue>,
                             parse: string -> Option<JsValue>): (r: PreviewResult)
    ensures file.None? <==> r == Rejected(400)
    ensures file.Some? && stored.None? <==> r == Rejected(404)
    ensures file.Some? && stored.Some? ==>
              var urls := UploadSlots(ParseJsonField(stored.value, [], parse), SlotOrZero(slotField), file.value);
              r == if Get(urls, 0) == JsUndefined then Rejected(500) else Saved(urls, Get(urls, 0))
    ensures r.Saved? ==> r.legacy == Get(r.urls, 0) && r.legacy != JsUndefined
  {
    if file.None? then Rejected(400)
    else if stored.None? then Rejected(404)
    else
      var urls := UploadSlots(ParseJsonField(stored.value, [], parse), SlotOrZero(slotField), file.value);
      if Get(urls, 0) == JsUndefined then Rejected(500) else Saved(urls, Get(urls, 0))
  }

  /** An upload to slot 0 (or with no usable slot) is always saved, with the
      new image as the legacy one. */
  lemma UploadToFirstSlotSaved(url: string, stored: JsValue, parse: string -> Option<JsValue>)
    ensures var r := UploadPreviewSpec(Some(url), None, Some(stored), parse);
            r.Saved? && r.legacy == JsStr(url) && Get(r.urls, 0) == JsStr(url)
  {
  }

  /** The first upload of a new project into its second box fails: entry 0
      is a hole, so the `UPDATE` is refused and nothing is saved. */
  lemma FirstUploadToSecondSlotFails(url: string, parse: string -> Option<JsValue>)
    ensures UploadPreviewSpec(Some(url), Some("1"), Some(JsNull), parse) == Rejected(500)
  {
    ParseIntOfNat(1);
    assert NatToString(1) == "1";
    assert UploadSlots([], 1, url) == [JsUndefined, JsStr(url)];
  }

  /** An upload to a slot of 3 or more is accepted but the image is lost:
      the array written back holds the old first entries. Below 2^32 - 1
      the write pads it with holes (saved as JSON `null`) to three; from
      there on the key is no index and the array is only cut. */
  lemma UploadBeyondThreeIsLost(a: seq<JsValue>, slot: int, url: string)
    requires slot >= 3
    ensures var r := UploadSlots(a, slot, url);
            |r| == (if slot <= MaxArrayIndex || |a| >= 3 then 3 else |a|)
            && forall j :: 0 <= j < |r| ==> r[j] == Get(a, j)
  {
    var r := UploadSlots(a, slot, url);
    forall j | 0 <= j < |r| ensures r[j] == Get(a, j) {
      assert Get(r, j) == Get(a, j);
    }
  }

  /** The index `find(url => url !== null)` stops at: the first entry that
      is not `null` (a hole counts), or the length when all are `null`. */
  function FirstNonNullIndex(a: seq<JsValue>): (r: nat)
    ensures r <= |a|
    ensures forall i :: 0 <= i < r ==> a[i] == JsNull
    ensures r < |a| ==> a[r] != JsNull
  {
    if a == [] || a[0] != JsNull then 0
    else
      var k := FirstNonNullIndex(a[1..]);
      assert forall i :: 1 <= i <= k ==> a[i] == a[1..][i - 1];
      1 + k
  }

  /** `previewUrls.find(url => url !== null) || null`: the legacy
      `preview_url` after a deletion. */
  function FirstImage(a: seq<JsValue>): (r: JsValue)
    ensures r == JsNull || (r in a && !IsFalsy(r))
  {
    var found := Get(a, FirstNonNullIndex(a));
    if IsFalsy(found) then JsNull else found
  }

  /** The legacy image is the first entry that is not `null`, when that is
      a real image. */
  lemma FirstImageCases(a: seq<JsValue>, k: nat)
    requires k < |a| && !IsFalsy(a[k])
    requires forall i :: 0 <= i < k ==> a[i] == JsNull
    ensures FirstImage(a) == a[k]
  {
  }

  /** When every entry is `null` there is no legacy image. */
  lemma NoImageLeft(a: seq<JsValue>)
    requires forall i :: 0 <= i < |a| ==> a[i] == JsNull
    ensures FirstImage(a) == JsNull
  {
  }

  /** `parseInt` of a slot outside 0..2, or NaN, is refused with 400. */
  function ValidSlot(field: Option<string>): (r: Option<nat>)
    ensures r.Some? ==> r.value <= 2
    ensures r.Some? <==> field.Some? && ParseInt(field.value).Some?
                         && 0 <= ParseInt(field.value).value <= 2
  {
    if field.None? then None
    else match ParseInt(field.value)
      case None => None
      case Some(v) => if 0 <= v <= 2 then Some(v) else None
  }

  /** `DELETE /api/projects/:id/preview/:slot`: the slot becomes `null`
      and the legacy image is recomputed. */
  function DeletePreviewSpec(slotField: Option<string>, stored: Option<JsValue>,
                             parse: string -> Option<JsValue>): (r: PreviewResult)
    ensures ValidSlot(slotField).None? <==> r == Rejected(400)
    ensures ValidSlot(slotField).Some? && stored.None? <==> r == Rejected(404)
    ensures r.Saved? ==> Get(r.urls, ValidSlot(slotField).value) == JsNull
                         && r.legacy == FirstImage(r.urls)
  {
    match ValidSlot(slotField)
    case None => Rejected(400)
    case Some(slot) =>
      if stored.None? then Rejected(404)
      else
        var urls := Put(ParseJsonField(stored.value, [], parse), slot, JsNull);
        Saved(urls, FirstImage(urls))
  }

  /** The slot array after `set main`: slots 0 and `slot` exchanged through
      a temporary, each read and write with array semantics. */
  function SwapWithFirst(a: seq<JsValue>, slot: nat): (r: seq<JsValue>)
    requires slot <= MaxArrayIndex
    ensures Get(r, 0) == Get(a, slot) && Get(r, slot) == Get(a, 0)
    ensures forall j: nat :: j != 0 && j != slot ==> Get(r, j) == Get(a, j)
    ensures |r| == if slot < |a| then (if |a| == 0 then 1 else |a|) else slot + 1
  {
    var temp := Get(a, 0);
    Put(Put(a, 0, Get(a, slot)), slot, temp)
  }

  /** `PUT /api/projects/:id/preview/main`. As for an upload, an
      `undefined` entry 0 makes the `UPDATE` fail with 500. */
  function SetMainPreviewSpec(slotField: Option<string>, stored: Option<JsValue>,
                              parse: string -> Option<JsValue>): (r: PreviewResult)
    ensures ValidSlot(slotField).None? <==> r == Rejected(400)
    ensures ValidSlot(slotField).Some? && stored.None? <==> r == Rejected(404)
    ensures ValidSlot(slotField).Some? && stored.Some? ==>
              var urls := SwapWithFirst(ParseJsonField(stored.value, [], parse), ValidSlot(slotField).value);
              r == if Get(urls, 0) == JsUndefined then Rejected(500) else Saved(urls, Get(urls, 0))
    ensures r.Saved? ==> r.legacy == Get(r.urls, 0) && r.legacy != JsUndefined
  {
    match ValidSlot(slotField)
    case None => Rejected(400)
    case Some(slot) =>
      if stored.None? then Rejected(404)
      else
        var urls := SwapWithFirst(ParseJsonField(stored.value, [], parse), slot);
        if Get(urls, 0) == JsUndefined then Rejected(500) else Saved(urls, Get(urls, 0))
  }

  /** Choosing a slot past the end as the main image fails: the swap moves
      `undefined` into entry 0. */
  lemma SetMainPastEndFails(parse: string -> Option<JsValue>)
    ensures SetMainPreviewSpec(Some("2"), Some(JsArr([JsStr("a")])), parse) == Rejected(500)
  {
    ParseIntOfNat(2);
    assert NatToString(2) == "2";
  }

  /** Making slot 0 the main image changes nothing. */
  lemma SwapFirstWithItself(a: seq<JsValue>)
    requires |a| > 0
    ensures SwapWithFirst(a, 0) == a
  {
  }

  /** Swapping twice restores every slot; when the slot already existed the
      array itself is restored, otherwise it keeps the holes the first swap
      added. */
  lemma SwapTwice(a: seq<JsValue>, slot: nat)
    requires slot <= MaxArrayIndex
    ensures forall j: nat :: Get(SwapWithFirst(SwapWithFirst(a, slot), slot), j) == Get(a, j)
    ensures slot < |a| ==> SwapWithFirst(SwapWithFirst(a, slot), slot) == a
  {
    var b := SwapWithFirst(a, slot);
    var c := SwapWithFirst(b, slot);
    if slot < |a| {
      assert |c| == |a|;
      forall j | 0 <= j < |a| ensures c[j] == a[j] {
        assert Get(c, j) == Get(a, j);
      }
    }
  }

  /** The upload handler: the slot array is read, one slot is assigned in
      place, and the array is cut to three entries. */
  method UploadPreview(file: Option<string>, slotField: Option<string>, stored: Option<JsValue>,
                       parse: string -> Option<JsValue>) returns (r: PreviewResult)
    ensures r == UploadPreviewSpec(file, slotField, stored, parse)
  {
    if file.None? {
      return Rejected(400);
    }
    var slot := SlotOrZero(slotField);
    if stored.None? {
      return Rejected(404);
    }
    var previewUrls := ParseJsonField(stored.value, [], parse);
    if IsArrayIndex(slot) {
      previewUrls := Put(previewUrls, slot, JsStr(file.value));
    }
    previewUrls := TakeThree(previewUrls);
    // The driver refuses an `undefined` bind parameter for `preview_url`.
    if Get(previewUrls, 0) == JsUndefined {
      return Rejected(500);
    }
    r := Saved(previewUrls, Get(previewUrls, 0));
  }

  /** The delete handler. */
  method DeletePreview(slotField: Option<string>, stored: Option<JsValue>,
                       parse: string -> Option<JsValue>) returns (r: PreviewResult)
    ensures r == DeletePreviewSpec(slotField, stored, parse)
  {
    var slot := ValidSlot(slotField);
    if slot.None? {
      return Rejected(400);
    }
    if stored.None? {
      return Rejected(404);
    }
    var previewUrls := ParseJsonField(stored.value, [], parse);
    previewUrls := Put(previewUrls, slot.value, JsNull);
    var firstImage := FirstImage(previewUrls);
    r := Saved(previewUrls, firstImage);
  }

  /** The set-main handler: the swap goes through a temporary. */
  method SetMainPreview(slotField: Option<string>, stored: Option<JsValue>,
                        parse: string -> Option<JsValue>) returns (r: PreviewResult)
    ensures r == SetMainPreviewSpec(slotField, stored, parse)
  {
    var slot := ValidSlot(slotField);
    if slot.None? {
      return Rejected(400);
    }
    if stored.None? {
      return Rejected(404);
    }
    var previewUrls := ParseJsonField(stored.value, [], parse);
    var temp := Get(previewUrls, 0);
    previewUrls := Put(previewUrls, 0, Get(previewUrls, slot.value));
    previewUrls := Put(previewUrls, slot.value, temp);
    if Get(previewUrls, 0) == JsUndefined {
      return Rejected(500);
    }
    r := Saved(previewUrls, Get(previewUrls, 0));
  }

  // ---------------------------------------------------------------------
  // Likes and follows
  // ---------------------------------------------------------------------

  datatype NotificationKind = LikeNotice | FollowNotice

  /** A row of the `notifications` table: recipient, kind, source, actor. */
  datatype Notification = Notification(recipient: int, kind: NotificationKind, source: int, actor: int)

  /** The `likes`, `followers` and `notifications` tables. */
  datatype Social = Social(likes: set<(int, int)>, followers: set<(int, int)>, notifications: seq<Notification>)

  /** The like handler's answer: `{ liked }`, or 500 from its `catch`. */
  datatype LikeResult = LikeAnswered(liked: bool) | LikeFailed500

  /** `POST /api/projects/:id/like` by `user` on `project`, whose owner is
      `owner` (`None` when the project does not exist). An existing like is
      deleted. Otherwise the row is inserted; for a missing project that
      insert breaks the `likes.project_id` foreign key, and the `catch`
      answers 500 with nothing changed. */
  function LikeStep(s: Social, user: int, project: int, owner: Option<int>): (r: (Social, LikeResult))
    ensures r.1 == LikeFailed500 <==> (user, project) !in s.likes && owner.None?
    ensures r.1 == LikeFailed500 ==> r.0 == s
    ensures r.1.LikeAnswered? ==>
              (r.1.liked <==> (user, project) !in s.likes)
              && r.0.likes == (if r.1.liked then s.likes + {(user, project)} else s.likes - {(user, project)})
    ensures r.0.followers == s.followers
    ensures r.0.notifications ==
              if r.1 == LikeAnswered(true) && owner.Some? && owner.value != user
              then s.notifications + [Notification(owner.value, LikeNotice, project, user)]
              else s.notifications
  {
    if (user, project) in s.likes then (s.(likes := s.likes - {(user, project)}), LikeAnswered(false))
    else if owner.None? then (s, LikeFailed500)
    else
      var notes := if owner.value != user
                   then s.notifications + [Notification(owner.value, LikeNotice, project, user)]
                   else s.notifications;
      (s.(likes := s.likes + {(user, project)}, notifications := notes), LikeAnswered(true))
  }

  /** On an existing project two toggles restore the likes, answer opposite
      values, and add at most one notification. On a missing one the second
      toggle fails: the first can only have removed a stale like. */
  lemma LikeTwiceRestores(s: Social, user: int, project: int, owner: Option<int>)
    ensures var (s1, a1) := LikeStep(s, user, project, owner);
            var (s2, a2) := LikeStep(s1, user, project, owner);
            (owner.Some? ==>
               s2.likes == s.likes && a1.LikeAnswered? && a2.LikeAnswered? && a1.liked != a2.liked
               && |s2.notifications| <= |s.notifications| + 1)
            && (owner.None? ==> a2 == LikeFailed500 && s2 == s1 && s1.likes == s.likes - {(user, project)})
  {
  }

  /** Liking one's own project never notifies. */
  lemma OwnLikeSilent(s: Social, user: int, project: int)
    ensures LikeStep(s, user, project, Some(user)).0.notifications == s.notifications
  {
  }

  datatype FollowResult = SelfFollow400 | Followed | FollowFailed500

  /** `POST /api/users/:id/follow`: `INSERT IGNORE` of the pair, then a
      notification that is written even when the pair already existed.
      For a target user that does not exist, `IGNORE` skips the row that
      breaks the `followers` foreign key, but the notification breaks
      `notifications.user_id`, and the `catch` answers 500. */
  function FollowStep(s: Social, user: int, target: int, targetExists: bool): (r: (Social, FollowResult))
    ensures target == user ==> r == (s, SelfFollow400)
    ensures target != user && !targetExists ==> r == (s, FollowFailed500)
    ensures target != user && targetExists ==>
              r.1 == Followed && r.0.followers == s.followers + {(user, target)}
              && r.0.likes == s.likes
              && r.0.notifications == s.notifications + [Notification(target, FollowNotice, user, user)]
  {
    if target == user then (s, SelfFollow400)
    else if !targetExists then (s, FollowFailed500)
    else
      (s.(followers := s.followers + {(user, target)},
          notifications := s.notifications + [Notification(target, FollowNotice, user, user)]), Followed)
  }

  /** `DELETE /api/users/:id/follow` */
  function UnfollowStep(s: Social, user: int, target: int): (r: Social)
    ensures r.followers == s.followers - {(user, target)}
    ensures r.likes == s.likes && r.notifications == s.notifications
  {
    s.(followers := s.followers - {(user, target)})
  }

  /** Following twice keeps one follower row but notifies twice. */
  lemma FollowTwiceNotifiesTwice(s: Social, user: int, target: int, targetExists: bool)
    requires user != target
    ensures var s2 := FollowStep(FollowStep(s, user, target, targetExists).0, user, target, targetExists).0;
            s2.followers == FollowStep(s, user, target, targetExists).0.followers
            && |s2.notifications| == |s.notifications| + (if targetExists then 2 else 0)
  {
  }

  /** Unfollowing after following removes the row unless it was there
      before. */
  lemma FollowThenUnfollow(s: Social, user: int, target: int, targetExists: bool)
    requires user != target && (user, target) !in s.followers
    ensures UnfollowStep(FollowStep(s, user, target, targetExists).0, user, target).followers == s.followers
  {
  }

  /** The three tables, changed in place by the handlers. */
  class SocialDb {
    var likes: set<(int, int)>
    var followers: set<(int, int)>
    var notifications: seq<Notification>

    function State(): Social
      reads this
    {
      Social(likes, followers, notifications)
    }

    constructor ()
      ensures State() == Social({}, {}, [])
    {
      likes, followers, notifications := {}, {}, [];
    }

    /** The like handler: delete an existing row, or insert one and notify
        the owner unless the liker owns the project. */
    method ToggleLike(user: int, project: int, owner: Option<int>) returns (r: LikeResult)
      modifies this
      ensures (State(), r) == LikeStep(old(State()), user, project, owner)
    {
      if (user, project) in likes {
        likes := likes - {(user, project)};
        return LikeAnswered(false);
      }
      if owner.None? {
        // The insert is refused by the foreign key on `project_id`.
        return LikeFailed500;
      }
      likes := likes + {(user, project)};
      if owner.value != user {
        notifications := notifications + [Notification(owner.value, LikeNotice, project, user)];
      }
      r := LikeAnswered(true);
    }

    method Follow(user: int, target: int, targetExists: bool) returns (r: FollowResult)
      modifies this
      ensures (State(), r) == FollowStep(old(State()), user, target, targetExists)
    {
      if target == user {
        return SelfFollow400;
      }
      if !targetExists {
        // The ignored row is skipped; the notification's foreign key fails.
        return FollowFailed500;
      }
      followers := followers + {(user, target)};
      notifications := notifications + [Notification(target, FollowNotice, user, user)];
      r := Followed;
    }

    method Unfollow(user: int, target: int)
      modifies this
      ensures State() == UnfollowStep(old(State()), user, target)
    {
      followers := followers - {(user, target)};
    }
  }
}
