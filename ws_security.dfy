/**
 * The WS-Security UsernameToken check of the Python ONVIF server (onvif_server_ws_auth.py):
 * the user table, the password digest of section 3.1 of the OASIS Web Services Security
 * UsernameToken Profile 1.0, the 300-second freshness window and the accept/reject decision.
 *
 * Everything the verifier gets from outside is a parameter: SHA-1, `datetime.fromisoformat`
 * and the wall clock (`datetime.now(timezone.utc)`). A Python exception anywhere inside the
 * verifier is caught and turned into a rejection, so the model answers None for it.
 */
module WsSecurity {
  import opened Wrappers
  import opened Bytes
  import opened Text
  import opened XmlTree
  import Base64

  const WSSE_NS :=
    "http://docs.oasis-open.org/wss/2004/01/" +
    "oasis-200401-wss-wssecurity-secext-1.0.xsd"
  const WSU_NS :=
    "http://docs.oasis-open.org/wss/2004/01/" +
    "oasis-200401-wss-wssecurity-utility-1.0.xsd"

  datatype UserRecord = UserRecord(password: string, role: string)

  /** The static user table. */
  const USERS: map<string, UserRecord> := map[
    "admin" := UserRecord("admin123", "Administrator"),
    "user" := UserRecord("user123", "User")
  ]

  const ZERO_DIGEST: seq<byte> := [0, 0, 0, 0, 0, 0, 0, 0, 0, 0, 0, 0, 0, 0, 0, 0, 0, 0, 0, 0]

  /** SHA-1 (FIPS 180-4), of which the model only knows that every digest has 20 bytes. */
  type Sha1 = h: seq<byte> -> seq<byte> | forall m :: |h(m)| == 20 witness (m: seq<byte>) => ZERO_DIGEST

  /**
   * What `datetime.fromisoformat` returns: a time with a UTC offset (as microseconds since the
   * epoch, in UTC) or a naive one, which cannot be subtracted from an aware time.
   */
  datatype DateTime = Aware(utcMicros: int) | Naive(localMicros: int)

  /** The verifier's environment: the hash, the ISO 8601 parser and the current UTC time. */
  datatype Context = Context(sha1: Sha1, fromIsoFormat: string -> Option<DateTime>, now: int)

  /** 300 seconds, in microseconds. */
  const FRESHNESS_WINDOW: int := 300_000_000

  /**
   * `create_password_digest`: Base64(SHA-1(nonce bytes ++ created ++ password)). None when the
   * nonce is not Base64 (`b64decode` raises). The username plays no part.
   */
  function CreatePasswordDigest(sha1: Sha1, username: string, password: string, nonce: string, created: string): (r: Option<string>)
    ensures r.Some? <==> Base64.Decode(nonce).Some?
    ensures r.Some? ==> |r.value| == 28
  {
    match Base64.Decode(nonce)
    case None => None
    case Some(nonceBytes) => Some(Base64.Encode(sha1(nonceBytes + Utf8(created) + Utf8(password))))
  }

  /** The digest does not depend on the username it is given. */
  lemma DigestIgnoresUsername(sha1: Sha1, u1: string, u2: string, password: string, nonce: string, created: string)
    ensures CreatePasswordDigest(sha1, u1, password, nonce, created) == CreatePasswordDigest(sha1, u2, password, nonce, created)
  {
  }

  /** A digest is the Base64 text of 20 bytes: 27 alphabet characters and one `=`. */
  lemma DigestShape(sha1: Sha1, username: string, password: string, nonce: string, created: string)
    requires Base64.Decode(nonce).Some?
    ensures var d := CreatePasswordDigest(sha1, username, password, nonce, created).value;
      |d| == 28 && d[27] == '=' && forall i :: 0 <= i < 27 ==> Base64.IsAlphabet(d[i])
  {
    var nonceBytes := Base64.Decode(nonce).value;
    Base64.EncodeShape(sha1(nonceBytes + Utf8(created) + Utf8(password)));
  }

  /**
   * `abs((now - created_time).total_seconds()) > 300` is false. The float division of the
   * microsecond count by 10^6 is compared with 300, so it agrees with the integer test.
   */
  predicate IsFresh(now: int, created: int) {
    -FRESHNESS_WINDOW <= now - created <= FRESHNESS_WINDOW
  }

  /** The window is inclusive: exactly 300 s either way is fresh, one microsecond more is not. */
  lemma FreshnessBoundary(now: int)
    ensures IsFresh(now, now - 300_000_000) && IsFresh(now, now + 300_000_000)
    ensures !IsFresh(now, now - 300_000_001) && !IsFresh(now, now + 300_000_001)
    ensures !IsFresh(now, now - 301_000_000)
  {
  }

  /**
   * The PasswordDigest branch: the `Created` text, with every `Z` replaced by `+00:00`, must
   * parse to a time with an offset no more than 300 s away from now, and the presented text
   * must equal the digest computed over the `Created` text as received. A missing text, an
   * unparseable or naive time and an undecodable nonce all raise, and so reject.
   */
  function CheckDigest(ctx: Context, username: string, stored: string, presented: Option<string>,
                       nonce: Option<string>, created: Option<string>): (r: Option<string>)
    ensures r.Some? ==> r.value == username
  {
    if created.None? then None
    else match ctx.fromIsoFormat(ReplaceChar(created.value, 'Z', "+00:00"))
      case None => None
      case Some(Naive(_)) => None
      case Some(Aware(t)) =>
        if !IsFresh(ctx.now, t) then None
        else if nonce.None? then None
        else match CreatePasswordDigest(ctx.sha1, username, stored, nonce.value, created.value)
          case None => None
          case Some(expected) => if presented == Some(expected) then Some(username) else None
  }

  /** The four elements `verify_wsse_credentials` looks up under the UsernameToken. */
  datatype TokenParts = TokenParts(username: Option<Element>, password: Option<Element>,
                                   nonce: Option<Element>, created: Option<Element>)

  function PartsOf(token: Element): TokenParts {
    TokenParts(Find(token, QName(WSSE_NS, "Username")), Find(token, QName(WSSE_NS, "Password")),
               Find(token, QName(WSSE_NS, "Nonce")), Find(token, QName(WSU_NS, "Created")))
  }

  /**
   * The decision once Username and Password are known to be present: the user must be in the
   * table; the digest branch runs when the Type attribute mentions PasswordDigest and both a
   * Nonce and a Created element exist; otherwise a Type that mentions PasswordText, or an empty
   * Type, compares the password text verbatim; any other Type rejects.
   */
  function CheckParts(ctx: Context, parts: TokenParts): (r: Option<string>)
    requires parts.username.Some? && parts.password.Some?
    ensures r.Some? ==> parts.username.value.text == Some(r.value) && r.value in USERS
  {
    var usernameText := parts.username.value.text;
    var passwordText := parts.password.value.text;
    var passwordType := Get(parts.password.value, "Type", "");
    if usernameText.None? || usernameText.value !in USERS then None
    else
      var username := usernameText.value;
      var stored := USERS[username].password;
      if Contains(passwordType, "PasswordDigest") && parts.nonce.Some? && parts.created.Some? then
        CheckDigest(ctx, username, stored, passwordText, parts.nonce.value.text, parts.created.value.text)
      else if Contains(passwordType, "PasswordText") || passwordType == "" then
        if passwordText == Some(stored) then Some(username) else None
      else None
  }

  /**
   * `verify_wsse_credentials` as written: the guard `all([username_elem, password_elem])` tests
   * the truth value of the elements, which is false for an element without children.
   */
  function VerifyWsseCredentials(ctx: Context, header: Option<Element>): (r: Option<string>)
    ensures header.None? ==> r.None?
    ensures r.Some? ==> r.value in USERS
    ensures r.Some? ==> var token := Find(header.value, QName(WSSE_NS, "UsernameToken"));
      token.Some? && Truthy(PartsOf(token.value).username) && Truthy(PartsOf(token.value).password)
  {
    if header.None? then None
    else match Find(header.value, QName(WSSE_NS, "UsernameToken"))
      case None => None
      case Some(token) =>
        var parts := PartsOf(token);
        if !(Truthy(parts.username) && Truthy(parts.password)) then None
        else CheckParts(ctx, parts)
  }

  /** The same verifier with the guard its authors evidently meant: both elements are present. */
  function VerifyWsseCredentialsIntended(ctx: Context, header: Option<Element>): (r: Option<string>)
    ensures header.None? ==> r.None?
    ensures r.Some? ==> r.value in USERS
  {
    if header.None? then None
    else match Find(header.value, QName(WSSE_NS, "UsernameToken"))
      case None => None
      case Some(token) =>
        var parts := PartsOf(token);
        if parts.username.None? || parts.password.None? then None
        else CheckParts(ctx, parts)
  }

  /**
   * `authenticate_request`: None for a document that does not parse; otherwise the verdict of
   * `verify_wsse_credentials`, as written, on the first `wsse:Security` element below the root.
   */
  function AuthenticateRequest(ctx: Context, doc: Option<Element>): (r: Option<string>)
    ensures doc.None? ==> r.None?
    ensures r.Some? ==> r.value in USERS
  {
    if doc.None? then None else VerifyWsseCredentials(ctx, Find(doc.value, QName(WSSE_NS, "Security")))
  }

  /** The same, with the verifier whose guard tests that both elements are present. */
  function AuthenticateRequestIntended(ctx: Context, doc: Option<Element>): (r: Option<string>)
    ensures doc.None? ==> r.None?
    ensures r.Some? ==> r.value in USERS
    ensures AuthenticateRequest(ctx, doc).Some? ==> r == AuthenticateRequest(ctx, doc)
  {
    if doc.None? then None
    else
      VerifyWsseCredentialsIntended(ctx, Find(doc.value, QName(WSSE_NS, "Security")))
  }

  /** The password digest the profile defines, written out on its own. */
  function ExpectedDigest(ctx: Context, nonceBytes: seq<byte>, created: string, password: string): string {
    Base64.Encode(ctx.sha1(nonceBytes + Utf8(created) + Utf8(password)))
  }

  predicate DigestPathSelected(parts: TokenParts)
    requires parts.password.Some?
  {
    Contains(Get(parts.password.value, "Type", ""), "PasswordDigest") && parts.nonce.Some? && parts.created.Some?
  }

  /**
   * On the digest path a known user is accepted exactly when Created parses to a time with an
   * offset at most 300 s from now, the nonce decodes, and the presented text is the digest over
   * the nonce bytes, the Created text as received, and the stored password.
   */
  lemma DigestPath(ctx: Context, parts: TokenParts)
    requires parts.username.Some? && parts.password.Some? && DigestPathSelected(parts)
    requires parts.username.value.text.Some? && parts.username.value.text.value in USERS
    ensures var user := parts.username.value.text.value;
      var created := parts.created.value.text;
      var nonce := parts.nonce.value.text;
      CheckParts(ctx, parts) == Some(user) <==>
        created.Some? && nonce.Some? &&
        (exists t :: ctx.fromIsoFormat(ReplaceChar(created.value, 'Z', "+00:00")) == Some(Aware(t)) && IsFresh(ctx.now, t)) &&
        Base64.Decode(nonce.value).Some? &&
        parts.password.value.text == Some(ExpectedDigest(ctx, Base64.Decode(nonce.value).value, created.value, USERS[user].password))
  {
  }

  /**
   * Off the digest path a known user is accepted exactly when the Type mentions PasswordText or
   * is empty and the password text equals the stored password.
   */
  lemma PlaintextPath(ctx: Context, parts: TokenParts)
    requires parts.username.Some? && parts.password.Some? && !DigestPathSelected(parts)
    requires parts.username.value.text.Some? && parts.username.value.text.value in USERS
    ensures var user := parts.username.value.text.value;
      var passwordType := Get(parts.password.value, "Type", "");
      CheckParts(ctx, parts) == Some(user) <==>
        (Contains(passwordType, "PasswordText") || passwordType == "") &&
        parts.password.value.text == Some(USERS[user].password)
  {
  }

  /** A token whose user is not in the table, or whose Username has no text, is rejected. */
  lemma UnknownUserRejected(ctx: Context, parts: TokenParts)
    requires parts.username.Some? && parts.password.Some?
    requires parts.username.value.text.None? || parts.username.value.text.value !in USERS
    ensures CheckParts(ctx, parts).None?
  {
  }

  /** A Type that mentions neither PasswordDigest nor PasswordText, and is not empty, rejects. */
  lemma OtherTypesRejected(ctx: Context, parts: TokenParts)
    requires parts.username.Some? && parts.password.Some?
    requires var passwordType := Get(parts.password.value, "Type", "");
      passwordType != "" && !Contains(passwordType, "PasswordDigest") && !Contains(passwordType, "PasswordText")
    ensures CheckParts(ctx, parts).None?
  {
  }

  /** Whenever both elements are truthy, the as-written and the intended verifier agree. */
  lemma GuardAgreement(ctx: Context, header: Option<Element>)
    requires header.Some? && Find(header.value, QName(WSSE_NS, "UsernameToken")).Some?
    requires var parts := PartsOf(Find(header.value, QName(WSSE_NS, "UsernameToken")).value);
      Truthy(parts.username) && Truthy(parts.password)
    ensures VerifyWsseCredentials(ctx, header) == VerifyWsseCredentialsIntended(ctx, header)
  {
  }

  /** Whatever the as-written verifier accepts, the intended one accepts too. */
  lemma AsWrittenAcceptsLess(ctx: Context, header: Option<Element>)
    requires VerifyWsseCredentials(ctx, header).Some?
    ensures VerifyWsseCredentialsIntended(ctx, header) == VerifyWsseCredentials(ctx, header)
  {
  }

  /** The usual request header: a UsernameToken whose Username and Password carry only text. */
  function LeafToken(user: string, password: string): Element {
    Element(QName(WSSE_NS, "Security"), map[], None, [
      Element(QName(WSSE_NS, "UsernameToken"), map[], None, [
        Element(QName(WSSE_NS, "Username"), map[], Some(user), []),
        Element(QName(WSSE_NS, "Password"), map[], Some(password), [])])])
  }

  /**
   * The as-written guard rejects the usual header, with the right plaintext password of a
   * known user, that the intended verifier accepts.
   */
  lemma LeafCredentialsRejected(ctx: Context)
    ensures VerifyWsseCredentials(ctx, Some(LeafToken("admin", "admin123"))).None?
    ensures VerifyWsseCredentialsIntended(ctx, Some(LeafToken("admin", "admin123"))) == Some("admin")
  {
    var token := LeafToken("admin", "admin123").children[0];
    var userElem, passElem := token.children[0], token.children[1];
    assert QName(WSSE_NS, "Username") != QName(WSSE_NS, "Password") by {
      assert QName(WSSE_NS, "Username")[|WSSE_NS| + 2] == 'U';
      assert QName(WSSE_NS, "Password")[|WSSE_NS| + 2] == 'P';
    }
    assert Find(token, QName(WSSE_NS, "Username")) == Some(userElem);
    assert token.children[1..] == [passElem];
    assert FindIn(userElem.children, QName(WSSE_NS, "Password")).None?;
    assert FindIn(token.children[1..], QName(WSSE_NS, "Password")) == Some(passElem);
    assert Find(token, QName(WSSE_NS, "Password")) == Some(passElem);
  }
}
