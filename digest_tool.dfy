/**
 * The standalone digest calculator (onvif_digest.py): the UsernameToken password digest
 * Base64(SHA-1(B64Decode(nonce) ++ date ++ password)), the nonce generator with its 16 random
 * bytes given as a parameter, and the check in `main` that all three inputs are non-empty.
 */
module DigestTool {
  import opened Wrappers
  import opened Bytes
  import opened Text
  import opened XmlTree
  import Base64
  import opened WsSecurity

  /** The exception `compute_onvif_digest` raises when a step fails. */
  datatype DigestError = ValueError

  /**
   * `compute_onvif_digest`: decode the nonce, append the UTF-8 date and password, hash, encode.
   * A nonce that does not decode raises ValueError; no partial digest is returned.
   */
  function ComputeOnvifDigest(sha1: Sha1, nonce: string, date: string, password: string): (r: Result<string, DigestError>)
    ensures r.Success? <==> Base64.Decode(nonce).Some?
    ensures r.Success? ==>
      Base64.Decode(r.value) == Some(sha1(Base64.Decode(nonce).value + Utf8(date) + Utf8(password)))
  {
    match Base64.Decode(nonce)
    case None => Failure(ValueError)
    case Some(decodedNonce) =>
      var sha1Hash := sha1(decodedNonce + Utf8(date) + Utf8(password));
      Base64.DecodeEncode(sha1Hash);
      Success(Base64.Encode(sha1Hash))
  }

  /**
   * The calculator and the server's `create_password_digest` agree on every input, whatever
   * username the server passes along.
   */
  lemma SameAsServer(sha1: Sha1, username: string, nonce: string, date: string, password: string)
    ensures ComputeOnvifDigest(sha1, nonce, date, password).Success? <==>
      CreatePasswordDigest(sha1, username, password, nonce, date).Some?
    ensures ComputeOnvifDigest(sha1, nonce, date, password).Success? ==>
      ComputeOnvifDigest(sha1, nonce, date, password).value == CreatePasswordDigest(sha1, username, password, nonce, date).value
  {
  }

  /** A digest is always 28 characters: 27 from the Base64 alphabet and one `=`. */
  lemma DigestLength(sha1: Sha1, nonce: string, date: string, password: string)
    requires ComputeOnvifDigest(sha1, nonce, date, password).Success?
    ensures var d := ComputeOnvifDigest(sha1, nonce, date, password).value;
      |d| == 28 && d[27] == '=' && forall i :: 0 <= i < 27 ==> Base64.IsAlphabet(d[i])
  {
    SameAsServer(sha1, "", nonce, date, password);
    DigestShape(sha1, "", password, nonce, date);
  }

  /**
   * `parts` is a PasswordDigest token of the known `user` whose Created time parses to `t`,
   * within 300 s of now, and whose password text is the calculator's digest of the token's
   * nonce and Created text with the user's stored password.
   */
  predicate CarriesCalculatorDigest(ctx: Context, parts: TokenParts, user: string, t: int) {
    && parts.username.Some? && parts.password.Some? && DigestPathSelected(parts)
    && parts.username.value.text == Some(user) && user in USERS
    && parts.nonce.value.text.Some? && parts.created.value.text.Some?
    && (var created := parts.created.value.text.value;
        ctx.fromIsoFormat(ReplaceChar(created, 'Z', "+00:00")) == Some(Aware(t)) && IsFresh(ctx.now, t))
    && (var d := ComputeOnvifDigest(ctx.sha1, parts.nonce.value.text.value, parts.created.value.text.value, USERS[user].password);
        d.Success? && parts.password.value.text == Some(d.value))
  }

  /** Such a token passes the server's password check, which follows the presence guard. */
  lemma CalculatorTokenAccepted(ctx: Context, parts: TokenParts, user: string, t: int)
    requires CarriesCalculatorDigest(ctx, parts, user, t)
    ensures CheckParts(ctx, parts) == Some(user)
  {
    var nonce, created := parts.nonce.value.text.value, parts.created.value.text.value;
    SameAsServer(ctx.sha1, user, nonce, created, USERS[user].password);
    DigestPath(ctx, parts);
  }

  /**
   * A Security header whose UsernameToken carries the calculator's digest is accepted by the
   * verifier with the presence guard, and by the verifier as written only when its Username and
   * Password elements have child elements.
   */
  lemma CalculatorHeaderAccepted(ctx: Context, header: Element, user: string, t: int)
    requires Find(header, QName(WSSE_NS, "UsernameToken")).Some?
    requires CarriesCalculatorDigest(ctx, PartsOf(Find(header, QName(WSSE_NS, "UsernameToken")).value), user, t)
    ensures VerifyWsseCredentialsIntended(ctx, Some(header)) == Some(user)
    ensures var parts := PartsOf(Find(header, QName(WSSE_NS, "UsernameToken")).value);
      VerifyWsseCredentials(ctx, Some(header)) == (if Truthy(parts.username) && Truthy(parts.password) then Some(user) else None)
  {
    CalculatorTokenAccepted(ctx, PartsOf(Find(header, QName(WSSE_NS, "UsernameToken")).value), user, t);
  }

  /** `generate_nonce`, given the 16 bytes `os.urandom(16)` returned. */
  function GenerateNonce(randomBytes: seq<byte>): (nonce: string)
    requires |randomBytes| == 16
    ensures |nonce| == 24 && nonce[22..] == "=="
    ensures forall i :: 0 <= i < 22 ==> Base64.IsAlphabet(nonce[i])
    ensures Base64.Decode(nonce) == Some(randomBytes)
  {
    Base64.EncodeShape(randomBytes);
    Base64.DecodeEncode(randomBytes);
    Base64.Encode(randomBytes)
  }

  /** A generated nonce is always accepted by the calculator. */
  lemma GeneratedNonceDecodes(sha1: Sha1, randomBytes: seq<byte>, date: string, password: string)
    requires |randomBytes| == 16
    ensures ComputeOnvifDigest(sha1, GenerateNonce(randomBytes), date, password).Success?
  {
  }

  /** The sample nonce `main` starts with. */
  const SAMPLE_NONCE := "MTIzNDU2Nzg5MDEyMzQ1Ng=="

  /** The ASCII codes of "1234567890123456". */
  const SAMPLE_NONCE_BYTES: seq<byte> := [49, 50, 51, 52, 53, 54, 55, 56, 57, 48, 49, 50, 51, 52, 53, 54]

  /** Five whole groups of three bytes and a last group encode one after another. */
  lemma EncodeGroups(g1: seq<byte>, g2: seq<byte>, g3: seq<byte>, g4: seq<byte>, g5: seq<byte>, g6: seq<byte>)
    requires |g1| == |g2| == |g3| == |g4| == |g5| == 3
    ensures Base64.Encode(g1 + (g2 + (g3 + (g4 + (g5 + g6))))) ==
      Base64.Encode(g1) + (Base64.Encode(g2) + (Base64.Encode(g3) + (Base64.Encode(g4) + (Base64.Encode(g5) + Base64.Encode(g6)))))
  {
    Base64.EncodeAppend(g5, g6);
    Base64.EncodeAppend(g4, g5 + g6);
    Base64.EncodeAppend(g3, g4 + (g5 + g6));
    Base64.EncodeAppend(g2, g3 + (g4 + (g5 + g6)));
    Base64.EncodeAppend(g1, g2 + (g3 + (g4 + (g5 + g6))));
  }

  lemma SampleQuanta12()
    ensures Base64.Encode([49, 50, 51]) == "MTIz" && Base64.Encode([52, 53, 54]) == "NDU2"
  {
    Base64.EncodeQuantum([49, 50, 51], [12, 19, 8, 51], "MTIz");
    Base64.EncodeQuantum([52, 53, 54], [13, 3, 20, 54], "NDU2");
  }

  lemma SampleQuanta34()
    ensures Base64.Encode([55, 56, 57]) == "Nzg5" && Base64.Encode([48, 49, 50]) == "MDEy"
  {
    Base64.EncodeQuantum([55, 56, 57], [13, 51, 32, 57], "Nzg5");
    Base64.EncodeQuantum([48, 49, 50], [12, 3, 4, 50], "MDEy");
  }

  lemma SampleQuanta56()
    ensures Base64.Encode([51, 52, 53]) == "MzQ1" && Base64.Encode([54]) == "Ng=="
  {
    Base64.EncodeQuantum([51, 52, 53], [12, 51, 16, 53], "MzQ1");
    Base64.EncodeQuantum([54], [13, 32, Base64.PAD, Base64.PAD], "Ng==");
  }

  lemma SampleNonceQuanta()
    ensures SAMPLE_NONCE == "MTIz" + ("NDU2" + ("Nzg5" + ("MDEy" + ("MzQ1" + "Ng=="))))
  {
  }

  /** The sample nonce is the Base64 text of the ASCII digits "1234567890123456". */
  lemma SampleNonceDecodes()
    ensures Base64.Decode(SAMPLE_NONCE) == Some(SAMPLE_NONCE_BYTES)
  {
    var g1: seq<byte>, g2: seq<byte>, g3: seq<byte>, g4: seq<byte>, g5: seq<byte>, g6: seq<byte> :=
      [49, 50, 51], [52, 53, 54], [55, 56, 57], [48, 49, 50], [51, 52, 53], [54];
    assert SAMPLE_NONCE_BYTES == g1 + (g2 + (g3 + (g4 + (g5 + g6))));
    EncodeGroups(g1, g2, g3, g4, g5, g6);
    SampleQuanta12();
    SampleQuanta34();
    SampleQuanta56();
    SampleNonceQuanta();
    Base64.DecodeEncode(SAMPLE_NONCE_BYTES);
  }

  /** So the sample digest `main` prints is computed, whatever the hash, and raises no ValueError. */
  lemma SampleDigestComputed(sha1: Sha1)
    ensures ComputeOnvifDigest(sha1, SAMPLE_NONCE, "2024-01-15T10:30:00.000Z", "admin123").Success?
  {
    SampleNonceDecodes();
  }

  /** What the interactive part of `main` does with the nonce, date and password it read. */
  datatype MainOutcome = FieldsRequired | Computed(digest: string) | Failed(error: DigestError)

  /**
   * `main`'s check: the digest is computed only when nonce, date and password are all
   * non-empty; otherwise it reports that all fields are required.
   */
  function InteractiveDigest(sha1: Sha1, nonce: string, date: string, password: string): (o: MainOutcome)
    ensures o.FieldsRequired? <==> nonce == "" || date == "" || password == ""
    ensures o.Computed? <==> nonce != "" && date != "" && password != "" && Base64.Decode(nonce).Some?
    ensures o.Computed? ==> Success(o.digest) == ComputeOnvifDigest(sha1, nonce, date, password)
  {
    if nonce != "" && date != "" && password != "" then
      match ComputeOnvifDigest(sha1, nonce, date, password)
      case Success(digest) => Computed(digest)
      case Failure(e) => Failed(e)
    else FieldsRequired
  }
}
