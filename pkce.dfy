/**
 * PKCE parameters (RFC 7636): the method, the code verifier generated for
 * it, and the two request options derived from them. The random bytes the
 * verifier is drawn from and the SHA-256 function are arguments.
 */
module Pkce {
  import opened Wrappers
  import opened Errors
  import opened Base64Url

  /** pkce.Method. */
  datatype Method = NoMethod | MethodS256

  /** The integer constant each method is (Go's iota): NoMethod = 0, MethodS256 = 1. */
  function MethodValue(m: Method): int
  {
    match m
    case NoMethod => 0
    case MethodS256 => 1
  }

  /** Method(n): the method an integer stands for, if any. */
  function MethodOf(n: int): (m: Option<Method>)
    ensures m.Some? ==> MethodValue(m.value) == n
  {
    if n == 0 then Some(NoMethod) else if n == 1 then Some(MethodS256) else None
  }

  /**
   * The constants are 0 and 1 and differ, so the zero value of a Method,
   * and of Params, is NoMethod.
   */
  lemma MethodConstants()
    ensures MethodValue(NoMethod) == 0 && MethodValue(MethodS256) == 1
    ensures NoMethod != MethodS256
    ensures MethodOf(0) == Some(NoMethod)
    ensures forall m: Method :: MethodOf(MethodValue(m)) == Some(m)
  {
  }

  /** pkce.Params. */
  datatype Params = Params(challengeMethod: Method, verifier: string)

  /** Params{}, the zero value. */
  const ZeroParams: Params := Params(NoMethod, "")

  /** A SHA-256 digest. */
  type Digest = d: seq<Byte> | |d| == 32 witness seq(32, i => 0 as Byte)

  /** The random bytes behind a verifier (the 32 octets recommended in section 4.1 of RFC 7636). */
  const VerifierEntropy: nat := 32

  /** The verifier length bounds of section 4.1 of RFC 7636. */
  const MinVerifierLength: nat := 43
  const MaxVerifierLength: nat := 128

  const EntropyExhausted: Error := Message("entropy source exhausted")

  /** The characters a verifier may use: "unreserved" in section 4.1 of RFC 7636. */
  predicate IsUnreserved(c: char)
  {
    ('A' <= c <= 'Z') || ('a' <= c <= 'z') || ('0' <= c <= '9') || c == '-' || c == '.' || c == '_' || c == '~'
  }

  predicate IsVerifier(s: string)
  {
    MinVerifierLength <= |s| <= MaxVerifierLength && forall i :: 0 <= i < |s| ==> IsUnreserved(s[i])
  }

  /**
   * pkce.New. random holds the bytes the entropy source yields. For S256
   * the verifier is the unpadded base64url encoding of its first 32 bytes,
   * which is a verifier in the sense of RFC 7636; fewer bytes are an
   * error. NoMethod gives an empty verifier.
   */
  function New(m: Method, random: seq<Byte>): (r: Result<Params, Error>)
    ensures m == NoMethod ==> r.Success? && r.value.challengeMethod == NoMethod && r.value.verifier == ""
    ensures m == MethodS256 && |random| >= VerifierEntropy ==>
      r.Success? && r.value.challengeMethod == MethodS256 && IsVerifier(r.value.verifier)
    ensures m == MethodS256 && |random| < VerifierEntropy ==> r == Failure(EntropyExhausted)
  {
    match m
    case NoMethod => Success(ZeroParams)
    case MethodS256 =>
      if |random| < VerifierEntropy then Failure(EntropyExhausted)
      else Success(Params(MethodS256, Encode(random[..VerifierEntropy])))
  }

  /**
   * Two draws that differ in the bytes used give different verifiers, and
   * equal ones the same: the verifier keeps all the entropy it is built from.
   */
  lemma VerifiersAreAsDistinctAsTheirDraws(random1: seq<Byte>, random2: seq<Byte>)
    requires |random1| >= VerifierEntropy && |random2| >= VerifierEntropy
    ensures New(MethodS256, random1).Success? && New(MethodS256, random2).Success?
    ensures New(MethodS256, random1).value.verifier == New(MethodS256, random2).value.verifier
      <==> random1[..VerifierEntropy] == random2[..VerifierEntropy]
  {
    if Encode(random1[..VerifierEntropy]) == Encode(random2[..VerifierEntropy]) {
      EncodeIsInjective(random1[..VerifierEntropy], random2[..VerifierEntropy]);
    }
  }

  /**
   * The S256 code challenge of section 4.2 of RFC 7636:
   * BASE64URL-ENCODE(SHA256(ASCII(verifier))). sha256 stands for SHA-256
   * of a string's bytes.
   */
  function S256Challenge(verifier: string, sha256: string -> Digest): (challenge: string)
    ensures |challenge| == 43
    ensures forall i :: 0 <= i < |challenge| ==> IsUnreserved(challenge[i])
  {
    Encode(sha256(verifier))
  }

  /** A parameter an oauth2.AuthCodeOption adds to a request. */
  datatype UrlParam = UrlParam(key: string, value: string)

  /**
   * Params.AuthCodeOption: for S256, code_challenge and
   * code_challenge_method=S256 for the authorization request (section 4.3
   * of RFC 7636); for any other method no option (nil).
   */
  function AuthCodeOption(params: Params, sha256: string -> Digest): (option: Option<seq<UrlParam>>)
    ensures option.Some? <==> params.challengeMethod == MethodS256
  {
    if params.challengeMethod == MethodS256 then
      Some([UrlParam("code_challenge", S256Challenge(params.verifier, sha256)), UrlParam("code_challenge_method", "S256")])
    else
      None
  }

  /**
   * Params.TokenRequestOption: for S256, code_verifier for the token
   * request (section 4.5 of RFC 7636); for any other method no option (nil).
   */
  function TokenRequestOption(params: Params): (option: Option<UrlParam>)
    ensures option.Some? <==> params.challengeMethod == MethodS256
  {
    if params.challengeMethod == MethodS256 then Some(UrlParam("code_verifier", params.verifier)) else None
  }

  /**
   * What an S256 Params adds: the challenge derived from its verifier and
   * the method name "S256" to the authorization request, and the verifier
   * itself to the token request.
   */
  lemma S256Options(verifier: string, sha256: string -> Digest)
    ensures AuthCodeOption(Params(MethodS256, verifier), sha256)
      == Some([UrlParam("code_challenge", S256Challenge(verifier, sha256)), UrlParam("code_challenge_method", "S256")])
    ensures TokenRequestOption(Params(MethodS256, verifier)) == Some(UrlParam("code_verifier", verifier))
  {
  }

  /**
   * NoMethod adds nothing to either request, whatever the verifier; so
   * neither do the zero Params nor the Params New(NoMethod) returns.
   */
  lemma NoMethodAddsNoOptions(verifier: string, random: seq<Byte>, sha256: string -> Digest)
    ensures AuthCodeOption(Params(NoMethod, verifier), sha256) == None
    ensures TokenRequestOption(Params(NoMethod, verifier)) == None
    ensures AuthCodeOption(ZeroParams, sha256) == None && TokenRequestOption(ZeroParams) == None
    ensures New(NoMethod, random).Success?
    ensures AuthCodeOption(New(NoMethod, random).value, sha256) == None
    ensures TokenRequestOption(New(NoMethod, random).value) == None
  {
  }

  /**
   * The two options of one S256 Params fit together: the verifier sent
   * with the token request is a verifier, and hashes to the challenge sent
   * with the authorization request, which is the check the authorization
   * server makes (section 4.6 of RFC 7636).
   */
  lemma GeneratedOptionsPassTheServerCheck(random: seq<Byte>, sha256: string -> Digest)
    requires |random| >= VerifierEntropy
    ensures New(MethodS256, random).Success?
    ensures AuthCodeOption(New(MethodS256, random).value, sha256).Some?
    ensures TokenRequestOption(New(MethodS256, random).value).Some?
    ensures IsVerifier(TokenRequestOption(New(MethodS256, random).value).value.value)
    ensures S256Challenge(TokenRequestOption(New(MethodS256, random).value).value.value, sha256)
      == AuthCodeOption(New(MethodS256, random).value, sha256).value[0].value
  {
  }
}
