/**
 * The credential plugin writer: generateExecCredential picks the
 * ExecCredential type of the client.authentication.k8s.io API version the
 * caller asked for (v1, or v1beta1 when none was given) and copies the
 * token and expiry into it; Writer.Write encodes that credential to
 * standard output.
 */
module CredentialPluginWriter {
  import opened Wrappers
  import opened Errors

  type Nanos = n: int | 0 <= n < 1_000_000_000

  /** A Go time.Time as an instant: whole seconds since the Unix epoch (t.Unix()) and the nanoseconds within that second. */
  datatype Time = Time(unixSeconds: int, nanoseconds: Nanos)

  /** time.Time{}: January 1 of year 1, 00:00:00 UTC. */
  const ZeroTime: Time := Time(-62135596800, 0)

  /** credentialplugin.Output. */
  datatype Output = Output(token: string, expiry: Time, clientAuthenticationAPIVersion: string)

  const V1APIVersion: string := "client.authentication.k8s.io/v1"
  const V1Beta1APIVersion: string := "client.authentication.k8s.io/v1beta1"
  const ExecCredentialKind: string := "ExecCredential"
  const UnknownAPIVersion: string := "unknown apiVersion"

  datatype TypeMeta = TypeMeta(apiVersion: string, kind: string)

  datatype Status = Status(token: string, expirationTimestamp: Time)

  /** The two Go types generateExecCredential can return: clientauthentication/v1.ExecCredential and v1beta1.ExecCredential. */
  datatype ExecCredential = V1(typeMeta: TypeMeta, status: Status) | V1Beta1(typeMeta: TypeMeta, status: Status)

  /** The API versions generateExecCredential accepts. */
  predicate IsKnownAPIVersion(v: string)
  {
    v == V1APIVersion || v == V1Beta1APIVersion || v == ""
  }

  /**
   * generateExecCredential. Every credential it returns is of kind
   * ExecCredential, names a non-empty API version and carries the output's
   * token and expiry.
   */
  function GenerateExecCredential(out: Output): (r: Result<ExecCredential, Error>)
    ensures r.Success? ==> r.value.typeMeta.kind == ExecCredentialKind && r.value.typeMeta.apiVersion != ""
    ensures r.Success? ==> r.value.status == Status(out.token, out.expiry)
  {
    var v := out.clientAuthenticationAPIVersion;
    var status := Status(out.token, out.expiry);
    if v == V1APIVersion then
      Success(V1(TypeMeta(V1APIVersion, ExecCredentialKind), status))
    else if v == V1Beta1APIVersion || v == "" then
      Success(V1Beta1(TypeMeta(V1Beta1APIVersion, ExecCredentialKind), status))
    else
      Failure(Message(UnknownAPIVersion + ": " + v))
  }

  /**
   * Version selection: generation succeeds exactly for the known versions;
   * v1 gives the v1 type and every other known version the v1beta1 type;
   * a non-empty requested version is the one the credential names, and
   * the empty one names v1beta1.
   */
  lemma VersionSelection(out: Output)
    ensures GenerateExecCredential(out).Success? <==> IsKnownAPIVersion(out.clientAuthenticationAPIVersion)
    ensures GenerateExecCredential(out).Success? ==>
      (GenerateExecCredential(out).value.V1? <==> out.clientAuthenticationAPIVersion == V1APIVersion)
    ensures GenerateExecCredential(out).Success? && out.clientAuthenticationAPIVersion != "" ==>
      GenerateExecCredential(out).value.typeMeta.apiVersion == out.clientAuthenticationAPIVersion
    ensures out.clientAuthenticationAPIVersion == "" ==>
      GenerateExecCredential(out) == Success(V1Beta1(TypeMeta(V1Beta1APIVersion, ExecCredentialKind), Status(out.token, out.expiry)))
  {
  }

  /** An unknown API version yields no credential and an error whose text contains "unknown apiVersion" and the version itself. */
  lemma UnknownVersionIsRejected(out: Output)
    requires !IsKnownAPIVersion(out.clientAuthenticationAPIVersion)
    ensures GenerateExecCredential(out).Failure?
    ensures Contains(Text(GenerateExecCredential(out).error), UnknownAPIVersion)
    ensures Contains(Text(GenerateExecCredential(out).error), out.clientAuthenticationAPIVersion)
  {
    var v := out.clientAuthenticationAPIVersion;
    assert Text(GenerateExecCredential(out).error) == UnknownAPIVersion + (": " + v);
    ContainsPrefix(UnknownAPIVersion, ": " + v);
    ContainsSuffix(UnknownAPIVersion + ": ", v);
  }

  /**
   * What a reader decodes from the JSON document Write emits for one
   * credential: the expiration timestamp, a metav1.Time, is written in
   * RFC 3339 at second precision, and the zero time as null.
   */
  datatype Document = Document(apiVersion: string, kind: string, token: string, expirationTimestamp: Option<int>)

  /** The document encoding c, as its reader sees it. */
  function Render(c: ExecCredential): Document
  {
    var t := c.status.expirationTimestamp;
    Document(c.typeMeta.apiVersion, c.typeMeta.kind, c.status.token, if t == ZeroTime then None else Some(t.unixSeconds))
  }

  /**
   * Written output keeps the token (the empty one too) and the expiry to
   * the second: a reader gets back the output's token, and either the
   * expiry's Unix seconds or, for the zero time, no timestamp.
   */
  lemma WriteKeepsTokenAndExpiry(out: Output)
    requires IsKnownAPIVersion(out.clientAuthenticationAPIVersion)
    ensures GenerateExecCredential(out).Success?
    ensures Render(GenerateExecCredential(out).value).token == out.token
    ensures Render(GenerateExecCredential(out).value).kind == ExecCredentialKind
    ensures out.expiry != ZeroTime ==> Render(GenerateExecCredential(out).value).expirationTimestamp == Some(out.expiry.unixSeconds)
    ensures out.expiry == ZeroTime ==> Render(GenerateExecCredential(out).value).expirationTimestamp == None
  {
    VersionSelection(out);
  }

  class Writer {
    /** The documents written to standard output so far, oldest first. */
    var stdout: seq<Document>

    constructor ()
      ensures stdout == []
    {
      stdout := [];
    }

    /** Writer.Write: one document for a known API version, nothing and the generation error otherwise. */
    method Write(out: Output) returns (err: Option<Error>)
      modifies this
      ensures GenerateExecCredential(out).Success? ==>
        err == None && stdout == old(stdout) + [Render(GenerateExecCredential(out).value)]
      ensures GenerateExecCredential(out).Failure? ==>
        err == Some(GenerateExecCredential(out).error) && stdout == old(stdout)
    {
      var generated := GenerateExecCredential(out);
      if generated.Failure? {
        return Some(generated.error);
      }
      stdout := stdout + [Render(generated.value)];
      err := None;
    }
  }

  // Cases of the writer's unit test.

  const TestExpiry: Time := Time(1798761599, 0)  // 2026-12-31 23:59:59 UTC

  /** generateExecCredential with "client.authentication.k8s.io/v2alpha1" fails with "unknown apiVersion", naming "v2alpha1". */
  lemma UnsupportedAPIVersion()
    ensures GenerateExecCredential(Output("test-token", TestExpiry, "client.authentication.k8s.io/v2alpha1")).Failure?
    ensures Contains(Text(GenerateExecCredential(Output("test-token", TestExpiry, "client.authentication.k8s.io/v2alpha1")).error), UnknownAPIVersion)
    ensures Contains(Text(GenerateExecCredential(Output("test-token", TestExpiry, "client.authentication.k8s.io/v2alpha1")).error), "v2alpha1")
  {
    var group, version := "client.authentication.k8s.io/", "v2alpha1";
    assert group + version == "client.authentication.k8s.io/v2alpha1";
    var out := Output("test-token", TestExpiry, group + version);
    UnknownVersionIsRejected(out);
    assert !IsKnownAPIVersion(group + version) by {
      assert (group + version)[29] == 'v' && V1APIVersion[29] == 'v';
      assert |group + version| != |V1APIVersion| && |group + version| != |V1Beta1APIVersion|;
    }
    assert Text(GenerateExecCredential(out).error) == (UnknownAPIVersion + ": " + group) + version;
    ContainsSuffix(UnknownAPIVersion + ": " + group, version);
  }

  method WriteV1Beta1() returns (err: Option<Error>, written: seq<Document>)
    ensures err == None
    ensures written == [Document(V1Beta1APIVersion, ExecCredentialKind, "test-token-v1beta1", Some(1798761599))]
  {
    var w := new Writer();
    err := w.Write(Output("test-token-v1beta1", TestExpiry, V1Beta1APIVersion));
    written := w.stdout;
  }

  method WriteV1() returns (err: Option<Error>, written: seq<Document>)
    ensures err == None
    ensures written == [Document(V1APIVersion, ExecCredentialKind, "test-token-v1", Some(1798761599))]
  {
    var w := new Writer();
    err := w.Write(Output("test-token-v1", TestExpiry, V1APIVersion));
    written := w.stdout;
  }

  method WriteEmptyAPIVersion() returns (err: Option<Error>, written: seq<Document>)
    ensures err == None
    ensures written == [Document(V1Beta1APIVersion, ExecCredentialKind, "test-token-default", Some(1798761599))]
  {
    var w := new Writer();
    err := w.Write(Output("test-token-default", TestExpiry, ""));
    written := w.stdout;
  }

  method WriteInvalidAPIVersion() returns (err: Option<Error>, written: seq<Document>)
    ensures err.Some? && Contains(Text(err.value), UnknownAPIVersion) && Contains(Text(err.value), "invalid/v999")
    ensures written == []
  {
    var w := new Writer();
    var out := Output("test-token-invalid", TestExpiry, "invalid/v999");
    err := w.Write(out);
    written := w.stdout;
    UnknownVersionIsRejected(out);
  }

  method WriteZeroExpiry() returns (err: Option<Error>, written: seq<Document>)
    ensures err == None
    ensures |written| == 1 && written[0].expirationTimestamp == None
  {
    var w := new Writer();
    err := w.Write(Output("test-token-zero-expiry", ZeroTime, V1APIVersion));
    written := w.stdout;
  }
}
