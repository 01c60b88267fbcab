# kubelogin core in Dafny

This project models four pieces of kubelogin, a kubectl credential plugin that gets a Kubernetes credential through an OAuth 2.0 / OpenID Connect grant and caches the resulting token:

- **ClientCredentials.Do** (`clientcredentials.dfy`). This is the client credentials grant (section 4.4 of RFC 6749). It rejects a nil input before the OIDC client is called. Otherwise it calls the client once with the input unchanged, wraps a client error as `authorization error: %w`, and returns a successful token set unchanged. The client is a function argument. The result records the argument the client was called with.
- **Clean.Do** (`tokencache.dfy`, `clean.dfy`). This use case clears the token cache. It calls `DeleteAll` on the token cache repository, first for `{dir, disk}` and then for `{dir, keyring}`. A disk failure is returned, wrapped with the directory, and the keyring is not touched. A keyring failure is swallowed. The repository is a class with a call trace and scripted answers, like the strict mock of the unit test.
- **generateExecCredential and Writer.Write** (`writer.dfy`). These pick the `client.authentication.k8s.io` ExecCredential type: `v1`, or `v1beta1` for `v1beta1` and for an empty version. Any other version is an `unknown apiVersion` error naming the value. The token and expiry are copied into the credential. Write appends the encoded credential to standard output. Standard output is modelled as the sequence of documents a reader decodes from it.
- **PKCE parameters** (`pkce.dfy`, `base64url.dfy`), after RFC 7636. The `Method` enumeration has NoMethod = 0 and MethodS256 = 1. `New` takes the random bytes as an argument and, for S256, builds the verifier as the unpadded base64url encoding (section 5 of RFC 4648) of 32 of them. `AuthCodeOption` gives the challenge parameters and `TokenRequestOption` gives the verifier parameter. Both are present only for S256. SHA-256 is a function argument. Base64url is written out, so the verifier's length (43, within 43..128) and character set are proved rather than assumed. The decoder is written out too, so it is proved that distinct draws give distinct verifiers.

Go errors are modelled in `errors.dfy`: a message, or a message wrapping a cause (`fmt.Errorf("…: %w", cause)`). `Text` is `err.Error()`, `Is` is errors.Is with errors compared by value (see "## Left out"), and `Contains` is `strings.Contains`, which the tests apply to error texts.

Of the four pieces, only ClientCredentials.Do is modelled from its implementation (pkg/usecases/authentication/clientcredentials/clientcredentials.go). The implementation files of the other three are not part of this model. They are modelled from the assertions of their unit tests. Where this README says "the model's choice", the test does not fix the detail.

`Clean.Do` stops after a disk failure: the strict mock of the DiskDeletionError test (pkg/usecases/clean/clean_test.go:47-51) expects only the disk call.

## Model

| member | source | states |
|---|---|---|
| ClientCredentials.Do | pkg/usecases/authentication/clientcredentials/clientcredentials.go:17-28 | the client is called exactly when the input is non-nil; a success is always the client's own token set for that input |
| ClientCredentials.NilInputIsRejectedBeforeTheClient | pkg/usecases/authentication/clientcredentials/clientcredentials.go:19-21 | a nil input fails with the error "nil input", and the client is never called |
| ClientCredentials.ClientReceivesTheInput | pkg/usecases/authentication/clientcredentials/clientcredentials.go:22 | for a non-nil input the client is called with exactly that input |
| ClientCredentials.ClientErrorIsWrapped | pkg/usecases/authentication/clientcredentials/clientcredentials.go:23-25 | a client error gives no token set and an error whose text starts with "authorization error: " and contains the client error's text, and errors.Is still finds the client error |
| ClientCredentials.TokenSetIsReturnedUnchanged | pkg/usecases/authentication/clientcredentials/clientcredentials.go:27 | a token set from the client is returned unchanged with no error |
| ClientCredentials.SucceedsIffInputAndClientSucceed | pkg/usecases/authentication/clientcredentials/clientcredentials_test.go:17-48 | Do succeeds if and only if the input is non-nil and the client succeeds |
| Errors.WrappedKeepsCause | pkg/usecases/authentication/clientcredentials/clientcredentials.go:24 | a `%w`-wrapped error's text is the context, ": " and the cause's text, so it contains both; errors.Is finds the cause |
| Errors.ContainsAfter | pkg/usecases/clean/clean_test.go:62-63 | whatever a string contains, any string ending in it contains too (used for the substring assertions on error texts) |
| TokenCache.Repository.constructor | pkg/usecases/clean/clean_test.go:17 | a new repository has an empty call trace and the given scripted failures |
| TokenCache.Repository.DeleteAll | pkg/usecases/clean/clean_test.go:21-30 | each call is appended to the trace, and the call gets the scripted answer |
| Clean.Attempts | pkg/usecases/clean/clean_test.go:21-30 | the calls of one Do: the disk first; at most one per storage; every call carries the input directory verbatim; the keyring is called if and only if the disk deletion succeeded |
| Clean.Outcome | pkg/usecases/clean/clean_test.go:47-63 | Do fails if and only if the disk deletion fails |
| Clean.Clean.constructor | pkg/usecases/clean/clean_test.go:32-35 | the use case holds the given repository |
| Clean.Clean.Do | pkg/usecases/clean/clean_test.go:15-119 | the repository's trace grows by exactly Attempts for the input directory, and the result is Outcome |
| Clean.DiskFailureIsReported | pkg/usecases/clean/clean_test.go:47-63 | after a disk failure the error's text contains "delete the token cache from <dir>" and the cause's text, and errors.Is finds the cause |
| Clean.KeyringFailureIsNotFatal | pkg/usecases/clean/clean_test.go:66-91 | when the disk deletion succeeds, a keyring failure changes neither the calls made nor the success of Do |
| Clean.SuccessBothStorages | pkg/usecases/clean/clean_test.go:16-41 | with no failures, Do calls disk then keyring for "/test/cache/dir" and succeeds |
| Clean.DiskDeletionError | pkg/usecases/clean/clean_test.go:43-64 | after a disk failure only the disk call is made, and the error contains "delete the token cache from /test/cache/dir" and "disk deletion failed" |
| Clean.KeyringDeletionErrorNotFatal | pkg/usecases/clean/clean_test.go:66-92 | a keyring failure still gives both calls and success |
| Clean.EmptyTokenCacheDir | pkg/usecases/clean/clean_test.go:94-118 | an empty directory is passed verbatim to both calls, and Do succeeds |
| CredentialPluginWriter.GenerateExecCredential | pkg/credentialplugin/writer/credential_plugin_test.go:209-222 | every credential generated has kind "ExecCredential", a non-empty API version, and the output's token and expiry in its status |
| CredentialPluginWriter.VersionSelection | pkg/credentialplugin/writer/credential_plugin_test.go:142-193 | generation succeeds if and only if the version is v1, v1beta1 or empty; the v1 type is returned if and only if v1 was asked for; a non-empty version asked for is the one the credential names; an empty one gives the v1beta1 type naming v1beta1 |
| CredentialPluginWriter.UnknownVersionIsRejected | pkg/credentialplugin/writer/credential_plugin_test.go:195-207 | any other version gives no credential and an error whose text contains "unknown apiVersion" and the version |
| CredentialPluginWriter.UnsupportedAPIVersion | pkg/credentialplugin/writer/credential_plugin_test.go:195-207 | "client.authentication.k8s.io/v2alpha1" is rejected with an error containing "unknown apiVersion" and "v2alpha1" |
| CredentialPluginWriter.WriteKeepsTokenAndExpiry | pkg/credentialplugin/writer/credential_plugin_test.go:99-136 | for every known version, the written token equals the output's token (the empty one too) and the expiry survives to the second, or is absent for the zero time |
| CredentialPluginWriter.Writer.constructor | pkg/credentialplugin/writer/credential_plugin_test.go:20-21 | a new writer's standard output is empty |
| CredentialPluginWriter.Writer.Write | pkg/credentialplugin/writer/credential_plugin_test.go:16-137 | for a known version, exactly one document, that of the generated credential, is appended and there is no error; otherwise nothing is written and the generation error is returned |
| CredentialPluginWriter.WriteV1Beta1 | pkg/credentialplugin/writer/credential_plugin_test.go:19-39 | writing a v1beta1 output gives one v1beta1 ExecCredential document with its token and the expiry's Unix seconds |
| CredentialPluginWriter.WriteV1 | pkg/credentialplugin/writer/credential_plugin_test.go:41-61 | writing a v1 output gives one v1 ExecCredential document with its token and the expiry's Unix seconds |
| CredentialPluginWriter.WriteEmptyAPIVersion | pkg/credentialplugin/writer/credential_plugin_test.go:63-82 | writing with no version gives one v1beta1 ExecCredential document with the token and the expiry's Unix seconds |
| CredentialPluginWriter.WriteInvalidAPIVersion | pkg/credentialplugin/writer/credential_plugin_test.go:84-97 | "invalid/v999" writes nothing and fails with an error containing "unknown apiVersion" and "invalid/v999" |
| CredentialPluginWriter.WriteZeroExpiry | pkg/credentialplugin/writer/credential_plugin_test.go:117-136 | the zero expiry is written as an absent timestamp |
| Pkce.MethodOf | pkg/pkce/pkce_test.go:90-96 | Method(n) names a method only when n is that method's constant |
| Pkce.MethodConstants | pkg/pkce/pkce_test.go:90-96 | NoMethod is 0 and MethodS256 is 1, the two differ, and the zero value is NoMethod |
| Pkce.New | pkg/pkce/pkce_test.go:10-26 | NoMethod gives NoMethod with an empty verifier; S256 gives S256 with a verifier of 43 to 128 unreserved characters, or an error when the entropy source yields fewer than 32 bytes |
| Pkce.VerifiersAreAsDistinctAsTheirDraws | pkg/pkce/pkce_test.go:28-35 | two S256 verifiers are equal if and only if the random bytes they were drawn from are |
| Base64Url.Encode | pkg/pkce/pkce_test.go:17-18 | the encoding of n bytes has base64.RawURLEncoding.EncodedLen(n) characters, all from the URL-safe alphabet |
| Base64Url.DecodeEncode | pkg/pkce/pkce_test.go:28-35 | decoding an encoding gives back the bytes |
| Base64Url.EncodeIsInjective | pkg/pkce/pkce_test.go:28-35 | distinct byte strings have distinct encodings |
| Pkce.S256Challenge | pkg/pkce/pkce_test.go:39-46 | the S256 challenge has 43 unreserved characters |
| Pkce.AuthCodeOption | pkg/pkce/pkce_test.go:38-62 | an option is present if and only if the method is S256 |
| Pkce.TokenRequestOption | pkg/pkce/pkce_test.go:64-88 | an option is present if and only if the method is S256 |
| Pkce.S256Options | pkg/pkce/pkce_test.go:39-72 | for S256 the authorization request gets code_challenge (the verifier's S256 challenge) and code_challenge_method=S256, and the token request gets code_verifier (the verifier) |
| Pkce.NoMethodAddsNoOptions | pkg/pkce/pkce_test.go:21-87 | NoMethod Params, whatever the verifier, the zero Params and the Params New(NoMethod) returns get neither option |
| Pkce.GeneratedOptionsPassTheServerCheck | pkg/pkce/pkce_test.go:11-19 | for Params from New(S256), both options are present, the verifier sent is a valid verifier, and its S256 challenge is the challenge sent (the authorization server's check in section 4.6 of RFC 7636) |

## Left out

- Logging (`Logger.V(1).Infof` and the keyring-failure log line): it is a side channel only.
- Error identity: `Is` compares errors by value, while Go's errors.Is compares them by identity and consults their `Is` methods, so two `errors.New("x")` errors are different in Go but equal in the model. Every `Is` claim in the model is positive and holds through wrapping, so it holds in Go too.
- The `context.Context` arguments: nothing here depends on cancellation.
- The OIDC client, the disk and keyring backends, and the random source: they appear only as arguments (a client function, a scripted repository, a byte sequence).
- SHA-256: it is a function argument that returns 32 bytes. `S256Challenge` takes the verifier as a string and leaves its byte encoding to that function.
- The fields of `GetTokenByClientCredentialsInput`: they are not visible, so the input is a type parameter.
- JSON encoding in `Writer.Write`: standard output is the sequence of decoded documents, not bytes. The expiration timestamp, a metav1.Time, is written as `null` for its zero value and as RFC 3339 to the second otherwise, so a document keeps it as absent or as Unix seconds. Failures of encoding or of writing to `Stdout` are not modelled, so `Write` never fails for a known API version.
- Time zones and Go's monotonic clock reading: an expiry is Unix seconds plus nanoseconds.
- pkg/di/di.go, main.go, integration_test/clean_test.go and pkg/usecases/setup/setup_test.go: these are wiring, process plumbing, an end-to-end I/O test, and setup instructions printed to the terminal.
- Pkce.New: the 32-byte draw and its base64url encoding are the model's choice. The test fixes only the 43..128 length. The error text for a short entropy source is also the model's choice.
- Pkce.MethodOf: Go allows other `Method` integers. Their behaviour is not shown, so the enumeration has only the two constants.
- Pkce.VerifiersAreAsDistinctAsTheirDraws: the uniqueness test depends on the random source. The model proves only that verifiers are as distinct as the bytes drawn.
- Clean.DiskFailureIsReported: the `%w` wrapping and the text "delete the token cache from <dir>: <cause>" are the model's choice. The test asserts only the two substrings.
- CredentialPluginWriter.UnknownVersionIsRejected: the text "unknown apiVersion: <version>" is the model's choice. The test asserts only the two substrings.
- CredentialPluginWriter.Writer.Write: the model returns the generation error unchanged. If the source adds context, the asserted substrings still hold.
- CredentialPluginWriter.GenerateExecCredential: the status always carries the expiry, the zero time included. The zero time becomes absent when it is written.
