/**
 * The OAuth 2.0 client credentials grant (section 4.4 of RFC 6749): a
 * guard against a nil input, one call to the OIDC client and wrapping of
 * the client's error. The client is a function argument; the fields of its
 * input are not visible, so the input is a type parameter.
 */
module ClientCredentials {
  import opened Wrappers
  import opened Errors
  import opened Oidc

  /**
   * What one run of Do amounts to: the argument the OIDC client was called
   * with (None when it was not called) and the (token set, error) pair.
   */
  datatype Run<In> = Run(forwarded: Option<In>, result: Result<TokenSet, Error>)

  const NilInput: Error := Message("nil input")
  const AuthorizationError: string := "authorization error"

  /** ClientCredentials.Do; input None stands for a nil *GetTokenByClientCredentialsInput. */
  function Do<In>(input: Option<In>, client: In -> Result<TokenSet, Error>): (r: Run<In>)
    ensures r.forwarded.Some? <==> input.Some?
    ensures r.result.Success? ==> input.Some? && r.result == client(input.value)
  {
    match input
    case None => Run(None, Failure(NilInput))
    case Some(request) =>
      match client(request)
      case Failure(err) => Run(Some(request), Failure(Wrapped(AuthorizationError, err)))
      case Success(tokenSet) => Run(Some(request), Success(tokenSet))
  }

  /** A nil input fails with "nil input" and the client is never called. */
  lemma NilInputIsRejectedBeforeTheClient<In>(client: In -> Result<TokenSet, Error>)
    ensures Do(None, client).forwarded == None
    ensures Do(None, client).result == Failure(NilInput)
    ensures Text(Do(None, client).result.error) == "nil input"
  {
  }

  /** A non-nil input reaches the client exactly once and unmodified. */
  lemma ClientReceivesTheInput<In>(request: In, client: In -> Result<TokenSet, Error>)
    ensures Do(Some(request), client).forwarded == Some(request)
  {
  }

  /**
   * A client error comes back with no token set, as an error whose text
   * starts with "authorization error: ", contains the client error's text
   * and still unwraps (errors.Is) to the client error.
   */
  lemma ClientErrorIsWrapped<In>(request: In, client: In -> Result<TokenSet, Error>)
    requires client(request).Failure?
    ensures Do(Some(request), client).result.Failure?
    ensures AuthorizationError + ": " <= Text(Do(Some(request), client).result.error)
    ensures Contains(Text(Do(Some(request), client).result.error), Text(client(request).error))
    ensures Is(Do(Some(request), client).result.error, client(request).error)
  {
    WrappedKeepsCause(AuthorizationError, client(request).error);
  }

  /** A token set the client returns is handed back unchanged, with no error. */
  lemma TokenSetIsReturnedUnchanged<In>(request: In, client: In -> Result<TokenSet, Error>)
    requires client(request).Success?
    ensures Do(Some(request), client).result == Success(client(request).value)
  {
  }

  /** Do succeeds exactly when the input is non-nil and the client succeeds. */
  lemma SucceedsIffInputAndClientSucceed<In>(input: Option<In>, client: In -> Result<TokenSet, Error>)
    ensures Do(input, client).result.Success? <==> input.Some? && client(input.value).Success?
  {
  }
}
