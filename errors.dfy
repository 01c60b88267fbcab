/**
 * Go error values as the core builds them: a plain message (errors.New,
 * fmt.Errorf without %w) or a message that wraps a cause (fmt.Errorf with
 * "<context>: %w"). Text is what err.Error() prints, Is is errors.Is and
 * Contains is strings.Contains, which the tests use on error texts.
 */
module Errors {

  datatype Error = Message(text: string) | Wrapped(context: string, cause: Error)

  /** err.Error(): the context, ": ", then the cause's text. */
  function Text(e: Error): string
  {
    match e
    case Message(m) => m
    case Wrapped(c, cause) => c + ": " + Text(cause)
  }

  /** errors.Is: e is target or wraps it at some depth. */
  predicate Is(e: Error, target: Error)
  {
    e == target || (e.Wrapped? && Is(e.cause, target))
  }

  /** strings.Contains(s, sub). */
  predicate Contains(s: string, sub: string)
    decreases |s|
  {
    sub <= s || (|s| > 0 && Contains(s[1..], sub))
  }

  lemma ContainsPrefix(s: string, t: string)
    ensures Contains(s + t, s)
  {
    assert s <= s + t;
  }

  /** Whatever t contains, any string ending in t contains too. */
  lemma {:induction false} ContainsAfter(s: string, t: string, u: string)
    requires Contains(t, u)
    ensures Contains(s + t, u)
    decreases |s|
  {
    if s == [] {
      assert s + t == t;
    } else {
      assert (s + t)[1..] == s[1..] + t;
      ContainsAfter(s[1..], t, u);
    }
  }

  /** A string contains every suffix of itself. */
  lemma ContainsSuffix(s: string, t: string)
    ensures Contains(s + t, t)
  {
    assert t <= t;
    ContainsAfter(s, t, t);
  }

  /**
   * Wrapping keeps the cause: the wrapped error's text contains its context
   * and the cause's text, and errors.Is still finds the cause.
   */
  lemma WrappedKeepsCause(context: string, cause: Error)
    ensures Text(Wrapped(context, cause)) == context + ": " + Text(cause)
    ensures Contains(Text(Wrapped(context, cause)), context)
    ensures Contains(Text(Wrapped(context, cause)), Text(cause))
    ensures Is(Wrapped(context, cause), cause)
  {
    ContainsPrefix(context, ": " + Text(cause));
    assert context + ": " + Text(cause) == context + (": " + Text(cause));
    ContainsSuffix(context + ": ", Text(cause));
  }
}
