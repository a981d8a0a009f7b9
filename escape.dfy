/**
 * `api.db.escape`: quotes an identifier unless it is made only of the
 * characters of `IDENTIFIER_REGEXP` (`/^[0-9,a-z,A-Z_.]*$/`).
 */
module Escape {
  import opened Wrappers

  /** The quote used when the caller passes none. */
  const DefaultQuote: string := "`"

  /** A character of the class `[0-9,a-z,A-Z_.]`: digits, letters, comma, underscore, dot. */
  predicate IsIdentifierChar(c: char) {
    ('0' <= c <= '9') || ('a' <= c <= 'z') || ('A' <= c <= 'Z') || c == ',' || c == '_' || c == '.'
  }

  /** Reference definition: every character of `s` is an identifier character. */
  ghost predicate IsIdentifier(s: string) {
    forall i :: 0 <= i < |s| ==> IsIdentifierChar(s[i])
  }

  /** `IDENTIFIER_REGEXP.test(s)`: the anchored star `^[…]*$`, matched one character at a time. */
  predicate IdentifierRegexpTest(s: string) {
    s == [] || (IsIdentifierChar(s[0]) && IdentifierRegexpTest(s[1..]))
  }

  /** The pattern accepts exactly the identifiers, the empty string included. */
  lemma {:induction false} IdentifierRegexpTestCorrect(s: string)
    ensures IdentifierRegexpTest(s) <==> IsIdentifier(s)
  {
    if s != [] {
      IdentifierRegexpTestCorrect(s[1..]);
      assert forall i :: 1 <= i < |s| ==> s[i] == s[1..][i - 1];
    }
  }

  /** `api.db.escape(str, quote = '`')`. An embedded quote is not escaped. */
  function Escape(str: string, quote: string := DefaultQuote): (r: string)
    ensures IsIdentifier(str) ==> r == str
    ensures !IsIdentifier(str) ==> r == quote + str + quote
  {
    IdentifierRegexpTestCorrect(str);
    if IdentifierRegexpTest(str) then str else quote + str + quote
  }

  /** Inverse of `Escape` for a fixed quote: strips one quote from each end of a non-identifier. */
  function Unescape(r: string, quote: string := DefaultQuote): Option<string> {
    if IdentifierRegexpTest(r) then Some(r)
    else if 2 * |quote| <= |r| && r[..|quote|] == quote && r[|r| - |quote|..] == quote
    then Some(r[|quote|..|r| - |quote|])
    else None
  }

  /** A non-identifier stays a non-identifier however it is wrapped. */
  lemma WrappedIsNotIdentifier(s: string, quote: string)
    requires !IsIdentifier(s)
    ensures !IsIdentifier(quote + s + quote)
  {
    var i :| 0 <= i < |s| && !IsIdentifierChar(s[i]);
    assert (quote + s + quote)[|quote| + i] == s[i];
  }

  /** Escaping keeps identifier-ness: the result is an identifier exactly when the input is. */
  lemma EscapeKeepsIdentifier(s: string, quote: string)
    ensures IsIdentifier(Escape(s, quote)) <==> IsIdentifier(s)
  {
    if !IsIdentifier(s) {
      WrappedIsNotIdentifier(s, quote);
    }
  }

  /** Escaping loses nothing: `Unescape` recovers the input for every quote. */
  lemma EscapeRoundTrip(s: string, quote: string)
    ensures Unescape(Escape(s, quote), quote) == Some(s)
  {
    var r := Escape(s, quote);
    IdentifierRegexpTestCorrect(r);
    if !IsIdentifier(s) {
      WrappedIsNotIdentifier(s, quote);
      assert r[..|quote|] == quote;
      assert r[|r| - |quote|..] == quote;
      assert r[|quote|..|r| - |quote|] == s;
    }
  }

  /** For a fixed quote, two different strings never escape to the same string. */
  lemma EscapeInjective(s: string, t: string, quote: string)
    requires Escape(s, quote) == Escape(t, quote)
    ensures s == t
  {
    EscapeRoundTrip(s, quote);
    EscapeRoundTrip(t, quote);
  }

  /** The input comes back unchanged exactly for identifiers, or when the quote is empty. */
  lemma EscapeUnchangedIff(s: string, quote: string)
    ensures Escape(s, quote) == s <==> IsIdentifier(s) || quote == []
  {
    if !IsIdentifier(s) && quote != [] {
      assert |Escape(s, quote)| == |s| + 2 * |quote|;
    }
  }

  /**
   * A wrapped result is the quote, the input verbatim, and the quote again:
   * a quote inside the input is kept as it is, not doubled or escaped.
   */
  lemma EscapeKeepsEmbeddedQuote(s: string, quote: string)
    requires !IsIdentifier(s)
    ensures var r := Escape(s, quote);
      |r| == |s| + 2 * |quote| && r[..|quote|] == quote && r[|quote|..|quote| + |s|] == s
      && r[|quote| + |s|..] == quote
  {
  }

  /** With the default quote, a string holding a backtick is wrapped with its backtick left bare. */
  lemma EscapeDefaultQuoteExample()
    ensures Escape("a`b") == "`a`b`"
    ensures Escape("users.id") == "users.id"
    ensures Escape("") == ""
  {
    assert !IsIdentifierChar('`');
    assert !IsIdentifier("a`b") by { assert "a`b"[1] == '`'; }
  }

  /** Escaping is not idempotent: escaping an escaped non-identifier wraps it a second time. */
  lemma EscapeTwiceWrapsTwice(s: string, quote: string)
    requires !IsIdentifier(s)
    ensures Escape(Escape(s, quote), quote) == quote + (quote + s + quote) + quote
  {
    EscapeKeepsIdentifier(s, quote);
  }
}
