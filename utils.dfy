/**
 * Identifier escaping (pkg/utils/escape.go): a name is wrapped in backticks and
 * every backtick inside it is doubled, so that it can be spliced into SQL text.
 * `ReadQuoted` is the reading side: how a SQL lexer takes a backtick-quoted
 * identifier off the front of a text.
 */
module Utils {
  import opened Wrappers

  const Tick: char := '`'

  /** `strings.ReplaceAll(identifier, "`", "``")`. */
  function DoubleTicks(s: string): (r: string)
    decreases |s|
  {
    if s == [] then []
    else (if s[0] == Tick then [Tick, Tick] else [s[0]]) + DoubleTicks(s[1..])
  }

  /** `EscapeIdentifier`. */
  function EscapeIdentifier(identifier: string): (r: string)
    ensures |r| >= 2 && r[0] == Tick && r[|r| - 1] == Tick
  {
    [Tick] + DoubleTicks(identifier) + [Tick]
  }

  function CountTicks(s: string): (n: nat)
    decreases |s|
  {
    if s == [] then 0 else (if s[0] == Tick then 1 else 0) + CountTicks(s[1..])
  }

  /**
   * Lexes the body of a quoted identifier (the opening backtick already consumed):
   * a doubled backtick stands for one backtick, a lone one closes the identifier.
   * Returns the identifier and the text after the closing backtick.
   */
  function ReadQuotedBody(s: string): (r: Option<(string, string)>)
    decreases |s|
  {
    if s == [] then None
    else if s[0] == Tick then
      if |s| >= 2 && s[1] == Tick then
        match ReadQuotedBody(s[2..])
        case None => None
        case Some(p) => Some(([Tick] + p.0, p.1))
      else Some(([], s[1..]))
    else
      match ReadQuotedBody(s[1..])
      case None => None
      case Some(p) => Some(([s[0]] + p.0, p.1))
  }

  /** Lexes one backtick-quoted identifier off the front of `s`. */
  function ReadQuoted(s: string): Option<(string, string)>
  {
    if |s| > 0 && s[0] == Tick then ReadQuotedBody(s[1..]) else None
  }

  /** Between the outer delimiters, backticks come only in adjacent pairs. */
  predicate PairedTicks(s: string)
    decreases |s|
  {
    if s == [] then true
    else if s[0] == Tick then |s| >= 2 && s[1] == Tick && PairedTicks(s[2..])
    else PairedTicks(s[1..])
  }

  // ----- properties -----

  lemma {:induction false} DoubleTicksLength(s: string)
    ensures |DoubleTicks(s)| == |s| + CountTicks(s)
    decreases |s|
  {
    if s != [] {
      DoubleTicksLength(s[1..]);
    }
  }

  /** The escaped text is two delimiters longer than the input, plus one per inner backtick. */
  lemma EscapeLength(identifier: string)
    ensures |EscapeIdentifier(identifier)| == |identifier| + 2 + CountTicks(identifier)
  {
    DoubleTicksLength(identifier);
  }

  lemma {:induction false} DoubleTicksPaired(s: string)
    ensures PairedTicks(DoubleTicks(s))
    decreases |s|
  {
    if s != [] {
      DoubleTicksPaired(s[1..]);
      var d := DoubleTicks(s);
      if s[0] == Tick {
        assert d[2..] == DoubleTicks(s[1..]);
      } else {
        assert d[1..] == DoubleTicks(s[1..]);
      }
    }
  }

  /** No lone backtick inside the escaped text can close the identifier early. */
  lemma EscapeInnerPaired(identifier: string)
    ensures var r := EscapeIdentifier(identifier); PairedTicks(r[1..|r| - 1])
  {
    var r := EscapeIdentifier(identifier);
    assert r[1..|r| - 1] == DoubleTicks(identifier);
    DoubleTicksPaired(identifier);
  }

  /**
   * Lexing the doubled text followed by a closing backtick gives back the
   * original name, and stops exactly after that backtick.
   */
  lemma {:induction false} ReadQuotedBodyDoubled(s: string, rest: string)
    requires rest == [] || rest[0] != Tick
    ensures ReadQuotedBody(DoubleTicks(s) + [Tick] + rest) == Some((s, rest))
    decreases |s|
  {
    var t := DoubleTicks(s) + [Tick] + rest;
    if s == [] {
      assert t == [Tick] + rest;
      assert t[1..] == rest;
    } else {
      ReadQuotedBodyDoubled(s[1..], rest);
      var tail := DoubleTicks(s[1..]) + [Tick] + rest;
      if s[0] == Tick {
        assert t == [Tick, Tick] + tail;
        assert t[2..] == tail;
        assert [Tick] + s[1..] == s;
      } else {
        assert t == [s[0]] + tail;
        assert t[1..] == tail;
        assert [s[0]] + s[1..] == s;
      }
    }
  }

  /**
   * Injection safety: whatever text follows an escaped identifier (unless it
   * starts with a backtick, which the SQL the tool builds never does), a lexer
   * reads back exactly the original name and resumes right after it.
   */
  lemma ReadQuotedEscape(identifier: string, rest: string)
    requires rest == [] || rest[0] != Tick
    ensures ReadQuoted(EscapeIdentifier(identifier) + rest) == Some((identifier, rest))
  {
    var t := EscapeIdentifier(identifier) + rest;
    assert t[1..] == DoubleTicks(identifier) + [Tick] + rest;
    ReadQuotedBodyDoubled(identifier, rest);
  }

  /** Round trip: unescaping the escaped name yields the name and nothing else. */
  lemma UnescapeRoundTrip(identifier: string)
    ensures ReadQuoted(EscapeIdentifier(identifier)) == Some((identifier, ""))
  {
    ReadQuotedEscape(identifier, "");
    assert EscapeIdentifier(identifier) + "" == EscapeIdentifier(identifier);
  }

  /** Distinct names give distinct escaped texts. */
  lemma EscapeInjective(a: string, b: string)
    requires EscapeIdentifier(a) == EscapeIdentifier(b)
    ensures a == b
  {
    UnescapeRoundTrip(a);
    UnescapeRoundTrip(b);
  }

  /** Re-escaping always changes the text, so an escaped name is never mistaken for a raw one. */
  lemma EscapeTwiceDiffers(identifier: string)
    ensures EscapeIdentifier(EscapeIdentifier(identifier)) != EscapeIdentifier(identifier)
  {
    var e := EscapeIdentifier(identifier);
    EscapeLength(e);
  }

  lemma {:induction false} DoubleTicksNoTicks(s: string)
    requires Tick !in s
    ensures DoubleTicks(s) == s
    decreases |s|
  {
    if s != [] {
      assert s[0] in s;
      assert forall c :: c in s[1..] ==> c in s;
      DoubleTicksNoTicks(s[1..]);
    }
  }

  /** A name without backticks is only wrapped. */
  lemma EscapeWithoutTicks(identifier: string)
    requires Tick !in identifier
    ensures EscapeIdentifier(identifier) == [Tick] + identifier + [Tick]
  {
    DoubleTicksNoTicks(identifier);
  }

  lemma EscapeExamplePlain()
    ensures EscapeIdentifier("") == "``"
    ensures EscapeIdentifier("my_table") == "`my_table`"
  {
    EscapeWithoutTicks("my_table");
  }

  /** A single backtick between two runs is doubled. */
  lemma DoubleTicksAround(x: string, y: string)
    ensures DoubleTicks(x + [Tick] + y) == DoubleTicks(x) + [Tick, Tick] + DoubleTicks(y)
  {
    DoubleTicksConcat(x + [Tick], y);
    DoubleTicksConcat(x, [Tick]);
    assert DoubleTicks([Tick]) == [Tick, Tick];
  }

  /**
   * The shape of the documented example "table`with`backticks": each inner
   * backtick is doubled and the backtick-free runs are kept as they are.
   */
  lemma EscapeTwoInnerTicks(a: string, b: string, c: string)
    requires Tick !in a && Tick !in b && Tick !in c
    ensures EscapeIdentifier(a + [Tick] + b + [Tick] + c)
         == [Tick] + a + [Tick, Tick] + b + [Tick, Tick] + c + [Tick]
  {
    DoubleTicksNoTicks(a);
    DoubleTicksNoTicks(b);
    DoubleTicksNoTicks(c);
    DoubleTicksAround(a, b);
    DoubleTicksAround(a + [Tick] + b, c);
  }

  lemma {:induction false} DoubleTicksConcat(a: string, b: string)
    ensures DoubleTicks(a + b) == DoubleTicks(a) + DoubleTicks(b)
    decreases |a|
  {
    if a == [] {
      assert a + b == b;
    } else {
      assert (a + b)[0] == a[0];
      assert (a + b)[1..] == a[1..] + b;
      DoubleTicksConcat(a[1..], b);
    }
  }
}
