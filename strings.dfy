/** The few JavaScript string operations the site relies on: `join`, `split`
    with a one-character separator, `startsWith`, number-to-string
    interpolation and `parseInt` on a digit prefix. */
module Strings {
  import opened Wrappers

  /** `tokens.join(sep)`. */
  function Join(tokens: seq<string>, sep: string): string
    decreases |tokens|
  {
    if |tokens| == 0 then ""
    else if |tokens| == 1 then tokens[0]
    else tokens[0] + sep + Join(tokens[1..], sep)
  }

  /** `s.split(c)`: the pieces between occurrences of `c`; never empty. */
  function Split(s: string, c: char): (r: seq<string>)
    ensures |r| >= 1
    ensures forall i :: 0 <= i < |r| ==> c !in r[i]
    decreases |s|
  {
    if |s| == 0 then [""]
    else if s[0] == c then [""] + Split(s[1..], c)
    else
      var rest := Split(s[1..], c);
      [[s[0]] + rest[0]] + rest[1..]
  }

  /** `s.split(c)[0]`: the text before the first `c`, or all of `s`. */
  function Before(s: string, c: char): (r: string)
    ensures r <= s && c !in r
    ensures |r| < |s| ==> s[|r|] == c
    decreases |s|
  {
    if |s| == 0 then ""
    else if s[0] == c then ""
    else [s[0]] + Before(s[1..], c)
  }

  lemma {:induction false} BeforeIsFirstPiece(s: string, c: char)
    ensures Before(s, c) == Split(s, c)[0]
    decreases |s|
  {
    if |s| > 0 && s[0] != c {
      BeforeIsFirstPiece(s[1..], c);
    }
  }

  lemma {:induction false} SplitPrefix(t: string, u: string, c: char)
    requires c !in t
    ensures Split(t + u, c) == [t + Split(u, c)[0]] + Split(u, c)[1..]
    decreases |t|
  {
    if |t| == 0 {
      assert t + u == u;
      var r := Split(u, c);
      assert t + r[0] == r[0];
      assert r == [r[0]] + r[1..];
    } else {
      assert (t + u)[0] == t[0];
      assert (t + u)[1..] == t[1..] + u;
      SplitPrefix(t[1..], u, c);
      assert [t[0]] + (t[1..] + Split(u, c)[0]) == t + Split(u, c)[0];
    }
  }

  /** Splitting undoes joining when no token contains the separator. */
  lemma {:induction false} SplitJoin(tokens: seq<string>, c: char)
    requires |tokens| >= 1
    requires forall i :: 0 <= i < |tokens| ==> c !in tokens[i]
    ensures Split(Join(tokens, [c]), c) == tokens
    decreases |tokens|
  {
    if |tokens| == 1 {
      SplitPrefix(tokens[0], "", c);
      assert tokens[0] + "" == tokens[0];
    } else {
      var rest := Join(tokens[1..], [c]);
      SplitJoin(tokens[1..], c);
      assert Join(tokens, [c]) == tokens[0] + ([c] + rest);
      var u := [c] + rest;
      assert u[0] == c && u[1..] == rest;
      assert Split(u, c) == [""] + Split(rest, c);
      SplitPrefix(tokens[0], u, c);
      assert tokens[0] + "" == tokens[0];
      assert tokens == [tokens[0]] + tokens[1..];
    }
  }

  /** A join of non-empty tokens is empty exactly when there are no tokens. */
  lemma JoinEmpty(tokens: seq<string>, sep: string)
    requires forall i :: 0 <= i < |tokens| ==> tokens[i] != ""
    ensures Join(tokens, sep) == "" <==> |tokens| == 0
  {
    if |tokens| > 1 {
      assert |Join(tokens, sep)| >= |tokens[0]|;
    }
  }

  /** Joining a concatenation: the two joins meet at one separator. */
  lemma {:induction false} JoinAppend(a: seq<string>, b: seq<string>, sep: string)
    requires |a| >= 1 && |b| >= 1
    ensures Join(a + b, sep) == Join(a, sep) + sep + Join(b, sep)
    decreases |a|
  {
    if |a| == 1 {
      assert (a + b)[1..] == b;
    } else {
      assert (a + b)[1..] == a[1..] + b;
      JoinAppend(a[1..], b, sep);
    }
  }

  // ---- numbers --------------------------------------------------------

  predicate IsDigit(ch: char) {
    '0' <= ch <= '9'
  }

  function DigitChar(d: nat): (ch: char)
    requires d < 10
    ensures IsDigit(ch)
  {
    "0123456789"[d]
  }

  function DigitValue(ch: char): nat
    requires IsDigit(ch)
  {
    (ch - '0') as nat
  }

  /** `${n}` for a non-negative integer: its decimal digits. */
  function NatToString(n: nat): (r: string)
    ensures |r| >= 1
    ensures forall i :: 0 <= i < |r| ==> IsDigit(r[i])
    decreases n
  {
    if n < 10 then [DigitChar(n)] else NatToString(n / 10) + [DigitChar(n % 10)]
  }

  /** The value of a string of decimal digits. */
  function DigitsValue(s: string): nat
    requires forall i :: 0 <= i < |s| ==> IsDigit(s[i])
    decreases |s|
  {
    if |s| == 0 then 0 else DigitsValue(s[..|s| - 1]) * 10 + DigitValue(s[|s| - 1])
  }

  /** The longest prefix of `s` made of decimal digits. */
  function LeadingDigits(s: string): (r: string)
    ensures r <= s
    ensures forall i :: 0 <= i < |r| ==> IsDigit(s[i])
    ensures |r| < |s| ==> !IsDigit(s[|r|])
    decreases |s|
  {
    if |s| == 0 || !IsDigit(s[0]) then "" else [s[0]] + LeadingDigits(s[1..])
  }

  /** `parseInt(s)` for a string that starts with its digits (no sign, no
      leading blanks): the value of the digit prefix, or `None` for NaN. */
  function ParseInt(s: string): Option<nat> {
    var d := LeadingDigits(s);
    if d == "" then None else Some(DigitsValue(d))
  }

  lemma {:induction false} DigitsValueOfNatToString(n: nat)
    ensures DigitsValue(NatToString(n)) == n
    decreases n
  {
    var s := NatToString(n);
    if n < 10 {
      assert s[..0] == "";
      assert DigitValue(DigitChar(n)) == n;
    } else {
      DigitsValueOfNatToString(n / 10);
      assert s[..|s| - 1] == NatToString(n / 10);
      assert DigitValue(DigitChar(n % 10)) == n % 10;
    }
  }

  lemma {:induction false} LeadingDigitsOfDigits(s: string, suffix: string)
    requires forall i :: 0 <= i < |s| ==> IsDigit(s[i])
    requires suffix == "" || !IsDigit(suffix[0])
    ensures LeadingDigits(s + suffix) == s
    decreases |s|
  {
    if |s| == 0 {
      assert s + suffix == suffix;
    } else {
      assert (s + suffix)[1..] == s[1..] + suffix;
      LeadingDigitsOfDigits(s[1..], suffix);
    }
  }

  /** `parseInt` reads back what number interpolation wrote, whatever
      non-digit text follows it (`parseInt("768px") === 768`). */
  lemma ParseIntOfNatToString(n: nat, suffix: string)
    requires suffix == "" || !IsDigit(suffix[0])
    ensures ParseInt(NatToString(n) + suffix) == Some(n)
  {
    LeadingDigitsOfDigits(NatToString(n), suffix);
    DigitsValueOfNatToString(n);
  }

  /** `Before` stops at the first occurrence of the character. */
  lemma {:induction false} BeforeStopsAt(t: string, u: string, c: char)
    requires c !in t && |u| > 0 && u[0] == c
    ensures Before(t + u, c) == t
    decreases |t|
  {
    if |t| == 0 {
      assert t + u == u;
    } else {
      assert (t + u)[1..] == t[1..] + u;
      BeforeStopsAt(t[1..], u, c);
    }
  }
}
