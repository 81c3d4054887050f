/** The string primitives the sources use: `Array.prototype.join`,
    `String.prototype.split` with a one-character separator,
    `String.prototype.trim`, and the decimal rendering of a count. */
module Text {

  /** `parts.join(sep)`. */
  function Join(parts: seq<string>, sep: string): string
  {
    if |parts| == 0 then ""
    else if |parts| == 1 then parts[0]
    else parts[0] + sep + Join(parts[1..], sep)
  }

  /** Joining two non-empty lists is joining each and putting one separator
      between the results. */
  lemma {:induction false} JoinAppend(a: seq<string>, b: seq<string>, sep: string)
    requires |a| >= 1 && |b| >= 1
    ensures Join(a + b, sep) == Join(a, sep) + sep + Join(b, sep)
    decreases |a|
  {
    if |a| == 1 {
      assert (a + b)[1..] == b;
    } else {
      JoinAppend(a[1..], b, sep);
      assert (a + b)[1..] == a[1..] + b;
    }
  }

  /** `s.split(sep)` for a one-character separator: always at least one
      piece, no piece holds the separator, and joining the pieces back
      with the separator gives `s` again. */
  function Split(s: string, sep: char): (parts: seq<string>)
    ensures |parts| >= 1
    ensures forall p <- parts :: sep !in p
    ensures Join(parts, [sep]) == s
    decreases |s|
  {
    if |s| == 0 then [""]
    else
      var rest := Split(s[1..], sep);
      if s[0] == sep then
        assert [sep] + Join(rest, [sep]) == s;
        [""] + rest
      else
        var parts := [[s[0]] + rest[0]] + rest[1..];
        assert Join(parts, [sep]) == [s[0]] + Join(rest, [sep]) by {
          if |rest| > 1 {
            assert parts[1..] == rest[1..];
          }
        }
        parts
  }

  lemma {:induction false} SplitWithoutSeparator(s: string, sep: char)
    requires sep !in s
    ensures Split(s, sep) == [s]
    decreases |s|
  {
    if |s| > 0 {
      SplitWithoutSeparator(s[1..], sep);
      assert [s[0]] + s[1..] == s;
    }
  }

  /** Splitting at the first separator: a separator-free prefix becomes the
      first piece, and the rest splits on its own. */
  lemma {:induction false} SplitAtSeparator(a: string, b: string, sep: char)
    requires sep !in a
    ensures Split(a + [sep] + b, sep) == [a] + Split(b, sep)
    decreases |a|
  {
    var s := a + [sep] + b;
    if |a| == 0 {
      assert s[1..] == b;
    } else {
      SplitAtSeparator(a[1..], b, sep);
      assert s[0] == a[0] && s[1..] == a[1..] + [sep] + b;
      var rest := Split(s[1..], sep);
      assert rest[0] == a[1..] && rest[1..] == Split(b, sep);
      assert [a[0]] + a[1..] == a;
    }
  }

  /** `parts.join(sep).split(sep)` gives back `parts` when no part holds the
      separator (and there is at least one part: `[].join(sep)` is "", which
      splits into [""]). */
  lemma {:induction false} SplitJoin(parts: seq<string>, sep: char)
    requires |parts| >= 1
    requires forall p <- parts :: sep !in p
    ensures Split(Join(parts, [sep]), sep) == parts
    decreases |parts|
  {
    if |parts| == 1 {
      SplitWithoutSeparator(parts[0], sep);
    } else {
      SplitJoin(parts[1..], sep);
      SplitAtSeparator(parts[0], Join(parts[1..], [sep]), sep);
      assert [parts[0]] + parts[1..] == parts;
    }
  }

  /** The pieces of `pad + parts.join(sep + pad)` split at `sep` are the parts,
      each preceded by `pad`. */
  lemma {:induction false} SplitPaddedJoin(parts: seq<string>, sep: char, pad: string)
    requires |parts| >= 1
    requires sep !in pad
    requires forall p <- parts :: sep !in p
    ensures Split(pad + Join(parts, [sep] + pad), sep) == seq(|parts|, i requires 0 <= i < |parts| => pad + parts[i])
    decreases |parts|
  {
    if |parts| == 1 {
      SplitWithoutSeparator(pad + parts[0], sep);
    } else {
      var tail := Join(parts[1..], [sep] + pad);
      assert Join(parts, [sep] + pad) == parts[0] + ([sep] + pad) + tail;
      Regroup(pad, parts[0], sep, tail);
      SplitAtSeparator(pad + parts[0], pad + tail, sep);
      SplitPaddedJoin(parts[1..], sep, pad);
      PadEach(parts, pad);
    }
  }

  lemma Regroup(pad: string, p: string, sep: char, tail: string)
    ensures pad + (p + ([sep] + pad) + tail) == (pad + p) + [sep] + (pad + tail)
  {
  }

  /** Padding every part is padding the first and then the rest. */
  lemma PadEach(parts: seq<string>, pad: string)
    requires |parts| >= 1
    ensures seq(|parts|, i requires 0 <= i < |parts| => pad + parts[i])
      == [pad + parts[0]] + seq(|parts[1..]|, i requires 0 <= i < |parts[1..]| => pad + parts[1..][i])
  {
  }

  /** The characters `String.prototype.trim` removes: the ECMAScript
      WhiteSpace and LineTerminator code points. */
  predicate IsWhitespace(c: char) {
    || c == '\t' || c == '\n' || c == '\U{000B}' || c == '\U{000C}' || c == '\r'
    || c == ' ' || c == '\U{00A0}' || c == '\U{1680}'
    || ('\U{2000}' <= c <= '\U{200A}')
    || c == '\U{2028}' || c == '\U{2029}' || c == '\U{202F}' || c == '\U{205F}'
    || c == '\U{3000}' || c == '\U{FEFF}'
  }

  /** A run of whitespace only. */
  predicate AllWhitespace(w: string) {
    forall c <- w :: IsWhitespace(c)
  }

  /** The position of the first character of `s` at or after `i` that is
      not whitespace, or `|s|` when there is none: everything it skips is
      whitespace. */
  function ContentStart(s: string, i: nat): (k: nat)
    requires i <= |s|
    ensures i <= k <= |s|
    ensures k == |s| || !IsWhitespace(s[k])
    ensures forall j | i <= j < k :: IsWhitespace(s[j])
    decreases |s| - i
  {
    if i < |s| && IsWhitespace(s[i]) then ContentStart(s, i + 1) else i
  }

  /** The position just past the last character of `s[k..e]` that is not
      whitespace, or `k` when there is none: everything it skips is
      whitespace. */
  function ContentEnd(s: string, k: nat, e: nat): (f: nat)
    requires k <= e <= |s|
    ensures k <= f <= e
    ensures f == k || !IsWhitespace(s[f - 1])
    ensures forall j | f <= j < e :: IsWhitespace(s[j])
    decreases e
  {
    if k < e && IsWhitespace(s[e - 1]) then ContentEnd(s, k, e - 1) else e
  }

  /** `s.trim()`: `s` without its leading and trailing whitespace. */
  function Trim(s: string): string {
    var k := ContentStart(s, 0);
    s[k..ContentEnd(s, k, |s|)]
  }

  /** A string `trim` leaves as it is. */
  predicate IsTrimmed(s: string) {
    Trim(s) == s
  }

  /** What `trim` returns is `s` with only whitespace cut off: `s` is a run
      of whitespace, then `trim(s)`, then another run of whitespace. */
  lemma TrimLayout(s: string)
    ensures var k := ContentStart(s, 0);
      && k + |Trim(s)| <= |s|
      && s == s[..k] + Trim(s) + s[k + |Trim(s)|..]
      && AllWhitespace(s[..k]) && AllWhitespace(s[k + |Trim(s)|..])
  {
    var k := ContentStart(s, 0);
    var f := ContentEnd(s, k, |s|);
    RunIsWhitespace(s, 0, k);
    RunIsWhitespace(s, f, |s|);
    assert s == s[..k] + s[k..f] + s[f..];
  }

  /** A stretch of `s` whose every position holds whitespace is a whitespace
      run. */
  lemma RunIsWhitespace(s: string, i: nat, j: nat)
    requires i <= j <= |s|
    requires forall m | i <= m < j :: IsWhitespace(s[m])
    ensures AllWhitespace(s[i..j])
  {
    forall c <- s[i..j] ensures IsWhitespace(c) {
      var m :| 0 <= m < j - i && s[i..j][m] == c;
      assert s[i + m] == c;
    }
  }

  /** The result of `trim` holds only characters of its input and has no
      whitespace at either end, so trimming it again changes nothing. */
  lemma TrimResult(s: string)
    ensures forall c <- Trim(s) :: c in s
    ensures Trim(s) == "" || (!IsWhitespace(Trim(s)[0]) && !IsWhitespace(Trim(s)[|Trim(s)| - 1]))
    ensures IsTrimmed(Trim(s))
  {
    var k := ContentStart(s, 0);
    var f := ContentEnd(s, k, |s|);
    var u := s[k..f];
    InfixMembers(s, k, f);
    if u != "" {
      assert u[0] == s[k] && u[|u| - 1] == s[f - 1];
    }
    CleanEndsTrimmed(u);
  }

  /** Every character of a slice of `s` is a character of `s`. */
  lemma InfixMembers(s: string, i: nat, j: nat)
    requires i <= j <= |s|
    ensures forall c <- s[i..j] :: c in s
  {
    forall c <- s[i..j] ensures c in s {
      var m :| 0 <= m < j - i && s[i..j][m] == c;
      assert s[i + m] == c;
    }
  }

  /** A string with no whitespace at either end is trimmed. */
  lemma CleanEndsTrimmed(u: string)
    requires u == "" || (!IsWhitespace(u[0]) && !IsWhitespace(u[|u| - 1]))
    ensures IsTrimmed(u)
  {
    assert ContentStart(u, 0) == 0;
    assert ContentEnd(u, 0, |u|) == |u|;
    assert u[0..|u|] == u;
  }

  /** Leading whitespace does not survive `trim`. */
  lemma TrimAfterSpace(s: string)
    requires IsTrimmed(s)
    ensures Trim(" " + s) == s
  {
    var x := " " + s;
    var k := ContentStart(s, 0);
    assert |s[k..ContentEnd(s, k, |s|)]| == |s|;
    assert ContentStart(x, 0) == 1 by {
      if s != "" {
        assert x[1] == s[0];
      }
    }
    assert ContentEnd(x, 1, |x|) == |x| by {
      if s != "" {
        assert x[|x| - 1] == s[|s| - 1];
      }
    }
    assert x[1..|x|] == s;
  }

  /** The decimal digit for `d`. */
  function Digit(d: nat): char
    requires d < 10
  {
    "0123456789"[d]
  }

  predicate IsDigit(c: char) {
    '0' <= c <= '9'
  }

  /** `${n}` for a non-negative integer: its decimal digits, most
      significant first, without leading zeros. */
  function Decimal(n: nat): (s: string)
    ensures |s| >= 1
    ensures forall c <- s :: IsDigit(c)
  {
    if n < 10 then [Digit(n)] else Decimal(n / 10) + [Digit(n % 10)]
  }

  /** The number a string of decimal digits denotes. */
  function DecimalValue(s: string): nat
    requires forall c <- s :: IsDigit(c)
  {
    if s == "" then 0
    else
      var last := s[|s| - 1];
      assert last in s && IsDigit(last);
      assert '0' as int <= last as int;
      DecimalValue(s[..|s| - 1]) * 10 + (last as int - '0' as int)
  }

  /** Reading back the decimal rendering of `n` gives `n`. */
  lemma {:induction false} DecimalRoundTrip(n: nat)
    ensures DecimalValue(Decimal(n)) == n
  {
    var s := Decimal(n);
    if n >= 10 {
      DecimalRoundTrip(n / 10);
      assert s[..|s| - 1] == Decimal(n / 10);
    }
  }

  /** Distinct numbers have distinct decimal renderings. */
  lemma DecimalInjective(m: nat, n: nat)
    requires Decimal(m) == Decimal(n)
    ensures m == n
  {
    DecimalRoundTrip(m);
    DecimalRoundTrip(n);
  }
}
