/** The string operations of JavaScript the suite relies on, as functions on
    `seq<char>`, with the facts about them that the rest of the model uses. */
module Text {

  /** `s.split(sep)` for a one-character separator: the pieces between the
      separators, in order. There is always at least one piece, and no piece
      contains the separator. */
  function Split(s: string, sep: char): (r: seq<string>)
    ensures |r| >= 1
    ensures forall i :: 0 <= i < |r| ==> sep !in r[i]
    decreases |s|
  {
    if |s| == 0 then [""]
    else
      var rest := Split(s[1..], sep);
      if s[0] == sep then [""] + rest
      else [[s[0]] + rest[0]] + rest[1..]
  }

  /** `parts.join(sep)`, the inverse of `Split`. */
  function Join(parts: seq<string>, sep: char): string
    requires |parts| >= 1
    decreases |parts|
  {
    if |parts| == 1 then parts[0] else parts[0] + [sep] + Join(parts[1..], sep)
  }

  /** Joining the pieces of a split gives back the string. */
  lemma {:induction false} JoinSplit(s: string, sep: char)
    ensures Join(Split(s, sep), sep) == s
    decreases |s|
  {
    if |s| > 0 {
      JoinSplit(s[1..], sep);
      var rest := Split(s[1..], sep);
      if s[0] != sep {
        if |rest| == 1 {
          assert Split(s, sep) == [[s[0]] + rest[0]];
        } else {
          assert Split(s, sep)[1..] == rest[1..];
        }
      } else {
        assert ([""] + rest)[1..] == rest;
      }
    }
  }

  /** A string without the separator splits into itself alone. */
  lemma {:induction false} SplitNoSeparator(s: string, sep: char)
    requires sep !in s
    ensures Split(s, sep) == [s]
    decreases |s|
  {
    if |s| > 0 {
      assert sep !in s[1..] by {
        forall k | 0 <= k < |s[1..]| ensures s[1..][k] != sep { assert s[1..][k] == s[k + 1]; }
      }
      SplitNoSeparator(s[1..], sep);
      assert [s[0]] + s[1..] == s;
    }
  }

  /** A separator-free word followed by the separator splits into that word
      and the pieces of the rest. */
  lemma {:induction false} SplitLeadingWord(w: string, rest: string, sep: char)
    requires sep !in w
    ensures Split(w + [sep] + rest, sep) == [w] + Split(rest, sep)
    decreases |w|
  {
    var s := w + [sep] + rest;
    if |w| == 0 {
      assert s[1..] == rest;
    } else {
      assert s[1..] == w[1..] + [sep] + rest;
      assert sep !in w[1..] by {
        forall k | 0 <= k < |w[1..]| ensures w[1..][k] != sep { assert w[1..][k] == w[k + 1]; }
      }
      SplitLeadingWord(w[1..], rest, sep);
      assert [w[0]] + w[1..] == w;
    }
  }

  /** Two separator-free words joined by one separator split back into the
      two words. */
  lemma SplitTwoWords(w: string, t: string, sep: char)
    requires sep !in w && sep !in t
    ensures Split(w + [sep] + t, sep) == [w, t]
  {
    SplitLeadingWord(w, t, sep);
    SplitNoSeparator(t, sep);
  }

  /** `pat` occurs in `s` at index `i`. */
  predicate OccursAt(s: string, pat: string, i: nat) {
    i + |pat| <= |s| && s[i..i + |pat|] == pat
  }

  /** `s.replace(pat, rep)` with a string pattern: only the first occurrence of
      `pat` is replaced. */
  function ReplaceFirst(s: string, pat: string, rep: string): string
    decreases |s|
  {
    if pat <= s then rep + s[|pat|..]
    else if |s| == 0 then s
    else [s[0]] + ReplaceFirst(s[1..], pat, rep)
  }

  /** When `pat` first occurs at `i`, replacing it changes that occurrence
      and nothing else. */
  lemma {:induction false} ReplaceFirstAt(s: string, pat: string, rep: string, i: nat)
    requires OccursAt(s, pat, i)
    requires forall k :: 0 <= k < i ==> !OccursAt(s, pat, k)
    ensures ReplaceFirst(s, pat, rep) == s[..i] + rep + s[i + |pat|..]
    decreases i
  {
    if i == 0 {
      assert pat <= s;
    } else {
      assert !OccursAt(s, pat, 0);
      assert !(pat <= s);
      var t := s[1..];
      assert OccursAt(t, pat, i - 1) by { assert t[i - 1..i - 1 + |pat|] == s[i..i + |pat|]; }
      forall k | 0 <= k < i - 1 ensures !OccursAt(t, pat, k) {
        assert !OccursAt(s, pat, k + 1);
        if k + |pat| <= |t| { assert t[k..k + |pat|] == s[k + 1..k + 1 + |pat|]; }
      }
      ReplaceFirstAt(t, pat, rep, i - 1);
      assert s[..i] == [s[0]] + t[..i - 1];
      assert t[i - 1 + |pat|..] == s[i + |pat|..];
    }
  }

  /** Without an occurrence of `pat`, `replace` leaves the string as it is. */
  lemma {:induction false} ReplaceFirstAbsent(s: string, pat: string, rep: string)
    requires forall k :: 0 <= k <= |s| ==> !OccursAt(s, pat, k)
    ensures ReplaceFirst(s, pat, rep) == s
    decreases |s|
  {
    assert !OccursAt(s, pat, 0);
    assert !(pat <= s);
    if |s| > 0 {
      var t := s[1..];
      forall k | 0 <= k <= |t| ensures !OccursAt(t, pat, k) {
        assert !OccursAt(s, pat, k + 1);
        if k + |pat| <= |t| { assert t[k..k + |pat|] == s[k + 1..k + 1 + |pat|]; }
      }
      ReplaceFirstAbsent(t, pat, rep);
      assert [s[0]] + t == s;
    }
  }

  /** A regular-expression rewrite anchored at the start (`'^pat'` replaced
      by `rep`): only a leading occurrence is replaced. */
  function ReplaceLeading(s: string, pat: string, rep: string): (r: string)
    ensures pat <= s ==> r == rep + s[|pat|..]
    ensures !(pat <= s) ==> r == s
  {
    if pat <= s then rep + s[|pat|..] else s
  }

  /** The decimal digit for `d`. */
  function DigitChar(d: nat): char
    requires d < 10
  {
    "0123456789"[d]
  }

  /** The decimal text of `n`, as JavaScript writes a non-negative integer
      (template literals, `String(n)`): no leading zeros, one digit for 0..9. */
  function NatToString(n: nat): (r: string)
    ensures |r| >= 1
    ensures n < 10 <==> |r| == 1
    decreases n
  {
    if n < 10 then [DigitChar(n)] else NatToString(n / 10) + [DigitChar(n % 10)]
  }

  lemma DigitCharInjective(a: nat, b: nat)
    requires a < 10 && b < 10 && DigitChar(a) == DigitChar(b)
    ensures a == b
  {
    var digits := "0123456789";
    assert forall i, j :: 0 <= i < j < 10 ==> digits[i] != digits[j];
  }

  /** Different numbers have different decimal texts. */
  lemma {:induction false} NatToStringInjective(m: nat, n: nat)
    requires NatToString(m) == NatToString(n)
    ensures m == n
    decreases m
  {
    var r := NatToString(m);
    if m < 10 {
      assert n < 10;
      DigitCharInjective(m, n);
    } else {
      assert n >= 10;
      assert r[|r| - 1] == DigitChar(m % 10) == DigitChar(n % 10);
      DigitCharInjective(m % 10, n % 10);
      assert r[..|r| - 1] == NatToString(m / 10);
      assert NatToString(n)[..|r| - 1] == NatToString(n / 10);
      NatToStringInjective(m / 10, n / 10);
    }
  }
}
