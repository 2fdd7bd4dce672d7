/**
 * The JavaScript string operations the server relies on: `split('\n')`,
 * `join(sep)`, `slice(start, end)` with negative indices, and the decimal
 * rendering of an integer inside a template literal.
 */
module Text {

  /** `s.split('\n')`: at least one piece, and no piece holds a newline. */
  function SplitLines(s: string): (lines: seq<string>)
    ensures |lines| >= 1
    ensures forall i :: 0 <= i < |lines| ==> '\n' !in lines[i]
    decreases |s|
  {
    if |s| == 0 then [""]
    else
      var init := SplitLines(s[..|s| - 1]);
      var c := s[|s| - 1];
      if c == '\n' then init + [""]
      else init[..|init| - 1] + [init[|init| - 1] + [c]]
  }

  /** `xs.join(sep)`. */
  function Join(xs: seq<string>, sep: string): string
    decreases |xs|
  {
    if |xs| == 0 then ""
    else if |xs| == 1 then xs[0]
    else Join(xs[..|xs| - 1], sep) + sep + xs[|xs| - 1]
  }

  lemma JoinSnoc(xs: seq<string>, y: string, sep: string)
    requires |xs| > 0
    ensures Join(xs + [y], sep) == Join(xs, sep) + sep + y
  {
    assert (xs + [y])[..|xs|] == xs;
  }

  lemma JoinAppendToLast(xs: seq<string>, y: string, t: string, sep: string)
    ensures Join(xs + [y + t], sep) == Join(xs + [y], sep) + t
  {
    if |xs| > 0 {
      JoinSnoc(xs, y + t, sep);
      JoinSnoc(xs, y, sep);
    }
  }

  /** Joining the pieces of `s.split('\n')` with `'\n'` gives back `s`. */
  lemma {:induction false} JoinSplitLines(s: string)
    ensures Join(SplitLines(s), "\n") == s
    decreases |s|
  {
    if |s| > 0 {
      var p := s[..|s| - 1];
      var c := s[|s| - 1];
      var init := SplitLines(p);
      JoinSplitLines(p);
      assert s == p + [c];
      if c == '\n' {
        assert SplitLines(s) == init + [""];
        JoinSnoc(init, "", "\n");
        assert p + "\n" + "" == s;
      } else {
        var k := |init| - 1;
        assert SplitLines(s) == init[..k] + [init[k] + [c]];
        assert init == init[..k] + [init[k]];
        JoinAppendToLast(init[..k], init[k], [c], "\n");
      }
    }
  }

  /** A text without a newline is a single line. */
  lemma {:induction false} SplitLinesSingle(l: string)
    requires '\n' !in l
    ensures SplitLines(l) == [l]
    decreases |l|
  {
    if |l| > 0 {
      var p := l[..|l| - 1];
      assert l == p + [l[|l| - 1]];
      SplitLinesSingle(p);
    }
  }

  /** One unfolding of `SplitLines` on a text ending in `c`. */
  lemma SplitLinesSnoc(p: string, c: char)
    ensures var init := SplitLines(p);
      SplitLines(p + [c]) == if c == '\n' then init + [""] else init[..|init| - 1] + [init[|init| - 1] + [c]]
  {
    assert (p + [c])[..|p|] == p;
  }

  /** Extending the last element commutes with concatenation in front. */
  lemma ExtendLastConcat(sa: seq<string>, sb: seq<string>, x: string)
    requires |sb| >= 1
    ensures var init := sa + sb;
      init[..|init| - 1] + [init[|init| - 1] + x] == sa + (sb[..|sb| - 1] + [sb[|sb| - 1] + x])
  {
    var init := sa + sb;
    assert init[..|init| - 1] == sa + sb[..|sb| - 1];
    assert init[|init| - 1] == sb[|sb| - 1];
  }

  /** Splitting distributes over a newline: `(a + '\n' + b).split('\n')` is `a.split('\n')` followed by `b.split('\n')`. */
  lemma {:induction false} SplitLinesConcat(a: string, b: string)
    ensures SplitLines(a + "\n" + b) == SplitLines(a) + SplitLines(b)
    decreases |b|
  {
    if |b| == 0 {
      SplitLinesSnoc(a, '\n');
      assert a + "\n" + b == a + ['\n'];
    } else {
      var b' := b[..|b| - 1];
      var c := b[|b| - 1];
      var front := a + "\n" + b';
      assert a + "\n" + b == front + [c];
      assert b == b' + [c];
      SplitLinesSnoc(front, c);
      SplitLinesSnoc(b', c);
      SplitLinesConcat(a, b');
      var sa, sb := SplitLines(a), SplitLines(b');
      if c != '\n' {
        ExtendLastConcat(sa, sb, [c]);
      } else {
        assert (sa + sb) + [""] == sa + (sb + [""]);
      }
    }
  }

  /** The first line of `s`, that is `s.split('\n')[0]`. */
  function FirstLine(s: string): string
  {
    SplitLines(s)[0]
  }

  // ---- decimal rendering of integers, as `${n}` -------------------------

  function Digit(d: nat): (c: char)
    requires d < 10
    ensures '0' <= c <= '9'
  {
    (48 + d) as char
  }

  function DigitValue(c: char): nat
  {
    if '0' <= c <= '9' then (c as int) - 48 else 0
  }

  predicate AllDigits(s: string)
  {
    forall i :: 0 <= i < |s| ==> '0' <= s[i] <= '9'
  }

  /** Decimal digits of `n`, most significant first, with no leading zero. */
  function NatToString(n: nat): (s: string)
    ensures |s| > 0 && AllDigits(s)
    ensures |s| > 1 ==> s[0] != '0'
    decreases n
  {
    if n < 10 then [Digit(n)] else NatToString(n / 10) + [Digit(n % 10)]
  }

  /** Reads back a run of decimal digits. */
  function ParseDigits(s: string): nat
    decreases |s|
  {
    if |s| == 0 then 0 else ParseDigits(s[..|s| - 1]) * 10 + DigitValue(s[|s| - 1])
  }

  lemma {:induction false} ParseNatToString(n: nat)
    ensures ParseDigits(NatToString(n)) == n
    decreases n
  {
    if n >= 10 {
      var s := NatToString(n);
      ParseNatToString(n / 10);
      assert s[..|s| - 1] == NatToString(n / 10);
    }
  }

  /** `${i}` for an integer-valued JavaScript number. */
  function IntToString(i: int): (s: string)
    ensures |s| > 0 && '0' <= s[|s| - 1] <= '9'
    ensures i >= 0 <==> AllDigits(s)
  {
    if i < 0 then
      var s := "-" + NatToString(-i);
      assert s[0] == '-';
      s
    else NatToString(i)
  }

  // ---- String.prototype.slice -------------------------------------------

  /** How `slice` resolves one index against a string of length `len`. */
  function SliceIndex(i: int, len: nat): (k: nat)
    ensures k <= len
    ensures 0 <= i <= len ==> k == i
    ensures -(len as int) <= i < 0 ==> k == len + i
  {
    if i < 0 then (if len + i < 0 then 0 else len + i)
    else if i > len then len
    else i
  }

  /** `s.slice(start, end)`. */
  function JsSlice(s: string, start: int, end: int): (r: string)
    ensures |r| <= |s|
    ensures 0 <= start <= end <= |s| ==> r == s[start..end]
    ensures start == 0 && end == -1 ==> r == if |s| == 0 then "" else s[..|s| - 1]
  {
    var from, to := SliceIndex(start, |s|), SliceIndex(end, |s|);
    if from >= to then "" else s[from..to]
  }

  // ---- occurrences --------------------------------------------------------

  predicate EndsWith(s: string, t: string)
  {
    |t| <= |s| && s[|s| - |t|..] == t
  }

  /** `t` appears in `s` starting at index `k`. */
  predicate OccursAt(t: string, s: string, k: int)
  {
    0 <= k && k + |t| <= |s| && s[k..k + |t|] == t
  }

  lemma OccursInLonger(t: string, a: string, b: string, k: int)
    requires OccursAt(t, a, k)
    ensures OccursAt(t, a + b, k) && OccursAt(t, b + a, |b| + k)
  {
    assert (a + b)[k..k + |t|] == a[k..k + |t|];
    assert (b + a)[|b| + k..|b| + k + |t|] == a[k..k + |t|];
  }

  /** Where element `i` of `xs` starts in `Join(xs, sep)`. */
  function JoinOffset(xs: seq<string>, sep: string, i: nat): nat
    requires i <= |xs|
  {
    if i == 0 then 0 else |Join(xs[..i], sep)| + |sep|
  }

  /** Every element of a joined list can be found in the joined text, at its own offset. */
  lemma {:induction false} JoinContains(xs: seq<string>, sep: string, i: nat)
    requires i < |xs|
    ensures OccursAt(xs[i], Join(xs, sep), JoinOffset(xs, sep, i))
    decreases |xs|
  {
    var n := |xs|;
    if n == 1 {
      assert Join(xs, sep) == xs[0];
    } else if i == n - 1 {
      var front := Join(xs[..n - 1], sep);
      assert Join(xs, sep) == (front + sep) + xs[i];
      assert OccursAt(xs[i], xs[i], 0);
      OccursInLonger(xs[i], xs[i], front + sep, 0);
    } else {
      var init := xs[..n - 1];
      JoinContains(init, sep, i);
      assert init[i] == xs[i];
      assert init[..i] == xs[..i];
      assert Join(xs, sep) == Join(init, sep) + (sep + xs[n - 1]);
      OccursInLonger(xs[i], Join(init, sep), sep + xs[n - 1], JoinOffset(init, sep, i));
    }
  }

  /** Consecutive elements follow each other in the joined text, separated by `sep`. */
  lemma JoinOffsetNext(xs: seq<string>, sep: string, i: nat)
    requires i + 1 < |xs|
    ensures JoinOffset(xs, sep, i + 1) == JoinOffset(xs, sep, i) + |xs[i]| + |sep|
  {
    if i > 0 {
      assert xs[..i + 1] == xs[..i] + [xs[i]];
      JoinSnoc(xs[..i], xs[i], sep);
    } else {
      assert xs[..1] == [xs[0]];
    }
  }

  predicate StartsWith(s: string, t: string)
  {
    |t| <= |s| && s[..|t|] == t
  }

  /** The two parts of a concatenation are a prefix and a suffix of it. */
  lemma PrefixSuffix(a: string, b: string)
    ensures StartsWith(a + b, a) && EndsWith(a + b, b)
  {
    assert (a + b)[..|a|] == a;
    assert (a + b)[|a + b| - |b|..] == b;
  }

  /** A text that starts with `t` is `t` followed by the rest of it. */
  lemma SplitAtPrefix(s: string, t: string)
    requires StartsWith(s, t)
    ensures s == t + s[|t|..]
  {
  }

  /** `c` ends `a + (b + c)`. */
  lemma EndsAfter(a: string, b: string, c: string)
    ensures EndsWith(a + (b + c), c)
  {
    assert a + (b + c) == (a + b) + c;
    PrefixSuffix(a + b, c);
  }

  /** `head + middle + tail`, with its first and last parts exposed. */
  function Compose(head: string, middle: string, tail: string): (s: string)
    ensures s == head + middle + tail
    ensures StartsWith(s, head) && EndsWith(s, tail)
  {
    EndsAfter(head, middle, tail);
    PrefixSuffix(head, middle + tail);
    assert head + (middle + tail) == head + middle + tail;
    head + (middle + tail)
  }
}
