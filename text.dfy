/**
  Text utilities shared by the generator model: joining with a separator
  (Swift's `joined(separator:)`), reading a joined text back, lines of a
  multi-line string, and decimal rendering of integers (Swift's `"\(n)"`).
 */
module Text {

  function Min(a: int, b: int): int { if a < b then a else b }

  /** `parts` concatenated with `sep` between neighbours. */
  function Join<T>(parts: seq<seq<T>>, sep: seq<T>): seq<T>
    decreases |parts|
  {
    if |parts| == 0 then []
    else if |parts| == 1 then parts[0]
    else parts[0] + sep + Join(parts[1..], sep)
  }

  /** All of `parts`, one after the other. */
  function Flatten<T>(parts: seq<seq<T>>): seq<T>
    decreases |parts|
  {
    if |parts| == 0 then [] else parts[0] + Flatten(parts[1..])
  }

  /** Index of the first `x` in `s`, or `|s|` when `s` has none. */
  function IndexOf<T(==)>(s: seq<T>, x: T): (i: nat)
    ensures i <= |s|
    ensures i < |s| ==> s[i] == x
    ensures forall k :: 0 <= k < i ==> s[k] != x
  {
    if |s| == 0 then 0 else if s[0] == x then 0 else 1 + IndexOf(s[1..], x)
  }

  /**
    Cuts `s` at every occurrence of `sep[0]`, dropping that element and the
    `|sep| - 1` elements after it: the reader of `Join(_, sep)`.
   */
  function Split<T(==)>(s: seq<T>, sep: seq<T>): (parts: seq<seq<T>>)
    requires |sep| > 0
    decreases |s|
  {
    var i := IndexOf(s, sep[0]);
    if i == |s| then [s] else [s[..i]] + Split(s[Min(i + |sep|, |s|)..], sep)
  }

  lemma {:induction false} IndexOfAppend<T>(a: seq<T>, b: seq<T>, x: T)
    requires x !in a
    ensures IndexOf(a + b, x) == |a| + IndexOf(b, x)
    decreases |a|
  {
    if |a| > 0 {
      assert (a + b)[1..] == a[1..] + b;
      IndexOfAppend(a[1..], b, x);
    } else {
      assert a + b == b;
    }
  }

  /** Reading a joined text back gives the parts, when no part holds the separator's first element. */
  lemma {:induction false} SplitJoin<T>(parts: seq<seq<T>>, sep: seq<T>)
    requires |sep| > 0 && |parts| > 0
    requires forall k :: 0 <= k < |parts| ==> sep[0] !in parts[k]
    ensures Split(Join(parts, sep), sep) == parts
    decreases |parts|
  {
    if |parts| == 1 {
      SplitWhole(parts[0], sep);
    } else {
      SplitJoin(parts[1..], sep);
      SplitCons(parts[0], sep, Join(parts[1..], sep));
    }
  }

  /** A text without the separator's first element reads back as one part. */
  lemma SplitWhole<T>(p: seq<T>, sep: seq<T>)
    requires |sep| > 0 && sep[0] !in p
    ensures Split(p, sep) == [p]
  {
    IndexOfAppend(p, [], sep[0]);
    assert p + [] == p;
  }

  /** Reading back stops the first part at the first separator. */
  lemma SplitCons<T>(p: seq<T>, sep: seq<T>, rest: seq<T>)
    requires |sep| > 0 && sep[0] !in p
    ensures Split(p + sep + rest, sep) == [p] + Split(rest, sep)
  {
    var s := p + sep + rest;
    assert s == p + (sep + rest);
    IndexOfAppend(p, sep + rest, sep[0]);
    assert IndexOf(s, sep[0]) == |p|;
    assert s[..|p|] == p;
    assert s[|p| + |sep|..] == rest;
  }

  /** The text of a list of lines: a Swift multi-line string literal. */
  function JoinLines(ls: seq<string>): string
  {
    Join(ls, "\n")
  }

  /** Joining two non-empty lists puts one separator between their texts. */
  lemma {:induction false} JoinAppend<T>(a: seq<seq<T>>, b: seq<seq<T>>, sep: seq<T>)
    requires |a| > 0 && |b| > 0
    ensures Join(a + b, sep) == Join(a, sep) + sep + Join(b, sep)
    decreases |a|
  {
    if |a| == 1 {
      assert (a + b)[1..] == b;
    } else {
      assert (a + b)[1..] == a[1..] + b;
      JoinAppend(a[1..], b, sep);
    }
  }

  /**
    Interpolating a multi-line text as one line of a multi-line literal gives
    the literal whose lines include the interpolated lines in its place.
   */
  lemma Splice(a: seq<string>, xs: seq<string>, b: seq<string>)
    requires |xs| > 0
    ensures JoinLines(a + [JoinLines(xs)] + b) == JoinLines(a + xs + b)
  {
    SpliceHead(xs, b);
    if |a| > 0 {
      SpliceAfter(a, xs, b);
    } else {
      assert a + [JoinLines(xs)] + b == [JoinLines(xs)] + b;
      assert a + xs + b == xs + b;
    }
  }

  /** With lines before it, the splice happens after them. */
  lemma SpliceAfter(a: seq<string>, xs: seq<string>, b: seq<string>)
    requires |a| > 0 && |xs| > 0
    requires JoinLines([JoinLines(xs)] + b) == JoinLines(xs + b)
    ensures JoinLines(a + [JoinLines(xs)] + b) == JoinLines(a + xs + b)
  {
    var l, m := [JoinLines(xs)] + b, xs + b;
    JoinSameTail(a, l, m, "\n");
    assert a + [JoinLines(xs)] + b == a + l;
    assert a + xs + b == a + m;
  }

  /** Lists with the same joined text keep it after the same non-empty front. */
  lemma JoinSameTail<T>(a: seq<seq<T>>, l: seq<seq<T>>, m: seq<seq<T>>, sep: seq<T>)
    requires |a| > 0 && |l| > 0 && |m| > 0 && Join(l, sep) == Join(m, sep)
    ensures Join(a + l, sep) == Join(a + m, sep)
  {
    JoinAppend(a, l, sep);
    JoinAppend(a, m, sep);
  }

  lemma SpliceHead(xs: seq<string>, b: seq<string>)
    requires |xs| > 0
    ensures JoinLines([JoinLines(xs)] + b) == JoinLines(xs + b)
  {
    if |b| > 0 {
      JoinAppend([JoinLines(xs)], b, "\n");
      JoinAppend(xs, b, "\n");
    } else {
      assert [JoinLines(xs)] + b == [JoinLines(xs)];
      assert xs + b == xs;
    }
  }

  /**
    Texts joined with a blank line between them (`joined(separator: "\n\n")`)
    are the lines of all of them with an empty line between neighbours.
   */
  lemma {:induction false} BlankLineJoin(blocks: seq<seq<string>>)
    requires forall k :: 0 <= k < |blocks| ==> |blocks[k]| > 0
    ensures Join(seq(|blocks|, k requires 0 <= k < |blocks| => JoinLines(blocks[k])), "\n\n") == JoinLines(Join(blocks, [""]))
    decreases |blocks|
  {
    var texts := seq(|blocks|, k requires 0 <= k < |blocks| => JoinLines(blocks[k]));
    if |blocks| > 1 {
      var tail := blocks[1..];
      var tailTexts := seq(|tail|, k requires 0 <= k < |tail| => JoinLines(tail[k]));
      assert texts[1..] == tailTexts;
      BlankLineJoin(tail);
      JoinNonEmpty(tail, [""]);
      var rest := Join(tail, [""]);
      calc {
        Join(texts, "\n\n");
        JoinLines(blocks[0]) + "\n\n" + JoinLines(rest);
        { assert "\n\n" == "\n" + "" + "\n"; }
        JoinLines(blocks[0]) + "\n" + ("" + "\n" + JoinLines(rest));
        { JoinAppend([""], rest, "\n"); }
        JoinLines(blocks[0]) + "\n" + JoinLines([""] + rest);
        { JoinAppend(blocks[0], [""] + rest, "\n"); }
        JoinLines(blocks[0] + ([""] + rest));
        { assert blocks[0] + ([""] + rest) == blocks[0] + [""] + rest; }
        JoinLines(Join(blocks, [""]));
      }
    }
  }

  lemma {:induction false} JoinNonEmpty<T>(parts: seq<seq<T>>, sep: seq<T>)
    requires |parts| > 0 && |parts[0]| > 0
    ensures |Join(parts, sep)| > 0
  {
  }

  /** `s` begins with `p`. */
  predicate StartsWith<T(==)>(s: seq<T>, p: seq<T>)
  {
    |p| <= |s| && s[..|p|] == p
  }

  /** A text that differs from `p` at position `k` (or is shorter) does not begin with `p`. */
  lemma NotStartsWith<T>(s: seq<T>, p: seq<T>, k: nat)
    requires k < |p| && (k >= |s| || s[k] != p[k])
    ensures !StartsWith(s, p)
  {
  }

  predicate NoDuplicates<T(==)>(s: seq<T>)
  {
    forall i, j :: 0 <= i < j < |s| ==> s[i] != s[j]
  }

  function DigitChar(d: nat): char
    requires d < 10
  {
    (48 + d) as char
  }

  function DigitValue(c: char): nat
  {
    if '0' <= c <= '9' then c as int - 48 else 0
  }

  predicate IsDigit(c: char) { '0' <= c <= '9' }

  /** Decimal spelling of `n`, as Swift's string interpolation of an `Int` gives it. */
  function NatToString(n: nat): (s: string)
    ensures |s| > 0
    ensures forall k :: 0 <= k < |s| ==> IsDigit(s[k])
  {
    if n < 10 then [DigitChar(n)] else NatToString(n / 10) + [DigitChar(n % 10)]
  }

  /** Value of a string of decimal digits. */
  function ParseNat(s: string): nat
  {
    if |s| == 0 then 0 else 10 * ParseNat(s[..|s| - 1]) + DigitValue(s[|s| - 1])
  }

  lemma {:induction false} ParseNatToString(n: nat)
    ensures ParseNat(NatToString(n)) == n
  {
    var s := NatToString(n);
    if n < 10 {
      assert s[..|s| - 1] == [];
    } else {
      assert s[..|s| - 1] == NatToString(n / 10);
      ParseNatToString(n / 10);
    }
  }
}
