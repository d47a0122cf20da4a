/**
 * The JavaScript string primitives the tool relies on, over `seq<char>`:
 * `String.prototype.split` with a one-character separator, its inverse
 * `join`, `String.prototype.includes`, and the decimal rendering of a
 * non-negative integer inside a template literal.
 */
module Strings {

  /** Number of occurrences of `c` in `s`. */
  function Count(s: string, c: char): nat
  {
    if s == [] then 0 else (if s[0] == c then 1 else 0) + Count(s[1..], c)
  }

  /**
   * `s.split(c)`: the maximal runs of `s` between occurrences of `c`.
   * There is always one piece more than there are separators (the empty
   * string splits into one empty piece), and no piece holds the separator.
   */
  function Split(s: string, c: char): (r: seq<string>)
    ensures |r| == Count(s, c) + 1
    ensures forall i :: 0 <= i < |r| ==> c !in r[i]
    ensures forall i, ch :: 0 <= i < |r| && ch in r[i] ==> ch in s
  {
    if s == [] then [""]
    else
      assert s == [s[0]] + s[1..];
      var rest := Split(s[1..], c);
      if s[0] == c then [""] + rest
      else [[s[0]] + rest[0]] + rest[1..]
  }

  /** `ps.join(c)`: the pieces with one `c` between neighbours. */
  function Join(ps: seq<string>, c: char): string
    requires |ps| >= 1
  {
    if |ps| == 1 then ps[0] else ps[0] + [c] + Join(ps[1..], c)
  }

  lemma JoinPrepend(a: string, ps: seq<string>, c: char)
    requires |ps| >= 1
    ensures Join([a + ps[0]] + ps[1..], c) == a + Join(ps, c)
  {
    var qs := [a + ps[0]] + ps[1..];
    assert qs[1..] == ps[1..];
  }

  /** Joining the pieces of a split with the same separator gives back the string. */
  lemma {:induction false} JoinSplit(s: string, c: char)
    ensures Join(Split(s, c), c) == s
  {
    if s != [] {
      var rest := Split(s[1..], c);
      JoinSplit(s[1..], c);
      if s[0] == c {
        assert ([""] + rest)[1..] == rest;
        assert Join([""] + rest, c) == [c] + Join(rest, c);
      } else {
        JoinPrepend([s[0]], rest, c);
      }
      assert s == [s[0]] + s[1..];
    }
  }

  /** A string without the separator splits into itself alone. */
  lemma {:induction false} SplitWithout(s: string, c: char)
    requires c !in s
    ensures Split(s, c) == [s]
  {
    if s != [] {
      SplitWithout(s[1..], c);
      assert [s[0]] + s[1..] == s;
    }
  }

  /** Splitting `a + [c] + b` where `a` is free of `c` cuts off exactly `a`. */
  lemma {:induction false} SplitAt(a: string, b: string, c: char)
    requires c !in a
    ensures Split(a + [c] + b, c) == [a] + Split(b, c)
  {
    if a == [] {
      assert a + [c] + b == [c] + b;
      assert ([c] + b)[1..] == b;
    } else {
      SplitAt(a[1..], b, c);
      var s := a + [c] + b;
      assert s[0] == a[0] && s[1..] == a[1..] + [c] + b;
      assert [a[0]] + a[1..] == a;
    }
  }

  /** Splitting a join of separator-free pieces gives back the pieces. */
  lemma {:induction false} SplitJoin(ps: seq<string>, c: char)
    requires |ps| >= 1
    requires forall i :: 0 <= i < |ps| ==> c !in ps[i]
    ensures Split(Join(ps, c), c) == ps
  {
    if |ps| == 1 {
      SplitWithout(ps[0], c);
    } else {
      SplitJoin(ps[1..], c);
      SplitAt(ps[0], Join(ps[1..], c), c);
      assert [ps[0]] + ps[1..] == ps;
    }
  }

  /**
   * The first piece of a split is the longest prefix of `s` free of `c`:
   * either all of `s`, or followed in `s` by an occurrence of `c`.
   */
  lemma FirstPiece(s: string, c: char)
    ensures var p := Split(s, c)[0];
      && p <= s
      && (|p| < |s| ==> s[|p|] == c)
      && (c !in s ==> p == s)
  {
    var ps := Split(s, c);
    JoinSplit(s, c);
    if |ps| > 1 {
      assert s == ps[0] + [c] + Join(ps[1..], c);
    }
    if c !in s {
      SplitWithout(s, c);
    }
  }

  /** `k.includes(w)`: `w` occurs in `k` as a contiguous run. */
  predicate Includes(k: string, w: string)
    ensures Includes(k, w) ==> |w| <= |k|
    decreases |k|
  {
    if |w| > |k| then false
    else if k[..|w|] == w then true
    else |k| > 0 && Includes(k[1..], w)
  }

  /** `w` occurs in `k` starting at position `i`. */
  predicate OccursAt(k: string, w: string, i: int)
  {
    0 <= i <= |k| - |w| && k[i..i + |w|] == w
  }

  /** `Includes` agrees with the definition by an occurrence position. */
  lemma {:induction false} IncludesAt(k: string, w: string)
    ensures Includes(k, w) <==> exists i :: OccursAt(k, w, i)
    decreases |k|
  {
    if |w| <= |k| && k[..|w|] == w {
      assert OccursAt(k, w, 0);
    } else if |w| <= |k| && |k| > 0 {
      IncludesAt(k[1..], w);
      if Includes(k[1..], w) {
        var i :| OccursAt(k[1..], w, i);
        assert k[1..][i..i + |w|] == k[i + 1..i + 1 + |w|];
        assert OccursAt(k, w, i + 1);
      }
      forall i | OccursAt(k, w, i) ensures OccursAt(k[1..], w, i - 1) {
        assert i != 0;
        var shifted, run := k[1..][i - 1..i - 1 + |w|], k[i..i + |w|];
        assert shifted == run by {
          forall j | 0 <= j < |w| ensures shifted[j] == run[j] {
            assert k[1..][i - 1 + j] == k[i + j];
          }
        }
      }
    }
  }

  /** Every character of an included run is a character of the string. */
  lemma IncludesChars(k: string, w: string)
    ensures Includes(k, w) ==> forall j :: 0 <= j < |w| ==> w[j] in k
  {
    IncludesAt(k, w);
    if Includes(k, w) {
      var i :| OccursAt(k, w, i);
      forall j | 0 <= j < |w| ensures w[j] in k {
        assert w[j] == k[i + j];
      }
    }
  }

  /** A run holding a character the string lacks is not included. */
  lemma MissingCharExcludes(k: string, w: string, j: nat)
    requires j < |w| && w[j] !in k
    ensures !Includes(k, w)
  {
    IncludesChars(k, w);
  }

  /** A string includes every prefix of itself. */
  lemma IncludesPrefix(w: string, rest: string)
    ensures Includes(w + rest, w)
  {
    assert (w + rest)[..|w|] == w;
  }

  function DigitChar(d: nat): (r: char)
    requires d < 10
    ensures '0' <= r <= '9'
  {
    (48 + d) as char
  }

  function DigitValue(ch: char): nat
    requires '0' <= ch <= '9'
  {
    ch as nat - 48
  }

  /** The decimal digits of `n`, as a template literal `${n}` renders a non-negative integer. */
  function Decimal(n: nat): (r: string)
    ensures |r| >= 1
    ensures forall i :: 0 <= i < |r| ==> '0' <= r[i] <= '9'
  {
    if n < 10 then [DigitChar(n)] else Decimal(n / 10) + [DigitChar(n % 10)]
  }

  /** The value of a string of decimal digits. */
  function ParseDecimal(s: string): nat
    requires forall i :: 0 <= i < |s| ==> '0' <= s[i] <= '9'
  {
    if s == [] then 0 else ParseDecimal(s[..|s| - 1]) * 10 + DigitValue(s[|s| - 1])
  }

  /** Reading the decimal rendering of `n` back gives `n`. */
  lemma {:induction false} ParseDecimalOf(n: nat)
    ensures ParseDecimal(Decimal(n)) == n
  {
    if n >= 10 {
      ParseDecimalOf(n / 10);
      var d := Decimal(n);
      assert d[..|d| - 1] == Decimal(n / 10);
    }
  }

  /** Different numbers render differently. */
  lemma DecimalInjective(n: nat, m: nat)
    requires n != m
    ensures Decimal(n) != Decimal(m)
  {
    ParseDecimalOf(n);
    ParseDecimalOf(m);
  }
}
