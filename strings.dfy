/**
 * Character-sequence helpers shared by the encoders: the lexicographic order
 * under which a BTreeMap<String, String> lists its keys, joining and splitting
 * on a separator, and the decimal rendering of integers (Rust's `to_string`).
 */
module Strings {
  import opened Wrappers

  // ---------------------------------------------------------------------------
  // Lexicographic order
  // ---------------------------------------------------------------------------

  /** Strict lexicographic order, character by character, a proper prefix first.
      Rust orders `String`s by their UTF-8 bytes, which orders code points the same way. */
  predicate Below(a: string, b: string)
    decreases |a|
  {
    |b| > 0 && (|a| == 0 || a[0] < b[0] || (a[0] == b[0] && Below(a[1..], b[1..])))
  }

  lemma {:induction false} BelowIrreflexive(a: string)
    ensures !Below(a, a)
    decreases |a|
  {
    if |a| > 0 { BelowIrreflexive(a[1..]); }
  }

  lemma {:induction false} BelowTransitive(a: string, b: string, c: string)
    requires Below(a, b) && Below(b, c)
    ensures Below(a, c)
    decreases |a|
  {
    if |a| > 0 && a[0] == b[0] && b[0] == c[0] {
      BelowTransitive(a[1..], b[1..], c[1..]);
    }
  }

  lemma {:induction false} BelowTotal(a: string, b: string)
    ensures a == b || Below(a, b) || Below(b, a)
    decreases |a|
  {
    if |a| > 0 && |b| > 0 && a[0] == b[0] {
      BelowTotal(a[1..], b[1..]);
      if a[1..] == b[1..] {
        assert a == [a[0]] + a[1..] && b == [b[0]] + b[1..];
      }
    }
  }

  lemma BelowAsymmetric(a: string, b: string)
    requires Below(a, b)
    ensures !Below(b, a)
  {
    if Below(b, a) {
      BelowTransitive(a, b, a);
      BelowIrreflexive(a);
    }
  }

  /** Every pair of positions is strictly ordered, so in particular no key repeats. */
  ghost predicate Ascending(ks: seq<string>)
  {
    forall i, j :: 0 <= i < j < |ks| ==> Below(ks[i], ks[j])
  }

  /** Checking neighbours is enough, by transitivity. */
  lemma {:induction false} AscendingFromNeighbours(ks: seq<string>)
    requires forall i :: 0 < i < |ks| ==> Below(ks[i - 1], ks[i])
    ensures Ascending(ks)
  {
    if |ks| > 1 {
      AscendingFromNeighbours(ks[1..]);
      forall j | 1 <= j < |ks| ensures Below(ks[0], ks[j]) {
        if j > 1 {
          assert ks[1..][0] == ks[1] && ks[1..][j - 1] == ks[j];
          BelowTransitive(ks[0], ks[1], ks[j]);
        }
      }
      forall i, j | 0 <= i < j < |ks| ensures Below(ks[i], ks[j]) {
        if i > 0 { assert ks[1..][i - 1] == ks[i] && ks[1..][j - 1] == ks[j]; }
      }
    }
  }

  // ---------------------------------------------------------------------------
  // The iteration order of a sorted map
  // ---------------------------------------------------------------------------

  /** Three keys in a chain are ascending, hence distinct. */
  lemma AscendingThree(k1: string, k2: string, k3: string)
    requires Below(k1, k2) && Below(k2, k3)
    ensures Ascending([k1, k2, k3])
    ensures k1 != k2 && k1 != k3 && k2 != k3
  {
    BelowTransitive(k1, k2, k3);
    BelowIrreflexive(k1);
    BelowIrreflexive(k2);
    AscendingFromNeighbours([k1, k2, k3]);
  }

  /** Four keys in a chain are ascending, hence distinct. */
  lemma AscendingFour(k1: string, k2: string, k3: string, k4: string)
    requires Below(k1, k2) && Below(k2, k3) && Below(k3, k4)
    ensures Ascending([k1, k2, k3, k4])
    ensures k1 != k2 && k1 != k3 && k1 != k4 && k2 != k3 && k2 != k4 && k3 != k4
  {
    BelowTransitive(k1, k2, k3);
    BelowTransitive(k2, k3, k4);
    BelowTransitive(k1, k3, k4);
    BelowIrreflexive(k1);
    BelowIrreflexive(k2);
    BelowIrreflexive(k3);
    var ks := [k1, k2, k3, k4];
    assert forall i :: 0 < i < |ks| ==> Below(ks[i - 1], ks[i]);
    AscendingFromNeighbours(ks);
  }

  /** A map display over three distinct keys lists exactly them, with their values. */
  lemma MapOfThree<V>(k1: string, v1: V, k2: string, v2: V, k3: string, v3: V)
    requires k1 != k2 && k1 != k3 && k2 != k3
    ensures var p := map[k1 := v1, k2 := v2, k3 := v3];
      && p[k1] == v1 && p[k2] == v2 && p[k3] == v3
      && forall k :: k in [k1, k2, k3] <==> k in p
  {
  }

  /** A map display over four distinct keys lists exactly them, with their values. */
  lemma MapOfFour<V>(k1: string, v1: V, k2: string, v2: V, k3: string, v3: V, k4: string, v4: V)
    requires k1 != k2 && k1 != k3 && k1 != k4 && k2 != k3 && k2 != k4 && k3 != k4
    ensures var p := map[k1 := v1, k2 := v2, k3 := v3, k4 := v4];
      && p[k1] == v1 && p[k2] == v2 && p[k3] == v3 && p[k4] == v4
      && forall k :: k in [k1, k2, k3, k4] <==> k in p
  {
  }

  predicate IsLeast(k: string, s: set<string>)
  {
    k in s && forall j :: j in s && j != k ==> Below(k, j)
  }

  lemma {:induction false} LeastExists(s: set<string>)
    requires s != {}
    ensures exists k :: IsLeast(k, s)
    decreases |s|
  {
    var x :| x in s;
    if s != {x} {
      var rest := s - {x};
      LeastExists(rest);
      var m :| IsLeast(m, rest);
      BelowTotal(x, m);
      if Below(x, m) {
        forall j | j in s && j != x ensures Below(x, j) {
          if j != m { BelowTransitive(x, m, j); }
        }
        assert IsLeast(x, s);
      } else {
        assert IsLeast(m, s);
      }
    } else {
      assert IsLeast(x, s);
    }
  }

  lemma LeastUnique(s: set<string>)
    ensures forall a, b :: IsLeast(a, s) && IsLeast(b, s) ==> a == b
  {
    forall a, b | IsLeast(a, s) && IsLeast(b, s) ensures a == b {
      if a != b { BelowAsymmetric(a, b); }
    }
  }

  /** The keys of a set in ascending order: the order in which a BTreeMap yields them. */
  function SortedKeys(s: set<string>): (ks: seq<string>)
    ensures |ks| == |s|
    ensures forall k :: k in ks <==> k in s
    ensures Ascending(ks)
    decreases |s|
  {
    if s == {} then []
    else
      LeastExists(s);
      LeastUnique(s);
      var k :| IsLeast(k, s);
      var rest := SortedKeys(s - {k});
      LeastInFront(k, s, rest);
      [k] + rest
  }

  /** The least key in front of an ascending listing of the others lists the whole set. */
  lemma LeastInFront(k: string, s: set<string>, rest: seq<string>)
    requires IsLeast(k, s)
    requires |rest| == |s - {k}| && (forall j :: j in rest <==> j in s - {k}) && Ascending(rest)
    ensures |[k] + rest| == |s|
    ensures forall j :: j in [k] + rest <==> j in s
    ensures Ascending([k] + rest)
  {
    var ks := [k] + rest;
    forall i, j | 0 <= i < j < |ks| ensures Below(ks[i], ks[j]) {
      if i == 0 {
        assert ks[j] == rest[j - 1] && rest[j - 1] in rest;
      } else {
        assert ks[i] == rest[i - 1] && ks[j] == rest[j - 1];
      }
    }
  }

  /** An ascending listing of a set is THE listing: a map has one iteration order. */
  lemma {:induction false} SortedKeysUnique(ks: seq<string>, s: set<string>)
    requires Ascending(ks)
    requires forall k :: k in ks <==> k in s
    ensures SortedKeys(s) == ks
    decreases |ks|
  {
    if ks == [] {
      assert s == {};
    } else {
      HeadIsLeast(ks, s);
      LeastExists(s);
      LeastUnique(s);
      SortedKeysUnique(ks[1..], s - {ks[0]});
    }
  }

  /** The head of an ascending listing is the least element, and the tail lists the rest. */
  lemma HeadIsLeast(ks: seq<string>, s: set<string>)
    requires Ascending(ks) && |ks| > 0
    requires forall k :: k in ks <==> k in s
    ensures IsLeast(ks[0], s)
    ensures Ascending(ks[1..])
    ensures forall k :: k in ks[1..] <==> k in s - {ks[0]}
  {
    forall j | j in s && j != ks[0] ensures Below(ks[0], j) {
      var i :| 0 <= i < |ks| && ks[i] == j;
    }
    var tail := ks[1..];
    forall i, j | 0 <= i < j < |tail| ensures Below(tail[i], tail[j]) {
      assert tail[i] == ks[i + 1] && tail[j] == ks[j + 1];
    }
    forall k ensures k in tail <==> k in s - {ks[0]} {
      if k in tail {
        var i :| 0 <= i < |tail| && tail[i] == k;
        assert ks[i + 1] == k;
        BelowIrreflexive(k);
      }
      if k in s - {ks[0]} {
        var i :| 0 <= i < |ks| && ks[i] == k;
        assert i != 0;
        assert tail[i - 1] == k;
      }
    }
  }

  // ---------------------------------------------------------------------------
  // Join and split
  // ---------------------------------------------------------------------------

  /** Rust's `[String]::join(sep)`: "" for no pieces, no separator at either end. */
  function Join(xs: seq<string>, sep: string): string
    decreases |xs|
  {
    if |xs| == 0 then ""
    else if |xs| == 1 then xs[0]
    else xs[0] + sep + Join(xs[1..], sep)
  }

  lemma JoinTwo(a: string, b: string, sep: string)
    ensures Join([a, b], sep) == a + sep + b
  {
    assert [a, b][1..] == [b];
  }

  lemma JoinThree(a: string, b: string, c: string, sep: string)
    ensures Join([a, b, c], sep) == a + sep + b + sep + c
  {
    assert [a, b, c][1..] == [b, c];
    assert [b, c][1..] == [c];
    assert Join([b, c], sep) == b + sep + c;
    assert Join([a, b, c], sep) == a + sep + Join([b, c], sep);
  }

  lemma JoinFour(a: string, b: string, c: string, d: string, sep: string)
    ensures Join([a, b, c, d], sep) == a + sep + b + sep + c + sep + d
  {
    assert [a, b, c, d][1..] == [b, c, d];
    JoinThree(b, c, d, sep);
  }

  lemma {:induction false} JoinAppend(xs: seq<string>, x: string, sep: string)
    requires |xs| > 0
    ensures Join(xs + [x], sep) == Join(xs, sep) + sep + x
    decreases |xs|
  {
    if |xs| > 1 {
      assert (xs + [x])[1..] == xs[1..] + [x];
      JoinAppend(xs[1..], x, sep);
    }
  }

  lemma {:induction false} JoinStartsWithFirst(xs: seq<string>, sep: string)
    requires |xs| > 0
    ensures |Join(xs, sep)| >= |xs[0]|
    ensures Join(xs, sep)[..|xs[0]|] == xs[0]
  {
    if |xs| > 1 {
      assert Join(xs, sep) == xs[0] + (sep + Join(xs[1..], sep));
    }
  }

  /** Splits at every occurrence of `c`; always at least one piece (Rust's `str::split`). */
  function Split(s: string, c: char): (r: seq<string>)
    ensures |r| > 0
    decreases |s|
  {
    if |s| == 0 then [""]
    else if s[0] == c then [""] + Split(s[1..], c)
    else
      var t := Split(s[1..], c);
      [[s[0]] + t[0]] + t[1..]
  }

  lemma {:induction false} SplitWithout(a: string, c: char)
    requires c !in a
    ensures Split(a, c) == [a]
    decreases |a|
  {
    if |a| > 0 {
      SplitWithout(a[1..], c);
      assert [a[0]] + a[1..] == a;
    }
  }

  lemma {:induction false} SplitAt(a: string, b: string, c: char)
    requires c !in a
    ensures Split(a + [c] + b, c) == [a] + Split(b, c)
    decreases |a|
  {
    var s := a + [c] + b;
    if |a| == 0 {
      assert s[1..] == b;
    } else {
      assert s[1..] == a[1..] + [c] + b;
      SplitAt(a[1..], b, c);
      assert [a[0]] + a[1..] == a;
    }
  }

  /** Splitting a join on a separator the pieces lack gives the pieces back, in order. */
  lemma {:induction false} SplitJoin(xs: seq<string>, c: char)
    requires |xs| > 0
    requires forall i :: 0 <= i < |xs| ==> c !in xs[i]
    ensures Split(Join(xs, [c]), c) == xs
    decreases |xs|
  {
    if |xs| == 1 {
      SplitWithout(xs[0], c);
    } else {
      SplitJoin(xs[1..], c);
      SplitAt(xs[0], Join(xs[1..], [c]), c);
      assert xs == [xs[0]] + xs[1..];
    }
  }

  /** Splits at the first occurrence of `c` (Rust's `str::split_once`). */
  function SplitOnce(s: string, c: char): Option<(string, string)>
    decreases |s|
  {
    if |s| == 0 then None
    else if s[0] == c then Some(("", s[1..]))
    else
      match SplitOnce(s[1..], c)
      case None => None
      case Some(p) => Some(([s[0]] + p.0, p.1))
  }

  lemma {:induction false} SplitOnceAt(a: string, b: string, c: char)
    requires c !in a
    ensures SplitOnce(a + [c] + b, c) == Some((a, b))
    decreases |a|
  {
    var s := a + [c] + b;
    if |a| == 0 {
      assert s[1..] == b;
    } else {
      assert s[1..] == a[1..] + [c] + b;
      SplitOnceAt(a[1..], b, c);
      assert [a[0]] + a[1..] == a;
    }
  }

  // ---------------------------------------------------------------------------
  // Decimal rendering
  // ---------------------------------------------------------------------------

  function Digit(d: nat): (c: char)
    requires d < 10
    ensures '0' <= c <= '9'
  {
    (48 + d) as char
  }

  /** Decimal digits without leading zeros, as `u32`, `u64` and `i64` render. */
  function NatString(n: nat): (s: string)
    ensures |s| > 0
    ensures forall i :: 0 <= i < |s| ==> '0' <= s[i] <= '9'
    decreases n
  {
    if n < 10 then [Digit(n)] else NatString(n / 10) + [Digit(n % 10)]
  }

  function IntString(i: int): (s: string)
    ensures |s| > 0
  {
    if i < 0 then "-" + NatString(-i) else NatString(i)
  }

  /** The value of a string of decimal digits: the reader of NatString. */
  function DigitsValue(s: string): int
    decreases |s|
  {
    if |s| == 0 then 0
    else DigitsValue(s[..|s| - 1]) * 10 + (s[|s| - 1] as int - 48)
  }

  lemma {:induction false} DigitsValueOfNatString(n: nat)
    ensures DigitsValue(NatString(n)) == n
    ensures NatString(n)[0] != '0' || n == 0
    decreases n
  {
    if n >= 10 {
      DigitsValueOfNatString(n / 10);
      var s := NatString(n);
      assert s[..|s| - 1] == NatString(n / 10);
    }
  }
}
