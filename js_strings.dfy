/**
 * JavaScript strings and the order `Array.prototype.sort()` puts them in when it is
 * called without a comparator: strings are compared by their UTF-16 code units,
 * lexicographically, a proper prefix sorting first.
 */
module JsStrings {
  import opened Seqs

  /** The UTF-16 code units that encode one character (two, a surrogate pair, above U+FFFF). */
  function CharCodeUnits(c: char): (u: seq<int>)
    ensures 1 <= |u| <= 2
    ensures |u| == 1 <==> c as int < 0x1_0000
    ensures |u| == 2 ==> 0xD800 <= u[0] < 0xDC00 <= u[1] < 0xE000
    ensures |u| == 1 ==> u[0] == c as int && !(0xD800 <= u[0] < 0xE000)
  {
    var v := c as int;
    if v < 0x1_0000 then [v]
    else [0xD800 + (v - 0x1_0000) / 0x400, 0xDC00 + (v - 0x1_0000) % 0x400]
  }

  /** The UTF-16 code units of a string, the sequence JavaScript compares. */
  function CodeUnits(s: string): (u: seq<int>)
    ensures |u| >= |s|
  {
    if s == [] then [] else CharCodeUnits(s[0]) + CodeUnits(s[1..])
  }

  /** Lexicographic order on code-unit sequences, as the `<` of JavaScript strings. */
  predicate LexLess(a: seq<int>, b: seq<int>) {
    if a == [] then b != []
    else if b == [] then false
    else if a[0] != b[0] then a[0] < b[0]
    else LexLess(a[1..], b[1..])
  }

  /** `a` sorts before `b` under JavaScript's default sort order. */
  predicate SortsBefore(a: string, b: string) {
    LexLess(CodeUnits(a), CodeUnits(b))
  }

  lemma {:induction false} LexLessIrreflexive(a: seq<int>)
    ensures !LexLess(a, a)
  {
    if a != [] {
      LexLessIrreflexive(a[1..]);
    }
  }

  lemma {:induction false} LexLessTransitive(a: seq<int>, b: seq<int>, c: seq<int>)
    requires LexLess(a, b) && LexLess(b, c)
    ensures LexLess(a, c)
  {
    if a != [] && a[0] == b[0] && b[0] == c[0] {
      LexLessTransitive(a[1..], b[1..], c[1..]);
    }
  }

  lemma {:induction false} LexLessTotal(a: seq<int>, b: seq<int>)
    requires a != b
    ensures LexLess(a, b) || LexLess(b, a)
  {
    if a != [] && b != [] && a[0] == b[0] {
      assert a == [a[0]] + a[1..] && b == [b[0]] + b[1..];
      LexLessTotal(a[1..], b[1..]);
    }
  }

  /** Distinct characters have distinct encodings, and neither encoding begins the other. */
  lemma CharCodeUnitsInjective(c: char, d: char, rest1: seq<int>, rest2: seq<int>)
    requires CharCodeUnits(c) + rest1 == CharCodeUnits(d) + rest2
    ensures c == d && rest1 == rest2
  {
    var u, w := CharCodeUnits(c), CharCodeUnits(d);
    assert u[0] == (u + rest1)[0] == (w + rest2)[0] == w[0];
    if |u| == 2 {
      assert u[1] == (u + rest1)[1] == (w + rest2)[1] == w[1];
      var v, x := c as int - 0x1_0000, d as int - 0x1_0000;
      assert v == 0x400 * (v / 0x400) + v % 0x400;
      assert x == 0x400 * (x / 0x400) + x % 0x400;
    }
    assert u == w;
    assert rest1 == (u + rest1)[|u|..] == (w + rest2)[|w|..] == rest2;
  }

  /** Different strings have different code units, so the order below is total. */
  lemma {:induction false} CodeUnitsInjective(a: string, b: string)
    requires CodeUnits(a) == CodeUnits(b)
    ensures a == b
  {
    if a != [] && b != [] {
      CharCodeUnitsInjective(a[0], b[0], CodeUnits(a[1..]), CodeUnits(b[1..]));
      CodeUnitsInjective(a[1..], b[1..]);
      assert a == [a[0]] + a[1..] && b == [b[0]] + b[1..];
    }
  }

  /** JavaScript's default string order is a strict total order. */
  lemma SortsBeforeIrreflexive(a: string)
    ensures !SortsBefore(a, a)
  {
    LexLessIrreflexive(CodeUnits(a));
  }

  lemma SortsBeforeTransitive(a: string, b: string, c: string)
    requires SortsBefore(a, b) && SortsBefore(b, c)
    ensures SortsBefore(a, c)
  {
    LexLessTransitive(CodeUnits(a), CodeUnits(b), CodeUnits(c));
  }

  lemma SortsBeforeTotal(a: string, b: string)
    requires a != b
    ensures SortsBefore(a, b) || SortsBefore(b, a)
  {
    if CodeUnits(a) == CodeUnits(b) {
      CodeUnitsInjective(a, b);
    }
    LexLessTotal(CodeUnits(a), CodeUnits(b));
  }

  /** Every pair of elements is in order and no element repeats. */
  ghost predicate StrictlyAscending(s: seq<string>) {
    forall i, j :: 0 <= i < j < |s| ==> SortsBefore(s[i], s[j])
  }

  /** An element that sorts before every element of an ascending list can head it. */
  lemma PrependBelowAll(y: string, t: seq<string>)
    requires StrictlyAscending(t)
    requires forall e :: e in t ==> SortsBefore(y, e)
    ensures StrictlyAscending([y] + t)
  {
    var r := [y] + t;
    forall i, j | 0 <= i < j < |r| ensures SortsBefore(r[i], r[j]) {
      assert r[j] == t[j - 1];
      if i > 0 {
        assert r[i] == t[i - 1];
      }
    }
  }

  /** The head of an ascending list sorts before every element that `x` joins. */
  lemma HeadBelowInserted(x: string, s: seq<string>, rest: seq<string>)
    requires s != [] && SortsBefore(s[0], x) && StrictlyAscending(s)
    requires StrictlyAscending(rest) && multiset(rest) == multiset(s[1..]) + multiset{x}
    ensures StrictlyAscending([s[0]] + rest)
  {
    forall e | e in rest ensures SortsBefore(s[0], e) {
      assert e in multiset(rest);
      if e != x {
        var k :| 0 <= k < |s[1..]| && s[1..][k] == e;
        assert s[k + 1] == e;
      }
    }
    PrependBelowAll(s[0], rest);
  }

  /** An element not after the head of an ascending list it is not in sorts before all of it. */
  lemma BelowHead(x: string, s: seq<string>)
    requires s != [] && !SortsBefore(s[0], x) && StrictlyAscending(s) && x !in s
    ensures StrictlyAscending([x] + s)
  {
    SortsBeforeTotal(x, s[0]);
    forall e | e in s ensures SortsBefore(x, e) {
      var k :| 0 <= k < |s| && s[k] == e;
      if k > 0 {
        SortsBeforeTransitive(x, s[0], e);
      }
    }
    PrependBelowAll(x, s);
  }

  /** Places `x` into an ascending list in front of the first element it does not follow. */
  function Insert(x: string, s: seq<string>): (r: seq<string>)
    ensures multiset(r) == multiset(s) + multiset{x}
    ensures StrictlyAscending(s) && x !in s ==> StrictlyAscending(r)
  {
    if s == [] then [x]
    else if SortsBefore(s[0], x) then
      assert s == [s[0]] + s[1..];
      var rest := Insert(x, s[1..]);
      assert StrictlyAscending(s) && x !in s ==> StrictlyAscending([s[0]] + rest) by {
        if StrictlyAscending(s) && x !in s {
          assert StrictlyAscending(s[1..]) && x !in s[1..];
          HeadBelowInserted(x, s, rest);
        }
      }
      [s[0]] + rest
    else
      assert StrictlyAscending(s) && x !in s ==> StrictlyAscending([x] + s) by {
        if StrictlyAscending(s) && x !in s {
          BelowHead(x, s);
        }
      }
      [x] + s
  }

  /**
   * `Array.prototype.sort()` without a comparator: the same elements, rearranged into
   * JavaScript's default order; on a list without repeats, strictly ascending.
   */
  function Sort(s: seq<string>): (r: seq<string>)
    ensures multiset(r) == multiset(s)
    ensures Distinct(s) ==> StrictlyAscending(r)
  {
    if s == [] then []
    else
      assert s == [s[0]] + s[1..];
      var rest := Sort(s[1..]);
      assert Distinct(s) ==> s[0] !in s[1..] by {
        if Distinct(s) {
          forall k | 0 <= k < |s| - 1 ensures s[1..][k] != s[0] {
            assert s[1..][k] == s[k + 1];
          }
        }
      }
      assert s[0] in rest ==> s[0] in s[1..] by {
        assert s[0] in rest ==> s[0] in multiset(rest);
      }
      Insert(s[0], rest)
  }

  lemma HeadIsElement(s: seq<string>)
    requires s != []
    ensures s[0] in s
  {
  }

  /** A strictly ascending list is determined by its elements. */
  lemma {:induction false} AscendingListUnique(a: seq<string>, b: seq<string>)
    requires StrictlyAscending(a) && StrictlyAscending(b)
    requires forall x :: x in a <==> x in b
    ensures a == b
  {
    if a != [] && b != [] {
      if a[0] != b[0] {
        assert a[0] in b && b[0] in a;
        var i :| 0 <= i < |b| && b[i] == a[0];
        var j :| 0 <= j < |a| && a[j] == b[0];
        assert SortsBefore(b[0], a[0]) && SortsBefore(a[0], b[0]);
        SortsBeforeTransitive(a[0], b[0], a[0]);
        SortsBeforeIrreflexive(a[0]);
      }
      forall x ensures x in a[1..] <==> x in b[1..] {
        if x in a[1..] {
          var i :| 1 <= i < |a| && a[i] == x;
          SortsBeforeIrreflexive(x);
          assert x in b && x != b[0];
        }
        if x in b[1..] {
          var i :| 1 <= i < |b| && b[i] == x;
          SortsBeforeIrreflexive(x);
          assert x in a && x != a[0];
        }
      }
      AscendingListUnique(a[1..], b[1..]);
    } else if a != [] {
      HeadIsElement(a);
      assert false;
    } else if b != [] {
      HeadIsElement(b);
      assert false;
    }
  }
}
