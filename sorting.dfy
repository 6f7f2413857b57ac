/** The orderings the mini-app's queries ask the database for: `ORDER BY <text column>`
    (SQLite's default BINARY collation, that is code-point order) and `ORDER BY <integer column>
    DESC`. Both sorts are insertion sorts over a key; only the resulting order and the fact that
    they permute their input are relied on, since SQL leaves the order of ties unspecified. */
module Sorting {

  /** Lexicographic order of strings by code point; a prefix comes first. */
  predicate TextLe(a: string, b: string)
    decreases |a|
  {
    a == [] || (b != [] && (a[0] < b[0] || (a[0] == b[0] && TextLe(a[1..], b[1..]))))
  }

  lemma {:induction false} TextLeTotal(a: string, b: string)
    ensures TextLe(a, b) || TextLe(b, a)
    decreases |a|
  {
    if a != [] && b != [] && a[0] == b[0] {
      TextLeTotal(a[1..], b[1..]);
    }
  }

  lemma {:induction false} TextLeTransitive(a: string, b: string, c: string)
    requires TextLe(a, b) && TextLe(b, c)
    ensures TextLe(a, c)
    decreases |a|
  {
    if a != [] && a[0] == b[0] && b[0] == c[0] {
      TextLeTransitive(a[1..], b[1..], c[1..]);
    }
  }

  lemma {:induction false} TextLeAntisymmetric(a: string, b: string)
    requires TextLe(a, b) && TextLe(b, a)
    ensures a == b
    decreases |a|
  {
    if a != [] {
      TextLeAntisymmetric(a[1..], b[1..]);
      assert a == [a[0]] + a[1..] && b == [b[0]] + b[1..];
    }
  }

  /** Every element's key is at most the next one's. */
  predicate AscendingText<T>(s: seq<T>, key: T -> string) {
    forall i :: 0 < i < |s| ==> TextLe(key(s[i - 1]), key(s[i]))
  }

  function InsertByText<T>(x: T, s: seq<T>, key: T -> string): (r: seq<T>)
    ensures multiset(r) == multiset(s) + multiset{x}
    ensures r != [] && (r[0] == x || (s != [] && r[0] == s[0]))
    ensures AscendingText(s, key) ==> AscendingText(r, key)
  {
    if s == [] || TextLe(key(x), key(s[0])) then [x] + s
    else
      var rest := InsertByText(x, s[1..], key);
      TextLeTotal(key(x), key(s[0]));
      assert s == [s[0]] + s[1..];
      assert multiset(s) == multiset{s[0]} + multiset(s[1..]);
      AscendingTextCons(s[0], rest, key);
      [s[0]] + rest
  }

  /** Putting an element in front keeps the order when its key is at most the old head's. */
  lemma AscendingTextCons<T>(h: T, t: seq<T>, key: T -> string)
    ensures AscendingText(t, key) && (t == [] || TextLe(key(h), key(t[0]))) ==>
      AscendingText([h] + t, key)
  {
    if AscendingText(t, key) && (t == [] || TextLe(key(h), key(t[0]))) {
      var r := [h] + t;
      forall i | 0 < i < |r|
        ensures TextLe(key(r[i - 1]), key(r[i]))
      {
        if i > 1 {
          assert r[i - 1] == t[i - 2] && r[i] == t[i - 1];
        }
      }
    }
  }

  /** `ORDER BY key` on a text key. */
  function SortByText<T>(s: seq<T>, key: T -> string): (r: seq<T>)
    ensures multiset(r) == multiset(s)
    ensures AscendingText(r, key)
  {
    if s == [] then []
    else
      assert s == [s[0]] + s[1..];
      InsertByText(s[0], SortByText(s[1..], key), key)
  }

  /** Ascending between neighbours is ascending between any two positions. */
  lemma {:induction false} AscendingTextPairwise<T>(s: seq<T>, key: T -> string, i: int, j: int)
    requires AscendingText(s, key) && 0 <= i <= j < |s|
    ensures TextLe(key(s[i]), key(s[j]))
    decreases j - i
  {
    if i == j {
      TextLeTotal(key(s[i]), key(s[j]));
    } else {
      AscendingTextPairwise(s, key, i, j - 1);
      TextLeTransitive(key(s[i]), key(s[j - 1]), key(s[j]));
    }
  }

  /** No two elements share a key. */
  predicate DistinctText<T>(s: seq<T>, key: T -> string) {
    forall i, j :: 0 <= i < j < |s| ==> key(s[i]) != key(s[j])
  }

  lemma DistinctTextCons<T>(h: T, t: seq<T>, key: T -> string)
    requires DistinctText(t, key) && forall y :: y in t ==> key(y) != key(h)
    ensures DistinctText([h] + t, key)
  {
    var r := [h] + t;
    forall i, j | 0 <= i < j < |r|
      ensures key(r[i]) != key(r[j])
    {
      assert r[j] == t[j - 1];
      if i > 0 {
        assert r[i] == t[i - 1];
      } else {
        assert t[j - 1] in t;
      }
    }
  }

  lemma {:induction false} InsertDistinct<T>(x: T, s: seq<T>, key: T -> string)
    requires DistinctText(s, key) && forall y :: y in s ==> key(y) != key(x)
    ensures DistinctText(InsertByText(x, s, key), key)
    decreases |s|
  {
    if s == [] || TextLe(key(x), key(s[0])) {
      DistinctTextCons(x, s, key);
    } else {
      var rest := InsertByText(x, s[1..], key);
      assert DistinctText(s[1..], key) by {
        forall i, j | 0 <= i < j < |s[1..]| ensures key(s[1..][i]) != key(s[1..][j]) {
          assert s[1..][i] == s[i + 1] && s[1..][j] == s[j + 1];
        }
      }
      forall y | y in s[1..] ensures key(y) != key(x) && key(y) != key(s[0]) {
        var k :| 0 <= k < |s[1..]| && s[1..][k] == y;
        assert s[k + 1] == y;
      }
      InsertDistinct(x, s[1..], key);
      forall y | y in rest ensures key(y) != key(s[0]) {
        assert y in multiset(rest);
        if y != x {
          assert y in multiset(s[1..]);
        } else {
          assert s[0] in s;
        }
      }
      DistinctTextCons(s[0], rest, key);
    }
  }

  /** Sorting keeps the keys distinct. */
  lemma {:induction false} SortDistinct<T>(s: seq<T>, key: T -> string)
    requires DistinctText(s, key)
    ensures DistinctText(SortByText(s, key), key)
    decreases |s|
  {
    if s != [] {
      assert DistinctText(s[1..], key) by {
        forall i, j | 0 <= i < j < |s[1..]| ensures key(s[1..][i]) != key(s[1..][j]) {
          assert s[1..][i] == s[i + 1] && s[1..][j] == s[j + 1];
        }
      }
      SortDistinct(s[1..], key);
      var t := SortByText(s[1..], key);
      forall y | y in t ensures key(y) != key(s[0]) {
        assert y in multiset(s[1..]);
        var k :| 0 <= k < |s[1..]| && s[1..][k] == y;
        assert s[k + 1] == y;
      }
      InsertDistinct(s[0], t, key);
    }
  }

  lemma AscendingDistinctTail<T>(s: seq<T>, key: T -> string)
    requires s != [] && AscendingText(s, key) && DistinctText(s, key)
    ensures AscendingText(s[1..], key) && DistinctText(s[1..], key)
  {
    forall i | 0 < i < |s[1..]| ensures TextLe(key(s[1..][i - 1]), key(s[1..][i])) {
      assert s[1..][i - 1] == s[i] && s[1..][i] == s[i + 1];
    }
    forall i, j | 0 <= i < j < |s[1..]| ensures key(s[1..][i]) != key(s[1..][j]) {
      assert s[1..][i] == s[i + 1] && s[1..][j] == s[j + 1];
    }
  }

  /** Two ascending permutations of each other, one without a repeated key, start alike. */
  lemma AscendingHeadsAgree<T>(s: seq<T>, t: seq<T>, key: T -> string)
    requires s != [] && multiset(s) == multiset(t)
    requires AscendingText(s, key) && DistinctText(s, key) && AscendingText(t, key)
    ensures t != [] && t[0] == s[0]
  {
    assert s[0] in multiset(t);
    var j :| 0 <= j < |t| && t[j] == s[0];
    assert t[0] in multiset(s);
    var i :| 0 <= i < |s| && s[i] == t[0];
    AscendingTextPairwise(s, key, 0, i);
    AscendingTextPairwise(t, key, 0, j);
    TextLeAntisymmetric(key(s[0]), key(s[i]));
  }

  lemma MultisetTails<T>(s: seq<T>, t: seq<T>)
    requires s != [] && t != [] && s[0] == t[0] && multiset(s) == multiset(t)
    ensures multiset(s[1..]) == multiset(t[1..])
  {
    assert s == [s[0]] + s[1..] && t == [t[0]] + t[1..];
    assert multiset(s) == multiset{s[0]} + multiset(s[1..]);
    assert multiset(t) == multiset{s[0]} + multiset(t[1..]);
    assert multiset(s[1..]) == multiset(s) - multiset{s[0]};
    assert multiset(t[1..]) == multiset(t) - multiset{s[0]};
  }

  /** With distinct keys there is only one ascending order: two ascending permutations of each
      other with no key twice are equal, whichever sort produced them. */
  lemma {:induction false} AscendingDistinctUnique<T>(s: seq<T>, t: seq<T>, key: T -> string)
    requires multiset(s) == multiset(t)
    requires AscendingText(s, key) && DistinctText(s, key)
    requires AscendingText(t, key) && DistinctText(t, key)
    ensures s == t
    decreases |s|
  {
    assert |s| == |multiset(s)| == |multiset(t)| == |t|;
    if s != [] {
      AscendingHeadsAgree(s, t, key);
      MultisetTails(s, t);
      AscendingDistinctTail(s, key);
      AscendingDistinctTail(t, key);
      AscendingDistinctUnique(s[1..], t[1..], key);
      assert s == [s[0]] + s[1..] && t == [t[0]] + t[1..];
    }
  }

  /** Every element's key is at least the next one's. */
  predicate Descending<T>(s: seq<T>, key: T -> int) {
    forall i :: 0 < i < |s| ==> key(s[i - 1]) >= key(s[i])
  }

  function InsertDescending<T>(x: T, s: seq<T>, key: T -> int): (r: seq<T>)
    ensures multiset(r) == multiset(s) + multiset{x}
    ensures r != [] && (r[0] == x || (s != [] && r[0] == s[0]))
    ensures Descending(s, key) ==> Descending(r, key)
  {
    if s == [] || key(x) >= key(s[0]) then [x] + s
    else
      var rest := InsertDescending(x, s[1..], key);
      assert s == [s[0]] + s[1..];
      [s[0]] + rest
  }

  /** `ORDER BY key DESC` on an integer key. */
  function SortDescending<T>(s: seq<T>, key: T -> int): (r: seq<T>)
    ensures multiset(r) == multiset(s)
    ensures Descending(r, key)
  {
    if s == [] then []
    else
      assert s == [s[0]] + s[1..];
      InsertDescending(s[0], SortDescending(s[1..], key), key)
  }

  /** Descending between neighbours is descending between any two positions. */
  lemma {:induction false} DescendingPairwise<T>(s: seq<T>, key: T -> int, i: int, j: int)
    requires Descending(s, key) && 0 <= i <= j < |s|
    ensures key(s[i]) >= key(s[j])
    decreases j - i
  {
    if i < j {
      DescendingPairwise(s, key, i, j - 1);
    }
  }
}
