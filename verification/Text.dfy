/** Strings as the control plane orders and cuts them: code-point order, `sorted` and `partition`. */
module Text {

  /** Python's and Postgres's "C" order on strings: the first differing character decides, a prefix comes first. */
  predicate Less(a: string, b: string) {
    if b == [] then false
    else if a == [] then true
    else a[0] < b[0] || (a[0] == b[0] && Less(a[1..], b[1..]))
  }

  lemma {:induction false} LessTotal(a: string, b: string)
    ensures a == b || Less(a, b) || Less(b, a)
  {
    if a == [] || b == [] {
    } else if a[0] == b[0] {
      LessTotal(a[1..], b[1..]);
      assert a == [a[0]] + a[1..] && b == [b[0]] + b[1..];
    }
  }

  lemma {:induction false} LessStrict(a: string, b: string)
    ensures !(Less(a, b) && Less(b, a))
    ensures !Less(a, a)
  {
    if a != [] {
      LessStrict(a[1..], if b == [] then [] else b[1..]);
    }
  }

  lemma {:induction false} LessTransitive(a: string, b: string, c: string)
    requires Less(a, b) && Less(b, c)
    ensures Less(a, c)
  {
    if a != [] && a[0] == b[0] && b[0] == c[0] {
      LessTransitive(a[1..], b[1..], c[1..]);
    }
  }

  predicate Ascending(r: seq<string>) {
    forall i, j :: 0 <= i < j < |r| ==> Less(r[i], r[j])
  }

  predicate IsLeast(m: string, s: set<string>) {
    m in s && forall x :: x in s && x != m ==> Less(m, x)
  }

  lemma {:induction false} LeastExists(s: set<string>) returns (m: string)
    requires s != {}
    ensures IsLeast(m, s)
  {
    var y :| y in s;
    m := y;
    if s != {y} {
      m := LeastExists(s - {y});
      LessTotal(m, y);
      if Less(y, m) {
        forall x | x in s && x != y ensures Less(y, x) {
          if x != m { LessTransitive(y, m, x); }
        }
        m := y;
      }
    }
  }

  lemma LeastUnique(s: set<string>, a: string, b: string)
    requires IsLeast(a, s) && IsLeast(b, s)
    ensures a == b
  {
    LessStrict(a, b);
  }

  function Least(s: set<string>): (m: string)
    requires s != {}
    ensures IsLeast(m, s)
  {
    assert exists m :: IsLeast(m, s) by { var m := LeastExists(s); }
    assert forall a, b :: IsLeast(a, s) && IsLeast(b, s) ==> a == b by {
      forall a, b | IsLeast(a, s) && IsLeast(b, s) ensures a == b { LeastUnique(s, a, b); }
    }
    var m :| m in s && IsLeast(m, s);
    m
  }

  /** `sorted` of a collection without repeats. */
  function Sorted(s: set<string>): (r: seq<string>)
    ensures Ascending(r)
    ensures forall x :: x in r <==> x in s
    ensures |r| == |s|
  {
    if s == {} then []
    else
      var m := Least(s);
      assert s == {m} + (s - {m});
      [m] + Sorted(s - {m})
  }

  /** Only one ascending sequence lists a given set. */
  lemma {:induction false} AscendingUnique(r: seq<string>, q: seq<string>)
    requires Ascending(r) && Ascending(q)
    requires forall x :: x in r <==> x in q
    ensures r == q
  {
    assert |r| > 0 ==> r[0] in q;
    assert |q| > 0 ==> q[0] in r;
    if r != [] && q != [] {
      assert r[0] == q[0] by { HeadsAgree(r, q); }
      LessStrict(r[0], r[0]);
      assert r[0] !in r[1..] && r[0] !in q[1..];
      assert forall x :: x in r <==> x == r[0] || x in r[1..];
      assert forall x :: x in q <==> x == r[0] || x in q[1..];
      AscendingUnique(r[1..], q[1..]);
      assert r == [r[0]] + r[1..] && q == [q[0]] + q[1..];
    }
  }

  lemma HeadsAgree(r: seq<string>, q: seq<string>)
    requires r != [] && q != [] && Ascending(r) && Ascending(q)
    requires forall x :: x in r <==> x in q
    ensures r[0] == q[0]
  {
    assert r[0] in q && q[0] in r;
    var i :| 0 <= i < |q| && q[i] == r[0];
    var j :| 0 <= j < |r| && r[j] == q[0];
    LessStrict(r[0], q[0]);
  }

  /** The text before the first `sep` and the text after it, as `partition` cuts it. */
  function Partition(s: string, sep: char): (r: (string, string)) {
    if s == [] then ([], [])
    else if s[0] == sep then ([], s[1..])
    else var rest := Partition(s[1..], sep); ([s[0]] + rest.0, rest.1)
  }

  /** A field without the separator comes back whole, whatever follows it. */
  lemma {:induction false} PartitionJoins(a: string, sep: char, b: string)
    requires sep !in a
    ensures Partition(a + [sep] + b, sep) == (a, b)
  {
    if a == [] {
      assert a + [sep] + b == [sep] + b;
    } else {
      PartitionJoins(a[1..], sep, b);
      assert (a + [sep] + b)[1..] == a[1..] + [sep] + b;
      assert a == [a[0]] + a[1..];
    }
  }
}
