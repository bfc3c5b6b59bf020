/**
 The order of strings that ordered sets, ordered maps and `sort` use, strictly
 ascending sequences, and the fact all canonical forms rest on: an ascending sequence
 is determined by its elements.
 */
module Order {

  /** Lexicographic order by character. On valid UTF-8 the byte order of the source is the
      order by code point. */
  predicate Less(a: string, b: string) {
    if b == [] then false
    else if a == [] then true
    else a[0] < b[0] || (a[0] == b[0] && Less(a[1..], b[1..]))
  }

  lemma {:induction false} LessIrreflexive(a: string)
    ensures !Less(a, a)
  {
    if a != [] {
      LessIrreflexive(a[1..]);
    }
  }

  lemma {:induction false} LessTransitive(a: string, b: string, c: string)
    requires Less(a, b) && Less(b, c)
    ensures Less(a, c)
  {
    if a != [] && a[0] == b[0] && b[0] == c[0] {
      LessTransitive(a[1..], b[1..], c[1..]);
    }
  }

  lemma {:induction false} LessTotal(a: string, b: string)
    ensures a == b || Less(a, b) || Less(b, a)
  {
    if a != [] && b != [] && a[0] == b[0] {
      LessTotal(a[1..], b[1..]);
      if a[1..] == b[1..] {
        assert a == [a[0]] + a[1..] && b == [b[0]] + b[1..];
      }
    }
  }

  lemma LessAsymmetric(a: string, b: string)
    requires Less(a, b)
    ensures !Less(b, a) && a != b
  {
    LessIrreflexive(a);
    if Less(b, a) {
      LessTransitive(a, b, a);
    }
  }

  predicate Ascending(s: seq<string>) {
    forall i, j :: 0 <= i < j < |s| ==> Less(s[i], s[j])
  }

  function Elements<T>(s: seq<T>): set<T> {
    set x | x in s
  }

  /** Two ascending sequences with the same elements are equal. */
  lemma {:induction false} AscendingUnique(a: seq<string>, b: seq<string>)
    requires Ascending(a) && Ascending(b) && Elements(a) == Elements(b)
    ensures a == b
  {
    assert a != [] ==> a[0] in Elements(a);
    assert b != [] ==> b[0] in Elements(b);
    if a != [] {
      HeadIsLeast(a, b[0]);
      HeadIsLeast(b, a[0]);
      if a[0] != b[0] {
        LessAsymmetric(a[0], b[0]);
      }
      TailElements(a);
      TailElements(b);
      AscendingUnique(a[1..], b[1..]);
      assert a == [a[0]] + a[1..] && b == [b[0]] + b[1..];
    }
  }

  lemma HeadIsLeast(a: seq<string>, x: string)
    requires Ascending(a) && a != [] && x in a
    ensures a[0] == x || Less(a[0], x)
  {
  }

  lemma TailElements(a: seq<string>)
    requires Ascending(a) && a != []
    ensures Elements(a[1..]) == Elements(a) - {a[0]}
  {
    forall x | x in a[1..]
      ensures x != a[0]
    {
      var i :| 0 <= i < |a| - 1 && a[1..][i] == x;
      assert Less(a[0], a[i + 1]);
      LessAsymmetric(a[0], a[i + 1]);
    }
    assert a == [a[0]] + a[1..];
  }

  /** Insertion into an ordered set. */
  function Insert(s: seq<string>, x: string): (r: seq<string>)
    requires Ascending(s)
    ensures Ascending(r) && Elements(r) == Elements(s) + {x}
  {
    if s == [] then [x]
    else if x == s[0] then assert x in s; s
    else if Less(x, s[0]) then InsertFront(s, x); [x] + s
    else
      LessTotal(x, s[0]);
      var rest := Insert(s[1..], x);
      InsertBehind(s, x, rest);
      [s[0]] + rest
  }

  lemma InsertFront(s: seq<string>, x: string)
    requires Ascending(s) && s != [] && Less(x, s[0])
    ensures Ascending([x] + s) && Elements([x] + s) == Elements(s) + {x}
  {
    forall j | 0 <= j < |s|
      ensures Less(x, s[j])
    {
      if j > 0 {
        LessTransitive(x, s[0], s[j]);
      }
    }
  }

  lemma InsertBehind(s: seq<string>, x: string, rest: seq<string>)
    requires Ascending(s) && s != [] && Less(s[0], x)
    requires Ascending(rest) && Elements(rest) == Elements(s[1..]) + {x}
    ensures Ascending([s[0]] + rest) && Elements([s[0]] + rest) == Elements(s) + {x}
  {
    forall j | 0 <= j < |rest|
      ensures Less(s[0], rest[j])
    {
      assert rest[j] in Elements(rest);
      if rest[j] != x {
        var i :| 0 <= i < |s[1..]| && s[1..][i] == rest[j];
        assert Less(s[0], s[i + 1]);
      }
    }
    assert s == [s[0]] + s[1..];
    assert Elements(s) == {s[0]} + Elements(s[1..]);
    assert Elements([s[0]] + rest) == {s[0]} + Elements(rest);
  }

  /** The ascending sequence of the elements of a set, as iteration over an ordered set
      yields it. */
  method SortSet(s: set<string>) returns (r: seq<string>)
    ensures Ascending(r) && Elements(r) == s
  {
    r := [];
    var todo := s;
    while todo != {}
      invariant Ascending(r) && todo <= s && Elements(r) == s - todo
      decreases todo
    {
      var x :| x in todo;
      r := Insert(r, x);
      todo := todo - {x};
    }
  }

  lemma {:induction false} AscendingLength(s: seq<string>)
    requires Ascending(s)
    ensures |Elements(s)| == |s|
  {
    if s != [] {
      TailElements(s);
      AscendingLength(s[1..]);
      assert s[0] in Elements(s);
    }
  }

  /** Collecting into an ordered set. */
  function SortAll(values: seq<string>): (r: seq<string>)
    ensures Ascending(r) && Elements(r) == Elements(values)
  {
    if values == [] then []
    else
      var n := |values| - 1;
      assert values == values[..n] + [values[n]];
      Insert(SortAll(values[..n]), values[n])
  }

  /** The result does not depend on the order or the repetition of the values. */
  lemma SortAllSame(a: seq<string>, b: seq<string>)
    requires Elements(a) == Elements(b)
    ensures SortAll(a) == SortAll(b)
  {
    AscendingUnique(SortAll(a), SortAll(b));
  }

  predicate Unique<T(==)>(s: seq<T>) {
    forall i, j :: 0 <= i < j < |s| ==> s[i] != s[j]
  }

  function Keys<T>(items: seq<T>, key: T -> string): seq<string> {
    seq(|items|, i requires 0 <= i < |items| => key(items[i]))
  }

  /** A list ascending by key is determined by its items. */
  lemma KeyedUnique<T(!new)>(a: seq<T>, b: seq<T>, key: T -> string)
    requires Ascending(Keys(a, key)) && Ascending(Keys(b, key)) && forall x :: x in a <==> x in b
    ensures a == b
  {
    var ka, kb := Keys(a, key), Keys(b, key);
    forall k | k in ka
      ensures k in kb
    {
      var i :| 0 <= i < |a| && ka[i] == k;
      assert a[i] in b;
      var j :| 0 <= j < |b| && b[j] == a[i];
      assert kb[j] == k;
    }
    forall k | k in kb
      ensures k in ka
    {
      var i :| 0 <= i < |b| && kb[i] == k;
      assert b[i] in a;
      var j :| 0 <= j < |a| && a[j] == b[i];
      assert ka[j] == k;
    }
    AscendingUnique(ka, kb);
    forall i | 0 <= i < |a|
      ensures a[i] == b[i]
    {
      assert a[i] in b;
      var j :| 0 <= j < |b| && b[j] == a[i];
      assert kb[j] == ka[i] == kb[i];
      LessIrreflexive(kb[i]);
    }
  }
}
