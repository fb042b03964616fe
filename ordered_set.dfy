/** JavaScript's insertion-ordered `Set`, as the engine uses it for the participated
    ids: built from a stored array, grown with `add`, written back with `Array.from`. */
module OrderedSet {

  function Elements<T>(s: seq<T>): set<T> {
    set x | x in s
  }

  predicate NoDuplicates<T(==)>(s: seq<T>) {
    forall i, j :: 0 <= i < j < |s| ==> s[i] != s[j]
  }

  /** `set.add(x)`. */
  function Insert<T(==)>(s: seq<T>, x: T): seq<T> {
    if x in s then s else s + [x]
  }

  /** A new element goes to the end, a present one changes nothing, and the elements
      stay distinct. */
  lemma InsertSpec<T>(s: seq<T>, x: T)
    ensures var r := Insert(s, x);
      && s <= r
      && x in r
      && (x in s ==> r == s)
      && (x !in s ==> r == s + [x])
      && (NoDuplicates(s) ==> NoDuplicates(r))
  {
    var r := Insert(s, x);
    if NoDuplicates(s) && x !in s {
      forall i, j | 0 <= i < j < |r| ensures r[i] != r[j] {
        if j == |s| {
          assert r[i] == s[i];
        }
      }
    }
  }

  /** `Array.from(new Set(s))`: each element once, at its first occurrence. */
  function Dedup<T(==)>(s: seq<T>): (r: seq<T>)
    ensures |r| <= |s|
  {
    if s == [] then [] else Insert(Dedup(s[..|s| - 1]), s[|s| - 1])
  }

  /** The set holds exactly the array's elements, each once. */
  lemma {:induction false} DedupSound<T>(s: seq<T>)
    ensures Elements(Dedup(s)) == Elements(s)
    ensures NoDuplicates(Dedup(s))
  {
    if s != [] {
      var s', x := s[..|s| - 1], s[|s| - 1];
      DedupSound(s');
      assert s == s' + [x];
      ElementsConcat(s', [x]);
      var d := Dedup(s');
      assert Elements(Insert(d, x)) == Elements(d) + {x} by {
        if x !in d {
          ElementsConcat(d, [x]);
        }
      }
    }
  }

  lemma DedupStep<T>(p: seq<T>, j: seq<T>, x: T)
    ensures Dedup(p + (j + [x])) == Insert(Dedup(p + j), x)
  {
    assert p + (j + [x]) == (p + j) + [x];
    DedupSnoc(p + j, x);
  }

  lemma DedupSnoc<T>(s: seq<T>, x: T)
    ensures Dedup(s + [x]) == Insert(Dedup(s), x)
  {
    assert (s + [x])[..|s|] == s;
  }

  lemma ElementsConcat<T>(a: seq<T>, b: seq<T>)
    ensures Elements(a + b) == Elements(a) + Elements(b)
  {
    assert forall x :: x in a + b <==> x in a || x in b;
  }

  /** Adding elements never drops or reorders the ones already in the set. */
  lemma {:induction false} DedupGrows<T>(a: seq<T>, b: seq<T>)
    ensures Dedup(a) <= Dedup(a + b)
  {
    if b == [] {
      assert a + b == a;
    } else {
      var b', x := b[..|b| - 1], b[|b| - 1];
      DedupGrows(a, b');
      assert a + b == (a + b') + [x];
      DedupSnoc(a + b', x);
      var d, d' := Dedup(a), Dedup(a + b');
      assert d <= d';
      assert d' <= Dedup(a + b);
      assert |d| <= |d'| && d == d'[..|d|];
    }
  }

  /** A stored array without repeats survives the round trip through a `Set` unchanged. */
  lemma {:induction false} DedupOfDistinct<T>(s: seq<T>)
    requires NoDuplicates(s)
    ensures Dedup(s) == s
  {
    if s != [] {
      var s' := s[..|s| - 1];
      assert NoDuplicates(s');
      DedupOfDistinct(s');
      assert s' + [s[|s| - 1]] == s;
    }
  }
}
