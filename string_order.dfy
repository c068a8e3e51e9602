/** Python's ordering of `str` values (code point by code point, a proper
    prefix first) and the `list(set(xs))` then `.sort()` idiom the dependency
    collector uses to normalise its lists. */
module StringOrder {

  /** `a < b` on Python strings. */
  predicate Less(a: string, b: string)
  {
    if a == [] then b != []
    else if b == [] then false
    else a[0] < b[0] || (a[0] == b[0] && Less(a[1..], b[1..]))
  }

  lemma {:induction false} LessIrreflexive(a: string)
    ensures !Less(a, a)
  {
    if a != [] { LessIrreflexive(a[1..]); }
  }

  lemma {:induction false} LessTransitive(a: string, b: string, c: string)
    requires Less(a, b) && Less(b, c)
    ensures Less(a, c)
  {
    if a != [] && b != [] && c != [] && a[0] == b[0] == c[0] {
      LessTransitive(a[1..], b[1..], c[1..]);
    }
  }

  lemma {:induction false} LessTotal(a: string, b: string)
    ensures a == b || Less(a, b) || Less(b, a)
  {
    if a != [] && b != [] && a[0] == b[0] {
      LessTotal(a[1..], b[1..]);
      if a[1..] == b[1..] {
        assert a == [a[0]] + a[1..] && b == [b[0]] + b[1..];
      }
    }
  }

  lemma LessAsymmetric(a: string, b: string)
    requires Less(a, b)
    ensures !Less(b, a)
  {
    if Less(b, a) {
      LessTransitive(a, b, a);
      LessIrreflexive(a);
    }
  }

  /** Strictly ascending, hence free of duplicates. */
  predicate StrictlySorted(s: seq<string>)
  {
    forall i, j :: 0 <= i < j < |s| ==> Less(s[i], s[j])
  }

  /** Adds `x` to a strictly sorted list, keeping it strictly sorted. */
  function Insert(x: string, s: seq<string>): (r: seq<string>)
    requires StrictlySorted(s)
    ensures StrictlySorted(r)
    ensures forall z :: z in r <==> z == x || z in s
  {
    if s == [] then [x]
    else if x == s[0] then s
    else if Less(x, s[0]) then
      assert forall j :: 0 <= j < |s| ==> Less(x, s[j]) by {
        forall j | 0 <= j < |s| ensures Less(x, s[j]) {
          if j > 0 { LessTransitive(x, s[0], s[j]); }
        }
      }
      [x] + s
    else
      LessTotal(x, s[0]);
      var t := Insert(x, s[1..]);
      assert forall z :: z in s[1..] ==> Less(s[0], z);
      [s[0]] + t
  }

  /** `sorted(set(xs))`: the distinct elements of `xs`, ascending. */
  function SortedSet(xs: seq<string>): (r: seq<string>)
    ensures StrictlySorted(r)
    ensures forall z :: z in r <==> z in xs
  {
    if xs == [] then [] else Insert(xs[|xs| - 1], SortedSet(xs[..|xs| - 1]))
  }

  /** A strictly sorted list is fixed by its elements, so the order in which
      Python's `set` happens to yield them does not matter. */
  lemma {:induction false} SortedUnique(r: seq<string>, t: seq<string>)
    requires StrictlySorted(r) && StrictlySorted(t)
    requires forall z :: z in r <==> z in t
    ensures r == t
  {
    if r != [] { assert r[0] in t; }
    if t != [] { assert t[0] in r; }
    if r != [] && t != [] {
      if r[0] != t[0] {
        var i :| 0 <= i < |r| && r[i] == t[0];
        var j :| 0 <= j < |t| && t[j] == r[0];
        assert Less(r[0], t[0]) by { assert i > 0; }
        assert Less(t[0], r[0]) by { assert j > 0; }
        LessAsymmetric(r[0], t[0]);
      }
      LessIrreflexive(r[0]);
      forall z ensures z in r[1..] <==> z in t[1..] {
        if z in r[1..] {
          var k :| 1 <= k < |r| && r[k] == z;
          assert Less(r[0], z);
          assert z in t;
        }
        if z in t[1..] {
          var k :| 1 <= k < |t| && t[k] == z;
          assert Less(t[0], z);
          assert z in r;
        }
      }
      SortedUnique(r[1..], t[1..]);
      assert r == [r[0]] + r[1..] && t == [t[0]] + t[1..];
    }
  }

  /** Normalising again after adding items gives the normal form of everything
      added so far: normalising is idempotent and order-insensitive. */
  lemma SortedSetAppend(a: seq<string>, b: seq<string>)
    ensures SortedSet(SortedSet(a) + b) == SortedSet(a + b)
  {
    SortedUnique(SortedSet(SortedSet(a) + b), SortedSet(a + b));
  }
}
