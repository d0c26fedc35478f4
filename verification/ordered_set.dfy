/**
 * The insertion-ordered set of the JavaScript runtime (`Set` read back with
 * `Array.from`), as a sequence without repetitions.
 */
module OrderedSet {

  /** No element occurs twice. */
  predicate NoDuplicates<T(==,!new)>(s: seq<T>) {
    forall i, j :: 0 <= i < j < |s| ==> s[i] != s[j]
  }

  /** `set.add(x)`: appends `x` unless it is already present. */
  function Add<T(==,!new)>(s: seq<T>, x: T): (r: seq<T>)
    ensures s <= r
    ensures forall y :: y in r <==> y in s || y == x
    ensures NoDuplicates(s) ==> NoDuplicates(r)
    ensures x in s <==> r == s
  {
    if x in s then s else s + [x]
  }

  /** `Array.from(new Set(xs))`: the elements of `xs` in order of first occurrence. */
  function Dedup<T(==,!new)>(xs: seq<T>): seq<T> {
    if xs == [] then [] else Add(Dedup(xs[..|xs| - 1]), xs[|xs| - 1])
  }

  /** Index of the first occurrence of `x` in `xs`. */
  function FirstIndex<T(==,!new)>(xs: seq<T>, x: T): (k: nat)
    requires x in xs
    ensures k < |xs| && xs[k] == x
    ensures forall j :: 0 <= j < k ==> xs[j] != x
  {
    var init := xs[..|xs| - 1];
    if x in init then FirstIndex(init, x) else |xs| - 1
  }

  /** Deduplication keeps exactly the elements of its input, each once. */
  lemma {:induction false} DedupIsSet<T(!new)>(xs: seq<T>)
    ensures NoDuplicates(Dedup(xs))
    ensures forall y :: y in Dedup(xs) <==> y in xs
  {
    if xs != [] {
      var init := xs[..|xs| - 1];
      DedupIsSet(init);
      assert xs == init + [xs[|xs| - 1]];
    }
  }

  /** Deduplication lists the elements in the order of their first occurrence. */
  lemma {:induction false} DedupFirstOccurrenceOrder<T(!new)>(xs: seq<T>)
    ensures forall y :: y in Dedup(xs) ==> y in xs
    ensures forall a, b :: 0 <= a < b < |Dedup(xs)| ==>
      FirstIndex(xs, Dedup(xs)[a]) < FirstIndex(xs, Dedup(xs)[b])
  {
    DedupIsSet(xs);
    if xs != [] {
      var init, x := xs[..|xs| - 1], xs[|xs| - 1];
      DedupFirstOccurrenceOrder(init);
      DedupIsSet(init);
      var d, r := Dedup(init), Dedup(xs);
      assert xs[..|xs| - 1] == init;
      forall a, b | 0 <= a < b < |r|
        ensures FirstIndex(xs, r[a]) < FirstIndex(xs, r[b])
      {
        assert r[a] in init;
        assert FirstIndex(xs, r[a]) == FirstIndex(init, r[a]);
        if b < |d| {
          assert r[b] == d[b] && r[a] == d[a];
          assert FirstIndex(xs, r[b]) == FirstIndex(init, r[b]);
        } else {
          assert r[b] == x && x !in init;
          assert FirstIndex(xs, r[b]) == |xs| - 1;
        }
      }
    }
  }
}
