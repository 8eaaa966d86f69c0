/** The three mutations the store applies to each of its collections, written once
    over any record type whose identifier is read by `idOf`:
    append (`[...prev, rec]`), update (`prev.map(x => x.id === id ? merge(x) : x)`)
    and remove (`prev.filter(x => x.id !== id)`). */
module Collection {
  import opened Seqs

  /** No record of `xs` carries `id`. */
  predicate FreshId<R>(xs: seq<R>, idOf: R -> string, id: string) {
    forall k :: 0 <= k < |xs| ==> idOf(xs[k]) != id
  }

  /** Identifiers are pairwise distinct within `xs`. */
  predicate UniqueIds<R>(xs: seq<R>, idOf: R -> string) {
    forall i, j :: 0 <= i < j < |xs| ==> idOf(xs[i]) != idOf(xs[j])
  }

  /** `[...prev, rec]`. */
  function Append<R>(xs: seq<R>, rec: R): (r: seq<R>)
    ensures |r| == |xs| + 1
    ensures r[..|xs|] == xs && r[|xs|] == rec
  {
    xs + [rec]
  }

  /** `prev.map(x => idOf(x) === id ? merge(x) : x)`. */
  function UpdateById<R>(xs: seq<R>, idOf: R -> string, id: string, merge: R -> R): (r: seq<R>)
    ensures |r| == |xs|
    ensures forall i :: 0 <= i < |xs| && idOf(xs[i]) == id ==> r[i] == merge(xs[i])
    ensures forall i :: 0 <= i < |xs| && idOf(xs[i]) != id ==> r[i] == xs[i]
  {
    if xs == [] then []
    else
      var head := if idOf(xs[0]) == id then merge(xs[0]) else xs[0];
      [head] + UpdateById(xs[1..], idOf, id, merge)
  }

  /** `prev.filter(x => idOf(x) !== id)`. */
  function RemoveById<R(==)>(xs: seq<R>, idOf: R -> string, id: string): (r: seq<R>)
  {
    Filter(xs, (x: R) => idOf(x) != id)
  }

  /** Removal keeps exactly the records whose identifier differs, in order. */
  lemma RemoveKeepsOthers<R>(xs: seq<R>, idOf: R -> string, id: string)
    ensures FreshId(RemoveById(xs, idOf, id), idOf, id)
    ensures forall i :: 0 <= i < |xs| && idOf(xs[i]) != id ==> xs[i] in RemoveById(xs, idOf, id)
    ensures IsSubseq(RemoveById(xs, idOf, id), xs)
  {
    FilterIsSubseq(xs, (x: R) => idOf(x) != id);
  }

  /** Removal keeps every occurrence of a record with another identifier. */
  lemma RemoveCounts<R>(xs: seq<R>, idOf: R -> string, id: string)
    ensures forall x :: multiset(RemoveById(xs, idOf, id))[x] == if idOf(x) != id then multiset(xs)[x] else 0
  {
    FilterCounts(xs, (x: R) => idOf(x) != id);
  }

  /** Removing an identifier nobody carries changes nothing. */
  lemma RemoveAbsent<R>(xs: seq<R>, idOf: R -> string, id: string)
    requires FreshId(xs, idOf, id)
    ensures RemoveById(xs, idOf, id) == xs
  {
    FilterKeepsAll(xs, (x: R) => idOf(x) != id);
  }

  /** Removing twice is removing once. */
  lemma RemoveIdempotent<R>(xs: seq<R>, idOf: R -> string, id: string)
    ensures RemoveById(RemoveById(xs, idOf, id), idOf, id) == RemoveById(xs, idOf, id)
  {
    RemoveAbsent(RemoveById(xs, idOf, id), idOf, id);
  }

  /** Updating an identifier nobody carries changes nothing. */
  lemma UpdateAbsent<R>(xs: seq<R>, idOf: R -> string, id: string, merge: R -> R)
    requires FreshId(xs, idOf, id)
    ensures UpdateById(xs, idOf, id, merge) == xs
  {
  }

  /** An update that keeps identifiers keeps them unique. */
  lemma UpdateKeepsUnique<R>(xs: seq<R>, idOf: R -> string, id: string, merge: R -> R)
    requires UniqueIds(xs, idOf)
    requires forall x :: idOf(merge(x)) == idOf(x)
    ensures UniqueIds(UpdateById(xs, idOf, id, merge), idOf)
  {
  }

  /** Appending a record with a fresh identifier keeps identifiers unique. */
  lemma AppendKeepsUnique<R>(xs: seq<R>, idOf: R -> string, rec: R)
    requires UniqueIds(xs, idOf)
    requires FreshId(xs, idOf, idOf(rec))
    ensures UniqueIds(Append(xs, rec), idOf)
  {
  }

  /** Removal keeps identifiers unique. */
  lemma {:induction false} RemoveKeepsUnique<R>(xs: seq<R>, idOf: R -> string, id: string)
    requires UniqueIds(xs, idOf)
    ensures UniqueIds(RemoveById(xs, idOf, id), idOf)
  {
    FilterKeepsUnique(xs, idOf, (x: R) => idOf(x) != id);
  }

  /** Any filter of a collection with unique identifiers has unique identifiers. */
  lemma {:induction false} FilterKeepsUnique<R>(xs: seq<R>, idOf: R -> string, keep: R -> bool)
    requires UniqueIds(xs, idOf)
    ensures UniqueIds(Filter(xs, keep), idOf)
  {
    if xs != [] {
      var tail := xs[1..];
      assert UniqueIds(tail, idOf) by {
        forall i, j | 0 <= i < j < |tail| ensures idOf(tail[i]) != idOf(tail[j]) {
          assert tail[i] == xs[i + 1] && tail[j] == xs[j + 1];
        }
      }
      FilterKeepsUnique(tail, idOf, keep);
      if keep(xs[0]) {
        var rest := Filter(tail, keep);
        forall k | 0 <= k < |rest| ensures idOf(rest[k]) != idOf(xs[0]) {
          var m :| 0 <= m < |tail| && tail[m] == rest[k];
          assert xs[m + 1] == rest[k];
        }
        var r := [xs[0]] + rest;
        forall i, j | 0 <= i < j < |r| ensures idOf(r[i]) != idOf(r[j]) {
          if i == 0 {
            assert r[j] == rest[j - 1];
          } else {
            assert r[i] == rest[i - 1] && r[j] == rest[j - 1];
          }
        }
      }
    }
  }

  /** Appending a record with a fresh identifier and then removing that identifier
      restores the collection. */
  lemma RemoveUndoesAppend<R>(xs: seq<R>, idOf: R -> string, rec: R)
    requires FreshId(xs, idOf, idOf(rec))
    ensures RemoveById(Append(xs, rec), idOf, idOf(rec)) == xs
  {
    var keep := (x: R) => idOf(x) != idOf(rec);
    FilterConcat(xs, [rec], keep);
    RemoveAbsent(xs, idOf, idOf(rec));
  }

  /** After a removal, an update of the removed identifier changes nothing. */
  lemma UpdateAfterRemove<R>(xs: seq<R>, idOf: R -> string, id: string, merge: R -> R)
    ensures UpdateById(RemoveById(xs, idOf, id), idOf, id, merge) == RemoveById(xs, idOf, id)
  {
    RemoveKeepsOthers(xs, idOf, id);
    UpdateAbsent(RemoveById(xs, idOf, id), idOf, id, merge);
  }

  /** Removing an identifier erases any earlier update of it, when the update keeps
      identifiers. */
  lemma {:induction false} RemoveAfterUpdate<R>(xs: seq<R>, idOf: R -> string, id: string, merge: R -> R)
    requires forall x :: idOf(merge(x)) == idOf(x)
    ensures RemoveById(UpdateById(xs, idOf, id, merge), idOf, id) == RemoveById(xs, idOf, id)
  {
    if xs != [] {
      var u := UpdateById(xs, idOf, id, merge);
      assert u[1..] == UpdateById(xs[1..], idOf, id, merge);
      RemoveAfterUpdate(xs[1..], idOf, id, merge);
    }
  }
}
