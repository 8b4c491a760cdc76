/**
 * The list edits the Redux slices of plots and productions perform on their
 * `state.<list>` arrays, for any record with a string id: replace the first
 * entry with a given id in place (`findIndex` then index assignment), and
 * drop every entry with an id (`filter`). Also the `message || default`
 * choice of the rejected cases.
 */
module SliceLists {

  import opened Wrappers
  import Seqs

  /** No two entries share an id. */
  predicate UniqueIds<T>(xs: seq<T>, idOf: T -> string)
  {
    forall i, j :: 0 <= i < j < |xs| ==> idOf(xs[i]) != idOf(xs[j])
  }

  /** Some entry has the id. */
  predicate HasId<T>(xs: seq<T>, idOf: T -> string, id: string)
  {
    exists i :: 0 <= i < |xs| && idOf(xs[i]) == id
  }

  function IdIs<T>(idOf: T -> string, id: string): T -> bool
  {
    (x: T) => idOf(x) == id
  }

  function IdIsNot<T>(idOf: T -> string, id: string): T -> bool
  {
    (x: T) => idOf(x) != id
  }

  /**
   * `const index = list.findIndex(x => x.id === item.id); if (index !== -1)
   * list[index] = item`: the first entry with the item's id becomes the item;
   * every other entry stays where it was.
   */
  function ReplaceById<T>(xs: seq<T>, item: T, idOf: T -> string): (r: seq<T>)
    ensures |r| == |xs|
    ensures forall i :: 0 <= i < |xs| ==> idOf(r[i]) == idOf(xs[i])
    ensures forall i :: 0 <= i < |xs| ==>
      r[i] == xs[i]
      || (r[i] == item && idOf(xs[i]) == idOf(item) && forall j :: 0 <= j < i ==> idOf(xs[j]) != idOf(item))
    ensures !HasId(xs, idOf, idOf(item)) ==> r == xs
    ensures HasId(xs, idOf, idOf(item)) ==> item in r
  {
    match Seqs.FirstIndex(xs, IdIs(idOf, idOf(item)))
    case None => xs
    case Some(k) => xs[k := item]
  }

  /** `list.filter(x => x.id !== id)`: every entry with the id goes, the rest stay in order. */
  function RemoveById<T>(xs: seq<T>, id: string, idOf: T -> string): (r: seq<T>)
    ensures |r| <= |xs|
    ensures forall i :: 0 <= i < |r| ==> idOf(r[i]) != id && r[i] in xs
    ensures forall i :: 0 <= i < |xs| && idOf(xs[i]) != id ==> xs[i] in r
    ensures !HasId(xs, idOf, id) ==> r == xs
  {
    if !HasId(xs, idOf, id) then
      KeepAll(xs, id, idOf);
      Seqs.Filter(xs, IdIsNot(idOf, id))
    else
      Seqs.Filter(xs, IdIsNot(idOf, id))
  }

  lemma KeepAll<T>(xs: seq<T>, id: string, idOf: T -> string)
    requires !HasId(xs, idOf, id)
    ensures Seqs.Filter(xs, IdIsNot(idOf, id)) == xs
  {
    Seqs.FilterAll(xs, IdIsNot(idOf, id));
  }

  /** Removing keeps relative order: removing from a concatenation removes from each part. */
  lemma RemoveByIdAppend<T>(a: seq<T>, b: seq<T>, id: string, idOf: T -> string)
    ensures RemoveById(a + b, id, idOf) == RemoveById(a, id, idOf) + RemoveById(b, id, idOf)
  {
    Seqs.FilterAppend(a, b, IdIsNot(idOf, id));
  }

  /** Exactly the entries with the id are removed: what goes and what stays account for the whole list. */
  lemma RemoveByIdCount<T>(xs: seq<T>, id: string, idOf: T -> string)
    ensures |RemoveById(xs, id, idOf)| + |Seqs.Filter(xs, IdIs(idOf, id))| == |xs|
  {
    Seqs.FilterPartition(xs, IdIs(idOf, id));
    Seqs.FilterEquivalent(xs, Seqs.Not(IdIs(idOf, id)), IdIsNot(idOf, id));
  }

  /** Replacing an entry and then removing its id is the same as removing the id. */
  lemma RemoveAfterReplace<T>(xs: seq<T>, item: T, idOf: T -> string)
    ensures RemoveById(ReplaceById(xs, item, idOf), idOf(item), idOf) == RemoveById(xs, idOf(item), idOf)
  {
    match Seqs.FirstIndex(xs, IdIs(idOf, idOf(item)))
    case None =>
    case Some(k) =>
      Seqs.FilterUpdateRejected(xs, k, item, IdIsNot(idOf, idOf(item)));
  }

  /** Deleting the id of a pushed record whose id was new gives back the list before the push. */
  lemma DeleteUndoesPush<T>(xs: seq<T>, item: T, idOf: T -> string)
    requires !HasId(xs, idOf, idOf(item))
    ensures RemoveById(xs + [item], idOf(item), idOf) == xs
  {
    RemoveByIdAppend(xs, [item], idOf(item), idOf);
    assert RemoveById([item], idOf(item), idOf) == [];
  }

  /** Deleting the id of a record put at the front (`unshift`) whose id was new gives back the list before. */
  lemma DeleteUndoesUnshift<T>(xs: seq<T>, item: T, idOf: T -> string)
    requires !HasId(xs, idOf, idOf(item))
    ensures RemoveById([item] + xs, idOf(item), idOf) == xs
  {
    RemoveByIdAppend([item], xs, idOf(item), idOf);
    assert RemoveById([item], idOf(item), idOf) == [];
  }

  /** Replacing by id keeps ids unique; it changes no id. */
  lemma ReplaceKeepsUniqueIds<T>(xs: seq<T>, item: T, idOf: T -> string)
    requires UniqueIds(xs, idOf)
    ensures UniqueIds(ReplaceById(xs, item, idOf), idOf)
  {
    var r := ReplaceById(xs, item, idOf);
    forall i, j | 0 <= i < j < |r| ensures idOf(r[i]) != idOf(r[j]) {
      assert idOf(r[i]) == idOf(xs[i]) && idOf(r[j]) == idOf(xs[j]);
    }
  }

  /** Removing entries keeps ids unique. */
  lemma {:induction false} RemoveKeepsUniqueIds<T>(xs: seq<T>, id: string, idOf: T -> string)
    requires UniqueIds(xs, idOf)
    ensures UniqueIds(RemoveById(xs, id, idOf), idOf)
  {
    if |xs| > 0 {
      var rest := Seqs.Filter(xs[1..], IdIsNot(idOf, id));
      RemoveKeepsUniqueIds(xs[1..], id, idOf);
      assert UniqueIds(rest, idOf);
      if idOf(xs[0]) != id {
        forall j | 0 <= j < |rest| ensures idOf(xs[0]) != idOf(rest[j]) {
          HeadIdNotLater(xs, rest[j], idOf);
        }
        assert Seqs.Filter(xs, IdIsNot(idOf, id)) == [xs[0]] + rest;
      }
    }
  }

  lemma HeadIdNotLater<T>(xs: seq<T>, x: T, idOf: T -> string)
    requires |xs| > 0 && UniqueIds(xs, idOf) && x in xs[1..]
    ensures idOf(xs[0]) != idOf(x)
  {
    var b :| 0 <= b < |xs[1..]| && xs[1..][b] == x;
    assert xs[b + 1] == x;
  }

  /**
   * `if (selected?.id === item.id) selected = item`: the selection follows an
   * updated record exactly when it shows that record's id.
   */
  function SyncSelected<T>(selected: Option<T>, item: T, idOf: T -> string): (r: Option<T>)
    ensures r.Some? <==> selected.Some?
    ensures r == Some(item) <==> selected.Some? && idOf(selected.value) == idOf(item)
    ensures r != Some(item) ==> r == selected
  {
    if selected.Some? && idOf(selected.value) == idOf(item) then Some(item) else selected
  }

  /** `if (selected?.id === id) selected = null`: a deleted record is no longer selected. */
  function DropSelected<T>(selected: Option<T>, id: string, idOf: T -> string): (r: Option<T>)
    ensures r.None? <==> selected.None? || idOf(selected.value) == id
    ensures r.Some? ==> r == selected
  {
    if selected.Some? && idOf(selected.value) == id then None else selected
  }

  /** `message || fallback`: the rejection's message, unless it is missing or empty. */
  function ErrorText(message: Option<string>, fallback: string): (e: string)
    ensures message.Some? && message.value != "" ==> e == message.value
    ensures message.None? || message.value == "" ==> e == fallback
    ensures fallback != "" ==> e != ""
  {
    if message.Some? && message.value != "" then message.value else fallback
  }
}
