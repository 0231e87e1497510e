/** Change events of an observable list, as a listener receives them.  An
    event holds one or more sub-changes; a listener that steps only to the
    first sub-change sees that one alone. */
module ListChanges {

  /** One sub-change: a reordering, an in-place update of elements, or a
      replacement of a range of elements (which covers pure additions and
      pure removals). */
  datatype SubChange<T> = Permutation | Update | Replace(removed: seq<T>, added: seq<T>)

  /** A change event; it is never empty, so it is its first sub-change
      followed by any others. */
  datatype ListChange<T> = ListChange(first: SubChange<T>, rest: seq<SubChange<T>>)

  predicate WasAdded<T>(c: SubChange<T>)
  {
    c.Replace? && c.added != []
  }

  /** What a listener that calls `next()` once and then inspects
      `wasAdded()`/`getAddedSubList()` gets to handle. */
  function AddedOfFirst<T>(change: ListChange<T>): (r: seq<T>)
    ensures r != [] ==> change.first.Replace? && r == change.first.added
    ensures change.first.Replace? ==> r == change.first.added
  {
    if WasAdded(change.first) then change.first.added else []
  }

  /** Sub-changes after the first are never seen by such a listener. */
  lemma LaterSubChangesIgnored<T>(change: ListChange<T>, others: seq<SubChange<T>>)
    ensures AddedOfFirst(change.(rest := others)) == AddedOfFirst(change)
  {
  }
}
