/** Lists of keyed groups in the order their keys first appear. */
module Grouping {
  datatype Group<T> = Group(key: string, members: seq<T>)

  /** The position of a key, or the length when it is absent. */
  function FindGroup<T>(groups: seq<Group<T>>, key: string): (i: nat)
    ensures i <= |groups|
    ensures i < |groups| ==> groups[i].key == key
    ensures i == |groups| ==> forall j :: 0 <= j < |groups| ==> groups[j].key != key
  {
    if groups == [] then 0
    else if groups[|groups| - 1].key == key then |groups| - 1
    else
      var i := FindGroup(groups[..|groups| - 1], key);
      if i < |groups| - 1 then i else |groups|
  }

  /** Joins the key's group, or opens it at the end. */
  function AddTo<T>(groups: seq<Group<T>>, key: string, x: T): seq<Group<T>> {
    var i := FindGroup(groups, key);
    if i < |groups| then groups[i := Group(key, groups[i].members + [x])] else groups + [Group(key, [x])]
  }
}
