/** `list.find(x => x.id === id)`: the first entity with a given id. */
module Lookup {
  import opened Wrappers

  /** Index of the first element whose key is `id`, if there is one. */
  function IndexOfId<T>(xs: seq<T>, id: int, key: T -> int): (r: Option<nat>)
    ensures r.Some? ==> r.value < |xs| && key(xs[r.value]) == id
    ensures r.Some? ==> forall j :: 0 <= j < r.value ==> key(xs[j]) != id
    ensures r.None? ==> forall j :: 0 <= j < |xs| ==> key(xs[j]) != id
  {
    if xs == [] then None
    else if key(xs[0]) == id then Some(0)
    else match IndexOfId(xs[1..], id, key)
      case None => None
      case Some(k) => Some(k + 1)
  }

  /**
   * The name of the first element with key `id`, or `fallback` when there
   * is none (`found ? found.name : fallback`).
   */
  function NameOr<T>(xs: seq<T>, id: int, key: T -> int, name: T -> string, fallback: string): (r: string)
    ensures (forall j :: 0 <= j < |xs| ==> key(xs[j]) != id) ==> r == fallback
    ensures forall i :: 0 <= i < |xs| && key(xs[i]) == id && (forall j :: 0 <= j < i ==> key(xs[j]) != id) ==> r == name(xs[i])
  {
    match IndexOfId(xs, id, key)
    case None => fallback
    case Some(k) =>
      assert forall i :: 0 <= i < |xs| && key(xs[i]) == id && (forall j :: 0 <= j < i ==> key(xs[j]) != id) ==> i == k by {
        forall i | 0 <= i < |xs| && key(xs[i]) == id && (forall j :: 0 <= j < i ==> key(xs[j]) != id)
          ensures i == k
        {
          assert !(i < k) && !(k < i);
        }
      }
      name(xs[k])
  }
}
