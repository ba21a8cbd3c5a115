/** `Array.prototype.find` keyed on an id, as both the upload form and the resolve dialog use it. */
module Lookup {
  import opened Wrappers

  /** `xs.find(x => key(x) === id)`: the first element with that id. */
  function FindById<T>(xs: seq<T>, key: T -> string, id: string): (r: Option<T>)
    ensures r.Some? ==> r.value in xs && key(r.value) == id
    ensures r.None? ==> forall x :: x in xs ==> key(x) != id
    ensures r.Some? ==> exists i :: 0 <= i < |xs| && xs[i] == r.value &&
                                    forall j :: 0 <= j < i ==> key(xs[j]) != id
  {
    if xs == [] then None
    else if key(xs[0]) == id then Some(xs[0])
    else
      var rest := FindById(xs[1..], key, id);
      if rest.Some? then
        ghost var i :| 0 <= i < |xs[1..]| && xs[1..][i] == rest.value &&
                       forall j :: 0 <= j < i ==> key(xs[1..][j]) != id;
        assert xs[i + 1] == rest.value;
        rest
      else rest
  }
}
