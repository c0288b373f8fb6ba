/** Helpers shared by the models. */
module Options {

  datatype Option<+T> = None | Some(value: T)

  /** `a` with element `i` set, when there is one. */
  function Put<A>(a: seq<A>, i: nat, x: A): seq<A> {
    if i < |a| then a[i := x] else a
  }
}
