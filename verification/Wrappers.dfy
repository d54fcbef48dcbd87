/** Result types shared by the other modules. */
module Wrappers {

  datatype Option<+T> = None | Some(value: T)

  /** How a piece of asynchronous code ends: with a value, with an exception, or not yet
      (`Cut`: the observation stops while the code is still suspended at an `await`). */
  datatype Outcome<+T> = Done(value: T) | Threw(error: string) | Cut {

    predicate IsFailure() {
      !Done?
    }

    function PropagateFailure<U>(): Outcome<U>
      requires !Done?
    {
      match this
      case Threw(e) => Threw(e)
      case Cut => Cut
    }

    function Extract(): T
      requires Done?
    {
      value
    }
  }

  /** Seals a definition: a fact stated as `forall k: nat {:trigger Key(k)} :: Key(k) ==> P`
      reaches a proof only where a `Key` is mentioned, which keeps the recursive functions
      inside `P` out of proofs about state changes. */
  predicate Key(k: nat) {
    true
  }

  /** The same with numbered seals, where a proof handles several sealed facts and opens only
      some of them. */
  predicate Seal(number: nat, k: nat) {
    true
  }

  function AsSeq<T>(o: Option<T>): seq<T> {
    if o.Some? then [o.value] else []
  }

  predicate Distinct<T(==)>(s: seq<T>) {
    forall i, j | 0 <= i < j < |s| :: s[i] != s[j]
  }

  lemma Associate<T>(a: seq<T>, b: seq<T>, c: seq<T>)
    ensures a + (b + c) == a + b + c
  {
  }

  lemma AssociateFour<T>(a: seq<T>, b: seq<T>, c: seq<T>, d: seq<T>)
    ensures a + (b + c + d) == a + b + c + d
    ensures a + (b + (c + d)) == a + b + c + d
  {
  }
}
