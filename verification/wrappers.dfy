/** Values shared by the component models. */
module Wrappers {

  datatype Option<+T> = None | Some(value: T)

  /** An answer from outside the model: nothing is known of it but its type. */
  method Oracle<T(0)>() returns (answer: T) {
    answer := *;
  }

  lemma {:induction false} Fewer<T>(a: set<T>, b: set<T>)
    requires a <= b
    ensures |a| <= |b|
  {
    if a != {} {
      var x :| x in a;
      Fewer(a - {x}, b - {x});
    }
  }
}
