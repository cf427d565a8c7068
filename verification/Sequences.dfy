/** Regrouping of sequences under construction, shared by the models of loops that append. */
module Sequences {

  /** What comes next moves from the part to come to the part that is done. */
  lemma Regroup<T>(done: seq<T>, next: seq<T>, rest: seq<T>)
    ensures done + (next + rest) == done + next + rest
    ensures next == [] ==> next + rest == rest
    ensures rest == [] ==> next + rest == next
    ensures next == [] && rest == [] ==> done + rest == done
  {
  }
}
