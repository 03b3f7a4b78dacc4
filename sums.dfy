/** Exact sums over lists of immediate payoffs. Payoffs in the training loop are
    multiples of one half, so they are modelled as exact reals. */
module Sums {

  /** The sum of a list of payoffs, first element first. */
  function Sum(s: seq<real>): real
  {
    if s == [] then 0.0 else s[0] + Sum(s[1..])
  }

  /** Appending one payoff adds exactly that payoff to the sum. */
  lemma {:induction false} SumAppend(s: seq<real>, x: real)
    ensures Sum(s + [x]) == Sum(s) + x
  {
    if s != [] {
      assert (s + [x])[1..] == s[1..] + [x];
      SumAppend(s[1..], x);
    }
  }

  /** `s[-1] += d`: the list with its last payoff raised by d. Only the last
      entry changes, and the total rises by exactly d. */
  function AddToLast(s: seq<real>, d: real): (r: seq<real>)
    requires s != []
    ensures |r| == |s|
    ensures r[|s| - 1] == s[|s| - 1] + d
    ensures forall i :: 0 <= i < |s| - 1 ==> r[i] == s[i]
    ensures Sum(r) == Sum(s) + d
  {
    var init := s[..|s| - 1];
    assert init + [s[|s| - 1]] == s;
    SumAppend(init, s[|s| - 1]);
    SumAppend(init, s[|s| - 1] + d);
    assert init + [s[|s| - 1] + d] == s[|s| - 1 := s[|s| - 1] + d];
    s[|s| - 1 := s[|s| - 1] + d]
  }
}
