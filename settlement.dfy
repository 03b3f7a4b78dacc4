/** Terminal payoff attribution: the pot is added to the last immediate payoff
    of the player who won it, by fold or by showdown, or split on a draw. */
module Settlement {
  import opened Sums
  import opened Betting

  /** The table after settlement. `indexError` is set when `[-1]` was taken of an
      empty payoff list; `table` is then the state at the moment the error was raised. */
  datatype Settled<K> = Settled(table: Table<K>, indexError: bool)

  /** `intermediate_payoffs_1[-1] += d`. */
  function CreditOne<K>(t: Table<K>, d: real): Settled<K>
  {
    if t.one.payoffs == [] then Settled(t, true)
    else Settled(t.(one := t.one.(payoffs := AddToLast(t.one.payoffs, d))), false)
  }

  /** `intermediate_payoffs_2[-1] += d`. */
  function CreditTwo<K>(t: Table<K>, d: real): Settled<K>
  {
    if t.two.payoffs == [] then Settled(t, true)
    else Settled(t.(two := t.two.(payoffs := AddToLast(t.two.payoffs, d))), false)
  }

  /** The settlement chain, in the order the training loop tests them: player 1 folded, player 2
      folded, then the showdown result 1, -1 or 0; any other result leaves
      everything as it is. */
  function Settle<K>(t: Table<K>, winner: int): Settled<K>
  {
    if t.one.folded then CreditTwo(t, t.pot)
    else if t.two.folded then CreditOne(t, t.pot)
    else if winner == 1 then CreditOne(t, t.pot)
    else if winner == -1 then CreditTwo(t, t.pot)
    else if winner == 0 then
      var first := CreditOne(t, t.pot / 2.0);
      if first.indexError then first else CreditTwo(first.table, t.pot / 2.0)
    else Settled(t, false)
  }

  /** `after` is `before` with only its last entry raised by d. */
  predicate CreditedLast(before: seq<real>, after: seq<real>, d: real)
  {
    |after| == |before| > 0 && after[|before| - 1] == before[|before| - 1] + d &&
    forall i :: 0 <= i < |before| - 1 ==> after[i] == before[i]
  }

  /** Which entry receives the pot, and when settlement fails: exactly when the
      receiving list is empty. Nothing else on the table changes. */
  lemma SettleTargets<K>(t: Table<K>, winner: int)
    ensures var s := Settle(t, winner);
      var u := s.table;
      u.pot == t.pot && u.raised == t.raised && u.turn == t.turn &&
      u.one.visited == t.one.visited && u.two.visited == t.two.visited &&
      u.one.folded == t.one.folded && u.two.folded == t.two.folded &&
      (t.one.folded ==> ((s.indexError <==> t.two.payoffs == []) &&
                         (!s.indexError ==> u.one == t.one && CreditedLast(t.two.payoffs, u.two.payoffs, t.pot)))) &&
      (!t.one.folded && t.two.folded ==>
         ((s.indexError <==> t.one.payoffs == []) &&
          (!s.indexError ==> u.two == t.two && CreditedLast(t.one.payoffs, u.one.payoffs, t.pot)))) &&
      (!t.one.folded && !t.two.folded && winner == 1 ==>
         ((s.indexError <==> t.one.payoffs == []) &&
          (!s.indexError ==> u.two == t.two && CreditedLast(t.one.payoffs, u.one.payoffs, t.pot)))) &&
      (!t.one.folded && !t.two.folded && winner == -1 ==>
         ((s.indexError <==> t.two.payoffs == []) &&
          (!s.indexError ==> u.one == t.one && CreditedLast(t.two.payoffs, u.two.payoffs, t.pot)))) &&
      (!t.one.folded && !t.two.folded && winner == 0 ==>
         ((s.indexError <==> t.one.payoffs == [] || t.two.payoffs == []) &&
          (!s.indexError ==> CreditedLast(t.one.payoffs, u.one.payoffs, t.pot / 2.0) &&
                             CreditedLast(t.two.payoffs, u.two.payoffs, t.pot / 2.0)))) &&
      (!t.one.folded && !t.two.folded && winner != 1 && winner != -1 && winner != 0 ==>
         (!s.indexError && u == t))
  {
  }

  /** Zero-sum: once the pot has been handed out, both players' payoffs together
      sum to nothing. This holds after a fold, and after a showdown whose result
      is 1, -1 or 0. */
  lemma SettleZeroSum<K>(t: Table<K>, winner: int)
    requires Conserved(t)
    requires t.one.folded || t.two.folded || winner == 1 || winner == -1 || winner == 0
    requires !Settle(t, winner).indexError
    ensures var u := Settle(t, winner).table;
      Sum(u.one.payoffs) + Sum(u.two.payoffs) == 0.0
  {
  }

  /** A showdown result outside {1, -1, 0} drops the pot: the payoffs then sum to
      minus the pot. */
  lemma SettleUnknownResult<K>(t: Table<K>, winner: int)
    requires Conserved(t) && !t.one.folded && !t.two.folded
    requires winner != 1 && winner != -1 && winner != 0
    ensures var u := Settle(t, winner).table;
      Sum(u.one.payoffs) + Sum(u.two.payoffs) == -t.pot
  {
  }

  /** Settlement never changes how many payoffs each player has. */
  lemma SettleKeepsLengths<K>(t: Table<K>, winner: int)
    ensures var u := Settle(t, winner).table;
      |u.one.payoffs| == |t.one.payoffs| && |u.two.payoffs| == |t.two.payoffs| &&
      u.one.visited == t.one.visited && u.two.visited == t.two.visited
  {
  }
}
