/** The bookkeeping of one betting round of the self-play training loop, as a
    pure state machine: what each drawn action does to the pot, the raise flag,
    the fold flags, the turn and the two players' visited/payoff lists. */
module Betting {
  import opened Sums

  /** The action symbols the loop tests for ('B', 'C', 'F', 'Ch'), and any other
      value the policy might return (the loop's error branch). */
  datatype Action = Bet | Call | Fold | Check | Unrecognised

  /** One entry of a visited-action-states list: the key the game state reported
      before the action, and the action taken there. A move of the episode is the
      same pair, as the policy and the game state supply it. */
  datatype Visit<K> = Visit(key: K, action: Action)

  /** One player's record of the episode. */
  datatype Hand<K> = Hand(visited: seq<Visit<K>>, payoffs: seq<real>, folded: bool)

  /** The loop's variables. `turn` is 0 when player 1 acts, anything else when player 2 acts. */
  datatype Table<K> = Table(pot: real, raised: bool, turn: int, one: Hand<K>, two: Hand<K>)

  /** The state at the start of an episode; the starting turn is carried over from the previous episode. */
  function Start<K>(turn: int): Table<K>
  {
    Table(0.0, false, turn, Hand([], [], false), Hand([], [], false))
  }

  /** The chips the acting player puts into the pot: a bet costs 1 until the
      first bet has been made and 2 (a raise) afterwards, a call costs 1,
      anything else is free. */
  function Cost(a: Action, raised: bool): (c: real)
    ensures c == 0.0 || c == 1.0 || c == 2.0
    ensures c == 2.0 <==> a == Bet && raised
    ensures c == 0.0 <==> a != Bet && a != Call
  {
    match a
    case Bet => if raised then 2.0 else 1.0
    case Call => 1.0
    case _ => 0.0
  }

  /** The acting player's record after the action: the visit is always appended;
      an action the loop recognises also appends its immediate payoff, the negated
      cost; a fold raises the fold flag. */
  function Record<K>(h: Hand<K>, v: Visit<K>, raised: bool): Hand<K>
  {
    if v.action == Unrecognised then h.(visited := h.visited + [v])
    else Hand(h.visited + [v], h.payoffs + [-Cost(v.action, raised)], h.folded || v.action == Fold)
  }

  /** One pass of the betting loop's body. Only a fold leaves the turn where it is. */
  function Step<K>(t: Table<K>, v: Visit<K>): Table<K>
  {
    var acted := t.(pot := t.pot + Cost(v.action, t.raised),
                    raised := t.raised || v.action == Bet,
                    one := if t.turn == 0 then Record(t.one, v, t.raised) else t.one,
                    two := if t.turn == 0 then t.two else Record(t.two, v, t.raised));
    if v.action == Fold then acted else acted.(turn := (t.turn + 1) % 2)
  }

  /** The betting loop: moves are applied in order until a fold breaks out of the
      loop or the game state offers no further action (the moves run out). */
  function Run<K>(t: Table<K>, moves: seq<Visit<K>>): Table<K>
    decreases |moves|
  {
    if moves == [] then t
    else if moves[0].action == Fold then Step(t, moves[0])
    else Run(Step(t, moves[0]), moves[1..])
  }

  /** The moves the loop actually consumes: everything up to and including the first fold. */
  function Applied<K>(moves: seq<Visit<K>>): (r: seq<Visit<K>>)
    ensures |r| <= |moves| && r == moves[..|r|]
    ensures forall k :: 0 <= k < |r| - 1 ==> r[k].action != Fold
    ensures |r| < |moves| ==> r != [] && r[|r| - 1].action == Fold
    decreases |moves|
  {
    if moves == [] then []
    else if moves[0].action == Fold then [moves[0]]
    else [moves[0]] + Applied(moves[1..])
  }

  /** Everything in the pot was paid out of the players' immediate payoffs. */
  predicate Conserved<K>(t: Table<K>)
  {
    t.pot == -(Sum(t.one.payoffs) + Sum(t.two.payoffs))
  }

  /** No payoff list is longer than its visited list. */
  predicate Bounded<K>(t: Table<K>)
  {
    |t.one.payoffs| <= |t.one.visited| && |t.two.payoffs| <= |t.two.visited|
  }

  /** Every visited entry of both players has its immediate payoff. */
  predicate Aligned<K>(t: Table<K>)
  {
    |t.one.payoffs| == |t.one.visited| && |t.two.payoffs| == |t.two.visited|
  }

  /** The invariant of the betting loop. */
  predicate WellFormed<K>(t: Table<K>)
  {
    0 <= t.turn <= 1 && t.pot >= 0.0 && Conserved(t) && Bounded(t)
  }

  lemma StartWellFormed<K>(turn: int)
    requires 0 <= turn <= 1
    ensures WellFormed(Start<K>(turn)) && Aligned(Start<K>(turn))
  {
  }

  /** One action moves its cost from the actor's payoffs into the pot: the pot
      never shrinks, conservation is kept, and nothing else changes. */
  lemma StepCharges<K>(t: Table<K>, v: Visit<K>)
    requires WellFormed(t)
    ensures var r := Step(t, v);
      WellFormed(r) && r.pot == t.pot + Cost(v.action, t.raised) && r.pot >= t.pot &&
      var paid := if v.action == Unrecognised then [] else [-Cost(v.action, t.raised)];
      (t.turn == 0 ==> (r.two == t.two && r.one.visited == t.one.visited + [v] &&
                        r.one.payoffs == t.one.payoffs + paid)) &&
      (t.turn == 1 ==> (r.one == t.one && r.two.visited == t.two.visited + [v] &&
                        r.two.payoffs == t.two.payoffs + paid))
  {
    var c := Cost(v.action, t.raised);
    SumAppend(t.one.payoffs, -c);
    SumAppend(t.two.payoffs, -c);
  }

  /** The raise flag goes up at the first bet and never comes down; so the first
      bet of an episode costs 1 and every later one 2. */
  lemma StepRaiseFlag<K>(t: Table<K>, v: Visit<K>)
    ensures Step(t, v).raised <==> t.raised || v.action == Bet
    ensures v.action == Bet ==> Cost(v.action, t.raised) == (if t.raised then 2.0 else 1.0)
  {
  }

  /** A recognised action keeps both lists of the actor the same length; the
      error branch appends a visit without a payoff and breaks that. */
  lemma StepLengths<K>(t: Table<K>, v: Visit<K>)
    requires 0 <= t.turn <= 1
    ensures var r := Step(t, v);
      var before := if t.turn == 0 then t.one else t.two;
      var after := if t.turn == 0 then r.one else r.two;
      |after.visited| == |before.visited| + 1 &&
      |after.payoffs| == |before.payoffs| + (if v.action == Unrecognised then 0 else 1)
  {
  }

  /** After a non-fold the other player acts next; after a fold the turn stays
      with the folder, whose flag is raised, and the other flag is untouched. */
  lemma StepTurn<K>(t: Table<K>, v: Visit<K>)
    requires 0 <= t.turn <= 1
    ensures var r := Step(t, v);
      (v.action != Fold ==> r.turn == 1 - t.turn && r.one.folded == t.one.folded && r.two.folded == t.two.folded) &&
      (v.action == Fold ==> (r.turn == t.turn &&
                             (t.turn == 0 ==> r.one.folded && r.two.folded == t.two.folded) &&
                             (t.turn == 1 ==> r.two.folded && r.one.folded == t.one.folded)))
  {
  }

  /** The loop invariant holds through the whole betting loop, and the pot only grows. */
  lemma {:induction false} RunWellFormed<K>(t: Table<K>, moves: seq<Visit<K>>)
    requires WellFormed(t)
    ensures WellFormed(Run(t, moves)) && Run(t, moves).pot >= t.pot
    decreases |moves|
  {
    if moves != [] {
      StepCharges(t, moves[0]);
      if moves[0].action != Fold {
        RunWellFormed(Step(t, moves[0]), moves[1..]);
      }
    }
  }

  /** The loop consumes exactly the applied moves: nothing after the first fold matters. */
  lemma {:induction false} RunApplied<K>(t: Table<K>, moves: seq<Visit<K>>)
    ensures Run(t, moves) == Run(t, Applied(moves))
    decreases |moves|
  {
    if moves != [] && moves[0].action != Fold {
      RunApplied(Step(t, moves[0]), moves[1..]);
      var rest := Applied(moves[1..]);
      assert Applied(moves) == [moves[0]] + rest;
      assert ([moves[0]] + rest)[1..] == rest;
    }
  }

  /** Every visit comes with its payoff as long as the policy only returns
      recognised actions. */
  lemma {:induction false} RunAligned<K>(t: Table<K>, moves: seq<Visit<K>>)
    requires 0 <= t.turn <= 1 && Aligned(t)
    requires forall k :: 0 <= k < |moves| ==> moves[k].action != Unrecognised
    ensures Aligned(Run(t, moves))
    decreases |moves|
  {
    if moves != [] {
      StepLengths(t, moves[0]);
      if moves[0].action != Fold {
        var s := Step(t, moves[0]);
        assert 0 <= s.turn <= 1;
        forall k | 0 <= k < |moves[1..]| ensures moves[1..][k].action != Unrecognised {
          assert moves[1..][k] == moves[k + 1];
        }
        RunAligned(s, moves[1..]);
      }
    }
  }

  /** How far a player's visited list runs ahead of its payoff list never shrinks. */
  lemma {:induction false} RunGaps<K>(t: Table<K>, moves: seq<Visit<K>>)
    requires 0 <= t.turn <= 1
    ensures var r := Run(t, moves);
      |r.one.visited| - |r.one.payoffs| >= |t.one.visited| - |t.one.payoffs| &&
      |r.two.visited| - |r.two.payoffs| >= |t.two.visited| - |t.two.payoffs|
    decreases |moves|
  {
    if moves != [] {
      StepLengths(t, moves[0]);
      if moves[0].action != Fold {
        RunGaps(Step(t, moves[0]), moves[1..]);
      }
    }
  }

  /** An unrecognised action that the loop reaches (no fold before it) leaves
      one player with a visit that has no payoff. */
  lemma {:induction false} RunMisaligned<K>(t: Table<K>, moves: seq<Visit<K>>, k: nat)
    requires 0 <= t.turn <= 1 && Bounded(t)
    requires k < |moves| && moves[k].action == Unrecognised
    requires forall j :: 0 <= j < k ==> moves[j].action != Fold
    ensures var r := Run(t, moves);
      |r.one.payoffs| < |r.one.visited| || |r.two.payoffs| < |r.two.visited|
    decreases k
  {
    var s := Step(t, moves[0]);
    StepLengths(t, moves[0]);
    assert Run(t, moves) == Run(s, moves[1..]);
    if k == 0 {
      RunGaps(s, moves[1..]);
    } else {
      forall j | 0 <= j < k - 1 ensures moves[1..][j].action != Fold {
        assert moves[1..][j] == moves[j + 1];
      }
      RunMisaligned(s, moves[1..], k - 1);
    }
  }

  /** Without a fold every move is applied, the turn alternates once per move
      and no fold flag changes. */
  lemma {:induction false} RunWithoutFold<K>(t: Table<K>, moves: seq<Visit<K>>)
    requires 0 <= t.turn <= 1
    requires forall k :: 0 <= k < |moves| ==> moves[k].action != Fold
    ensures var r := Run(t, moves);
      r.turn == (t.turn + |moves|) % 2 && r.one.folded == t.one.folded && r.two.folded == t.two.folded &&
      |r.one.visited| + |r.two.visited| == |t.one.visited| + |t.two.visited| + |moves|
    decreases |moves|
  {
    if moves != [] {
      var s := Step(t, moves[0]);
      StepTurn(t, moves[0]);
      StepLengths(t, moves[0]);
      forall k | 0 <= k < |moves[1..]| ensures moves[1..][k].action != Fold {
        assert moves[1..][k] == moves[k + 1];
      }
      RunWithoutFold(s, moves[1..]);
      assert (s.turn + |moves| - 1) % 2 == (t.turn + |moves|) % 2;
    }
  }

  /** The first fold ends the loop: the moves after it are ignored, the turn is
      left with the folder, the folder's flag is the only one raised. */
  lemma {:induction false} RunStopsAtFold<K>(t: Table<K>, moves: seq<Visit<K>>, k: nat)
    requires 0 <= t.turn <= 1 && !t.one.folded && !t.two.folded
    requires k < |moves| && moves[k].action == Fold
    requires forall j :: 0 <= j < k ==> moves[j].action != Fold
    ensures var r := Run(t, moves);
      r == Run(t, moves[..k + 1]) && r.turn == (t.turn + k) % 2 &&
      (r.turn == 0 ==> r.one.folded && !r.two.folded) &&
      (r.turn == 1 ==> r.two.folded && !r.one.folded)
    decreases k
  {
    var s := Step(t, moves[0]);
    StepTurn(t, moves[0]);
    if k > 0 {
      forall j | 0 <= j < k - 1 ensures moves[1..][j].action != Fold {
        assert moves[1..][j] == moves[j + 1];
      }
      RunStopsAtFold(s, moves[1..], k - 1);
      assert moves[1..][..k] == moves[..k + 1][1..];
      assert (s.turn + k - 1) % 2 == (t.turn + k) % 2;
    }
  }

  /** A fold anywhere in the moves raises a fold flag: either the loop reaches it,
      or an earlier fold already broke out of the loop. */
  lemma {:induction false} RunFoldFlag<K>(t: Table<K>, moves: seq<Visit<K>>, k: nat)
    requires 0 <= t.turn <= 1
    requires k < |moves| && moves[k].action == Fold
    ensures Run(t, moves).one.folded || Run(t, moves).two.folded
    decreases k
  {
    if moves[0].action != Fold {
      var s := Step(t, moves[0]);
      assert moves[1..][k - 1] == moves[k];
      RunFoldFlag(s, moves[1..], k - 1);
    }
  }

  /** Some move in the list is a bet. */
  predicate HasBet<K>(moves: seq<Visit<K>>)
  {
    exists k :: 0 <= k < |moves| && moves[k].action == Bet
  }

  /** A list headed by one move holds a bet when that move is one or the rest holds one. */
  lemma HasBetCons<K>(v: Visit<K>, rest: seq<Visit<K>>)
    ensures HasBet([v] + rest) <==> v.action == Bet || HasBet(rest)
  {
    var a := [v] + rest;
    if HasBet(a) {
      var k :| 0 <= k < |a| && a[k].action == Bet;
      if k > 0 {
        assert rest[k - 1] == a[k];
      }
    }
    if v.action == Bet {
      assert a[0] == v;
    }
    if HasBet(rest) {
      var k :| 0 <= k < |rest| && rest[k].action == Bet;
      assert a[k + 1] == rest[k];
    }
  }

  /** Over the whole loop, the raise flag ends up set exactly when it was set at
      the start or the loop consumed a bet. From a fresh episode this makes the
      first bet cost 1 and every later bet cost 2. */
  lemma {:induction false} RunRaiseFlag<K>(t: Table<K>, moves: seq<Visit<K>>)
    ensures Run(t, moves).raised <==> t.raised || HasBet(Applied(moves))
    decreases |moves|
  {
    if moves != [] {
      var s := Step(t, moves[0]);
      assert s.raised <==> t.raised || moves[0].action == Bet;
      if moves[0].action == Fold {
        HasBetCons(moves[0], []);
        assert [moves[0]] + [] == Applied(moves);
      } else {
        var rest := Applied(moves[1..]);
        assert Applied(moves) == [moves[0]] + rest;
        assert Run(t, moves) == Run(s, moves[1..]);
        RunRaiseFlag(s, moves[1..]);
        HasBetCons(moves[0], rest);
      }
    }
  }
}
