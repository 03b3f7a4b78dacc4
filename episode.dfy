/** One episode of the self-play training loop: the betting loop's variables as
    an object that the loop updates in place, the settlement of the pot, and the
    two backward passes. */
module Training {
  import opened Sums
  import opened Betting
  import opened Settlement
  import opened Learning

  /** The per-episode variables of the training loop. */
  class Episode<K> {
    var pot: real
    var raised: bool
    var folded1: bool
    var folded2: bool
    var turn: int
    var visited1: seq<Visit<K>>
    var visited2: seq<Visit<K>>
    var payoffs1: seq<real>
    var payoffs2: seq<real>

    /** The variables as a value of the betting state machine. */
    function State(): Table<K>
      reads this
    {
      Table(pot, raised, turn, Hand(visited1, payoffs1, folded1), Hand(visited2, payoffs2, folded2))
    }

    /** The invariant the betting loop keeps. */
    predicate Valid()
      reads this
    {
      WellFormed(State())
    }

    /** A fresh episode: empty pot and lists, no flag raised; the turn is the one
        the previous episode ended with. */
    constructor (start: int)
      requires 0 <= start <= 1
      ensures State() == Start(start) && Valid() && Aligned(State())
    {
      pot, raised, folded1, folded2, turn := 0.0, false, false, false, start;
      visited1, visited2, payoffs1, payoffs2 := [], [], [], [];
    }

    /** The body of the betting loop for one drawn action; `broke` says the body
        left the loop (a fold) before handing the turn over. */
    method Step(v: Visit<K>) returns (broke: bool)
      requires Valid()
      modifies this
      ensures broke <==> v.action == Fold
      ensures State() == Betting.Step(old(State()), v)
      ensures Valid() && pot >= old(pot)
    {
      StepCharges(State(), v);
      var action := v.action;
      broke := false;
      if turn == 0 {
        visited1 := visited1 + [v];
        if action == Bet && raised {
          pot := pot + 2.0;
          payoffs1 := payoffs1 + [-2.0];
        } else if action == Bet && !raised {
          pot := pot + 1.0;
          payoffs1 := payoffs1 + [-1.0];
          raised := true;
        } else if action == Call {
          pot := pot + 1.0;
          payoffs1 := payoffs1 + [-1.0];
        } else if action == Fold {
          folded1 := true;
          payoffs1 := payoffs1 + [0.0];
          broke := true;
          return;
        } else if action == Check {
          payoffs1 := payoffs1 + [0.0];
        }
      } else {
        visited2 := visited2 + [v];
        if action == Bet && raised {
          pot := pot + 2.0;
          payoffs2 := payoffs2 + [-2.0];
        } else if action == Bet && !raised {
          pot := pot + 1.0;
          payoffs2 := payoffs2 + [-1.0];
          raised := true;
        } else if action == Call {
          pot := pot + 1.0;
          payoffs2 := payoffs2 + [-1.0];
        } else if action == Fold {
          folded2 := true;
          payoffs2 := payoffs2 + [0.0];
          broke := true;
          return;
        } else if action == Check {
          payoffs2 := payoffs2 + [0.0];
        }
      }
      turn := (turn + 1) % 2;
    }

    /** The betting loop, driven by the moves the policies draw, until a fold or
        until the game state offers no more actions. */
    method Play(moves: seq<Visit<K>>)
      requires Valid()
      modifies this
      ensures State() == Run(old(State()), moves)
      ensures Valid() && pot >= old(pot)
    {
      var i := 0;
      while i < |moves|
        invariant 0 <= i <= |moves|
        invariant Valid() && pot >= old(pot)
        invariant Run(old(State()), moves) == Run(State(), moves[i..])
      {
        assert moves[i..][1..] == moves[i + 1..];
        var broke := Step(moves[i]);
        if broke {
          return;
        }
        i := i + 1;
      }
    }

    /** Terminal payoff attribution, in place. `ok` is false when the receiving
        payoff list was empty, which raises IndexError in the training loop. */
    method Settle(winner: int) returns (ok: bool)
      modifies this
      ensures var s := Settlement.Settle(old(State()), winner);
        State() == s.table && ok == !s.indexError
    {
      ok := true;
      if folded1 {
        if payoffs2 == [] { return false; }
        payoffs2 := payoffs2[|payoffs2| - 1 := payoffs2[|payoffs2| - 1] + pot];
      } else if folded2 {
        if payoffs1 == [] { return false; }
        payoffs1 := payoffs1[|payoffs1| - 1 := payoffs1[|payoffs1| - 1] + pot];
      } else if winner == 1 {
        if payoffs1 == [] { return false; }
        payoffs1 := payoffs1[|payoffs1| - 1 := payoffs1[|payoffs1| - 1] + pot];
      } else if winner == -1 {
        if payoffs2 == [] { return false; }
        payoffs2 := payoffs2[|payoffs2| - 1 := payoffs2[|payoffs2| - 1] + pot];
      } else if winner == 0 {
        if payoffs1 == [] { return false; }
        payoffs1 := payoffs1[|payoffs1| - 1 := payoffs1[|payoffs1| - 1] + pot / 2.0];
        if payoffs2 == [] { return false; }
        payoffs2 := payoffs2[|payoffs2| - 1 := payoffs2[|payoffs2| - 1] + pot / 2.0];
      }
    }
  }

  /** How an episode ends. `Crashed` is an IndexError, carrying the updates
      player 1's table had already received; `Finished` carries both players'
      updates, the final return G of each backward pass and the turn that the
      next episode starts with. */
  datatype Outcome<K> =
    | Crashed(applied: seq<Update<K>>)
    | Finished(updates1: seq<Update<K>>, updates2: seq<Update<K>>, total1: real, total2: real, nextTurn: int)

  /** What follows the betting loop: settlement, then player 1's backward pass,
      then player 2's. */
  function Conclude<K>(t: Table<K>, winner: int): Outcome<K>
  {
    var s := Settlement.Settle(t, winner);
    var u := s.table;
    if s.indexError || |u.one.visited| > |u.one.payoffs| then Crashed([])
    else if |u.two.visited| > |u.two.payoffs| then Crashed(Returns(u.one.visited, u.one.payoffs))
    else Finished(Returns(u.one.visited, u.one.payoffs), Returns(u.two.visited, u.two.payoffs),
                  Sum(u.one.payoffs[..|u.one.visited|]), Sum(u.two.payoffs[..|u.two.visited|]), u.turn)
  }

  /** An episode from its starting turn, the drawn moves and the showdown result. */
  function EpisodeOutcome<K>(start: int, moves: seq<Visit<K>>, winner: int): Outcome<K>
  {
    Conclude(Run(Start(start), moves), winner)
  }

  /** Zero-sum over a whole episode: when it finishes after a fold, or after a
      showdown whose result is 1, -1 or 0, the two players' final returns cancel. */
  lemma EpisodeZeroSum<K>(start: int, moves: seq<Visit<K>>, winner: int)
    requires 0 <= start <= 1
    requires winner == 1 || winner == -1 || winner == 0 ||
             exists k :: 0 <= k < |moves| && moves[k].action == Fold
    ensures var r := EpisodeOutcome(start, moves, winner);
      r.Finished? ==> r.total1 + r.total2 == 0.0
  {
    var t := Run(Start<K>(start), moves);
    StartWellFormed<K>(start);
    RunWellFormed(Start<K>(start), moves);
    if !(winner == 1 || winner == -1 || winner == 0) {
      var k :| 0 <= k < |moves| && moves[k].action == Fold;
      RunFoldFlag(Start<K>(start), moves, k);
    }
    var s := Settlement.Settle(t, winner);
    SettleKeepsLengths(t, winner);
    var u := s.table;
    if !s.indexError && |u.one.visited| <= |u.one.payoffs| && |u.two.visited| <= |u.two.payoffs| {
      SettleZeroSum(t, winner);
      assert u.one.payoffs[..|u.one.visited|] == u.one.payoffs;
      assert u.two.payoffs[..|u.two.visited|] == u.two.payoffs;
    }
  }

  /** With only recognised actions, the sole way an episode can fail is
      settlement on an empty payoff list; otherwise it finishes, and each
      player's final return is that player's whole episode payoff. */
  lemma EpisodeRecognised<K>(start: int, moves: seq<Visit<K>>, winner: int)
    requires 0 <= start <= 1
    requires forall k :: 0 <= k < |moves| ==> moves[k].action != Unrecognised
    ensures var r := EpisodeOutcome(start, moves, winner);
      var s := Settlement.Settle(Run(Start(start), moves), winner);
      (r.Crashed? <==> s.indexError) && (r.Crashed? ==> r.applied == []) &&
      (r.Finished? ==> r.total1 == Sum(s.table.one.payoffs) && r.total2 == Sum(s.table.two.payoffs))
  {
    var t := Run(Start<K>(start), moves);
    StartWellFormed<K>(start);
    RunAligned(Start<K>(start), moves);
    SettleKeepsLengths(t, winner);
    var u := Settlement.Settle(t, winner).table;
    assert u.one.payoffs[..|u.one.visited|] == u.one.payoffs;
    assert u.two.payoffs[..|u.two.visited|] == u.two.payoffs;
  }

  /** An unrecognised action that the loop reaches always ends the episode in
      an IndexError: its visit has no payoff, so settlement or the backward pass
      indexes past the end of a payoff list. */
  lemma EpisodeUnrecognisedCrashes<K>(start: int, moves: seq<Visit<K>>, winner: int, k: nat)
    requires 0 <= start <= 1
    requires k < |moves| && moves[k].action == Unrecognised
    requires forall j :: 0 <= j < k ==> moves[j].action != Fold
    ensures EpisodeOutcome(start, moves, winner).Crashed?
  {
    var t := Run(Start<K>(start), moves);
    RunMisaligned(Start<K>(start), moves, k);
    SettleKeepsLengths(t, winner);
  }

  /** The betting loop of `CheckCheckScenario`. */
  lemma CheckCheckRun<K>(key1: K, key2: K)
    ensures Run(Start<K>(0), [Visit(key1, Check), Visit(key2, Check)]) ==
      Table(0.0, false, 0, Hand([Visit(key1, Check)], [0.0], false), Hand([Visit(key2, Check)], [0.0], false))
  {
    var moves := [Visit(key1, Check), Visit(key2, Check)];
    var t1 := Step(Start<K>(0), moves[0]);
    assert t1 == Table(0.0, false, 1, Hand([moves[0]], [0.0], false), Hand([], [], false));
    var t2 := Step(t1, moves[1]);
    assert moves[1..][1..] == [];
    assert Run(Start<K>(0), moves) == Run(t1, moves[1..]) == Run(t2, []) == t2;
  }

  /** Player 1 and then player 2 check; player 1 wins the showdown of an empty pot. */
  lemma CheckCheckScenario<K>(key1: K, key2: K)
    ensures EpisodeOutcome(0, [Visit(key1, Check), Visit(key2, Check)], 1) ==
      Finished([Update(Visit(key1, Check), 0.0, LearningRate)],
               [Update(Visit(key2, Check), 0.0, LearningRate)], 0.0, 0.0, 0)
  {
    CheckCheckRun(key1, key2);
    CheckCheckConclude(key1, key2);
  }

  /** Settlement and backward passes of `CheckCheckScenario`. */
  lemma CheckCheckConclude<K>(key1: K, key2: K)
    ensures Conclude(Table(0.0, false, 0, Hand([Visit(key1, Check)], [0.0], false), Hand([Visit(key2, Check)], [0.0], false)), 1) ==
      Finished([Update(Visit(key1, Check), 0.0, LearningRate)],
               [Update(Visit(key2, Check), 0.0, LearningRate)], 0.0, 0.0, 0)
  {
    var t := Table(0.0, false, 0, Hand([Visit(key1, Check)], [0.0], false), Hand([Visit(key2, Check)], [0.0], false));
    assert Settlement.Settle(t, 1) == Settled(t, false);
    assert [0.0][..1] == [0.0][0..1] == [0.0];
  }

  /** The betting loop of `BetFoldScenario`: a bet of 1 by player 1, then a fold. */
  lemma BetFoldRun<K>(key1: K, key2: K)
    ensures Run(Start<K>(0), [Visit(key1, Bet), Visit(key2, Fold)]) ==
      Table(1.0, true, 1, Hand([Visit(key1, Bet)], [-1.0], false), Hand([Visit(key2, Fold)], [0.0], true))
  {
    var moves := [Visit(key1, Bet), Visit(key2, Fold)];
    var t1 := Step(Start<K>(0), moves[0]);
    assert t1 == Table(1.0, true, 1, Hand([moves[0]], [-1.0], false), Hand([], [], false));
    assert Run(Start<K>(0), moves) == Run(t1, moves[1..]);
  }

  /** Player 1 bets, player 2 folds: the bet comes back to player 1 as the pot,
      the fold step pays player 2 nothing, and player 2 starts the next episode. */
  lemma BetFoldScenario<K>(key1: K, key2: K, winner: int)
    ensures EpisodeOutcome(0, [Visit(key1, Bet), Visit(key2, Fold)], winner) ==
      Finished([Update(Visit(key1, Bet), 0.0, LearningRate)],
               [Update(Visit(key2, Fold), 0.0, LearningRate)], 0.0, 0.0, 1)
  {
    BetFoldRun(key1, key2);
    BetFoldConclude(key1, key2, winner);
  }

  /** Settlement and backward passes of `BetFoldScenario`. */
  lemma BetFoldConclude<K>(key1: K, key2: K, winner: int)
    ensures Conclude(Table(1.0, true, 1, Hand([Visit(key1, Bet)], [-1.0], false), Hand([Visit(key2, Fold)], [0.0], true)), winner) ==
      Finished([Update(Visit(key1, Bet), 0.0, LearningRate)],
               [Update(Visit(key2, Fold), 0.0, LearningRate)], 0.0, 0.0, 1)
  {
    var t := Table(1.0, true, 1, Hand([Visit(key1, Bet)], [-1.0], false), Hand([Visit(key2, Fold)], [0.0], true));
    var u := t.(one := t.one.(payoffs := [0.0]));
    assert Settlement.Settle(t, winner) == Settled(u, false) by {
      assert CreditOne(t, 1.0) == Settled(u, false);
    }
    assert [0.0][..1] == [0.0][0..1] == [0.0];
  }

  /** The betting loop of `RaiseScenario`: bet 1, raise 2, call 1. */
  lemma RaiseRun<K>(key1: K, key2: K, key3: K)
    ensures Run(Start<K>(0), [Visit(key1, Bet), Visit(key2, Bet), Visit(key3, Call)]) ==
      Table(4.0, true, 1, Hand([Visit(key1, Bet), Visit(key3, Call)], [-1.0, -1.0], false),
            Hand([Visit(key2, Bet)], [-2.0], false))
  {
    var moves := [Visit(key1, Bet), Visit(key2, Bet), Visit(key3, Call)];
    var t1 := Step(Start<K>(0), moves[0]);
    assert t1 == Table(1.0, true, 1, Hand([moves[0]], [-1.0], false), Hand([], [], false));
    var t2 := Step(t1, moves[1]);
    assert t2 == Table(3.0, true, 0, Hand([moves[0]], [-1.0], false), Hand([moves[1]], [-2.0], false));
    assert moves[1..][1..][1..] == [];
    var t3 := Step(t2, moves[2]);
    assert Run(Start<K>(0), moves) == Run(t1, moves[1..]) == Run(t2, moves[1..][1..]) == Run(t3, []) == t3;
  }

  /** Bet, raise, call, and player 2 wins: the raise costs 2, the pot of 4 goes to
      player 2's only entry, and player 1's returns accumulate from the call back
      to the bet. */
  lemma RaiseScenario<K>(key1: K, key2: K, key3: K)
    ensures EpisodeOutcome(0, [Visit(key1, Bet), Visit(key2, Bet), Visit(key3, Call)], -1) ==
      Finished([Update(Visit(key3, Call), -1.0, LearningRate), Update(Visit(key1, Bet), -2.0, LearningRate)],
               [Update(Visit(key2, Bet), 2.0, LearningRate)], -2.0, 2.0, 1)
  {
    RaiseRun(key1, key2, key3);
    RaiseConclude(key1, key2, key3);
  }

  /** Settlement and backward passes of `RaiseScenario`. */
  lemma RaiseConclude<K>(key1: K, key2: K, key3: K)
    ensures Conclude(Table(4.0, true, 1, Hand([Visit(key1, Bet), Visit(key3, Call)], [-1.0, -1.0], false),
                           Hand([Visit(key2, Bet)], [-2.0], false)), -1) ==
      Finished([Update(Visit(key3, Call), -1.0, LearningRate), Update(Visit(key1, Bet), -2.0, LearningRate)],
               [Update(Visit(key2, Bet), 2.0, LearningRate)], -2.0, 2.0, 1)
  {
    var t := Table(4.0, true, 1, Hand([Visit(key1, Bet), Visit(key3, Call)], [-1.0, -1.0], false),
                   Hand([Visit(key2, Bet)], [-2.0], false));
    var u := t.(two := t.two.(payoffs := [2.0]));
    assert Settlement.Settle(t, -1) == Settled(u, false) by {
      assert CreditTwo(t, 4.0) == Settled(u, false);
    }
    var p := u.one.payoffs;
    assert Sum(p[1..2]) == -1.0 && Sum(p[0..2]) == -2.0 && Sum(p[..2]) == -2.0 by {
      assert p[1..2] == [-1.0] && p[0..2] == p[..2] == p;
      assert Sum(p) == -1.0 + Sum([-1.0]);
    }
    assert Returns(u.one.visited, p) ==
      [Update(Visit(key3, Call), -1.0, LearningRate), Update(Visit(key1, Bet), -2.0, LearningRate)];
    assert [2.0][..1] == [2.0][0..1] == [2.0];
  }

  /** One episode of the training loop: deal (left to the caller), bet, settle,
      then the backward passes of player 1 and player 2. */
  method PlayEpisode<K>(start: int, moves: seq<Visit<K>>, winner: int) returns (r: Outcome<K>)
    requires 0 <= start <= 1
    ensures r == EpisodeOutcome(start, moves, winner)
    ensures r.Finished? && (winner == 1 || winner == -1 || winner == 0) ==> r.total1 + r.total2 == 0.0
  {
    var e := new Episode(start);
    e.Play(moves);
    var ok := e.Settle(winner);
    if winner == 1 || winner == -1 || winner == 0 {
      EpisodeZeroSum(start, moves, winner);
    }
    if !ok {
      return Crashed([]);
    }
    var g1, updates1, ok1 := BackwardPass(e.visited1, e.payoffs1);
    if !ok1 {
      return Crashed([]);
    }
    var g2, updates2, ok2 := BackwardPass(e.visited2, e.payoffs2);
    if !ok2 {
      return Crashed(updates1);
    }
    r := Finished(updates1, updates2, g1, g2, e.turn);
  }
}
