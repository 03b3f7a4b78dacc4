# Self-play poker training: per-episode bookkeeping

This project models the per-episode accounting of the self-play training script
`Game_Train_Itself.py`, in which two reinforcement-learning bots play a
simplified heads-up poker hand against each other. Three phases are modelled:

1. **The betting loop.** Each drawn action (`'B'` bet, `'C'` call, `'F'` fold,
   `'Ch'` check) adds one visited entry and one immediate payoff to the acting
   player's lists. It also grows the pot. The first bet raises `raise_f`, so every
   later bet is a raise costing 2. A fold sets that player's fold flag and breaks
   out of the loop. Any other action hands the turn to the other player.
2. **Settlement.** The fold winner or the showdown winner gets the whole pot
   added to their *last* immediate payoff. On a draw, each player's last payoff
   gets half the pot.
3. **The backward pass.** For each player, the payoffs are walked from last to
   first while a running return `G` is accumulated. Each `G` is handed to the
   action-value table's `update`.

Money is modelled as exact `real`s. Every amount in the script is a multiple of
one half, so nothing is lost this way.

The game state, the policies and the card deck are not part of the model. They
enter as inputs instead:
- the sequence of moves, each a state key and the action the policy drew;
- the showdown result `is_winner()`, an integer;
- the player whose turn it is when the episode starts.

The betting loop runs until a fold breaks it or the moves run out. Running out
stands for the game state offering no further action.

Modules:
- `Sums` (sums.dfy): exact sums of payoff lists, and `s[-1] += d`.
- `Betting` (betting.dfy): the betting loop as a pure state machine (`Step`,
  `Run`) and the invariants it keeps, proved as lemmas.
- `Settlement` (settlement.dfy): terminal payoff attribution and zero-sum.
- `Learning` (learning.dfy): the backward pass, a loop proved against the
  suffix sums of the payoffs.
- `Training` (episode.dfy): the episode's variables as a class updated in place
  (`Episode.Step`, `Episode.Play`, `Episode.Settle`), one whole episode
  (`PlayEpisode`) proved against `EpisodeOutcome`, and three worked episodes.

Behaviours of the program that the model keeps as they are:
- **Who starts an episode.** `player_turn` is set once, before the training loop
  (line 57), and is never reset. So an episode starts with the player after the
  last actor of the previous episode, or with the previous folder after a fold.
  The model takes the starting turn as input and returns `nextTurn`.
  `RunWithoutFold` and `RunStopsAtFold` state what that value is.
- **Unrecognised actions.** An action other than `'B'`, `'C'`, `'F'` and `'Ch'`
  only prints a message (lines 100-101, 123-124). The visit is appended, no payoff
  is, and the turn still passes. `EpisodeUnrecognisedCrashes` shows that the
  episode then always ends in an IndexError, raised by settlement or by the
  backward pass.
- **Call.** `'C'` always costs 1, even after a raise of 2 (lines 91-93, 114-116).
- **Empty payoff lists.** `[-1]` on an empty payoff list raises IndexError. This
  can happen, for example, when the first actor folds at once and the other player
  has no entry. The model returns this error instead of requiring it away. In the
  draw case, player 1's entry may already have been raised when player 2's list
  turns out to be empty, and the model keeps that partial update.

## Model

| member | source | states |
|---|---|---|
| `Sums.AddToLast` | Game_Train_Itself.py:129-138 | `s[-1] += d` changes only the last entry, raises it by d and raises the list's total by exactly d |
| `Betting.Cost` | Game_Train_Itself.py:84-99 | a bet costs 2 exactly when a bet was already made, otherwise 1; a call costs 1; check, fold and unrecognised actions cost nothing |
| `Betting.Applied` | Game_Train_Itself.py:94-97 | the moves the loop consumes are a prefix of the drawn moves, with no fold before their last entry, and they end in a fold when moves are left over |
| `Betting.StartWellFormed` | Game_Train_Itself.py:68-77 | a fresh episode (pot 0, empty lists, no flags) satisfies the loop invariant and has aligned lists |
| `Betting.StepCharges` | Game_Train_Itself.py:80-125 | one action moves its cost from the actor's payoffs into the pot; the pot never shrinks; the pot still equals minus the sum of both payoff lists; the other player's record is untouched; an unrecognised action appends its visit and no payoff |
| `Betting.StepRaiseFlag` | Game_Train_Itself.py:84-90 | `raise_f` is set after a step exactly when it was set before or the action is a bet, and a bet costs 2 exactly when `raise_f` was already set, otherwise 1 |
| `Betting.RunRaiseFlag` | Game_Train_Itself.py:77-125 | at the end of the betting loop `raise_f` is set exactly when it was set at the start or some move the loop consumed is a bet; so, starting from a fresh episode, the first bet costs 1 and every later bet costs 2 |
| `Betting.StepLengths` | Game_Train_Itself.py:83-101 | the actor's visited list grows by one; its payoff list grows by one for a recognised action and by none in the error branch |
| `Betting.StepTurn` | Game_Train_Itself.py:94-97 | after a non-fold, the turn flips and no fold flag changes; after a fold, the turn stays with the folder, whose flag is set, and the other flag is unchanged |
| `Betting.RunWellFormed` | Game_Train_Itself.py:68-125 | through the whole betting loop the turn stays in {0, 1}, the pot is non-negative and never decreases, the pot equals minus the sum of both payoff lists, and no payoff list is longer than its visited list |
| `Betting.RunApplied` | Game_Train_Itself.py:78-125 | the loop's result depends only on the moves up to and including the first fold |
| `Betting.RunAligned` | Game_Train_Itself.py:83-124 | if every action is recognised, each player's visited and payoff lists have the same length at the end of the loop |
| `Betting.RunGaps` | Game_Train_Itself.py:83-124 | how far a player's visited list runs ahead of its payoff list never shrinks during the loop |
| `Betting.RunMisaligned` | Game_Train_Itself.py:100-101 | an unrecognised action reached before any fold leaves some player with more visits than payoffs |
| `Betting.RunWithoutFold` | Game_Train_Itself.py:78-125 | without a fold, every move is applied, the turn ends as (start + number of moves) mod 2, no fold flag changes and the two visited lists together grow by the number of moves |
| `Betting.RunStopsAtFold` | Game_Train_Itself.py:94-97 | the first fold (at index k) ends the loop: later moves are ignored, the turn is (start + k) mod 2, which is the folder's, and the folder's flag is the only one set |
| `Betting.RunFoldFlag` | Game_Train_Itself.py:94-120 | if a fold appears anywhere among the moves, some fold flag is set at the end of the loop |
| `Settlement.SettleTargets` | Game_Train_Itself.py:128-138 | player 1 folded: only player 2's last payoff gains the pot, and symmetrically when player 2 folded; with no fold, result 1 or -1 gives the pot to that player's last payoff; result 0 gives half the pot to each last payoff; any other result changes nothing; settlement fails exactly when a receiving list is empty; pot, flags, turn and visited lists never change |
| `Settlement.SettleZeroSum` | Game_Train_Itself.py:128-138 | if the pot equals minus the payoff total, then after a successful settlement (after a fold, or with result 1, -1 or 0) all payoffs of both players sum to 0 |
| `Settlement.SettleUnknownResult` | Game_Train_Itself.py:132-138 | a showdown result outside {1, -1, 0} credits nobody, so the payoffs sum to minus the pot |
| `Settlement.SettleKeepsLengths` | Game_Train_Itself.py:128-138 | settlement changes no list's length and no visited list |
| `Learning.ReturnsAccumulate` | Game_Train_Itself.py:141-146 | the updates are made for the visits in strictly decreasing index order; the first return is the last payoff; each later return adds the payoff of its own visit to the previous return; every call uses learning rate 0.05 |
| `Learning.ReturnsTotal` | Game_Train_Itself.py:141-146 | the return of the last update (the one for the first visit) is the player's whole episode payoff |
| `Learning.BackwardPass` | Game_Train_Itself.py:141-146 | the reversed loop raises IndexError exactly when there are more visits than payoffs, and then before any update; otherwise its calls are, in order, the suffix-sum updates `Returns`, and the final G is the sum of the payoffs it visited |
| `Training.Episode.constructor` | Game_Train_Itself.py:68-77 | a new episode has an empty pot, empty lists, no flags and the given starting turn, and satisfies the loop invariant |
| `Training.Episode.Step` | Game_Train_Itself.py:80-125 | the in-place loop body produces the state `Betting.Step` describes, reports the break exactly on a fold, keeps the invariant and never lowers the pot |
| `Training.Episode.Play` | Game_Train_Itself.py:78-125 | the in-place betting loop ends in the state `Betting.Run` describes, with the invariant kept and the pot not lowered |
| `Training.Episode.Settle` | Game_Train_Itself.py:128-138 | in-place settlement produces the `Settlement.Settle` table and reports IndexError exactly when that does |
| `Training.EpisodeZeroSum` | Game_Train_Itself.py:68-154 | a finished episode ending in a fold, or in a showdown with result 1, -1 or 0, gives the two players final returns that cancel |
| `Training.EpisodeRecognised` | Game_Train_Itself.py:78-154 | with only recognised actions, an episode fails only when settlement hits an empty list, and each player's final G is then that player's whole settled payoff |
| `Training.EpisodeUnrecognisedCrashes` | Game_Train_Itself.py:100-146 | an unrecognised action the loop reaches always ends the episode in an IndexError |
| `Training.CheckCheckScenario` | Game_Train_Itself.py:78-154 | check, check, player 1 wins: each player gets one update with return 0, and player 1 starts the next episode |
| `Training.BetFoldScenario` | Game_Train_Itself.py:78-154 | player 1 bets and player 2 folds, whatever the showdown result: player 1's single return is -1 + 1 = 0, player 2's fold step returns 0, and player 2 starts the next episode |
| `Training.RaiseScenario` | Game_Train_Itself.py:78-154 | bet, raise, call, player 2 wins: the raise costs 2 and player 2's single return is the pot minus that raise, 2; player 1's returns are -1 for the call and then -2 for the bet |
| `Training.PlayEpisode` | Game_Train_Itself.py:63-154 | one episode (loop, settlement, then both backward passes in order) yields `EpisodeOutcome`; when it finishes with result 1, -1 or 0, the two final returns sum to 0 |

## Left out

- Loading and saving the bots' tables (lines 23-48, 163-169) and the `quit` stop file
  (line 159): these are file I/O.
- All `print` calls, including the error message of the unrecognised-action branch and
  the progress message every 1000 rounds: these are console output.
- Dealing cards from a `deuces` deck (lines 64-67) and hand evaluation: these are an
  external library and randomness. The showdown result `gs.is_winner()` is an input.
- `Game_State` (`clear_state`, `get_possible_actions`, `get_current_state_id`,
  `append_action`, `is_winner`) is not part of this model. Its legality rules decide
  when the loop stops. In the model the moves are an input, and the loop stops at a
  fold or when they run out. The state key is a type parameter; a visited entry
  stores it with the action.
- `Policy` (`draw_action`, `update`, `create_uniform`) and `State_Action_Value_Function`
  (`update`, `greedy_action`) are not part of this model. Each `q.update(s, G,
  learning_rate)` call is recorded as an `Update` value. The follow-up
  `greedy_action` query and the `p.update(greedy_action, epsilon)` call (with
  epsilon 0.20) are not recorded, because their effect lies in unseen code.
- The outer `while True` and batch `for` loops: one episode is modelled. The only state
  that carries across episodes, the turn, is an input and an output of `PlayEpisode`.
- Floating point: amounts are exact reals. All of them are multiples of one half, so
  the script's float arithmetic is exact as well.
