/** The backward pass of one player: the returns handed to the action-value
    table, accumulated from the last immediate payoff to the first. */
module Learning {
  import opened Sums
  import opened Betting

  /** The learning rate the training loop passes with every update. */
  const LearningRate: real := 0.05

  /** One call `q.update(s, G, learning_rate)` of the action-value table. */
  datatype Update<K> = Update(visit: Visit<K>, ret: real, rate: real)

  /** The updates of a whole backward pass, in call order: the j-th call is for
      visit n-1-j and carries the sum of the payoffs from that index to the end
      of the trajectory. */
  function Returns<K>(visited: seq<Visit<K>>, payoffs: seq<real>): seq<Update<K>>
    requires |visited| <= |payoffs|
  {
    var n := |visited|;
    seq(n, j requires 0 <= j < n => Update(visited[n - 1 - j], Sum(payoffs[n - 1 - j..n]), LearningRate))
  }

  /** The running return: the first call carries the last payoff alone, and each
      later call adds the payoff of the visit it is made for; all calls use the
      loop's learning rate. */
  lemma ReturnsAccumulate<K>(visited: seq<Visit<K>>, payoffs: seq<real>)
    requires |visited| <= |payoffs|
    ensures var u := Returns(visited, payoffs);
      var n := |visited|;
      |u| == n &&
      (n > 0 ==> u[0].ret == payoffs[n - 1]) &&
      (forall j :: 0 <= j < n ==> u[j].visit == visited[n - 1 - j] && u[j].rate == LearningRate) &&
      (forall j :: 0 < j < n ==> u[j].ret == u[j - 1].ret + payoffs[n - 1 - j])
  {
    var n := |visited|;
    var u := Returns(visited, payoffs);
    forall j | 0 < j < n ensures u[j].ret == u[j - 1].ret + payoffs[n - 1 - j] {
      var tail := payoffs[n - 1 - j..n];
      assert tail[1..] == payoffs[n - j..n];
      assert Sum(tail) == tail[0] + Sum(tail[1..]);
      assert u[j].ret == Sum(tail) && u[j - 1].ret == Sum(payoffs[n - j..n]);
    }
    if n > 0 {
      var last := payoffs[n - 1..n];
      assert last[1..] == [];
      assert Sum(last) == last[0] + Sum(last[1..]);
      assert u[0].ret == Sum(last);
    }
  }

  /** The return of the last call (made for the first visit) is the player's
      whole episode payoff. */
  lemma ReturnsTotal<K>(visited: seq<Visit<K>>, payoffs: seq<real>)
    requires |visited| == |payoffs| > 0
    ensures Returns(visited, payoffs)[|visited| - 1].ret == Sum(payoffs)
  {
    assert payoffs[0..|visited|] == payoffs;
  }

  /** The loop `for i, s in reversed(list(enumerate(visited)))`. `ok` is false when
      `payoffs[i]` raised IndexError; since indices are visited from the top, that
      happens at the first step, before any update is made. When the loop
      completes, `g` is the sum of the payoffs it visited. */
  method BackwardPass<K>(visited: seq<Visit<K>>, payoffs: seq<real>)
    returns (g: real, updates: seq<Update<K>>, ok: bool)
    ensures ok <==> |visited| <= |payoffs|
    ensures !ok ==> g == 0.0 && updates == []
    ensures ok ==> updates == Returns(visited, payoffs) && g == Sum(payoffs[..|visited|])
  {
    var n := |visited|;
    g, updates, ok := 0.0, [], true;
    var i := n;
    while i > 0
      invariant 0 <= i <= n
      invariant n > |payoffs| ==> i == n && g == 0.0 && updates == []
      invariant n <= |payoffs| ==> g == Sum(payoffs[i..n])
      invariant |updates| == n - i
      invariant n <= |payoffs| ==> forall j :: 0 <= j < n - i ==>
        updates[j] == Update(visited[n - 1 - j], Sum(payoffs[n - 1 - j..n]), LearningRate)
    {
      i := i - 1;
      if i >= |payoffs| {
        ok := false;
        return;
      }
      assert payoffs[i..n][1..] == payoffs[i + 1..n];
      g := g + payoffs[i];
      updates := updates + [Update(visited[i], g, LearningRate)];
    }
    assert payoffs[..n] == payoffs[0..n];
  }
}
