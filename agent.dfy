/**
 * The Q-learning agent: epsilon-greedy action choice with a forced Stand at
 * 20 or more, and the one-step Q-learning update. Q-values are `real`; the
 * table is a map from (state, action) to value in which a missing key reads
 * as 0.0, as `getOrDefault(q, 0.0)` does.
 */
module Learning {
  import opened Keys

  const Hit := 0
  const Stand := 1

  /** The Q-table, keyed as `QValue.equals` compares keys: by state and action. */
  type QTable = map<(State, int), real>

  /** A table read with 0.0 for a key never written. */
  function QGet(q: QTable, s: State, action: int): real
  {
    if (s, action) in q then q[(s, action)] else 0.0
  }

  /** `Math.max` on two values. */
  function Max(a: real, b: real): real
  {
    if a >= b then a else b
  }

  /**
   * The running maximum `maxQNext` of `updateQValue` after scanning actions
   * 0 .. n-1, seeded with 0.0: the largest of 0.0 and those actions' values.
   */
  function BootstrapMax(q: QTable, s: State, n: nat): (m: real)
    ensures m >= 0.0
    ensures forall action :: 0 <= action < n ==> QGet(q, s, action) <= m
    ensures m == 0.0 || exists action :: 0 <= action < n && m == QGet(q, s, action)
  {
    if n == 0 then 0.0 else Max(BootstrapMax(q, s, n - 1), QGet(q, s, n - 1))
  }

  /**
   * The greedy choice of `getAction`: an action of largest value, the first
   * one scanned (Hit) when the two are equal.
   */
  function GreedyAction(q: QTable, s: State): (a: int)
    ensures a == Hit || a == Stand
    ensures QGet(q, s, a) >= QGet(q, s, 1 - a)
    ensures QGet(q, s, Hit) == QGet(q, s, Stand) ==> a == Hit
  {
    if QGet(q, s, Stand) > QGet(q, s, Hit) then Stand else Hit
  }

  /** The new value of an entry: `old + alpha * (reward + gamma * maxNext - old)`. */
  function NewQ(oldQ: real, reward: real, maxNext: real, alpha: real, gamma: real): real
  {
    oldQ + alpha * (reward + gamma * maxNext - oldQ)
  }

  /**
   * The table after one update of the entry for (s, a) towards
   * reward + gamma * max(0, Q(next, Hit), Q(next, Stand)); no other entry moves.
   */
  function Updated(q: QTable, s: State, a: int, reward: real, next: State,
                   alpha: real, gamma: real): (q': QTable)
    ensures q'.Keys == q.Keys + {(s, a)}
    ensures forall t, b :: (t, b) != (s, a) ==> QGet(q', t, b) == QGet(q, t, b)
    ensures QGet(q', s, a) == NewQ(QGet(q, s, a), reward, BootstrapMax(q, next, 2), alpha, gamma)
  {
    q[(s, a) := NewQ(QGet(q, s, a), reward, BootstrapMax(q, next, 2), alpha, gamma)]
  }

  /**
   * The update has no terminal case: the bootstrap term is never negative,
   * so the new value is never below old + alpha * (reward - old), the value a
   * terminal transition should get, and it equals that value only when
   * alpha or gamma is 0 or the next state has no positive entry.
   */
  lemma {:induction false} UpdateAlwaysBootstraps(q: QTable, s: State, a: int, reward: real,
                                                  next: State, alpha: real, gamma: real)
    requires alpha >= 0.0 && gamma >= 0.0
    ensures var oldQ := QGet(q, s, a);
            var newQ := QGet(Updated(q, s, a, reward, next, alpha, gamma), s, a);
            && newQ >= oldQ + alpha * (reward - oldQ)
            && (newQ == oldQ + alpha * (reward - oldQ) <==>
                  alpha == 0.0 || gamma == 0.0
                  || (QGet(q, next, Hit) <= 0.0 && QGet(q, next, Stand) <= 0.0))
  {
    var oldQ := QGet(q, s, a);
    var m := BootstrapMax(q, next, 2);
    var newQ := QGet(Updated(q, s, a, reward, next, alpha, gamma), s, a);
    assert newQ - (oldQ + alpha * (reward - oldQ)) == alpha * (gamma * m);
    assert gamma * m >= 0.0;
    assert alpha * (gamma * m) >= 0.0;
    assert m == 0.0 <==> QGet(q, next, Hit) <= 0.0 && QGet(q, next, Stand) <= 0.0;
    if alpha != 0.0 && gamma != 0.0 && m != 0.0 {
      assert gamma * m > 0.0;
      assert alpha * (gamma * m) > 0.0;
    } else if alpha == 0.0 {
      assert alpha * (gamma * m) == 0.0;
    } else {
      assert gamma * m == 0.0;
    }
  }

  class QLearningAgent {
    var qValues: QTable
    const alpha: real
    const gamma: real
    var epsilon: real

    /** A fresh agent with an empty table: every Q-value reads as 0.0. */
    constructor (alpha: real, gamma: real, epsilon: real)
      ensures qValues == map[]
      ensures this.alpha == alpha && this.gamma == gamma && this.epsilon == epsilon
    {
      qValues := map[];
      this.alpha := alpha;
      this.gamma := gamma;
      this.epsilon := epsilon;
    }

    /**
     * Chooses Hit (0) or Stand (1). `explore` and `pick` stand for the two
     * `Math.random()` draws: the first decides exploration against epsilon,
     * the second picks the random action.
     */
    method GetAction(state: State, explore: real, pick: real) returns (choice: int)
      requires 0.0 <= explore < 1.0 && 0.0 <= pick < 1.0
      ensures choice == Hit || choice == Stand
      // forced Stand at 20 or 21, before any exploration
      ensures state.playerSum >= 20 ==> choice == Stand
      ensures state.playerSum < 20 && explore < epsilon ==> choice == (pick * 2.0).Floor
      ensures state.playerSum < 20 && explore >= epsilon ==> choice == GreedyAction(qValues, state)
    {
      if state.playerSum >= 20 {
        return Stand;
      }

      if explore < epsilon {
        return (pick * 2.0).Floor;
      }

      var bestAction := Hit;
      var maxQValue := 0.0;
      var seen := false;  // while false, maxQValue stands for negative infinity
      for action := 0 to 2
        invariant seen <==> action > 0
        invariant !seen ==> bestAction == Hit
        invariant seen ==> 0 <= bestAction < action && maxQValue == QGet(qValues, state, bestAction)
        invariant forall b :: 0 <= b < action ==> QGet(qValues, state, b) <= maxQValue
        invariant forall b :: 0 <= b < bestAction ==> QGet(qValues, state, b) < maxQValue
      {
        var value := QGet(qValues, state, action);
        if !seen || value > maxQValue {
          maxQValue := value;
          bestAction := action;
          seen := true;
        }
      }
      return bestAction;
    }

    /** One Q-learning update of the entry for (state, action). */
    method UpdateQValue(state: State, action: int, reward: real, nextState: State)
      modifies this`qValues
      ensures qValues == Updated(old(qValues), state, action, reward, nextState, alpha, gamma)
    {
      var maxQNext := 0.0;
      for i := 0 to 2
        invariant qValues == old(qValues)
        invariant maxQNext == BootstrapMax(qValues, nextState, i)
      {
        maxQNext := Max(maxQNext, QGet(qValues, nextState, i));
      }

      var oldQ := QGet(qValues, state, action);
      var newQ := oldQ + alpha * (reward + gamma * maxQNext - oldQ);
      assert newQ == NewQ(oldQ, reward, maxQNext, alpha, gamma);
      qValues := qValues[(state, action) := newQ];
    }
  }
}
