/**
 * The keys of the Q-table: a `State` (player total, dealer up-card, usable
 * ace) and a `QValue` (a state, an action and a value that plays no part in
 * equality). `hashCode` is Java `int` arithmetic, so it wraps modulo 2^32;
 * the wrap is written out with `Int32`.
 */
module Keys {

  datatype State = State(playerSum: int, dealerCard: int, usableAce: bool)

  datatype QValue = QValue(state: State, action: int, value: real)

  const Modulus := 0x1_0000_0000
  const MinInt := -0x8000_0000
  const MaxInt := 0x7fff_ffff

  /** Two's-complement truncation of an integer to 32 bits. */
  function Int32(x: int): (r: int)
    ensures MinInt <= r <= MaxInt
    ensures MinInt <= x <= MaxInt ==> r == x
  {
    (x - MinInt) % Modulus + MinInt
  }

  /** Integers that agree modulo 2^32 truncate to the same 32-bit value. */
  lemma Int32Congruent(a: int, b: int)
    requires (a - b) % Modulus == 0
    ensures Int32(a) == Int32(b)
  {
    var k := (a - b) / Modulus;
    assert a == b + Modulus * k;
    assert a % Modulus == b % Modulus;
  }

  /** `State.equals`: field-by-field comparison. */
  predicate StateEquals(s: State, t: State)
    ensures StateEquals(s, t) <==> s == t
  {
    s.playerSum == t.playerSum && s.dealerCard == t.dealerCard && s.usableAce == t.usableAce
  }

  /** `State.hashCode`: the 17/31 polynomial over the fields, in `int` arithmetic. */
  function StateHash(s: State): (h: int)
    ensures MinInt <= h <= MaxInt
  {
    var result := 17;
    var result := Int32(31 * result + s.playerSum);
    var result := Int32(31 * result + s.dealerCard);
    Int32(31 * result + (if s.usableAce then 1 else 0))
  }

  /** Truncating a factor before scaling and offsetting it does not change the truncated result. */
  lemma Int32Scaled(x: int, m: int, c: int)
    ensures Int32(m * Int32(x) + c) == Int32(m * x + c)
  {
    var k := (x - MinInt) / Modulus;
    assert Int32(x) == x - Modulus * k;
    assert m * Int32(x) == m * x - Modulus * (m * k);
    Int32Congruent(m * Int32(x) + c, m * x + c);
  }

  /** The hash without intermediate wrapping: 17 * 31^3 + 961 p + 31 d + a, reduced once. */
  lemma StateHashPolynomial(s: State)
    ensures StateHash(s) ==
            Int32(506447 + 961 * s.playerSum + 31 * s.dealerCard + (if s.usableAce then 1 else 0))
  {
    var p, d, a := s.playerSum, s.dealerCard, if s.usableAce then 1 else 0;
    var r1 := Int32(527 + p);
    Int32Scaled(31 * r1 + d, 31, a);
    Int32Scaled(527 + p, 961, 31 * d + a);
    var inner, outer := 31 * (31 * r1 + d) + a, 961 * r1 + (31 * d + a);
    assert inner == outer;
  }

  /** The value ranges a game produces, with ample room to spare. */
  predicate InGameRange(s: State)
  {
    0 <= s.playerSum <= 1_000_000 && 0 <= s.dealerCard <= 30
  }

  /**
   * On game states the hash never wraps, so it is the plain polynomial, and
   * distinct states get distinct hash codes.
   */
  lemma StateHashInjective(s: State, t: State)
    requires InGameRange(s) && InGameRange(t)
    ensures StateHash(s) == 506447 + 961 * s.playerSum + 31 * s.dealerCard + (if s.usableAce then 1 else 0)
    ensures StateHash(s) == StateHash(t) <==> s == t
  {
    StateHashPolynomial(s);
    StateHashPolynomial(t);
  }

  /** `QValue.equals`: the state and the action, never the stored value. */
  predicate QValueEquals(p: QValue, q: QValue)
    ensures QValueEquals(p, q) <==> (p.state, p.action) == (q.state, q.action)
  {
    StateEquals(q.state, p.state) && q.action == p.action
  }

  /** `QValue.hashCode`: the state's hash plus the action, in `int` arithmetic. */
  function QValueHash(q: QValue): (h: int)
    ensures MinInt <= h <= MaxInt
  {
    Int32(StateHash(q.state) + q.action)
  }

  /**
   * `equals` and `hashCode` agree, as a hash map needs: equal keys hash
   * equally, and the stored value changes neither.
   */
  lemma QValueHashConsistent(p: QValue, q: QValue)
    requires QValueEquals(p, q)
    ensures QValueHash(p) == QValueHash(q)
    ensures StateHash(p.state) == StateHash(q.state)
  {
  }
}
