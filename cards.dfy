/**
 * Card values and the hand arithmetic shared by the player and the dealer:
 * the rank-to-value mapping of `drawCard`, the one-shot soft-ace demotion of
 * `adjustForAces`/`adjustForDealerAces`, and the dealer's hit-soft-17 turn.
 */
module Cards {

  const Blackjack := 21
  const DealerHitThreshold := 17
  const FaceCardValue := 10
  const MaxCardValue := 13

  /** A card rank as drawn: 1 is the ace, 11..13 are the face cards. */
  type Rank = r: int | 1 <= r <= MaxCardValue witness 1

  /**
   * The value `drawCard` gives a rank: face cards (and the ten) count 10,
   * the ace always counts 11, every other rank its face value.
   */
  function CardValue(rank: Rank): (v: int)
    ensures 2 <= v <= 11
    ensures v == 11 <==> rank == 1
    ensures v == 10 <==> 10 <= rank
    ensures 2 <= rank <= 10 ==> v == rank
  {
    if rank > FaceCardValue then FaceCardValue else if rank == 1 then 11 else rank
  }

  /**
   * The effect of the ace-adjustment loop on a (sum, usable ace) pair: a bust
   * hand holding a usable ace counts that ace as 1 instead of 11, once.
   */
  function AceAdjusted(sum: int, usableAce: bool): (r: (int, bool))
    ensures !(r.0 > Blackjack && r.1)
    ensures r.1 ==> usableAce
    ensures r == (sum, usableAce) || (sum > Blackjack && usableAce && r == (sum - 10, false))
    ensures r.0 != sum <==> sum > Blackjack && usableAce
  {
    if sum > Blackjack && usableAce then (sum - 10, false) else (sum, usableAce)
  }

  /** The guard of the dealer loop: below 17, or a soft 17. */
  predicate DealerMustHit(sum: int, usableAce: bool)
  {
    sum < DealerHitThreshold || (sum == DealerHitThreshold && usableAce)
  }

  /** Where the dealer's turn leaves the dealer's hand and the deck cursor. */
  datatype DealerHand = DealerHand(sum: int, usableAce: bool, cursor: nat)

  /**
   * The dealer's turn as the loop in `step` plays it: while the dealer must
   * hit, draw the card at `cursor`, add its value and demote a usable ace on a
   * bust. Each pass either spends the usable ace or raises the sum by at least
   * two, so the turn ends.
   */
  function DealerPlay(deck: nat -> Rank, cursor: nat, sum: int, usableAce: bool): DealerHand
    decreases if usableAce then 1 else 0, 28 - sum
  {
    if DealerMustHit(sum, usableAce) then
      var next := AceAdjusted(sum + CardValue(deck(cursor)), usableAce);
      DealerPlay(deck, cursor + 1, next.0, next.1)
    else
      DealerHand(sum, usableAce, cursor)
  }

  /** Where the dealer's turn can end. */
  lemma {:induction false} DealerPlayEnds(deck: nat -> Rank, cursor: nat, sum: int, usableAce: bool)
    ensures var r := DealerPlay(deck, cursor, sum, usableAce);
      // the dealer stops only at 17 or more, and never on a soft 17
      && !DealerMustHit(r.sum, r.usableAce)
      && r.sum >= DealerHitThreshold
      // a dealer who need not hit draws nothing; one who must hit draws
      && (!DealerMustHit(sum, usableAce) ==> r == DealerHand(sum, usableAce, cursor))
      && (DealerMustHit(sum, usableAce) ==> r.cursor > cursor)
      // the ace can be spent but never regained
      && (r.usableAce ==> usableAce)
      // the hit that busts the dealer is taken at 17 or less, so 27 is the worst total
      && (sum <= 27 ==> r.sum <= 27)
      && (!(sum > Blackjack && usableAce) ==> !(r.sum > Blackjack && r.usableAce))
    decreases if usableAce then 1 else 0, 28 - sum
  {
    if DealerMustHit(sum, usableAce) {
      var next := AceAdjusted(sum + CardValue(deck(cursor)), usableAce);
      DealerPlayEnds(deck, cursor + 1, next.0, next.1);
    }
  }

  /**
   * A card drawn on a hit is added at full value: an ace drawn onto a hard
   * hand of 11 or more busts it, although counting it as 1 would not.
   */
  lemma HitAceOnHardHandBusts(sum: int)
    requires 11 <= sum <= 20
    ensures AceAdjusted(sum + CardValue(1), false) == (sum + 11, false)
    ensures sum + 11 > Blackjack && sum + 1 <= Blackjack
  {
  }
}
