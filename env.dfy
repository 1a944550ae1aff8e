/**
 * The Blackjack environment: one player hand against a dealer who hits soft
 * 17. The hands are kept as running totals with a usable-ace flag, exactly as
 * the fields of `BlackjackEnv` are. The random card source is an explicit
 * oracle `deck` of ranks read at an advancing `cursor`.
 */
module Environment {
  import opened Cards

  class BlackjackEnv {
    const deck: nat -> Rank
    var cursor: nat

    var playerSum: int
    var dealerSum: int
    var dealerCard: int
    var usableAce: bool
    var dealerUsableAce: bool
    var playerStood: bool
    var dealerStood: bool

    /**
     * The states reachable through `reset` and `step`: the player and dealer
     * stand together (the dealer's turn runs inside the step that makes the
     * player stand), the dealer holds only the up-card until then, a usable
     * ace means a soft total of 13 to 21, and a finished dealer holds 17 to 27.
     */
    ghost predicate Valid()
      reads this
    {
      && 2 <= dealerCard <= 11
      && playerSum >= 4
      && (usableAce ==> 13 <= playerSum <= Blackjack)
      && (playerSum > Blackjack ==> playerStood)
      && playerStood == dealerStood
      && (!dealerStood ==> dealerSum == dealerCard && !dealerUsableAce)
      && (dealerStood ==>
            && DealerHitThreshold <= dealerSum <= 27
            && !DealerMustHit(dealerSum, dealerUsableAce)
            && !(dealerSum > Blackjack && dealerUsableAce))
    }

    /** Deals a fresh game from the oracle, starting at position 0. */
    constructor (deck: nat -> Rank)
      ensures this.deck == deck
      ensures Valid() && !IsTerminal()
      ensures cursor == 3
      ensures dealerCard == dealerSum == CardValue(deck(2))
      ensures (playerSum, usableAce) ==
              AceAdjusted(CardValue(deck(0)) + CardValue(deck(1)), deck(0) == 1 || deck(1) == 1)
    {
      this.deck := deck;
      cursor := 0;
      new;
      Reset();
    }

    /** Draws the rank at the cursor and returns its value. */
    method DrawCard() returns (v: int)
      modifies this`cursor
      ensures v == CardValue(deck(old(cursor)))
      ensures cursor == old(cursor) + 1
    {
      v := CardValue(deck(cursor));
      cursor := cursor + 1;
    }

    /**
     * Starts a new game: two cards to the player, one card to the dealer (the
     * up-card, which is also the dealer's whole hand until the dealer plays).
     */
    method Reset()
      modifies this
      ensures cursor == old(cursor) + 3
      ensures var c1, c2 := CardValue(deck(old(cursor))), CardValue(deck(old(cursor) + 1));
              (playerSum, usableAce) == AceAdjusted(c1 + c2, c1 == 11 || c2 == 11)
      ensures dealerCard == CardValue(deck(old(cursor) + 2)) && dealerSum == dealerCard
      ensures !playerStood && !dealerStood && !dealerUsableAce
      ensures Valid()
      ensures 4 <= playerSum <= Blackjack && 2 <= dealerSum <= 11 && !IsTerminal()
      // two aces make a hard 12: one ace is demoted and the flag is cleared
      ensures deck(old(cursor)) == 1 && deck(old(cursor) + 1) == 1 ==> playerSum == 12 && !usableAce
    {
      // the totals and the player's flag are all assigned from the cards below
      playerStood := false;
      dealerStood := false;
      dealerUsableAce := false;

      var card1 := DrawCard();
      var card2 := DrawCard();
      dealerCard := DrawCard();
      dealerSum := dealerCard;

      playerSum := card1 + card2;
      usableAce := card1 == 11 || card2 == 11;
      AdjustForAces();
    }

    /**
     * Plays action 0 (Hit) or any other action (Stand) for the player, then,
     * once the player has stood and the dealer has not yet played, plays the
     * dealer's whole turn.
     */
    method Step(action: int)
      requires Valid()
      modifies this
      ensures Valid()
      ensures dealerCard == old(dealerCard)
      // the player's half
      ensures action == 0 ==>
                var v := CardValue(deck(old(cursor)));
                (playerSum, usableAce) == AceAdjusted(old(playerSum) + v, old(usableAce))
                && playerStood == (old(playerStood) || playerSum > Blackjack)
      ensures action != 0 ==>
                playerSum == old(playerSum) && usableAce == old(usableAce) && playerStood
      // the dealer's half: played once, from the up-card alone
      ensures var afterPlayer := if action == 0 then old(cursor) + 1 else old(cursor);
              if playerStood && !old(dealerStood) then
                DealerHand(dealerSum, dealerUsableAce, cursor) ==
                  DealerPlay(deck, afterPlayer, dealerCard, dealerCard == 11)
                && dealerStood
              else
                dealerSum == old(dealerSum) && dealerUsableAce == old(dealerUsableAce)
                && dealerStood == old(dealerStood) && cursor == afterPlayer
      // what the caller observes
      ensures action == 0 && !old(playerStood) && playerSum <= Blackjack ==>
                dealerSum == old(dealerSum) && dealerUsableAce == old(dealerUsableAce)
                && !dealerStood && !IsTerminal()
      ensures playerStood ==> dealerStood && IsTerminal()
      ensures playerStood ==> DealerHitThreshold <= dealerSum <= 27 && !DealerMustHit(dealerSum, dealerUsableAce)
      ensures (action != 0 || playerSum > Blackjack) ==> IsTerminal()
      // a hit ace counts 11 on a hard hand, so a hard 11 to 20 busts and loses
      ensures action == 0 && !old(usableAce) && 11 <= old(playerSum) <= 20 && deck(old(cursor)) == 1 ==>
                playerSum == old(playerSum) + 11 && IsTerminal() && GetReward() == -1
    {
      if action == 0 {  // Hit
        var card := DrawCard();
        playerSum := playerSum + card;
        AdjustForAces();
        if playerSum > Blackjack {
          playerStood := true;
        }
      } else {  // Stand
        playerStood := true;
      }

      if playerStood && !dealerStood {
        DealerPlayEnds(deck, cursor, dealerSum, dealerCard == 11);
        PlayDealer();
      }
    }

    /**
     * The dealer logic of `step`: the dealer's usable ace is taken from the
     * up-card alone, then the dealer hits below 17 and on a soft 17.
     */
    method PlayDealer()
      requires dealerSum == dealerCard
      modifies this`dealerSum, this`dealerUsableAce, this`dealerStood, this`cursor
      ensures DealerHand(dealerSum, dealerUsableAce, cursor) ==
              DealerPlay(deck, old(cursor), dealerCard, dealerCard == 11)
      ensures dealerStood
    {
      dealerUsableAce := dealerCard == 11;
      ghost var outcome := DealerPlay(deck, cursor, dealerSum, dealerUsableAce);
      while DealerMustHit(dealerSum, dealerUsableAce)
        invariant DealerPlay(deck, cursor, dealerSum, dealerUsableAce) == outcome
        decreases if dealerUsableAce then 1 else 0, 28 - dealerSum
      {
        var card := DrawCard();
        dealerSum := dealerSum + card;
        AdjustForDealerAces();
      }
      dealerStood := true;
    }

    /** Demotes the player's usable ace on a bust; the loop runs at most once. */
    method AdjustForAces()
      modifies this`playerSum, this`usableAce
      ensures (playerSum, usableAce) == AceAdjusted(old(playerSum), old(usableAce))
    {
      while playerSum > Blackjack && usableAce
        invariant AceAdjusted(playerSum, usableAce) == AceAdjusted(old(playerSum), old(usableAce))
        decreases usableAce
      {
        playerSum := playerSum - 10;
        usableAce := false;
      }
    }

    /** Demotes the dealer's usable ace on a bust; the loop runs at most once. */
    method AdjustForDealerAces()
      modifies this`dealerSum, this`dealerUsableAce
      ensures (dealerSum, dealerUsableAce) == AceAdjusted(old(dealerSum), old(dealerUsableAce))
    {
      while dealerSum > Blackjack && dealerUsableAce
        invariant AceAdjusted(dealerSum, dealerUsableAce) ==
                  AceAdjusted(old(dealerSum), old(dealerUsableAce))
        decreases dealerUsableAce
      {
        dealerSum := dealerSum - 10;
        dealerUsableAce := false;
      }
    }

    /**
     * Over when both sides have stood or either side is bust; in a reachable
     * state that is exactly when the player has stood.
     */
    predicate IsTerminal()
      reads this
      ensures Valid() ==> (IsTerminal() <==> playerStood)
      ensures playerSum > Blackjack ==> IsTerminal()
    {
      (playerStood && dealerStood) || playerSum > Blackjack || dealerSum > Blackjack
    }

    /**
     * The player's payoff: a player bust loses even against a dealer bust;
     * otherwise a dealer bust wins, and two standing hands compare totals.
     */
    function GetReward(): (r: int)
      reads this
      ensures r == -1 || r == 0 || r == 1
      ensures r == -1 <==> playerSum > Blackjack || (dealerSum <= Blackjack && playerSum < dealerSum)
      ensures r == 1 <==> playerSum <= Blackjack && (dealerSum > Blackjack || playerSum > dealerSum)
      ensures r == 0 <==> playerSum <= Blackjack && dealerSum <= Blackjack && playerSum == dealerSum
    {
      if playerSum > Blackjack then -1        // player bust
      else if dealerSum > Blackjack then 1    // dealer bust
      else if playerSum > dealerSum then 1    // player wins
      else if playerSum < dealerSum then -1   // dealer wins
      else 0                                  // tie
    }
  }
}
