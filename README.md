# Blackjack with a Q-learning player, modelled in Dafny

The program simulates Blackjack against a dealer who hits soft 17 and trains a
tabular Q-learning agent to play it. This model covers the live `Blackjack`
class (the first part of `Blackjack.java` is an older, commented-out variant
and is not modelled). It has three parts:

- **The environment** (`env.dfy`, module `Environment`, built on `cards.dfy`,
  module `Cards`). `BlackjackEnv` is a class with the same fields as the
  Java object: running totals, usable-ace flags and stood flags. `Reset`,
  `Step`, `PlayDealer`, `AdjustForAces` and `AdjustForDealerAces` are
  methods. `AdjustForAces` and `AdjustForDealerAces` carry the source's ace
  `while` loops, and `PlayDealer` carries the dealer's `while` loop of `step`.
  `Reset` has no loop. `IsTerminal` and `GetReward` are functions that
  read the fields. The random card source is a `deck: nat -> Rank` oracle,
  read at a `cursor` that each draw advances. The dealer's turn is an
  unbounded number of draws, so the deck cannot be a fixed list. The
  function `DealerPlay` specifies `PlayDealer`. Each pass of its loop either spends the
  dealer's usable ace or raises the dealer's total by at least 2, so the loop
  ends. `Valid()` is the invariant that `Reset` establishes and `Step`
  preserves:
  - the player and the dealer have stood together;
  - a dealer who has not played holds only the up-card;
  - a usable ace means a soft total from 13 to 21;
  - a dealer who has played holds 17 to 27, and never a soft 17.
- **Table keys** (`keys.dfy`, module `Keys`). `State` and `QValue` are
  datatypes. `equals` is shown to coincide with structural equality, and for
  `QValue` it ignores the stored value. `hashCode` is computed in 32-bit
  two's-complement arithmetic, with the wrap written out in `Int32`. It is
  shown to equal the polynomial 17·31³ + 961·p + 31·d + a reduced once. On
  the value ranges a game produces it is injective.
- **The agent** (`agent.dfy`, module `Learning`). The `HashMap<QValue,
  Double>` becomes a `map<(State, int), real>`, in which a missing key reads
  as 0.0. `GetAction` chooses the action. It keeps the forced Stand at 20 or
  more, the exploration test against epsilon, and the two-step argmax loop,
  whose strict `>` sends ties to Hit. `UpdateQValue` is the one-step update.
  It writes exactly one entry, and its bootstrap term max(0, Q(s′,0),
  Q(s′,1)) is never negative.

Where the intended design of the game differs from the code, the model
follows the code:

- The dealer gets only one card before play. The dealer's usable ace comes
  from the up-card alone.
- A card drawn on a hit counts at full value: an ace counts 11 and does not
  set `usableAce`, so a hard 11 to 20 plus an ace busts and
  loses (`Step`, with `HitAceOnHardHandBusts` stating it on the helper
  functions).
- Hands are not rescored from their cards. A usable ace is demoted once, by
  10, when the total passes 21.
- The dealer plays out the turn even after the player busts.
- Greedy ties go to Hit, not Stand.
- The update bootstraps from the next state even on a terminal transition
  (`UpdateAlwaysBootstraps`).

## Model

| member | source | states |
|---|---|---|
| `Cards.CardValue` | Blackjack.java:480-483 | The value of a rank lies in [2,11]. It is 11 exactly for the ace and 10 exactly for ranks 10 to 13. Ranks 2 to 10 keep their face value. |
| `Cards.AceAdjusted` | Blackjack.java:454-466 | The result is never a bust with a usable ace. The flag is only ever cleared. The sum changes exactly when it was over 21 with the flag set, and then it drops by 10 with the flag cleared. |
| `Cards.DealerPlayEnds` | Blackjack.java:442-450 | The turn that `DealerPlay` gives (the dealer loop written as a recursive function) ends as follows. The dealer stops only at 17 or more, never on a soft 17. A dealer who need not hit draws nothing, and one who must hit draws at least once. The ace is never regained. Starting from 27 or less, the dealer ends at 27 or less. A dealer who does not start bust with a usable ace never ends so; a turn started from the up-card always meets that condition. |
| `Cards.HitAceOnHardHandBusts` | Blackjack.java:432-436 | On the helper functions: `AceAdjusted` leaves a hard 11 to 20 plus an ace's `CardValue` at the sum plus 11, a bust, although counting the ace as 1 would not bust. The game-level statement is on `Step`. |
| `Environment.BlackjackEnv.constructor` | Blackjack.java:409-411 | A new environment is dealt from deck positions 0 to 2, with the player's two cards ace-adjusted and the third card as up-card and dealer total. It is valid and not terminal. |
| `Environment.BlackjackEnv.DrawCard` | Blackjack.java:480-483 | Returns the value of the rank at the cursor and advances the cursor by one. |
| `Environment.BlackjackEnv.Reset` | Blackjack.java:413-429 | Deals the two player cards and the one dealer card, with the player's ace adjusted. Both stood flags end false. `dealerSum == dealerCard`, in [2,11]. `playerSum` is in [4,21], so the game is not terminal. Two aces give a hard 12. Reset works from any state and establishes `Valid()`. |
| `Environment.BlackjackEnv.Step` | Blackjack.java:431-452 | Preserves `Valid()`. A Hit adds the drawn card and adjusts the ace, and it sets `playerStood` on a bust; a Stand sets `playerStood`. The dealer's turn then runs once, as `DealerPlay` from the up-card. A Hit that does not bust a live game changes no dealer field and leaves the game live. Once the player has stood, the dealer holds 17 to 27 (never a soft 17) and the game is terminal. `dealerCard` never changes. A Hit that draws an ace onto a hard 11 to 20 adds 11, ends the game and gives reward -1. |
| `Environment.BlackjackEnv.PlayDealer` | Blackjack.java:442-451 | The dealer's loop ends in exactly the hand and cursor that `DealerPlay` gives for the up-card, with `dealerStood` set. |
| `Environment.BlackjackEnv.AdjustForAces` | Blackjack.java:454-459 | The player's total and flag become `AceAdjusted` of their old values, and nothing else changes. |
| `Environment.BlackjackEnv.AdjustForDealerAces` | Blackjack.java:461-466 | The dealer's total and flag become `AceAdjusted` of their old values, and nothing else changes. |
| `Environment.BlackjackEnv.IsTerminal` | Blackjack.java:468-470 | Any player bust is terminal. In a valid state the game is terminal exactly when the player has stood. |
| `Environment.BlackjackEnv.GetReward` | Blackjack.java:472-478 | The reward is -1, 0 or 1. It is -1 exactly for a player bust (whatever the dealer holds) or a lower standing total. It is 1 exactly when the player is not bust and the dealer is bust or lower. It is 0 exactly for equal standing totals. |
| `Keys.Int32` | Blackjack.java:369-374 | Java `int` truncation: the result is in the 32-bit range, and an input already in range is returned unchanged. |
| `Keys.Int32Congruent` | Blackjack.java:369-374 | Inputs that agree modulo 2^32 truncate to the same value. |
| `Keys.Int32Scaled` | Blackjack.java:369-374 | Truncating a value before multiplying it by m and adding c gives the same truncated result as not truncating it. This is the step `result = 31 * result + x` of the hash. |
| `Keys.StateEquals` | Blackjack.java:360-366 | `State.equals` holds exactly when the two states are equal values. |
| `Keys.StateHash` | Blackjack.java:369-375 | `State.hashCode` is a 32-bit value. |
| `Keys.StateHashPolynomial` | Blackjack.java:369-375 | Wrapping after each step gives the same hash as 506447 + 961·playerSum + 31·dealerCard + ace, wrapped once. |
| `Keys.StateHashInjective` | Blackjack.java:369-375 | When playerSum is in [0, 10^6] and dealerCard is in [0, 30], the hash never wraps and equals 506447 + 961·playerSum + 31·dealerCard + ace, and two such states have equal hashes exactly when they are equal. |
| `Keys.QValueEquals` | Blackjack.java:390-396 | `QValue.equals` holds exactly when the states and the actions are equal, whatever the stored values. |
| `Keys.QValueHash` | Blackjack.java:399-401 | `QValue.hashCode` is a 32-bit value. |
| `Keys.QValueHashConsistent` | Blackjack.java:389-401 | Equal `QValue`s have equal hashes, as a hash map needs. |
| `Learning.BootstrapMax` | Blackjack.java:524-529 | The running maximum over actions 0..n-1, seeded with 0.0, is never negative. It is at least every scanned action's value, and it is either 0.0 or one of those values. |
| `Learning.GreedyAction` | Blackjack.java:507-519 | The greedy action is Hit or Stand, and its value is at least the other action's value. Ties go to Hit. |
| `Learning.Updated` | Blackjack.java:522-533 | The entry for (s, a) is set to old + α·(r + γ·m − old), where m is `BootstrapMax` over the next state read before the write. That key is added. Every other key reads as before. |
| `Learning.UpdateAlwaysBootstraps` | Blackjack.java:522-533 | Take α ≥ 0 and γ ≥ 0. The new value is never below the terminal target old + α·(r − old). It equals that target exactly when α = 0, γ = 0, or the next state has no positive entry, on terminal transitions too. |
| `Learning.QLearningAgent.constructor` | Blackjack.java:490-495 | The agent starts with an empty table and the given α, γ and ε. |
| `Learning.QLearningAgent.GetAction` | Blackjack.java:497-520 | Returns 0 or 1. A player sum of 20 or more gives Stand, before any exploration. An exploration draw below ε gives the random pick. Otherwise the result is `GreedyAction` on the current table. |
| `Learning.QLearningAgent.UpdateQValue` | Blackjack.java:522-534 | The table becomes `Updated` of the old table. |

## Left out

- `Math.random` (Blackjack.java:481, 503-504) is not modelled as a
  distribution. The environment reads ranks from the `deck` oracle. The
  random draws in `getAction` are the parameters `explore` and `pick` in [0, 1).
- IEEE `double` arithmetic in the Q-values and the update is modelled as
  exact `real` arithmetic. Rounding, NaN and infinities are not captured.
  The initial `Double.NEGATIVE_INFINITY` of the argmax is modelled as a
  "nothing scanned yet" flag.
- `train` (Blackjack.java:536-552) is not modelled: it orchestrates random
  episodes. Its epsilon decay (`epsilon *= 0.999`) is not modelled either.
  It reads `getReward()` after every step, not only the terminal one, and
  passes that value to the update.
- `printPolicy` and `main` (Blackjack.java:554-603) are not modelled. They
  are console output and parameter wiring.
- `HashMap` bucket mechanics are not modelled. The table is a Dafny `map`
  keyed by (state, action), which is the equivalence that `QValue.equals`
  defines (`QValueEquals`).
- The `instanceof` test in both `equals` methods is not modelled, because
  the model's arguments are typed.
- `Keys.StateHash`: its own contract states only the 32-bit range. The exact
  value is stated by `StateHashPolynomial` and `StateHashInjective`.
- `Keys.QValueHash`: its own contract states only the 32-bit range. Its
  agreement with `equals` is stated by `QValueHashConsistent`.
