/** The strategy and the automatic player as objects (client/strategy.cpp, client/player_auto.cpp). */
module Player {
  import opened Cards
  import opened Client

  /** The first card of the wanted colour. */
  lemma FirstOfIs(hand: Hand, color: Color, i: nat)
    requires i < |hand| && hand[i].color == color
    requires forall j :: 0 <= j < i ==> hand[j].color != color
    ensures FirstOf(hand, color) == i
  {
  }

  class Strategy {
    var hand: Hand

    constructor (hand: Hand)
      ensures this.hand == hand
    {
      this.hand := hand;
    }

    method NextMove(t: seq<Card>) returns (card: Card)
      requires hand != []
      modifies this
      ensures card == Pick(old(hand), t) && hand == WithoutIx(old(hand), PickIx(old(hand), t))
    {
      if t != [] {
        var colorReq := t[0].color;
        var cand, toErase := hand[0], 0;
        for iter := 0 to |hand|
          invariant toErase < |hand| && cand == hand[toErase]
          invariant cand.color != colorReq ==> toErase == 0 && forall j :: 0 <= j < iter ==> hand[j].color != colorReq
          invariant cand.color == colorReq ==> forall j :: 0 <= j < toErase ==> hand[j].color != colorReq
        {
          var c := hand[iter];
          if cand.color != colorReq && c.color == colorReq {
            toErase := iter;
            cand := c;
          }
        }
        if cand.color == colorReq {
          FirstOfIs(hand, colorReq, toErase);
        }
        hand := hand[..toErase] + hand[toErase + 1..];
        return cand;
      } else {
        card := hand[|hand| - 1];
        hand := hand[..|hand| - 1];
      }
    }

    method Reset(newHand: Hand)
      modifies this
      ensures hand == newHand
    {
      hand := newHand;
    }
  }

  class PlayerAuto {
    const strategy: Strategy
    var nextTrick: int
    var lastCards: seq<Card>

    constructor ()
      ensures nextTrick == 0 && lastCards == [] && fresh(strategy) && strategy.hand == []
    {
      nextTrick := 0;
      lastCards := [];
      strategy := new Strategy([]);
    }

    /** A trick already answered is ignored; otherwise a card is chosen and handed on. */
    method TrickMsg(trickNo: int, table: seq<Card>) returns (chosen: seq<Card>)
      requires trickNo < nextTrick || strategy.hand != []
      modifies this, strategy
      ensures trickNo < old(nextTrick) ==>
                chosen == [] && nextTrick == old(nextTrick) && strategy.hand == old(strategy.hand)
                  && lastCards == old(lastCards)
      ensures trickNo >= old(nextTrick) ==>
                && chosen == [Pick(old(strategy.hand), table)]
                && nextTrick == trickNo + 1
                && strategy.hand == WithoutIx(old(strategy.hand), PickIx(old(strategy.hand), table))
                && lastCards == old(lastCards) + chosen
    {
      if trickNo < nextTrick {
        return [];
      }
      nextTrick := trickNo + 1;
      var c := strategy.NextMove(table);
      lastCards := lastCards + [c];
      return [c];
    }

    method DealMsg(hand: Hand)
      modifies this, strategy
      ensures nextTrick == 1 && strategy.hand == hand && lastCards == old(lastCards)
    {
      nextTrick := 1;
      strategy.Reset(hand);
    }

    /** The refused card comes back to the hand. */
    method WrongMsg(trickNo: int)
      modifies this, strategy
      ensures nextTrick == trickNo
      ensures old(lastCards) == [] ==> lastCards == [] && strategy.hand == old(strategy.hand)
      ensures old(lastCards) != [] ==>
                lastCards == old(lastCards)[1..] && strategy.hand == old(strategy.hand) + [old(lastCards)[0]]
    {
      nextTrick := trickNo;
      if lastCards != [] {
        strategy.hand := strategy.hand + [lastCards[0]];
        lastCards := lastCards[1..];
      }
    }

    /** A replayed trick takes its cards out of the hand; otherwise the player's own card has been confirmed. */
    method TakenMsg(cards: seq<Card>, trickNo: int, apply: bool)
      modifies this, strategy
      ensures nextTrick == trickNo + 1
      ensures apply ==> strategy.hand == RmAll(old(strategy.hand), cards) && lastCards == old(lastCards)
      ensures !apply ==>
                && strategy.hand == old(strategy.hand)
                && lastCards == if old(lastCards) == [] then [] else old(lastCards)[1..]
    {
      nextTrick := trickNo + 1;
      if apply {
        strategy.hand := RmIntersection(strategy.hand, cards);
      } else if lastCards != [] {
        lastCards := lastCards[1..];
      }
    }
  }
}
