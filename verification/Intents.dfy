/** The approved intent and its numeric bounds: `internal/exec/intent.go`. */
module Intents {
  import opened Prices

  const MAX_INTENT_NOTIONAL_KRW := 5_000_000
  const MAX_INTENT_QUANTITY := 1_000_000
  const MAX_LIMIT_PRICE_KRW := 10_000_000
  const MAX_SLIPPAGE_BPS := 500
  const MAX_POSITION := 1_000_000_000

  datatype Inventory = Inventory(positionAtAuthorization: int, minPositionAfter: int, maxPositionAfter: int)

  /** `textOK` stands for the checks of text fields: versions, account, venue, symbol and references. */
  datatype Intent = Intent(
    intentID: string, side: Side, maxQuantity: int, maxNotionalKRW: int, limitPriceKRW: int,
    maxSlippageBps: int, expiresAtNS: int, inventory: Inventory, textOK: bool)
  {
    /** The worst price the executor may send: the limit moved onto the grid in the side's favour. */
    function Cap(): int {
      if side == Buy then FloorTick(limitPriceKRW) else CeilTick(limitPriceKRW)
    }

    /** How far the position may move in the intent's direction. */
    function PositionRoom(): int {
      if side == Buy then inventory.maxPositionAfter - inventory.positionAtAuthorization
      else inventory.positionAtAuthorization - inventory.minPositionAfter
    }

    function TargetQty(): int {
      var q := if Cap() > 0 then Min(maxQuantity, maxNotionalKRW / Cap()) else maxQuantity;
      Max(Min(q, PositionRoom()), 0)
    }

    predicate Worse(a: int, b: int) {
      Prices.Worse(side, a, b)
    }

    predicate Valid() {
      && intentID != "" && textOK
      && 1 <= maxQuantity <= MAX_INTENT_QUANTITY
      && 1 <= maxNotionalKRW <= MAX_INTENT_NOTIONAL_KRW
      && 1 <= limitPriceKRW <= MAX_LIMIT_PRICE_KRW
      && 0 <= maxSlippageBps <= MAX_SLIPPAGE_BPS
      && 0 <= inventory.positionAtAuthorization <= MAX_POSITION
      && 0 <= inventory.minPositionAfter <= MAX_POSITION
      && 0 <= inventory.maxPositionAfter <= MAX_POSITION
      && inventory.minPositionAfter <= inventory.maxPositionAfter
      && Cap() >= 1
      && TargetQty() >= 1
    }

    /** The authorized position lies inside its own range; `Valid` does not ask for this. */
    predicate PositionInRange() {
      inventory.minPositionAfter <= inventory.positionAtAuthorization <= inventory.maxPositionAfter
    }
  }

  /** The cap is a grid price on the safe side of the limit, the nearest one. */
  lemma CapIsBestGridPrice(in_: Intent)
    requires in_.limitPriceKRW >= 1
    ensures OnGrid(in_.Cap()) && !in_.Worse(in_.Cap(), in_.limitPriceKRW)
    ensures forall g :: OnGrid(g) && !in_.Worse(g, in_.limitPriceKRW) ==> !in_.Worse(g, in_.Cap())
  {
    FloorTickIsGreatest(in_.limitPriceKRW);
    CeilTickIsLeast(in_.limitPriceKRW);
  }

  /** `TargetQty` is the largest quantity that fits all three limits at the cap price. */
  lemma TargetIsLargestThatFits(in_: Intent, q: int)
    requires in_.Valid()
    ensures q <= in_.TargetQty() <==>
            q <= in_.maxQuantity && q * in_.Cap() <= in_.maxNotionalKRW && q <= in_.PositionRoom()
  {
    DivisionFits(in_.maxNotionalKRW, in_.Cap(), q);
  }

  /** `q` units at price `p` fit in `n` exactly when `q <= n / p`. */
  lemma DivisionFits(n: int, p: int, q: int)
    requires p >= 1
    ensures q <= n / p <==> q * p <= n
  {
    DivMod(n, p);
    if q <= n / p {
      ProductGrowsLeft(q, n / p, p);
    } else {
      ProductGrowsLeft(n / p + 1, q, p);
    }
  }

  /**
   * What validation asks of the numbers: each within its bounds, a range that is one, and room for one
   * share at the cap.
   */
  lemma ValidatesExactly(i: Intent)
    ensures i.Valid() <==>
            && i.intentID != "" && i.textOK
            && 1 <= i.maxQuantity <= 1_000_000 && 1 <= i.maxNotionalKRW <= 5_000_000
            && 1 <= i.limitPriceKRW <= 10_000_000 && 0 <= i.maxSlippageBps <= 500
            && var r := i.inventory;
            && 0 <= r.positionAtAuthorization <= 1_000_000_000
            && 0 <= r.minPositionAfter <= r.maxPositionAfter <= 1_000_000_000
            && 1 <= i.Cap() <= i.maxNotionalKRW
            && if i.side == Buy then r.positionAtAuthorization < r.maxPositionAfter
               else r.minPositionAfter < r.positionAtAuthorization
  {
    if i.Cap() >= 1 {
      DivisionFits(i.maxNotionalKRW, i.Cap(), 1);
    }
  }

}
