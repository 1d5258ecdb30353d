/** The KRX price grid: `internal/exec/tick.go`. */
module Prices {
  datatype Side = Buy | Sell

  function Min(a: int, b: int): int { if a <= b then a else b }

  function Max(a: int, b: int): int { if a >= b then a else b }

  /** The tick size at price `p`: seven bands. */
  function TickAt(p: int): int {
    if p < 2_000 then 1
    else if p < 5_000 then 5
    else if p < 20_000 then 10
    else if p < 50_000 then 50
    else if p < 200_000 then 100
    else if p < 500_000 then 500
    else 1_000
  }

  predicate OnGrid(p: int) {
    p >= 1 && p % TickAt(p) == 0
  }

  function FloorTick(p: int): int {
    if p < 1 then 0 else p - p % TickAt(p)
  }

  function CeilTick(p: int): int {
    if p < 1 then 0
    else
      var r := p % TickAt(p);
      if r != 0 then p - r + TickAt(p) else p
  }

  /** One tick from `p` toward `cap`, never past it. */
  function StepToward(side: Side, p: int, cap: int): int {
    if side == Buy then Min(p + TickAt(p), cap) else Max(p - TickAt(p - 1), cap)
  }

  /** Price `a` is worse for `side` than `b`: higher for a buy, lower for a sell. */
  predicate Worse(side: Side, a: int, b: int) {
    if side == Buy then a > b else a < b
  }

  lemma ProductGrowsLeft(a: int, b: int, c: int)
    requires a <= b && c >= 0
    ensures a * c <= b * c
  {
    assert (b - a) * c >= 0;
    assert (b - a) * c == b * c - a * c;
  }

  lemma PositiveMultiple(t: int, k: int)
    requires t >= 1 && t * k > 0
    ensures t * k >= t
  {
    if k >= 1 {
      assert t * k == t + t * (k - 1);
    }
  }

  lemma DivMod(a: int, t: int)
    requires t >= 1
    ensures a == t * (a / t) + a % t
  {
  }

  lemma RemainderIsUnique(m: int, t: int, q: int)
    requires t >= 1 && m == t * q
    ensures m % t == 0
  {
    DivMod(m, t);
    var d := m / t - q;
    assert t * d == t * (m / t) - t * q;
    if t * d < 0 {
      assert t * -d == -(t * d);
      PositiveMultiple(t, -d);
    }
  }

  /** Two different multiples of `t` are at least `t` apart. */
  lemma MultiplesAreApart(a: int, b: int, t: int)
    requires t >= 1 && a % t == 0 && b % t == 0 && a < b
    ensures a + t <= b
  {
    DivMod(a, t);
    DivMod(b, t);
    var i, j := a / t, b / t;
    assert t * (j - i) == t * j - t * i;
    PositiveMultiple(t, j - i);
  }

  lemma RoundDown(p: int, t: int)
    requires t >= 1
    ensures (p - p % t) % t == 0
  {
    DivMod(p, t);
    RemainderIsUnique(p - p % t, t, p / t);
  }

  /** Rounding `p` down stays in its band, because every band starts on a multiple of its tick. */
  lemma RoundDownKeepsBand(p: int)
    requires p >= 1
    ensures var f := p - p % TickAt(p); 1 <= f && TickAt(f) == TickAt(p)
  {
    if p < 2_000 {
    } else if p < 5_000 {
    } else if p < 20_000 {
    } else if p < 50_000 {
    } else if p < 200_000 {
    } else if p < 500_000 {
    }
  }

  lemma BandsNest(p: int, g: int)
    requires 1 <= p <= g && TickAt(p) == TickAt(g)
    ensures forall x :: p <= x <= g ==> TickAt(x) == TickAt(p)
  {
  }

  lemma FloorTickIsGreatest(p: int)
    requires p >= 1
    ensures OnGrid(FloorTick(p)) && FloorTick(p) <= p
    ensures forall g :: OnGrid(g) && g <= p ==> g <= FloorTick(p)
  {
    var f := FloorTick(p);
    RoundDown(p, TickAt(p));
    RoundDownKeepsBand(p);
    forall g | OnGrid(g) && g <= p
      ensures g <= f
    {
      if g > f {
        BandsNest(f, p);
        MultiplesAreApart(f, g, TickAt(p));
      }
    }
  }

  lemma CeilTickIsLeast(p: int)
    requires p >= 1
    ensures OnGrid(CeilTick(p)) && p <= CeilTick(p)
    ensures forall g :: OnGrid(g) && p <= g ==> CeilTick(p) <= g
  {
    FloorTickIsGreatest(p);
    var f := FloorTick(p);
    if f != p {
      StepUpIsAdjacent(f);
      RoundDownKeepsBand(p);
      forall g | OnGrid(g) && p <= g
        ensures f + TickAt(f) <= g
      {
        assert f < g;
      }
    }
  }

  lemma StepUpIsAdjacent(p: int)
    requires OnGrid(p)
    ensures OnGrid(p + TickAt(p))
    ensures forall g :: OnGrid(g) && p < g ==> p + TickAt(p) <= g
  {
    forall g | OnGrid(g) && p < g
      ensures p + TickAt(p) <= g
    {
      if g < p + TickAt(p) {
        MultiplesAreApart(p, g, TickAt(p));
      }
    }
  }

  lemma StepDownIsAdjacent(p: int)
    requires OnGrid(p) && p >= 2
    ensures OnGrid(p - TickAt(p - 1))
    ensures forall g :: OnGrid(g) && g < p ==> g <= p - TickAt(p - 1)
  {
    forall g | OnGrid(g) && g < p
      ensures g <= p - TickAt(p - 1)
    {
      if g > p - TickAt(p - 1) {
        MultiplesAreApart(g, p, TickAt(p - 1));
      }
    }
  }

  /** `n` consecutive steps toward the cap. */
  function Walk(side: Side, p: int, cap: int, n: nat): int
    decreases n
  {
    if n == 0 then p else Walk(side, StepToward(side, p, cap), cap, n - 1)
  }

  /** The grid prices still to pass on the way from `p` to `cap`, `cap` included. */
  ghost function Ahead(side: Side, p: int, cap: int): set<int> {
    if side == Buy then set g | p < g <= cap && OnGrid(g)
    else set g | cap <= g < p && OnGrid(g)
  }

  lemma StepPassesOne(side: Side, p: int, cap: int)
    requires OnGrid(p) && OnGrid(cap) && Worse(side, cap, p)
    ensures var q := StepToward(side, p, cap);
            OnGrid(q) && !Worse(side, q, cap) && |Ahead(side, p, cap)| == 1 + |Ahead(side, q, cap)|
  {
    if side == Buy {
      StepUpIsAdjacent(p);
    } else {
      StepDownIsAdjacent(p);
    }
    var q := StepToward(side, p, cap);
    assert Ahead(side, p, cap) == {q} + Ahead(side, q, cap);
    assert q !in Ahead(side, q, cap);
  }

  /**
   * A resting order reaches the cap after exactly as many steps as there are
   * grid prices ahead of it; until then every step is a new grid price short of it.
   */
  lemma {:induction false} WalkReachesCap(side: Side, p: int, cap: int, n: nat)
    requires OnGrid(p) && OnGrid(cap) && !Worse(side, p, cap)
    ensures OnGrid(Walk(side, p, cap, n)) && !Worse(side, Walk(side, p, cap, n), cap)
    ensures Walk(side, p, cap, n) == cap <==> |Ahead(side, p, cap)| <= n
    ensures n <= |Ahead(side, p, cap)| ==> |Ahead(side, Walk(side, p, cap, n), cap)| == |Ahead(side, p, cap)| - n
    decreases n
  {
    if p == cap {
      assert Ahead(side, p, cap) == {};
      if n > 0 {
        assert StepToward(side, p, cap) == cap;
        WalkReachesCap(side, cap, cap, n - 1);
      }
    } else {
      assert cap in Ahead(side, p, cap);
      if n > 0 {
        StepPassesOne(side, p, cap);
        WalkReachesCap(side, StepToward(side, p, cap), cap, n - 1);
      }
    }
  }

  /** The grid of the Korean exchange in force since 2023-01-25, band by band. */
  lemma GridIsTheTable(p: int)
    ensures OnGrid(p) <==>
            p >= 1 &&
            if p < 2_000 then true
            else if p < 5_000 then p % 5 == 0
            else if p < 20_000 then p % 10 == 0
            else if p < 50_000 then p % 50 == 0
            else if p < 200_000 then p % 100 == 0
            else if p < 500_000 then p % 500 == 0
            else p % 1_000 == 0
  {
  }
}
