/**
  The money and price arithmetic of the pair (abt/pair_cell.py), over exact reals: volume grids, lots both
  brokers can hold, stops bounded by a loss in USD, and the price box both Workers derive on their own.
*/
module Sizing {
  import opened Prelude

  datatype Side = Long | Short

  function Opposite(d: Side): Side {
    if d == Long then Short else Long
  }

  function Min(a: real, b: real): real {
    if a <= b then a else b
  }

  function Max(a: real, b: real): real {
    if a <= b then b else a
  }

  // ---- rounding to a grid ----------------------------------------------------------------------

  /** `k` ticks. */
  function Times(k: real, tick: real): real {
    k * tick
  }

  function Whole(k: int, tick: real): real {
    Times(k as real, tick)
  }

  lemma TimesOrder(a: real, b: real, t: real)
    requires t > 0.0
    ensures a < b <==> Times(a, t) < Times(b, t)
    ensures a == b <==> Times(a, t) == Times(b, t)
  {
    if a < b { assert (b - a) * t > 0.0; }
    if b < a { assert (a - b) * t > 0.0; }
  }

  lemma TimesStep(k: real, t: real)
    ensures Times(k + 1.0, t) == Times(k, t) + t && Times(k - 1.0, t) == Times(k, t) - t && Times(0.0, t) == 0.0
    ensures Times(-k, t) == -Times(k, t)
  {
  }

  lemma TimesOfQuotient(x: real, t: real)
    requires t > 0.0
    ensures Times(x / t, t) == x
  {
  }

  function Down(price: real, tick: real): real
    requires tick > 0.0
  {
    Whole((price / tick).Floor, tick)
  }

  function Up(price: real, tick: real): real
    requires tick > 0.0
  {
    -Down(-price, tick)
  }

  ghost predicate OnGrid(x: real, tick: real) {
    exists k: int :: x == Whole(k, tick)
  }

  lemma DownIsNearest(price: real, tick: real)
    requires tick > 0.0
    ensures Down(price, tick) <= price < Down(price, tick) + tick
    ensures OnGrid(Down(price, tick), tick)
  {
    hide Times;
    var q := price / tick;
    var k := q.Floor;
    TimesOfQuotient(price, tick);
    TimesOrder(k as real, q, tick);
    TimesOrder(q, k as real + 1.0, tick);
    TimesStep(k as real, tick);
  }

  lemma UpIsNearest(price: real, tick: real)
    requires tick > 0.0
    ensures Up(price, tick) - tick < price <= Up(price, tick)
    ensures OnGrid(Up(price, tick), tick)
  {
    hide Times;
    DownIsNearest(-price, tick);
    var k: int :| Down(-price, tick) == Whole(k, tick);
    TimesStep(k as real, tick);
    assert Up(price, tick) == Whole(-k, tick);
  }

  // ---- volumes ---------------------------------------------------------------------------------

  /** A volume the broker accepts: the minimum plus whole steps. */
  ghost predicate Tradable(lots: real, min: real, step: real) {
    exists k: nat :: lots == min + Whole(k, step)
  }

  /** `floor_to_volume_step` */
  function FloorToStep(raw: real, min: real, max: real, step: real): Option<real> {
    if step <= 0.0 || min <= 0.0 || max < min || raw < min then None
    else Some(min + Down(Min(raw, max) - min, step))
  }

  /** The floor is the greatest volume on the grid that neither the request nor the maximum forbids. */
  lemma FloorIsGreatest(raw: real, min: real, max: real, step: real, lots: real)
    requires step > 0.0 && min > 0.0
    ensures var r := FloorToStep(raw, min, max, step);
            && (r.Some? ==> Tradable(r.value, min, step) && min <= r.value <= raw && r.value <= max)
            && (Tradable(lots, min, step) && lots <= raw && lots <= max ==> r.Some? && lots <= r.value)
  {
    hide Times;
    if FloorToStep(raw, min, max, step).Some? {
      var room := Min(raw, max) - min;
      DownIsNearest(room, step);
      var k := (room / step).Floor;
      FloorOfPositive(room, step);
      assert Tradable(min + Whole(k, step), min, step);
      if Tradable(lots, min, step) && lots <= raw && lots <= max {
        var j: nat :| lots == min + Whole(j, step);
        GridBelow(j, k, step, room);
      }
    } else if Tradable(lots, min, step) {
      var j: nat :| lots == min + Whole(j, step);
      TimesOrder(0.0, j as real, step);
      TimesStep(0.0, step);
    }
  }

  lemma FloorOfPositive(room: real, step: real)
    requires step > 0.0 && room >= 0.0
    ensures (room / step).Floor >= 0
    ensures Times((room / step).Floor as real, step) >= 0.0
  {
    hide Times;
    TimesOfQuotient(room, step);
    TimesOrder(room / step, 0.0, step);
    TimesStep(0.0, step);
    TimesOrder(0.0, (room / step).Floor as real, step);
  }

  lemma GridBelow(j: int, k: int, step: real, room: real)
    requires step > 0.0 && room < Times(k as real, step) + step
    requires Times(j as real, step) <= room
    ensures j <= k && Times(j as real, step) <= Times(k as real, step)
  {
    hide Times;
    TimesStep(k as real, step);
    TimesOrder(j as real, k as real + 1.0, step);
    TimesOrder(j as real, k as real, step);
  }

  /** One Worker's sizing plan, as far as volumes go: its own maximum, priced from its margin budget. */
  datatype VolumePlan = VolumePlan(maxLots: real, min: real, step: real)

  /** `_refresh_sizing_plans`: what the margin budget allows, on the product's grid. */
  function PlanLots(budget: real, marginPerLot: real, min: real, max: real, step: real): Option<VolumePlan>
    requires marginPerLot > 0.0
  {
    match FloorToStep(budget / marginPerLot, min, max, step)
    case None => None
    case Some(lots) => Some(VolumePlan(lots, min, step))
  }

  /** `_combine_pair_lots`: on the leader's grid, by both Workers. */
  function CombineLots(leader: VolumePlan, follower: VolumePlan): Option<real> {
    var lower := Min(leader.maxLots, follower.maxLots);
    FloorToStep(lower, leader.min, lower, leader.step)
  }

  /** Two plans of one product agree on the smaller of their maxima, whichever side leads, and a plan
      that is off the leader's grid only ever rounds the pair down. */
  lemma CommonLotsAreTheSmaller(one: VolumePlan, two: VolumePlan)
    requires one.step > 0.0 && one.min > 0.0 && one.min == two.min && one.step == two.step
    requires Tradable(one.maxLots, one.min, one.step) && Tradable(two.maxLots, two.min, two.step)
    ensures CombineLots(one, two) == Some(Min(one.maxLots, two.maxLots)) == CombineLots(two, one)
  {
    var lower := Min(one.maxLots, two.maxLots);
    FloorIsGreatest(lower, one.min, lower, one.step, lower);
  }

  lemma CommonLotsNeverExceed(leader: VolumePlan, follower: VolumePlan, lots: real)
    requires leader.step > 0.0 && leader.min > 0.0
    ensures var r := CombineLots(leader, follower);
            && (r.Some? ==> Tradable(r.value, leader.min, leader.step) && r.value <= leader.maxLots && r.value <= follower.maxLots)
            && (Tradable(lots, leader.min, leader.step) && lots <= leader.maxLots && lots <= follower.maxLots ==> r.Some? && lots <= r.value)
  {
    FloorIsGreatest(Min(leader.maxLots, follower.maxLots), leader.min, Min(leader.maxLots, follower.maxLots), leader.step, lots);
  }

  /** The pair's lots fit both margin budgets and both maxima, each budget under its own price, and no other
      volume that does is greater. */
  lemma CommonLotsFitBothBudgets(budgets: (real, real), margins: (real, real), min: real, maxima: (real, real), step: real, other: real)
    requires step > 0.0 && min > 0.0 && margins.0 > 0.0 && margins.1 > 0.0
    ensures var leader := PlanLots(budgets.0, margins.0, min, maxima.0, step);
            var follower := PlanLots(budgets.1, margins.1, min, maxima.1, step);
            && (leader.Some? && follower.Some? ==>
                  && CombineLots(leader.value, follower.value).Some?
                  && var lots := CombineLots(leader.value, follower.value).value;
                     && lots * margins.0 <= budgets.0 && lots * margins.1 <= budgets.1 && lots <= maxima.0 && lots <= maxima.1)
            && (Tradable(other, min, step) && other * margins.0 <= budgets.0 && other * margins.1 <= budgets.1 && other <= maxima.0 && other <= maxima.1 ==>
                  leader.Some? && follower.Some? && other <= CombineLots(leader.value, follower.value).value)
  {
    hide Times, FloorToStep;
    var leader := PlanLots(budgets.0, margins.0, min, maxima.0, step);
    var follower := PlanLots(budgets.1, margins.1, min, maxima.1, step);
    if leader.Some? && follower.Some? {
      FloorIsGreatest(budgets.0 / margins.0, min, maxima.0, step, min);
      FloorIsGreatest(budgets.1 / margins.1, min, maxima.1, step, min);
      CommonLotsAreTheSmaller(leader.value, follower.value);
      var lots := CombineLots(leader.value, follower.value).value;
      Affordable(lots, budgets.0, margins.0);
      Affordable(lots, budgets.1, margins.1);
      ProductIs(lots, margins.0);
      ProductIs(lots, margins.1);
    }
    Affordable(other, budgets.0, margins.0);
    Affordable(other, budgets.1, margins.1);
    ProductIs(other, margins.0);
    ProductIs(other, margins.1);
    FloorIsGreatest(budgets.0 / margins.0, min, maxima.0, step, other);
    FloorIsGreatest(budgets.1 / margins.1, min, maxima.1, step, other);
  }

  lemma ProductIs(k: real, tick: real)
    ensures Times(k, tick) == k * tick
  {
  }

  lemma Affordable(lots: real, budget: real, margin: real)
    requires margin > 0.0
    ensures lots <= budget / margin <==> Times(lots, margin) <= budget
  {
    hide Times;
    TimesOfQuotient(budget, margin);
    TimesOrder(lots, budget / margin, margin);
  }

  // ---- stops bounded by a loss in USD ----------------------------------------------------------

  /** The prices of one side's plan: grid, broker stop distance, and USD per tick and lot. */
  datatype PricePlan = PricePlan(tick: real, minDistance: real, profitTickValue: real, lossTickValue: real)

  datatype Stops = Stops(sl: real, tp: real)

  predicate Usable(p: PricePlan) {
    p.tick > 0.0 && p.minDistance >= 0.0 && p.profitTickValue > 0.0 && p.lossTickValue > 0.0
  }

  /** USD of one tick at this volume. */
  function PerTick(tickValue: real, volume: real): (r: real)
    ensures tickValue > 0.0 && volume > 0.0 ==> r > 0.0
  {
    tickValue * volume
  }

  /** Whole ticks that `allowed` pays for. */
  function TicksFor(allowed: real, perTick: real): int
    requires perTick > 0.0
  {
    (allowed / perTick).Floor
  }

  /** `compute_protection` */
  function ComputeProtection(entry: real, side: Side, volume: real, plan: PricePlan, allowed: real): Option<Stops> {
    if !Usable(plan) || volume <= 0.0 || allowed <= 0.0 then None
    else
      var lossTicks := TicksFor(allowed, PerTick(plan.lossTickValue, volume));
      var profitTicks := TicksFor(allowed, PerTick(plan.profitTickValue, volume));
      if lossTicks < 1 || profitTicks < 1 then None
      else
        var lossDistance := Times(lossTicks as real, plan.tick);
        var profitDistance := Times(profitTicks as real, plan.tick);
        if lossDistance < plan.minDistance || profitDistance < plan.minDistance then None
        else
          var stops :=
            if side == Long then Stops(Up(entry - lossDistance, plan.tick), Down(entry + profitDistance, plan.tick))
            else Stops(Down(entry + lossDistance, plan.tick), Up(entry - profitDistance, plan.tick));
          if stops.sl <= 0.0 || stops.tp <= 0.0 then None else Some(stops)
  }

  /** What a move over `distance` is worth, at so much per tick. */
  function Usd(distance: real, tick: real, perTick: real): real
    requires tick > 0.0
  {
    Times(distance / tick, perTick)
  }

  function LossAt(entry: real, side: Side, volume: real, plan: PricePlan, exit: real): real
    requires plan.tick > 0.0
  {
    Usd(if side == Long then entry - exit else exit - entry, plan.tick, PerTick(plan.lossTickValue, volume))
  }

  function GainAt(entry: real, side: Side, volume: real, plan: PricePlan, exit: real): real
    requires plan.tick > 0.0
  {
    Usd(if side == Long then exit - entry else entry - exit, plan.tick, PerTick(plan.profitTickValue, volume))
  }

  /** A distance within the whole ticks that `allowed` pays for costs at most that; one that falls short of
      them by less than a tick costs more than that less two ticks. */
  lemma TicksBoundUsd(distance: real, ticks: int, tick: real, perTick: real, allowed: real)
    requires tick > 0.0 && perTick > 0.0
    requires ticks == TicksFor(allowed, perTick)
    requires Times(ticks as real, tick) - tick < distance <= Times(ticks as real, tick)
    ensures allowed - 2.0 * perTick < Usd(distance, tick, perTick) <= allowed
  {
    hide Times;
    var q := distance / tick;
    var n := ticks as real;
    TimesOfQuotient(distance, tick);
    TimesStep(n, tick);
    TimesOrder(n, q, tick);
    TimesOrder(n - 1.0, q, tick);
    assert n - 1.0 < q <= n;
    TimesOfQuotient(allowed, perTick);
    TimesStep(allowed / perTick, perTick);
    TimesStep(n, perTick);
    TimesOrder(q, n, perTick);
    TimesOrder(n - 1.0, q, perTick);
    TimesOrder(n, allowed / perTick, perTick);
    TimesOrder(allowed / perTick - 1.0, n, perTick);
  }

  lemma OneToOneInTicks(entry: real, side: Side, volume: real, plan: PricePlan, allowed: real)
    requires ComputeProtection(entry, side, volume, plan, allowed).Some?
    ensures var s := ComputeProtection(entry, side, volume, plan, allowed).value;
            && Usable(plan) && volume > 0.0 && OnGrid(s.sl, plan.tick) && OnGrid(s.tp, plan.tick)
            && allowed - 2.0 * PerTick(plan.lossTickValue, volume) < LossAt(entry, side, volume, plan, s.sl) <= allowed
            && allowed - 2.0 * PerTick(plan.profitTickValue, volume) < GainAt(entry, side, volume, plan, s.tp) <= allowed
  {
    hide Times, Up, Down, Usd, PerTick, TicksFor, OnGrid;
    var lossTicks := TicksFor(allowed, PerTick(plan.lossTickValue, volume));
    var profitTicks := TicksFor(allowed, PerTick(plan.profitTickValue, volume));
    var loss, profit := Times(lossTicks as real, plan.tick), Times(profitTicks as real, plan.tick);
    UpIsNearest(entry - loss, plan.tick);
    DownIsNearest(entry + profit, plan.tick);
    DownIsNearest(entry + loss, plan.tick);
    UpIsNearest(entry - profit, plan.tick);
    var s := ComputeProtection(entry, side, volume, plan, allowed).value;
    TicksBoundUsd(if side == Long then entry - s.sl else s.sl - entry, lossTicks, plan.tick, PerTick(plan.lossTickValue, volume), allowed);
    TicksBoundUsd(if side == Long then s.tp - entry else entry - s.tp, profitTicks, plan.tick, PerTick(plan.profitTickValue, volume), allowed);
  }

  /** USD: ticks, times USD per tick and lot, times lots. */
  lemma BoundIs(distance: real, tick: real, tickValue: real, volume: real, allowed: real)
    requires tick > 0.0
    requires allowed - 2.0 * PerTick(tickValue, volume) < Usd(distance, tick, PerTick(tickValue, volume)) <= allowed
    ensures allowed - 2.0 * tickValue * volume < distance / tick * tickValue * volume <= allowed
  {
    var q := distance / tick;
    assert q * (tickValue * volume) == q * tickValue * volume;
  }

  /** Rough protection risks and targets the allowed amount: at its volume, the stop loses and the target gains
      at most that, each short of it by less than two ticks. */
  lemma ProtectionIsOneToOne(entry: real, side: Side, volume: real, plan: PricePlan, allowed: real)
    requires ComputeProtection(entry, side, volume, plan, allowed).Some?
    ensures Usable(plan) && volume > 0.0
    ensures var s := ComputeProtection(entry, side, volume, plan, allowed).value;
            && OnGrid(s.sl, plan.tick) && OnGrid(s.tp, plan.tick)
            && (side == Long ==>
                  && allowed - 2.0 * plan.lossTickValue * volume < (entry - s.sl) / plan.tick * plan.lossTickValue * volume <= allowed
                  && allowed - 2.0 * plan.profitTickValue * volume < (s.tp - entry) / plan.tick * plan.profitTickValue * volume <= allowed)
            && (side == Short ==>
                  && allowed - 2.0 * plan.lossTickValue * volume < (s.sl - entry) / plan.tick * plan.lossTickValue * volume <= allowed
                  && allowed - 2.0 * plan.profitTickValue * volume < (entry - s.tp) / plan.tick * plan.profitTickValue * volume <= allowed)
  {
    hide ComputeProtection, Usd, PerTick, OnGrid;
    var s := ComputeProtection(entry, side, volume, plan, allowed).value;
    OneToOneInTicks(entry, side, volume, plan, allowed);
    if side == Long {
      BoundIs(entry - s.sl, plan.tick, plan.lossTickValue, volume, allowed);
      BoundIs(s.tp - entry, plan.tick, plan.profitTickValue, volume, allowed);
    } else {
      BoundIs(s.sl - entry, plan.tick, plan.lossTickValue, volume, allowed);
      BoundIs(entry - s.tp, plan.tick, plan.profitTickValue, volume, allowed);
    }
  }

  /** The whole ticks that the allowed amount pays for at this volume. */
  ghost predicate PaysFor(allowed: real, tickValue: real, volume: real, n: int) {
    n as real * tickValue * volume <= allowed < (n as real + 1.0) * tickValue * volume
  }

  lemma TicksArePaidFor(allowed: real, tickValue: real, volume: real, n: int)
    requires tickValue > 0.0 && volume > 0.0
    ensures PaysFor(allowed, tickValue, volume, n) <==> n == TicksFor(allowed, PerTick(tickValue, volume))
  {
    var per := PerTick(tickValue, volume);
    var q := allowed / per;
    assert n as real * tickValue * volume == n as real * per && (n as real + 1.0) * tickValue * volume == (n as real + 1.0) * per;
    TimesOfQuotient(allowed, per);
    TimesOrder(n as real, q, per);
    TimesOrder(q, n as real + 1.0, per);
    ProductIs(n as real, per);
    ProductIs(n as real + 1.0, per);
    hide PerTick, Times;
    assert PaysFor(allowed, tickValue, volume, n) <==> n as real <= q < n as real + 1.0;
  }

  /** There is protection exactly if the allowed amount pays for whole ticks on both sides, at least one and at
      least the broker's distance, and both prices stay positive. */
  lemma ProtectionExistsIff(entry: real, side: Side, volume: real, plan: PricePlan, allowed: real, n: int, m: int, loss: real, profit: real)
    requires plan.tick > 0.0 && plan.minDistance >= 0.0 && plan.profitTickValue > 0.0 && plan.lossTickValue > 0.0
    requires volume > 0.0 && allowed > 0.0
    requires PaysFor(allowed, plan.lossTickValue, volume, n) && PaysFor(allowed, plan.profitTickValue, volume, m)
    requires loss == n as real * plan.tick && profit == m as real * plan.tick
    ensures ComputeProtection(entry, side, volume, plan, allowed).Some? <==>
              && n >= 1 && m >= 1 && loss >= plan.minDistance && profit >= plan.minDistance
              && (if side == Long then entry - loss > 0.0 && entry + profit >= plan.tick else entry + loss >= plan.tick && entry - profit > 0.0)
  {
    hide Times, PerTick, TicksFor, Up, Down, PaysFor;
    TicksArePaidFor(allowed, plan.lossTickValue, volume, n);
    TicksArePaidFor(allowed, plan.profitTickValue, volume, m);
    ProductIs(n as real, plan.tick);
    ProductIs(m as real, plan.tick);
    assert Times(n as real, plan.tick) == loss && Times(m as real, plan.tick) == profit;
    if side == Long {
      PositiveOnGrid(entry - loss, plan.tick);
      PositiveOnGrid(entry + profit, plan.tick);
    } else {
      PositiveOnGrid(entry + loss, plan.tick);
      PositiveOnGrid(entry - profit, plan.tick);
    }
  }

  lemma PositiveOnGrid(x: real, tick: real)
    requires tick > 0.0
    ensures Up(x, tick) > 0.0 <==> x > 0.0
    ensures Down(x, tick) > 0.0 <==> x >= tick
  {
    hide Times;
    UpIsNearest(x, tick);
    DownIsNearest(x, tick);
    var q := x / tick;
    var u := (-x / tick).Floor;
    TimesStep(0.0, tick);
    TimesStep(u as real, tick);
    TimesOrder(u as real, 0.0, tick);
    TimesOrder(u as real, -1.0, tick);
    TimesOrder(0.0, q.Floor as real, tick);
    TimesOrder(1.0, q.Floor as real, tick);
    assert Times(1.0, tick) == tick by { ProductIs(1.0, tick); }
  }

  // ---- the mirrored box ------------------------------------------------------------------------

  /** One leg as both Workers know it from the immutable attempt: fill, plan, allowed loss. */
  datatype LegFacts = LegFacts(fill: real, plan: PricePlan, allowed: real)

  datatype Box = Box(low: real, high: real)

  /** The shared boundaries, as a Worker derives them from its own and its peer's leg. */
  function SharedBox(own: LegFacts, peer: LegFacts, side: Side, volume: real): Option<Box> {
    var (long, short) := if side == Long then (own, peer) else (peer, own);
    var l := ComputeProtection(long.fill, Long, volume, long.plan, long.allowed);
    var s := ComputeProtection(short.fill, Short, volume, short.plan, short.allowed);
    if l.None? || s.None? then None
    else
      var low, high := Max(l.value.sl, s.value.tp), Min(l.value.tp, s.value.sl);
      if low < Min(own.fill, peer.fill) && high > Max(own.fill, peer.fill) && low < high then Some(Box(low, high)) else None
  }

  /** `_mirrored_precise_protection`: the box rounded inwards to this Worker's own grid. */
  function MirroredProtection(own: LegFacts, peer: LegFacts, side: Side, volume: real): Option<Stops> {
    if own.allowed <= 0.0 || peer.allowed <= 0.0 || volume <= 0.0 then None
    else
      match SharedBox(own, peer, side, volume)
      case None => None
      case Some(box) =>
        if !Usable(own.plan) then None
        else
          var stops :=
            if side == Long then Stops(Up(box.low, own.plan.tick), Down(box.high, own.plan.tick))
            else Stops(Down(box.high, own.plan.tick), Up(box.low, own.plan.tick));
          var (toSl, toTp) := if side == Long then (own.fill - stops.sl, stops.tp - own.fill) else (stops.sl - own.fill, own.fill - stops.tp);
          if toSl <= 0.0 || toTp <= 0.0 || toSl < own.plan.minDistance || toTp < own.plan.minDistance then None
          else if stops.sl <= 0.0 || stops.tp <= 0.0 then None
          else Some(stops)
  }

  /** Both Workers derive the same box, without asking each other. */
  lemma BoxIsShared(one: LegFacts, two: LegFacts, side: Side, volume: real)
    ensures SharedBox(one, two, side, volume) == SharedBox(two, one, Opposite(side), volume)
  {
  }

  /** Reaching `exit` loses this leg no more than its allowance. */
  ghost predicate LosesAtMost(leg: LegFacts, side: Side, volume: real, exit: real) {
    && leg.plan.tick > 0.0
    && (side == Long ==> (leg.fill - exit) / leg.plan.tick * leg.plan.lossTickValue * volume <= leg.allowed)
    && (side == Short ==> (exit - leg.fill) / leg.plan.tick * leg.plan.lossTickValue * volume <= leg.allowed)
  }

  /** ... and gains it no more. */
  ghost predicate GainsAtMost(leg: LegFacts, side: Side, volume: real, exit: real) {
    && leg.plan.tick > 0.0
    && (side == Long ==> (exit - leg.fill) / leg.plan.tick * leg.plan.profitTickValue * volume <= leg.allowed)
    && (side == Short ==> (leg.fill - exit) / leg.plan.tick * leg.plan.profitTickValue * volume <= leg.allowed)
  }

  /** Both fills lie strictly inside the box, and no boundary costs or earns either leg more than its allowance. */
  lemma BoxIsSafe(one: LegFacts, two: LegFacts, side: Side, volume: real)
    requires SharedBox(one, two, side, volume).Some?
    ensures var b := SharedBox(one, two, side, volume).value;
            && b.low < one.fill < b.high && b.low < two.fill < b.high
            && Usable(one.plan) && Usable(two.plan)
            && LosesAtMost(one, side, volume, if side == Long then b.low else b.high)
            && GainsAtMost(one, side, volume, if side == Long then b.high else b.low)
            && LosesAtMost(two, Opposite(side), volume, if side == Long then b.high else b.low)
            && GainsAtMost(two, Opposite(side), volume, if side == Long then b.low else b.high)
  {
    hide ComputeProtection, LosesAtMost, GainsAtMost;
    var b := SharedBox(one, two, side, volume).value;
    var s1 := ComputeProtection(one.fill, side, volume, one.plan, one.allowed).value;
    var s2 := ComputeProtection(two.fill, Opposite(side), volume, two.plan, two.allowed).value;
    OwnStopsAreSafe(one, side, volume);
    OwnStopsAreSafe(two, Opposite(side), volume);
    var (atSl, atTp) := if side == Long then (b.low, b.high) else (b.high, b.low);
    CloserIsSafe(one, side, volume, atSl, s1.sl, atTp, s1.tp);
    CloserIsSafe(two, Opposite(side), volume, atTp, s2.sl, atSl, s2.tp);
  }

  lemma OwnStopsAreSafe(leg: LegFacts, side: Side, volume: real)
    requires ComputeProtection(leg.fill, side, volume, leg.plan, leg.allowed).Some?
    ensures var s := ComputeProtection(leg.fill, side, volume, leg.plan, leg.allowed).value;
            Usable(leg.plan) && volume > 0.0 && LosesAtMost(leg, side, volume, s.sl) && GainsAtMost(leg, side, volume, s.tp)
  {
    hide ComputeProtection, OnGrid;
    ProtectionIsOneToOne(leg.fill, side, volume, leg.plan, leg.allowed);
  }

  /** Exits nearer to the fill. */
  lemma CloserIsSafe(leg: LegFacts, side: Side, volume: real, sl: real, farSl: real, tp: real, farTp: real)
    requires LosesAtMost(leg, side, volume, farSl) && GainsAtMost(leg, side, volume, farTp) && Usable(leg.plan) && volume > 0.0
    requires if side == Long then farSl <= sl && tp <= farTp else sl <= farSl && farTp <= tp
    ensures LosesAtMost(leg, side, volume, sl) && GainsAtMost(leg, side, volume, tp)
  {
    CloserLosesLess(leg, side, volume, sl, farSl);
    CloserGainsLess(leg, side, volume, tp, farTp);
    hide LosesAtMost, GainsAtMost;
  }

  lemma CloserLosesLess(leg: LegFacts, side: Side, volume: real, near: real, far: real)
    requires LosesAtMost(leg, side, volume, far) && Usable(leg.plan) && volume > 0.0
    requires if side == Long then far <= near else near <= far
    ensures LosesAtMost(leg, side, volume, near)
  {
    var (n, f) := if side == Long then (leg.fill - near, leg.fill - far) else (near - leg.fill, far - leg.fill);
    Nearer(n, f, leg.plan.tick, leg.plan.lossTickValue, volume);
  }

  lemma CloserGainsLess(leg: LegFacts, side: Side, volume: real, near: real, far: real)
    requires GainsAtMost(leg, side, volume, far) && Usable(leg.plan) && volume > 0.0
    requires if side == Long then near <= far else far <= near
    ensures GainsAtMost(leg, side, volume, near)
  {
    var (n, f) := if side == Long then (near - leg.fill, far - leg.fill) else (leg.fill - near, leg.fill - far);
    Nearer(n, f, leg.plan.tick, leg.plan.profitTickValue, volume);
  }

  /** A shorter way costs less. */
  lemma Nearer(near: real, far: real, tick: real, tickValue: real, volume: real)
    requires tick > 0.0 && tickValue > 0.0 && volume > 0.0 && near <= far
    ensures near / tick * tickValue * volume <= far / tick * tickValue * volume
  {
    var per := tickValue * volume;
    TimesOfQuotient(near, tick);
    TimesOfQuotient(far, tick);
    TimesOrder(far / tick, near / tick, tick);
    TimesOrder(far / tick, near / tick, per);
    ProductIs(near / tick, per);
    ProductIs(far / tick, per);
    assert near / tick * tickValue * volume == near / tick * per && far / tick * tickValue * volume == far / tick * per;
  }

  /** Within two ticks of the allowance. */
  ghost predicate LosesNearly(leg: LegFacts, side: Side, volume: real, exit: real) {
    && leg.plan.tick > 0.0
    && (side == Long ==> (leg.fill - exit) / leg.plan.tick * leg.plan.lossTickValue * volume > leg.allowed - 2.0 * leg.plan.lossTickValue * volume)
    && (side == Short ==> (exit - leg.fill) / leg.plan.tick * leg.plan.lossTickValue * volume > leg.allowed - 2.0 * leg.plan.lossTickValue * volume)
  }

  ghost predicate GainsNearly(leg: LegFacts, side: Side, volume: real, exit: real) {
    && leg.plan.tick > 0.0
    && (side == Long ==> (exit - leg.fill) / leg.plan.tick * leg.plan.profitTickValue * volume > leg.allowed - 2.0 * leg.plan.profitTickValue * volume)
    && (side == Short ==> (leg.fill - exit) / leg.plan.tick * leg.plan.profitTickValue * volume > leg.allowed - 2.0 * leg.plan.profitTickValue * volume)
  }

  /** No wider box would do: at each boundary one of the legs is within two ticks of its allowance, as a loss of
      the leg that falls there or as a gain of the other. */
  lemma BoxIsTight(long: LegFacts, short: LegFacts, volume: real)
    requires SharedBox(long, short, Long, volume).Some?
    ensures var b := SharedBox(long, short, Long, volume).value;
            && (LosesNearly(long, Long, volume, b.low) || GainsNearly(short, Short, volume, b.low))
            && (GainsNearly(long, Long, volume, b.high) || LosesNearly(short, Short, volume, b.high))
  {
    hide ComputeProtection, LosesNearly, GainsNearly;
    OwnStopsAreTight(long, Long, volume);
    OwnStopsAreTight(short, Short, volume);
  }

  lemma OwnStopsAreTight(leg: LegFacts, side: Side, volume: real)
    requires ComputeProtection(leg.fill, side, volume, leg.plan, leg.allowed).Some?
    ensures var s := ComputeProtection(leg.fill, side, volume, leg.plan, leg.allowed).value;
            LosesNearly(leg, side, volume, s.sl) && GainsNearly(leg, side, volume, s.tp)
  {
    hide ComputeProtection, OnGrid;
    ProtectionIsOneToOne(leg.fill, side, volume, leg.plan, leg.allowed);
  }

  /** Strictly between a stop and a target. */
  predicate Inside(fill: real, low: real, high: real) {
    low < fill < high
  }

  /** There is a box exactly if both legs have protection and both fills lie strictly inside both protections. */
  lemma BoxExistsIff(long: LegFacts, short: LegFacts, volume: real)
    ensures SharedBox(long, short, Long, volume).Some? <==>
              && ComputeProtection(long.fill, Long, volume, long.plan, long.allowed).Some?
              && ComputeProtection(short.fill, Short, volume, short.plan, short.allowed).Some?
              && var l := ComputeProtection(long.fill, Long, volume, long.plan, long.allowed).value;
                 var s := ComputeProtection(short.fill, Short, volume, short.plan, short.allowed).value;
                 && Inside(long.fill, l.sl, l.tp) && Inside(long.fill, s.tp, s.sl)
                 && Inside(short.fill, l.sl, l.tp) && Inside(short.fill, s.tp, s.sl)
  {
    hide ComputeProtection;
  }

  /** A Worker's own stops: around its own fill, on its own grid, within a tick inside the box, at least the
      broker's distance away, and losing or gaining at most its own allowance. */
  lemma MirroredStopsAreSafe(own: LegFacts, peer: LegFacts, side: Side, volume: real)
    requires MirroredProtection(own, peer, side, volume).Some?
    ensures var s := MirroredProtection(own, peer, side, volume).value;
            && SharedBox(own, peer, side, volume).Some?
            && var b := SharedBox(own, peer, side, volume).value;
            && var (low, high) := if side == Long then (s.sl, s.tp) else (s.tp, s.sl);
            && b.low <= low < own.fill < high <= b.high
            && OnGrid(low, own.plan.tick) && OnGrid(high, own.plan.tick)
            && own.fill - low >= own.plan.minDistance && high - own.fill >= own.plan.minDistance
            && low < b.low + own.plan.tick && b.high - own.plan.tick < high
            && LosesAtMost(own, side, volume, s.sl) && GainsAtMost(own, side, volume, s.tp)
  {
    hide ComputeProtection, OnGrid, Up, Down, LosesAtMost, GainsAtMost;
    var s := MirroredProtection(own, peer, side, volume).value;
    var b := SharedBox(own, peer, side, volume).value;
    BoxIsSafe(own, peer, side, volume);
    UpIsNearest(b.low, own.plan.tick);
    DownIsNearest(b.high, own.plan.tick);
    CloserIsSafe(own, side, volume, s.sl, if side == Long then b.low else b.high, s.tp, if side == Long then b.high else b.low);
  }

  /** A pair of prices on this Worker's grid that would do. */
  ghost predicate Fits(own: LegFacts, b: Box, low: real, high: real) {
    && own.plan.tick > 0.0 && OnGrid(low, own.plan.tick) && OnGrid(high, own.plan.tick)
    && b.low <= low < own.fill < high <= b.high
    && own.fill - low >= own.plan.minDistance && high - own.fill >= own.plan.minDistance
  }

  /** There are mirrored stops exactly if there is a box and some prices on this Worker's grid fit into it. */
  lemma MirroredExistsIff(own: LegFacts, peer: LegFacts, side: Side, volume: real)
    ensures MirroredProtection(own, peer, side, volume).Some? <==>
              SharedBox(own, peer, side, volume).Some? && exists low, high :: Fits(own, SharedBox(own, peer, side, volume).value, low, high)
  {
    hide OnGrid, Up, Down;
    if SharedBox(own, peer, side, volume).Some? {
      var b := SharedBox(own, peer, side, volume).value;
      BoxFacts(own, peer, side, volume);
      hide ComputeProtection, SharedBox;
      var tick := own.plan.tick;
      UpIsNearest(b.low, tick);
      DownIsNearest(b.high, tick);
      if MirroredProtection(own, peer, side, volume).Some? {
        assert Fits(own, b, Up(b.low, tick), Down(b.high, tick));
      }
      if low, high :| Fits(own, b, low, high) {
        NearestOnGrid(b.low, low, tick);
        NearestOnGrid(b.high, high, tick);
      }
    }
  }

  lemma BoxFacts(own: LegFacts, peer: LegFacts, side: Side, volume: real)
    requires SharedBox(own, peer, side, volume).Some?
    ensures Usable(own.plan) && volume > 0.0 && own.allowed > 0.0 && peer.allowed > 0.0
    ensures var b := SharedBox(own, peer, side, volume).value;
            0.0 < b.low < own.fill < b.high
  {
    hide Up, Down, TicksFor, PerTick, Times;
  }

  /** Rounding goes no farther than the next price on the grid. */
  lemma NearestOnGrid(price: real, x: real, tick: real)
    requires tick > 0.0 && OnGrid(x, tick)
    ensures price <= x ==> Up(price, tick) <= x
    ensures x <= price ==> x <= Down(price, tick)
  {
    hide Times, Down;
    var k: int :| x == Whole(k, tick);
    TimesStep(k as real, tick);
    assert -x == Whole(-k, tick);
    if x <= price { GreatestBelow(price, k, tick); }
    if price <= x { GreatestBelow(-price, -k, tick); }
  }

  lemma GreatestBelow(price: real, k: int, tick: real)
    requires tick > 0.0 && Whole(k, tick) <= price
    ensures Whole(k, tick) <= Down(price, tick)
  {
    hide Times, OnGrid;
    DownIsNearest(price, tick);
    GridBelow(k, (price / tick).Floor, tick, price);
  }

  /** The price result of the pair when both legs have exited. */
  function PairNet(longFill: real, shortFill: real, longExit: real, shortExit: real): real {
    (longExit - longFill) + (shortFill - shortExit)
  }

  /** At either boundary the pair exits at its entry net, up to less than the larger of the two ticks, and
      exactly when both brokers use one tick. */
  lemma BoundariesLockTheNet(long: LegFacts, short: LegFacts, volume: real)
    requires MirroredProtection(long, short, Long, volume).Some? && MirroredProtection(short, long, Short, volume).Some?
    ensures var l := MirroredProtection(long, short, Long, volume).value;
            var s := MirroredProtection(short, long, Short, volume).value;
            var entryNet := EntryNet(long, short);
            var atLow := PairNet(long.fill, short.fill, l.sl, s.tp);
            var atHigh := PairNet(long.fill, short.fill, l.tp, s.sl);
            var larger := Max(long.plan.tick, short.plan.tick);
            && -larger < atLow - entryNet < larger && -larger < atHigh - entryNet < larger
            && (long.plan.tick == short.plan.tick ==> atLow == entryNet && atHigh == entryNet)
  {
    BoxIsShared(long, short, Long, volume);
    var b := SharedBox(long, short, Long, volume).value;
    UpIsNearest(b.low, long.plan.tick);
    UpIsNearest(b.low, short.plan.tick);
    DownIsNearest(b.high, long.plan.tick);
    DownIsNearest(b.high, short.plan.tick);
  }

  /** The net both fills entered at. */
  function EntryNet(long: LegFacts, short: LegFacts): real {
    short.fill - long.fill
  }
}
