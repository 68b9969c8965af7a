/**
 What CFQ's virtual times mean in ticks: busy groups are served in proportion to their weights.
 */
module CfqService {
  import opened Lists
  import opened CfqGroups

  /** The ticks a group has been served in the first n turns. */
  function Service(states: seq<State>, slices: seq<nat>, x: nat, n: nat): (ticks: nat)
    requires n <= |slices| <= |states|
  {
    if n == 0 then 0
    else Service(states, slices, x, n - 1) + if Goes(states[n - 1], x) then slices[n - 1] else 0
  }

  /** How many of the first n turns were its own. */
  function OwnTurns(states: seq<State>, x: nat, n: nat): (k: nat)
    requires n <= |states|
  {
    if n == 0 then 0 else OwnTurns(states, x, n - 1) + if Goes(states[n - 1], x) then 1 else 0
  }

  predicate Goes(s: State, x: nat) { s.tree != [] && s.tree[0] == x }

  /** The heavier group is charged no more for a slice, and a longer slice costs no less. */
  lemma HeavierPaysLess(slice: nat, longer: nat, weight: nat, lighter: nat)
    requires 0 < lighter <= weight && slice <= longer
    ensures Scaled(slice, weight) <= Scaled(longer, lighter)
  {
    ChargeTimesWeight(slice, weight);
    ChargeTimesWeight(longer, lighter);
    var (c, d) := (Scaled(slice, weight), Scaled(longer, lighter));
    hide Scaled;
    QuotientLe(c, d, weight, lighter, slice * 4096 * 500, longer * 4096 * 500);
  }

  lemma QuotientLe(c: nat, d: nat, w: nat, v: nat, a: nat, b: nat)
    requires 0 < v <= w && c * w <= a <= b < (d + 1) * v
    ensures c <= d
  {
    MulLe(v, w, c);
    if d + 1 <= c {
      MulLe(d + 1, c, v);
      assert false;
    }
  }

  /** Turns with slices up to longest, for groups that weigh at least least. */
  ghost predicate Serving(states: seq<State>, slices: seq<nat>, longest: nat, least: nat) {
    && |states| == |slices| + 1 && Inv(states[0]) && least > 0
    && forall i :: 0 <= i < |slices| ==>
         && states[i].tree != [] && states[i].tree[0] in states[i].groups
         && states[i].groups[states[i].tree[0]].weight >= least && slices[i] <= longest
         && states[i + 1] == Turn(states[i], slices[i])
  }

  lemma ServingIsTurns(states: seq<State>, slices: seq<nat>, longest: nat, least: nat)
    requires Serving(states, slices, longest, least)
    ensures Turns(states, slices, longest * 4096 * 500 / least)
  {
    forall i | 0 <= i < |slices|
      ensures Scaled(slices[i], states[i].groups[states[i].tree[0]].weight) <= longest * 4096 * 500 / least
    {
      HeavierPaysLess(slices[i], longest, states[i].groups[states[i].tree[0]].weight, least);
    }
    hide Inv, Turn;
  }

  /** A gain in virtual time against the service it was charged for, with a unit of rounding for each turn. */
  ghost predicate Paid(w: nat, gain: int, service: nat, turns: nat) {
    w * gain <= 4096 * 500 * service <= w * (gain + turns)
  }

  lemma PaidNothing(w: nat)
    ensures Paid(w, 0, 0, 0)
  {
  }

  /** Turn i of a run of turns. */
  lemma TurnAt(states: seq<State>, slices: seq<nat>, charge: int, i: nat, x: nat)
    requires Turns(states, slices, charge) && i < |slices| && x in states[0].tree
    ensures x in states[i].groups && x in states[i + 1].groups
    ensures states[i].groups[x].weight == states[i + 1].groups[x].weight
    ensures Goes(states[i], x) ==> states[i].groups[x].weight > 0
    ensures Gain(states[i], states[i + 1], x) ==
            if Goes(states[i], x) then Scaled(slices[i], states[i].groups[x].weight) else 0
  {
    hide Scaled, Spread;
    SpreadBound(states, slices, charge, i);
    TurnIs(states[i], slices[i]);
    assert states[i + 1] == Turn(states[i], slices[i]);
    hide Turn, Ordered, Turns;
  }

  /** The virtual time a group gains is its service over its weight, up to one unit of rounding for each turn. */
  lemma {:induction false} GainIsService(states: seq<State>, slices: seq<nat>, charge: int, n: nat, x: nat)
    requires Turns(states, slices, charge) && n < |states| && x in states[0].tree
    ensures x in states[0].groups && x in states[n].groups && states[n].groups[x].weight == states[0].groups[x].weight
    ensures Paid(states[0].groups[x].weight, Gain(states[0], states[n], x), Service(states, slices, x, n),
                 OwnTurns(states, x, n))
    decreases n
  {
    hide Paid;
    if n == 0 {
      SpreadBound(states, slices, charge, 0);
      PaidNothing(states[0].groups[x].weight);
    } else {
      assert |states| == |slices| + 1;
      hide Turns, Scaled, Goes;
      GainIsService(states, slices, charge, n - 1, x);
      TurnAt(states, slices, charge, n - 1, x);
      var w := states[0].groups[x].weight;
      var gain := Gain(states[0], states[n - 1], x);
      assert Gain(states[0], states[n], x) == gain + Gain(states[n - 1], states[n], x);
      hide Gain;
      if Goes(states[n - 1], x) {
        GainAdds(w, gain, Service(states, slices, x, n - 1), OwnTurns(states, x, n - 1), slices[n - 1]);
      }
    }
  }

  lemma GainAdds(w: nat, gain: int, service: nat, turns: nat, slice: nat)
    requires w > 0 && Paid(w, gain, service, turns)
    ensures Paid(w, gain + Scaled(slice, w), service + slice, turns + 1)
  {
    ChargeTimesWeight(slice, w);
    var c := Scaled(slice, w);
    hide Scaled;
    assert w * (gain + c) == w * gain + c * w;
    assert w * (gain + c + (turns + 1)) == w * (gain + turns) + (c + 1) * w;
  }

  /**
   Service is in proportion to the weights: over any number of turns the weighted difference between two
   groups stays below a constant, but for the rounding of one unit in 2048000 for each turn of the first.
   */
  lemma ServiceByWeight(states: seq<State>, slices: seq<nat>, longest: nat, least: nat, n: nat, x: nat, y: nat)
    requires Serving(states, slices, longest, least) && n < |states|
    requires x in states[0].tree && y in states[0].tree
    ensures x in states[0].groups && y in states[0].groups
    ensures var (wx, wy) := (states[0].groups[x].weight, states[0].groups[y].weight);
      var bound := Spread(states[0]) + Max(Spread(states[0]), longest * 4096 * 500 / least);
      4096 * 500 * (Service(states, slices, x, n) * wy - Service(states, slices, y, n) * wx)
        <= wx * wy * (bound + OwnTurns(states, x, n))
  {
    ServingIsTurns(states, slices, longest, least);
    var charge := longest * 4096 * 500 / least;
    hide Serving, Turns, Spread, Gain, Service, OwnTurns, Max, Paid;
    ServiceIsFair(states, slices, charge, n, x, y);
    GainIsService(states, slices, charge, n, x);
    GainIsService(states, slices, charge, n, y);
    WeightedDifference(states[0].groups[x].weight, states[0].groups[y].weight,
                       Gain(states[0], states[n], x), Gain(states[0], states[n], y),
                       Service(states, slices, x, n), Service(states, slices, y, n),
                       OwnTurns(states, x, n), OwnTurns(states, y, n),
                       Spread(states[0]) + Max(Spread(states[0]), charge));
  }

  lemma WeightedDifference(wx: nat, wy: nat, gx: int, gy: int, sx: nat, sy: nat, k: nat, j: nat, bound: int)
    requires Paid(wx, gx, sx, k) && Paid(wy, gy, sy, j) && gx - gy <= bound
    ensures 4096 * 500 * (sx * wy - sy * wx) <= wx * wy * (bound + k)
  {
    var u := 4096 * 500;
    calc {
      u * (sx * wy - sy * wx);
      (u * sx) * wy - (u * sy) * wx;
    <= { MulLe(u * sx, wx * (gx + k), wy); MulLe(wy * gy, u * sy, wx); }
      (wx * (gx + k)) * wy - (wy * gy) * wx;
      wx * wy * (gx - gy + k);
    <= { MulLe(gx - gy + k, bound + k, wx * wy); }
      wx * wy * (bound + k);
    }
  }

  lemma MulLe(a: int, b: int, c: nat)
    requires a <= b
    ensures a * c <= b * c && c * a <= c * b
  {
  }
}
