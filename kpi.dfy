/** The four tracked KPIs, the eight optional bounds on them, and the range checks that the
    endpoints and `apply_numeric_filters` evaluate over them. */
module Kpi {
  import opened Wrappers

  datatype KpiKey = Revenue | NetProfit | RevenueGrowthRate | OperationalCostReduction

  /** The order in which every KPI dictionary of the source lists its keys. */
  const AllKeys: seq<KpiKey> := [Revenue, NetProfit, RevenueGrowthRate, OperationalCostReduction]

  /** The dictionary key (and index field name) of a KPI. */
  function KeyName(k: KpiKey): string {
    match k
    case Revenue => "revenue"
    case NetProfit => "net_profit"
    case RevenueGrowthRate => "revenue_growth_rate"
    case OperationalCostReduction => "operational_cost_reduction"
  }

  /** A KPI dictionary with exactly the four keys; None is Python's None. */
  datatype Kpis = Kpis(revenue: Option<real>, netProfit: Option<real>,
                       revenueGrowthRate: Option<real>, operationalCostReduction: Option<real>)

  const NoKpis := Kpis(None, None, None, None)

  function Get(k: Kpis, key: KpiKey): Option<real> {
    match key
    case Revenue => k.revenue
    case NetProfit => k.netProfit
    case RevenueGrowthRate => k.revenueGrowthRate
    case OperationalCostReduction => k.operationalCostReduction
  }

  /** `kpis[key] = v`: that key changes and no other. */
  function Set(k: Kpis, key: KpiKey, v: Option<real>): (r: Kpis)
    ensures Get(r, key) == v
    ensures forall other :: other != key ==> Get(r, other) == Get(k, other)
  {
    match key
    case Revenue => k.(revenue := v)
    case NetProfit => k.(netProfit := v)
    case RevenueGrowthRate => k.(revenueGrowthRate := v)
    case OperationalCostReduction => k.(operationalCostReduction := v)
  }

  datatype Side = Min | Max

  datatype Slot = Slot(key: KpiKey, side: Side)

  /** The fixed order of the eight bound parameters: min then max, per KPI. */
  const SlotOrder: seq<Slot> := [Slot(Revenue, Min), Slot(Revenue, Max),
                                 Slot(NetProfit, Min), Slot(NetProfit, Max),
                                 Slot(RevenueGrowthRate, Min), Slot(RevenueGrowthRate, Max),
                                 Slot(OperationalCostReduction, Min), Slot(OperationalCostReduction, Max)]

  datatype Bounds = Bounds(minRevenue: Option<real>, maxRevenue: Option<real>,
                           minNetProfit: Option<real>, maxNetProfit: Option<real>,
                           minRevenueGrowthRate: Option<real>, maxRevenueGrowthRate: Option<real>,
                           minOperationalCostReduction: Option<real>, maxOperationalCostReduction: Option<real>)

  const NoBounds := Bounds(None, None, None, None, None, None, None, None)

  function BoundOf(b: Bounds, s: Slot): Option<real> {
    match s
    case Slot(Revenue, Min) => b.minRevenue
    case Slot(Revenue, Max) => b.maxRevenue
    case Slot(NetProfit, Min) => b.minNetProfit
    case Slot(NetProfit, Max) => b.maxNetProfit
    case Slot(RevenueGrowthRate, Min) => b.minRevenueGrowthRate
    case Slot(RevenueGrowthRate, Max) => b.maxRevenueGrowthRate
    case Slot(OperationalCostReduction, Min) => b.minOperationalCostReduction
    case Slot(OperationalCostReduction, Max) => b.maxOperationalCostReduction
  }

  /** Python truthiness of an optional float: None and 0.0 are false. */
  predicate TruthyBound(o: Option<real>) {
    o.Some? && o.value != 0.0
  }

  /** `any([...])` over the eight bounds. */
  predicate AnyTruthy(b: Bounds) {
    exists i | 0 <= i < |SlotOrder| :: TruthyBound(BoundOf(b, SlotOrder[i]))
  }

  /** `any(v is not None for v in [...])` over the eight bounds. */
  predicate AnyNotNone(b: Bounds) {
    exists i | 0 <= i < |SlotOrder| :: BoundOf(b, SlotOrder[i]).Some?
  }

  /** Which bounds a chain of checks looks at: `bound is None or ...` (the endpoints) or
      `not bound or ...` (apply_numeric_filters). */
  datatype Activation = WhenNotNone | WhenTruthy

  predicate Active(a: Activation, bound: Option<real>) {
    match a
    case WhenNotNone => bound.Some?
    case WhenTruthy => TruthyBound(bound)
  }

  /** `v >= bound` for a min bound, `v <= bound` for a max bound. */
  predicate Holds(v: real, side: Side, bound: real) {
    match side
    case Min => v >= bound
    case Max => v <= bound
  }

  /** A check on an active bound whose KPI is present and in range. */
  predicate SlotHolds(k: Kpis, b: Bounds, a: Activation, s: Slot) {
    Active(a, BoundOf(b, s)) ==> Get(k, s.key).Some? && Holds(Get(k, s.key).value, s.side, BoundOf(b, s).value)
  }

  /** Outcome of evaluating an `and` chain of range checks: all hold, one is false, or one
      compares None with a number (TypeError) before any check is false. */
  datatype CheckOutcome = Pass | Fail | Raised

  /** The `and` chain of range checks over `slots`, left to right with short-circuiting. */
  function EvalChecks(k: Kpis, b: Bounds, a: Activation, slots: seq<Slot>): CheckOutcome {
    if slots == [] then Pass
    else
      var s := slots[0];
      var bound := BoundOf(b, s);
      if !Active(a, bound) then EvalChecks(k, b, a, slots[1..])
      else
        match Get(k, s.key)
        case None => Raised
        case Some(v) => if Holds(v, s.side, bound.value) then EvalChecks(k, b, a, slots[1..]) else Fail
  }

  /** The chain passes iff every active bound has its KPI present and in range. */
  lemma {:induction false} EvalPassIff(k: Kpis, b: Bounds, a: Activation, slots: seq<Slot>)
    ensures EvalChecks(k, b, a, slots) == Pass <==> forall i :: 0 <= i < |slots| ==> SlotHolds(k, b, a, slots[i])
  {
    if slots != [] {
      EvalPassIff(k, b, a, slots[1..]);
      assert forall i :: 1 <= i < |slots| ==> slots[i] == slots[1..][i - 1];
    }
  }

  /** The chain raises iff some active bound meets a missing KPI while every check before it
      holds. */
  lemma {:induction false} EvalRaisedIff(k: Kpis, b: Bounds, a: Activation, slots: seq<Slot>)
    ensures EvalChecks(k, b, a, slots) == Raised <==>
      exists j :: 0 <= j < |slots| && Active(a, BoundOf(b, slots[j])) && Get(k, slots[j].key).None?
                  && forall i :: 0 <= i < j ==> SlotHolds(k, b, a, slots[i])
  {
    if slots != [] {
      EvalRaisedIff(k, b, a, slots[1..]);
      var t := slots[1..];
      assert forall i :: 1 <= i < |slots| ==> slots[i] == t[i - 1];
      var s := slots[0];
      if EvalChecks(k, b, a, slots) == Raised {
        if Active(a, BoundOf(b, s)) && Get(k, s.key).None? {
          assert 0 < |slots| && Active(a, BoundOf(b, slots[0])) && Get(k, slots[0].key).None?;
        } else {
          assert SlotHolds(k, b, a, s);
          assert EvalChecks(k, b, a, t) == Raised;
          var j' :| 0 <= j' < |t| && Active(a, BoundOf(b, t[j'])) && Get(k, t[j'].key).None?
                    && forall i :: 0 <= i < j' ==> SlotHolds(k, b, a, t[i]);
          assert forall i :: 0 <= i < j' + 1 ==> SlotHolds(k, b, a, slots[i]);
          assert Active(a, BoundOf(b, slots[j' + 1])) && Get(k, slots[j' + 1].key).None?;
        }
      }
    }
  }

  /** The range checks of the source, over all eight bounds in parameter order. */
  function RangeCheck(k: Kpis, b: Bounds, a: Activation): CheckOutcome {
    EvalChecks(k, b, a, SlotOrder)
  }
}
