/** The request schemas' "at least one field" validators. Both ask only that some field be
    present (not None), so an empty query or a bound of 0.0 passes them, unlike the
    endpoints' own truthiness checks. */
module RequestSchemas {
  import opened Wrappers
  import opened Kpi
  import opened Values

  /** The fields the semantic-search validator looks at, in its order. */
  const SemanticFields: seq<string> := ["query", "min_revenue", "max_revenue", "min_net_profit", "max_net_profit",
                                        "min_revenue_growth_rate", "max_revenue_growth_rate",
                                        "min_operational_cost_reduction", "max_operational_cost_reduction"]

  const SemanticMessage := "At least one parameter or query must be provided."
  const FilterMessage := "At least one filter parameter must be provided."

  /** The default page size of both schemas. */
  const DefaultLimit := 10

  /** `any(values.get(f) is not None for f in fields)` */
  predicate AnyPresent(values: Dict, fields: seq<string>) {
    fields != [] && (Lookup(values, fields[0], Null) != Null || AnyPresent(values, fields[1..]))
  }

  /** validate_at_least_one_field of the semantic-search schema, on the raw input. */
  function ValidateAtLeastOneField(values: Dict): Result<Dict, string> {
    if AnyPresent(values, SemanticFields) then Success(values) else Failure(SemanticMessage)
  }

  /** Some field is present iff one of them holds a value other than None. */
  lemma {:induction false} AnyPresentIff(values: Dict, fields: seq<string>)
    ensures AnyPresent(values, fields) <==> exists i :: 0 <= i < |fields| && fields[i] in values && values[fields[i]] != Null
  {
    if fields != [] {
      AnyPresentIff(values, fields[1..]);
      assert forall i :: 1 <= i < |fields| ==> fields[i] == fields[1..][i - 1];
      if AnyPresent(values, fields[1..]) {
        var i :| 0 <= i < |fields[1..]| && fields[1..][i] in values && values[fields[1..][i]] != Null;
        assert fields[i + 1] in values && values[fields[i + 1]] != Null;
      }
    }
  }

  /** The validator rejects iff the query and all eight bounds are missing or None, and
      otherwise returns the input unchanged. */
  lemma SemanticValidatorMeaning(values: Dict)
    ensures ValidateAtLeastOneField(values).Failure? <==>
      forall f | f in SemanticFields :: f !in values || values[f] == Null
    ensures ValidateAtLeastOneField(values).Failure? ==> ValidateAtLeastOneField(values).error == SemanticMessage
    ensures ValidateAtLeastOneField(values).Success? ==> ValidateAtLeastOneField(values).value == values
  {
    AnyPresentIff(values, SemanticFields);
  }

  /** Any one present value is enough, even an empty query or a bound of 0.0. */
  lemma EmptyQueryOrZeroBoundAccepted(values: Dict, field: string)
    requires field in SemanticFields && field in values
    requires values[field] == Str("") || values[field] == Number(0.0)
    ensures ValidateAtLeastOneField(values).Success?
  {
    AnyPresentIff(values, SemanticFields);
    var i :| 0 <= i < |SemanticFields| && SemanticFields[i] == field;
  }

  /** The limit plays no part in the check. */
  lemma SemanticLimitIgnored(values: Dict, limit: Value)
    ensures ValidateAtLeastOneField(values["limit" := limit]).Success? == ValidateAtLeastOneField(values).Success?
  {
    AnyPresentIff(values, SemanticFields);
    AnyPresentIff(values["limit" := limit], SemanticFields);
    assert "limit" !in SemanticFields;
    var changed := values["limit" := limit];
    forall i | 0 <= i < |SemanticFields|
      ensures (SemanticFields[i] in values && values[SemanticFields[i]] != Null) <==>
              (SemanticFields[i] in changed && changed[SemanticFields[i]] != Null)
    {
      assert SemanticFields[i] != "limit";
    }
  }

  /** The filter schema's fields. */
  datatype FilterRequest = FilterRequest(bounds: Bounds, limit: int)

  /** at_least_one_field_provided: the eight bounds, each checked for None. */
  function AtLeastOneFieldProvided(data: FilterRequest): Result<FilterRequest, string> {
    if AnyNotNone(data.bounds) then Success(data) else Failure(FilterMessage)
  }

  /** The check fails iff all eight bounds are None, ignores the limit, and otherwise returns
      the request unchanged. */
  lemma FilterValidatorMeaning(data: FilterRequest, limit: int)
    ensures AtLeastOneFieldProvided(data).Failure? <==> data.bounds == NoBounds
    ensures AtLeastOneFieldProvided(data).Success? ==> AtLeastOneFieldProvided(data).value == data
    ensures AtLeastOneFieldProvided(data.(limit := limit)).Success? == AtLeastOneFieldProvided(data).Success?
  {
    var b := data.bounds;
    if b == NoBounds {
      assert forall i | 0 <= i < |SlotOrder| :: BoundOf(b, SlotOrder[i]).None?;
    } else if b.minRevenue.Some? {
      assert BoundOf(b, SlotOrder[0]).Some?;
    } else if b.maxRevenue.Some? {
      assert BoundOf(b, SlotOrder[1]).Some?;
    } else if b.minNetProfit.Some? {
      assert BoundOf(b, SlotOrder[2]).Some?;
    } else if b.maxNetProfit.Some? {
      assert BoundOf(b, SlotOrder[3]).Some?;
    } else if b.minRevenueGrowthRate.Some? {
      assert BoundOf(b, SlotOrder[4]).Some?;
    } else if b.maxRevenueGrowthRate.Some? {
      assert BoundOf(b, SlotOrder[5]).Some?;
    } else if b.minOperationalCostReduction.Some? {
      assert BoundOf(b, SlotOrder[6]).Some?;
    } else {
      assert BoundOf(b, SlotOrder[7]).Some?;
    }
  }

  /** A lone bound of 0.0 passes the schema, yet the endpoints treat it as absent. */
  lemma ZeroBoundPassesSchemaOnly(limit: int)
    ensures var b := Bounds(Some(0.0), None, None, None, None, None, None, None);
      AtLeastOneFieldProvided(FilterRequest(b, limit)).Success? && !AnyTruthy(b)
  {
    var b := Bounds(Some(0.0), None, None, None, None, None, None, None);
    assert BoundOf(b, SlotOrder[0]).Some?;
    assert forall i :: 0 <= i < |SlotOrder| ==> !TruthyBound(BoundOf(b, SlotOrder[i]));
  }
}
