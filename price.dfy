/**
 * The price resource: optional-field inclusion on Create, the no-change short-circuit and
 * patch policy of Update, the quantity normalisation applied to every response, the
 * override conversions, and the archive-only Delete.
 */
module Price {
  import opened Values
  import opened CustomData

  datatype Money = Money(amount: string, currencyCode: string)

  datatype Duration = Duration(frequency: int, interval: string)

  datatype Quantity = Quantity(minimum: int, maximum: int)

  datatype UnitPriceOverride = UnitPriceOverride(countryCodes: seq<string>, unitPrice: Money)

  /** `priceResourceModel`. */
  datatype PriceModel = PriceModel(
    id: Cfg<string>,
    productId: Cfg<string>,
    description: Cfg<string>,
    name: Cfg<string>,
    taxMode: Cfg<string>,
    unitPrice: Money,
    unitPriceOverrides: Cfg<seq<UnitPriceOverride>>,
    billingCycle: Option<Duration>,
    trialPeriod: Option<Duration>,
    quantity: Cfg<Quantity>,
    customData: Cfg<map<string, string>>,
    status: Cfg<string>,
    createdAt: Cfg<string>,
    updatedAt: Cfg<string>)

  /** The SDK's `Price` as the API returns it. */
  datatype PriceResponse = PriceResponse(
    id: string,
    productId: string,
    description: string,
    name: Option<string>,
    taxMode: string,
    unitPrice: Money,
    unitPriceOverrides: seq<UnitPriceOverride>,
    billingCycle: Option<Duration>,
    trialPeriod: Option<Duration>,
    quantity: Quantity,
    customData: Option<Json>,
    status: string,
    createdAt: string,
    updatedAt: string)

  datatype CreatePriceRequest = CreatePriceRequest(
    productId: string,
    description: string,
    unitPrice: Money,
    name: Option<string>,
    taxMode: Option<string>,
    unitPriceOverrides: Option<seq<UnitPriceOverride>>,
    billingCycle: Option<Duration>,
    trialPeriod: Option<Duration>,
    quantity: Option<Quantity>,
    customData: Option<Json>)

  /** The SDK's `UpdatePriceRequest`, used both by Update and by the archiving Delete. */
  datatype UpdatePriceRequest = UpdatePriceRequest(
    priceId: string,
    description: Patch<string>,
    name: Patch<string>,
    billingCycle: Patch<Duration>,
    trialPeriod: Patch<Duration>,
    taxMode: Patch<string>,
    unitPrice: Patch<Money>,
    unitPriceOverrides: Patch<seq<UnitPriceOverride>>,
    quantity: Patch<Quantity>,
    status: Patch<string>,
    customData: Patch<Json>)

  const TaxModeAccountSetting := "account_setting"
  const StatusArchived := "archived"

  // ---------------------------------------------------------------------------------------
  // Quantity normalisation

  /** A response quantity is stored as an object when either bound is positive, else as null. */
  function QuantityState(q: Quantity): (c: Cfg<Quantity>)
    ensures c.Known? <==> q.minimum > 0 || q.maximum > 0
    ensures c.Null? <==> !(q.minimum > 0 || q.maximum > 0)
    ensures c.Known? ==> c.value == q
  {
    if q.minimum > 0 || q.maximum > 0 then Known(q) else Null
  }

  /**
   * A planned quantity with a positive bound survives the round trip through a response that
   * echoes it; the all-zero quantity the SDK reports for "none" comes back as null.
   */
  lemma QuantityRoundTrip(q: Quantity)
    ensures (q.minimum > 0 || q.maximum > 0) ==> QuantityState(q) == Known(q)
    ensures q == Quantity(0, 0) ==> QuantityState(q) == Null
  {
  }

  // ---------------------------------------------------------------------------------------
  // Unit price overrides

  /**
   * Create's override conversion: each planned override becomes one request override with
   * the same country codes and unit price; an empty list leaves the Go slice nil.
   */
  method ConvertOverrides(overrides: seq<UnitPriceOverride>) returns (r: Option<seq<UnitPriceOverride>>)
    ensures r.None? <==> overrides == []
    ensures r.Some? ==> r.value == overrides
  {
    var paddleOverrides: Option<seq<UnitPriceOverride>> := None;
    for i := 0 to |overrides|
      invariant i == 0 <==> paddleOverrides.None?
      invariant paddleOverrides.Some? ==> paddleOverrides.value == overrides[..i]
    {
      var override := overrides[i];
      var paddleCountryCodes: seq<string> := [];
      for j := 0 to |override.countryCodes|
        invariant paddleCountryCodes == override.countryCodes[..j]
      {
        paddleCountryCodes := paddleCountryCodes + [override.countryCodes[j]];
      }
      assert override.countryCodes[..|override.countryCodes|] == override.countryCodes;
      var converted := UnitPriceOverride(paddleCountryCodes, Money(override.unitPrice.amount, override.unitPrice.currencyCode));
      var sofar := if paddleOverrides.Some? then paddleOverrides.value else [];
      paddleOverrides := Some(sofar + [converted]);
      assert overrides[..i + 1] == overrides[..i] + [overrides[i]];
    }
    assert overrides[..|overrides|] == overrides;
    return paddleOverrides;
  }

  /** The create request's overrides: sent only when the plan's list is known and non-empty. */
  function OverridesRequest(planned: Cfg<seq<UnitPriceOverride>>): (o: Option<seq<UnitPriceOverride>>)
    ensures o.Some? <==> planned.Known? && planned.value != []
    ensures o.Some? ==> o.value == planned.value
  {
    if planned.Known? && planned.value != [] then Some(planned.value) else None
  }

  /** Read's override mapping: a non-empty response list is stored as a list, an empty one as null. */
  function OverridesState(overrides: seq<UnitPriceOverride>): (c: Cfg<seq<UnitPriceOverride>>)
    ensures c.Null? <==> overrides == []
    ensures c.Known? ==> c.value == overrides
  {
    if |overrides| > 0 then Known(overrides) else Null
  }

  /** Read's override loop: one list element per response override, in order. */
  method OverridesToState(overrides: seq<UnitPriceOverride>) returns (c: Cfg<seq<UnitPriceOverride>>)
    ensures c == OverridesState(overrides)
  {
    if |overrides| > 0 {
      var overrideElements: seq<UnitPriceOverride> := [];
      for i := 0 to |overrides|
        invariant overrideElements == overrides[..i]
      {
        var override := overrides[i];
        var countryCodeValues: seq<string> := [];
        for j := 0 to |override.countryCodes|
          invariant countryCodeValues == override.countryCodes[..j]
        {
          countryCodeValues := countryCodeValues + [override.countryCodes[j]];
        }
        assert override.countryCodes[..|override.countryCodes|] == override.countryCodes;
        overrideElements := overrideElements + [UnitPriceOverride(countryCodeValues, override.unitPrice)];
        assert overrides[..i + 1] == overrides[..i] + [overrides[i]];
      }
      assert overrides[..|overrides|] == overrides;
      return Known(overrideElements);
    } else {
      return Null;
    }
  }

  /**
   * Overrides sent on Create and echoed by the API read back as planned, except that a known
   * empty list reads back as null.
   */
  lemma OverridesReadBack(planned: Cfg<seq<UnitPriceOverride>>)
    requires !planned.Unknown?
    ensures var sent := OverridesRequest(planned);
      var echoed := if sent.Some? then sent.value else [];
      OverridesState(echoed) == (if planned == Known([]) then Null else planned)
  {
  }

  // ---------------------------------------------------------------------------------------
  // Create

  function CreateRequestOf(plan: PriceModel): (req: CreatePriceRequest)
    ensures req.productId == ValueString(plan.productId)
    ensures req.description == ValueString(plan.description)
    ensures req.unitPrice == plan.unitPrice
    ensures req.name.Some? <==> !plan.name.Null?
    ensures plan.name.Known? ==> req.name == Some(plan.name.value)
    ensures req.taxMode.Some? <==> plan.taxMode.Known?
    ensures plan.taxMode.Known? ==> req.taxMode == Some(plan.taxMode.value)
    ensures req.quantity.Some? <==> plan.quantity.Known?
    ensures plan.quantity.Known? ==> req.quantity == Some(plan.quantity.value)
    ensures req.customData.Some? <==> plan.customData.Known?
    ensures plan.customData.Known? ==> req.customData.value == FromStrings(plan.customData.value)
    ensures req.unitPriceOverrides == OverridesRequest(plan.unitPriceOverrides)
    ensures req.billingCycle == plan.billingCycle && req.trialPeriod == plan.trialPeriod
  {
    CreatePriceRequest(
      productId := ValueString(plan.productId),
      description := ValueString(plan.description),
      unitPrice := plan.unitPrice,
      name := IncludeUnlessNull(plan.name, ""),
      taxMode := IncludeIfKnown(plan.taxMode),
      unitPriceOverrides := OverridesRequest(plan.unitPriceOverrides),
      billingCycle := plan.billingCycle,
      trialPeriod := plan.trialPeriod,
      quantity := IncludeIfKnown(plan.quantity),
      customData := if plan.customData.Known? then Some(FromStrings(plan.customData.value)) else None)
  }

  method BuildCreateRequest(plan: PriceModel) returns (req: CreatePriceRequest)
    ensures req == CreateRequestOf(plan)
  {
    var name := IncludeUnlessNullStep(plan.name, "");
    var taxMode := IncludeIfKnownStep(plan.taxMode);
    var overrides: Option<seq<UnitPriceOverride>> := None;
    if !plan.unitPriceOverrides.Null? && !plan.unitPriceOverrides.Unknown? {
      overrides := ConvertOverrides(plan.unitPriceOverrides.value);
    }
    var billingCycle: Option<Duration> := None;
    if plan.billingCycle.Some? {
      billingCycle := Some(Duration(plan.billingCycle.value.frequency, plan.billingCycle.value.interval));
    }
    var trialPeriod: Option<Duration> := None;
    if plan.trialPeriod.Some? {
      trialPeriod := Some(Duration(plan.trialPeriod.value.frequency, plan.trialPeriod.value.interval));
    }
    var quantity := IncludeIfKnownStep(plan.quantity);
    var customData: Option<Json> := None;
    if !plan.customData.Null? && !plan.customData.Unknown? {
      customData := MapToCustomData(Some(plan.customData.value));
    }
    req := CreatePriceRequest(ValueString(plan.productId), ValueString(plan.description),
                              Money(plan.unitPrice.amount, plan.unitPrice.currencyCode),
                              name, taxMode, overrides, billingCycle, trialPeriod, quantity, customData);
  }

  /**
   * Create: on success the identifier, status, tax mode and timestamps come from the response
   * and the quantity is normalised; every other field keeps its planned value.
   */
  method Create(plan: PriceModel, response: ApiResult<PriceResponse>)
    returns (sent: CreatePriceRequest, saved: Option<PriceModel>, diags: seq<Diagnostic>)
    ensures sent == CreateRequestOf(plan)
    ensures response.Failed? ==> saved.None? && diags == [GeneralError("Error creating price")]
    ensures response.Ok? ==> diags == [] && saved == Some(plan.(
      id := Known(response.value.id),
      status := Known(response.value.status),
      taxMode := Known(response.value.taxMode),
      createdAt := Known(response.value.createdAt),
      updatedAt := Known(response.value.updatedAt),
      quantity := QuantityState(response.value.quantity)))
  {
    sent := BuildCreateRequest(plan);
    if response.Failed? {
      return sent, None, [GeneralError("Error creating price")];
    }
    var price := response.value;
    var data := plan;
    data := data.(id := Known(price.id));
    data := data.(status := Known(price.status));
    data := data.(taxMode := Known(price.taxMode));
    data := data.(createdAt := Known(price.createdAt));
    data := data.(updatedAt := Known(price.updatedAt));
    if price.quantity.minimum > 0 || price.quantity.maximum > 0 {
      data := data.(quantity := Known(Quantity(price.quantity.minimum, price.quantity.maximum)));
    } else {
      data := data.(quantity := Null);
    }
    return sent, Some(data), [];
  }

  // ---------------------------------------------------------------------------------------
  // Read

  /** The state Read stores for a response whose custom data converts. */
  function ReadState(state: PriceModel, price: PriceResponse): (r: PriceModel)
    requires price.customData.Some? ==> Renderable(price.customData.value)
    ensures r.id == state.id
    ensures r.productId == Known(price.productId) && r.description == Known(price.description)
    ensures r.taxMode == Known(price.taxMode) && r.status == Known(price.status)
    ensures r.createdAt == Known(price.createdAt) && r.updatedAt == Known(price.updatedAt)
    ensures r.name == FromOptional(price.name)
    ensures r.unitPrice == price.unitPrice
    ensures r.unitPriceOverrides == OverridesState(price.unitPriceOverrides)
    ensures r.billingCycle == price.billingCycle && r.trialPeriod == price.trialPeriod
    ensures r.quantity == QuantityState(price.quantity)
    ensures r.customData == StateOf(price.customData)
  {
    state.(
      productId := Known(price.productId),
      description := Known(price.description),
      status := Known(price.status),
      createdAt := Known(price.createdAt),
      updatedAt := Known(price.updatedAt),
      name := FromOptional(price.name),
      taxMode := Known(price.taxMode),
      unitPrice := price.unitPrice,
      unitPriceOverrides := OverridesState(price.unitPriceOverrides),
      billingCycle := price.billingCycle,
      trialPeriod := price.trialPeriod,
      quantity := QuantityState(price.quantity),
      customData := StateOf(price.customData))
  }

  /**
   * Read: any failure of the remote read is reported, a not-found included; custom data that
   * does not convert is reported too; otherwise the whole state is refreshed.
   */
  method Read(state: PriceModel, response: ApiResult<PriceResponse>)
    returns (saved: Option<PriceModel>, diags: seq<Diagnostic>)
    ensures response.Failed? ==> saved.None? && diags == [GeneralError("Error reading price")]
    ensures response.Ok? && response.value.customData.Some? && !Renderable(response.value.customData.value) ==>
      saved.None? && diags == [GeneralError("Error processing custom data")]
    ensures response.Ok? && (response.value.customData.Some? ==> Renderable(response.value.customData.value)) ==>
      diags == [] && saved == Some(ReadState(state, response.value))
  {
    if response.Failed? {
      return None, [GeneralError("Error reading price")];
    }
    var price := response.value;
    var data := state;
    data := data.(productId := Known(price.productId));
    data := data.(description := Known(price.description));
    data := data.(status := Known(price.status));
    data := data.(createdAt := Known(price.createdAt));
    data := data.(updatedAt := Known(price.updatedAt));
    var name := FromOptionalStep(price.name);
    data := data.(name := name);
    data := data.(taxMode := Known(price.taxMode));
    data := data.(unitPrice := Money(price.unitPrice.amount, price.unitPrice.currencyCode));
    var overrides := OverridesToState(price.unitPriceOverrides);
    data := data.(unitPriceOverrides := overrides);
    data := data.(billingCycle := price.billingCycle);
    data := data.(trialPeriod := price.trialPeriod);
    if price.quantity.minimum > 0 || price.quantity.maximum > 0 {
      data := data.(quantity := Known(Quantity(price.quantity.minimum, price.quantity.maximum)));
    } else {
      data := data.(quantity := Null);
    }
    var customData := ReadCustomData(price.customData);
    if customData.None? {
      return None, [GeneralError("Error processing custom data")];
    }
    data := data.(customData := customData.value);
    return Some(data), [];
  }

  // ---------------------------------------------------------------------------------------
  // Update

  /** The fields whose change makes Update call the API. */
  predicate HasChanges(plan: PriceModel, state: PriceModel)
  {
    plan.description != state.description
    || plan.name != state.name
    || plan.taxMode != state.taxMode
    || plan.quantity != state.quantity
    || plan.customData != state.customData
  }

  /** The update request for a plan whose mutable fields changed. */
  function UpdateRequestOf(plan: PriceModel): (req: UpdatePriceRequest)
    ensures req.priceId == ValueString(plan.id)
    ensures req.description.Set? && (plan.description.Known? ==> req.description.value == plan.description.value)
    ensures req.name == Cleared <==> plan.name.Null?
    ensures plan.name.Known? ==> req.name == Set(plan.name.value)
    ensures req.name != NotSent
    ensures req.taxMode == NotSent <==> plan.taxMode.Unknown?
    ensures plan.taxMode.Known? ==> req.taxMode == Set(plan.taxMode.value)
    ensures plan.taxMode.Null? ==> req.taxMode == Set(TaxModeAccountSetting)
    ensures req.quantity.Set? <==> plan.quantity.Known?
    ensures plan.quantity.Known? ==> req.quantity == Set(plan.quantity.value)
    ensures req.quantity != Cleared
    ensures plan.customData.Known? ==> req.customData == Set(FromStrings(plan.customData.value))
    ensures !plan.customData.Known? ==> req.customData == Cleared
    ensures req.unitPrice == NotSent && req.billingCycle == NotSent && req.trialPeriod == NotSent
    ensures req.unitPriceOverrides == NotSent && req.status == NotSent
  {
    UpdatePriceRequest(
      priceId := ValueString(plan.id),
      description := AlwaysSet(plan.description, ""),
      name := ClearIfNull(plan.name, ""),
      billingCycle := NotSent,
      trialPeriod := NotSent,
      taxMode := SetKnownDefaultNull(plan.taxMode, TaxModeAccountSetting),
      unitPrice := NotSent,
      unitPriceOverrides := NotSent,
      quantity := SetIfKnown(plan.quantity),
      status := NotSent,
      customData := if plan.customData.Known? then Set(FromStrings(plan.customData.value)) else Cleared)
  }

  method BuildUpdateRequest(plan: PriceModel) returns (req: UpdatePriceRequest)
    ensures req == UpdateRequestOf(plan)
  {
    var name := ClearIfNullStep(plan.name, "");
    var taxMode := SetKnownDefaultNullStep(plan.taxMode, TaxModeAccountSetting);
    var quantity := SetIfKnownStep(plan.quantity);
    var customData: Patch<Json>;
    if !plan.customData.Null? && !plan.customData.Unknown? {
      var converted := MapToCustomData(Some(plan.customData.value));
      customData := Set(converted.value);
    } else {
      customData := Cleared;
    }
    req := UpdatePriceRequest(
      priceId := ValueString(plan.id),
      description := Set(ValueString(plan.description)),
      name := name,
      billingCycle := NotSent,
      trialPeriod := NotSent,
      taxMode := taxMode,
      unitPrice := NotSent,
      unitPriceOverrides := NotSent,
      quantity := quantity,
      status := NotSent,
      customData := customData);
  }

  /**
   * Update: with no change to the mutable fields no request is sent and the plan is stored
   * with the state's status and update time; otherwise the update request is sent and the
   * status, tax mode, update time and normalised quantity come from the response.
   */
  method Update(plan: PriceModel, state: PriceModel, response: ApiResult<PriceResponse>)
    returns (sent: Option<UpdatePriceRequest>, saved: Option<PriceModel>, diags: seq<Diagnostic>)
    ensures sent.None? <==> !HasChanges(plan, state)
    ensures !HasChanges(plan, state) ==>
      diags == [] && saved == Some(plan.(updatedAt := state.updatedAt, status := state.status))
    ensures HasChanges(plan, state) ==> sent == Some(UpdateRequestOf(plan))
    ensures HasChanges(plan, state) && response.Failed? ==> saved.None? && diags == [GeneralError("Error updating price")]
    ensures HasChanges(plan, state) && response.Ok? ==> diags == [] && saved == Some(plan.(
      status := Known(response.value.status),
      taxMode := Known(response.value.taxMode),
      updatedAt := Known(response.value.updatedAt),
      quantity := QuantityState(response.value.quantity)))
  {
    var hasChanges := plan.description != state.description
      || plan.name != state.name
      || plan.taxMode != state.taxMode
      || plan.quantity != state.quantity
      || plan.customData != state.customData;
    if !hasChanges {
      var data := plan;
      data := data.(updatedAt := state.updatedAt);
      data := data.(status := state.status);
      return None, Some(data), [];
    }
    var updateReq := BuildUpdateRequest(plan);
    sent := Some(updateReq);
    if response.Failed? {
      return sent, None, [GeneralError("Error updating price")];
    }
    var price := response.value;
    var data := plan;
    data := data.(status := Known(price.status));
    data := data.(taxMode := Known(price.taxMode));
    data := data.(updatedAt := Known(price.updatedAt));
    if price.quantity.minimum > 0 || price.quantity.maximum > 0 {
      data := data.(quantity := Known(Quantity(price.quantity.minimum, price.quantity.maximum)));
    } else {
      data := data.(quantity := Null);
    }
    return sent, Some(data), [];
  }

  /**
   * A plan that differs from state only in its unit price overrides makes no API call: the
   * overrides are outside the change test and no replacement is forced for them.
   */
  lemma OverrideOnlyChangeIsNotSent(plan: PriceModel, state: PriceModel)
    requires plan == state.(unitPriceOverrides := plan.unitPriceOverrides)
    ensures !HasChanges(plan, state)
  {
  }

  /**
   * After an update with a plan whose name, tax mode and custom data are not unknown, those
   * remote fields hold exactly what the plan denotes, whatever they held before; a null tax
   * mode resets it to the account setting.
   */
  lemma UpdateConverges(plan: PriceModel, currentName: Option<string>, currentTaxMode: Option<string>,
                        currentCustomData: Option<Json>)
    requires !plan.name.Unknown? && !plan.taxMode.Unknown? && !plan.customData.Unknown?
    ensures var req := UpdateRequestOf(plan);
      && ApplyTo(req.name, currentName) == Denotes(plan.name)
      && ApplyTo(req.taxMode, currentTaxMode) == Some(if plan.taxMode.Known? then plan.taxMode.value else TaxModeAccountSetting)
      && ApplyTo(req.customData, currentCustomData) == (if plan.customData.Known? then Some(FromStrings(plan.customData.value)) else None)
  {
  }

  // ---------------------------------------------------------------------------------------
  // Delete

  /** Prices cannot be deleted: Delete sends an update carrying only the identifier and status archived. */
  function ArchiveRequestOf(priceId: string): (req: UpdatePriceRequest)
    ensures req.priceId == priceId && req.status == Set(StatusArchived)
    ensures req.description == NotSent && req.name == NotSent && req.billingCycle == NotSent && req.trialPeriod == NotSent
    ensures req.taxMode == NotSent && req.unitPrice == NotSent && req.unitPriceOverrides == NotSent
    ensures req.quantity == NotSent && req.customData == NotSent
  {
    UpdatePriceRequest(priceId, NotSent, NotSent, NotSent, NotSent, NotSent, NotSent, NotSent, NotSent, Set(StatusArchived), NotSent)
  }

  method Delete(state: PriceModel, result: ApiResult<PriceResponse>)
    returns (sent: UpdatePriceRequest, diags: seq<Diagnostic>)
    ensures sent == ArchiveRequestOf(ValueString(state.id))
    ensures diags == [] <==> result.Ok?
    ensures result.Failed? ==> diags == [GeneralError("Error archiving price")]
  {
    sent := UpdatePriceRequest(ValueString(state.id), NotSent, NotSent, NotSent, NotSent, NotSent, NotSent, NotSent, NotSent, Set(StatusArchived), NotSent);
    if result.Failed? {
      return sent, [GeneralError("Error archiving price")];
    }
    return sent, [];
  }
}
