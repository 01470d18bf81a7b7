/**
 * The discount resource: optional-field inclusion on Create, the per-field patch policy of
 * Update, the nil/empty-to-null mapping of Read, and the archive-only Delete.
 */
module Discount {
  import opened Values
  import opened CustomData

  /** `discountResourceModel`. */
  datatype DiscountModel = DiscountModel(
    id: Cfg<string>,
    status: Cfg<string>,
    description: Cfg<string>,
    enabledForCheckout: Cfg<bool>,
    code: Cfg<string>,
    discountType: Cfg<string>,
    mode: Cfg<string>,
    amount: Cfg<string>,
    currencyCode: Cfg<string>,
    recur: Cfg<bool>,
    maximumRecurringIntervals: Cfg<int>,
    usageLimit: Cfg<int>,
    restrictTo: Cfg<seq<string>>,
    expiresAt: Cfg<string>,
    customData: Cfg<map<string, string>>,
    timesUsed: Cfg<int>,
    discountGroupId: Cfg<string>,
    createdAt: Cfg<string>,
    updatedAt: Cfg<string>)

  /** The SDK's `Discount` as the API returns it; a nil `restrict_to` slice is the empty sequence. */
  datatype DiscountResponse = DiscountResponse(
    id: string,
    status: string,
    description: string,
    enabledForCheckout: bool,
    code: Option<string>,
    discountType: string,
    mode: string,
    amount: string,
    currencyCode: Option<string>,
    recur: bool,
    maximumRecurringIntervals: Option<int>,
    usageLimit: Option<int>,
    restrictTo: seq<string>,
    expiresAt: Option<string>,
    customData: Option<Json>,
    timesUsed: int,
    discountGroupId: Option<string>,
    createdAt: string,
    updatedAt: string)

  datatype CreateDiscountRequest = CreateDiscountRequest(
    description: string,
    discountType: string,
    amount: string,
    enabledForCheckout: Option<bool>,
    code: Option<string>,
    mode: Option<string>,
    currencyCode: Option<string>,
    recur: Option<bool>,
    maximumRecurringIntervals: Option<int>,
    usageLimit: Option<int>,
    restrictTo: Option<seq<string>>,
    expiresAt: Option<string>,
    customData: Option<Json>,
    discountGroupId: Option<string>)

  /** The SDK's `UpdateDiscountRequest`, used both by Update and by the archiving Delete. */
  datatype UpdateDiscountRequest = UpdateDiscountRequest(
    discountId: string,
    status: Patch<string>,
    description: Patch<string>,
    enabledForCheckout: Patch<bool>,
    code: Patch<string>,
    discountType: Patch<string>,
    mode: Patch<string>,
    amount: Patch<string>,
    currencyCode: Patch<string>,
    recur: Patch<bool>,
    maximumRecurringIntervals: Patch<int>,
    usageLimit: Patch<int>,
    restrictTo: Patch<seq<string>>,
    expiresAt: Patch<string>,
    customData: Patch<Json>,
    discountGroupId: Patch<string>)

  const StatusArchived := "archived"

  // ---------------------------------------------------------------------------------------
  // Create

  /** The create request: every optional field included iff non-null, restrict_to and custom data iff known. */
  function CreateRequestOf(plan: DiscountModel): (req: CreateDiscountRequest)
    ensures req.description == ValueString(plan.description)
    ensures req.discountType == ValueString(plan.discountType) && req.amount == ValueString(plan.amount)
    ensures req.enabledForCheckout.Some? <==> !plan.enabledForCheckout.Null?
    ensures req.code.Some? <==> !plan.code.Null?
    ensures req.mode.Some? <==> !plan.mode.Null?
    ensures req.currencyCode.Some? <==> !plan.currencyCode.Null?
    ensures req.recur.Some? <==> !plan.recur.Null?
    ensures req.maximumRecurringIntervals.Some? <==> !plan.maximumRecurringIntervals.Null?
    ensures req.usageLimit.Some? <==> !plan.usageLimit.Null?
    ensures req.restrictTo.Some? <==> plan.restrictTo.Known?
    ensures req.expiresAt.Some? <==> !plan.expiresAt.Null?
    ensures req.customData.Some? <==> plan.customData.Known?
    ensures plan.customData.Known? ==> req.customData.value == FromStrings(plan.customData.value)
    ensures req.discountGroupId.Some? <==> !plan.discountGroupId.Null?
    ensures plan.enabledForCheckout.Known? ==> req.enabledForCheckout == Some(plan.enabledForCheckout.value)
    ensures plan.code.Known? ==> req.code == Some(plan.code.value)
    ensures plan.mode.Known? ==> req.mode == Some(plan.mode.value)
    ensures plan.currencyCode.Known? ==> req.currencyCode == Some(plan.currencyCode.value)
    ensures plan.recur.Known? ==> req.recur == Some(plan.recur.value)
    ensures plan.maximumRecurringIntervals.Known? ==> req.maximumRecurringIntervals == Some(plan.maximumRecurringIntervals.value)
    ensures plan.usageLimit.Known? ==> req.usageLimit == Some(plan.usageLimit.value)
    ensures plan.restrictTo.Known? ==> req.restrictTo == Some(plan.restrictTo.value)
    ensures plan.expiresAt.Known? ==> req.expiresAt == Some(plan.expiresAt.value)
    ensures plan.discountGroupId.Known? ==> req.discountGroupId == Some(plan.discountGroupId.value)
    ensures plan.enabledForCheckout.Unknown? ==> req.enabledForCheckout == Some(false)
    ensures plan.recur.Unknown? ==> req.recur == Some(false)
    ensures plan.mode.Unknown? ==> req.mode == Some("")
  {
    CreateDiscountRequest(
      description := ValueString(plan.description),
      discountType := ValueString(plan.discountType),
      amount := ValueString(plan.amount),
      enabledForCheckout := IncludeUnlessNull(plan.enabledForCheckout, false),
      code := IncludeUnlessNull(plan.code, ""),
      mode := IncludeUnlessNull(plan.mode, ""),
      currencyCode := IncludeUnlessNull(plan.currencyCode, ""),
      recur := IncludeUnlessNull(plan.recur, false),
      maximumRecurringIntervals := IncludeUnlessNull(plan.maximumRecurringIntervals, 0),
      usageLimit := IncludeUnlessNull(plan.usageLimit, 0),
      restrictTo := IncludeIfKnown(plan.restrictTo),
      expiresAt := IncludeUnlessNull(plan.expiresAt, ""),
      customData := if plan.customData.Known? then Some(FromStrings(plan.customData.value)) else None,
      discountGroupId := IncludeUnlessNull(plan.discountGroupId, ""))
  }

  method BuildCreateRequest(plan: DiscountModel) returns (req: CreateDiscountRequest)
    ensures req == CreateRequestOf(plan)
  {
    var enabledForCheckout := IncludeUnlessNullStep(plan.enabledForCheckout, false);
    var code := IncludeUnlessNullStep(plan.code, "");
    var mode := IncludeUnlessNullStep(plan.mode, "");
    var currencyCode := IncludeUnlessNullStep(plan.currencyCode, "");
    var recur := IncludeUnlessNullStep(plan.recur, false);
    var maxIntervals := IncludeUnlessNullStep(plan.maximumRecurringIntervals, 0);
    var usageLimit := IncludeUnlessNullStep(plan.usageLimit, 0);
    var restrictTo := IncludeIfKnownStep(plan.restrictTo);
    var expiresAt := IncludeUnlessNullStep(plan.expiresAt, "");
    var customData: Option<Json> := None;
    if !plan.customData.Null? && !plan.customData.Unknown? {
      customData := MapToCustomData(Some(plan.customData.value));
    }
    var groupId := IncludeUnlessNullStep(plan.discountGroupId, "");
    req := CreateDiscountRequest(ValueString(plan.description), ValueString(plan.discountType), ValueString(plan.amount),
                                 enabledForCheckout, code, mode, currencyCode, recur, maxIntervals, usageLimit,
                                 restrictTo, expiresAt, customData, groupId);
  }

  /**
   * Create: on success the identifier, status, checkout flag, recurrence, usage count and
   * timestamps come from the response; every other field keeps its planned value.
   */
  method Create(plan: DiscountModel, response: ApiResult<DiscountResponse>)
    returns (sent: CreateDiscountRequest, saved: Option<DiscountModel>, diags: seq<Diagnostic>)
    ensures sent == CreateRequestOf(plan)
    ensures response.Failed? ==> saved.None? && diags == [GeneralError("Error creating discount")]
    ensures response.Ok? ==> diags == [] && saved == Some(plan.(
      id := Known(response.value.id),
      status := Known(response.value.status),
      enabledForCheckout := Known(response.value.enabledForCheckout),
      recur := Known(response.value.recur),
      timesUsed := Known(response.value.timesUsed),
      createdAt := Known(response.value.createdAt),
      updatedAt := Known(response.value.updatedAt)))
  {
    sent := BuildCreateRequest(plan);
    if response.Failed? {
      return sent, None, [GeneralError("Error creating discount")];
    }
    var discount := response.value;
    var data := plan;
    data := data.(id := Known(discount.id));
    data := data.(status := Known(discount.status));
    data := data.(enabledForCheckout := Known(discount.enabledForCheckout));
    data := data.(recur := Known(discount.recur));
    data := data.(timesUsed := Known(discount.timesUsed));
    data := data.(createdAt := Known(discount.createdAt));
    data := data.(updatedAt := Known(discount.updatedAt));
    return sent, Some(data), [];
  }

  // ---------------------------------------------------------------------------------------
  // Read

  /** An empty `restrict_to` in a response is stored as a null list. */
  function RestrictToState(restrictTo: seq<string>): (c: Cfg<seq<string>>)
    ensures c.Null? <==> restrictTo == []
    ensures restrictTo != [] ==> c == Known(restrictTo)
  {
    if |restrictTo| > 0 then Known(restrictTo) else Null
  }

  /** The state Read stores for a response whose custom data converts. */
  function ReadState(state: DiscountModel, discount: DiscountResponse): (r: DiscountModel)
    requires discount.customData.Some? ==> Renderable(discount.customData.value)
    ensures r.id == state.id
    ensures r.status == Known(discount.status) && r.description == Known(discount.description)
    ensures r.enabledForCheckout == Known(discount.enabledForCheckout) && r.recur == Known(discount.recur)
    ensures r.discountType == Known(discount.discountType) && r.mode == Known(discount.mode)
    ensures r.amount == Known(discount.amount) && r.timesUsed == Known(discount.timesUsed)
    ensures r.createdAt == Known(discount.createdAt) && r.updatedAt == Known(discount.updatedAt)
    ensures r.code == FromOptional(discount.code)
    ensures r.currencyCode == FromOptional(discount.currencyCode)
    ensures r.maximumRecurringIntervals == FromOptional(discount.maximumRecurringIntervals)
    ensures r.usageLimit == FromOptional(discount.usageLimit)
    ensures r.restrictTo == RestrictToState(discount.restrictTo)
    ensures r.expiresAt == FromOptional(discount.expiresAt)
    ensures r.customData == StateOf(discount.customData)
    ensures r.discountGroupId == FromOptional(discount.discountGroupId)
  {
    state.(
      status := Known(discount.status),
      description := Known(discount.description),
      enabledForCheckout := Known(discount.enabledForCheckout),
      discountType := Known(discount.discountType),
      mode := Known(discount.mode),
      amount := Known(discount.amount),
      recur := Known(discount.recur),
      timesUsed := Known(discount.timesUsed),
      createdAt := Known(discount.createdAt),
      updatedAt := Known(discount.updatedAt),
      code := FromOptional(discount.code),
      currencyCode := FromOptional(discount.currencyCode),
      maximumRecurringIntervals := FromOptional(discount.maximumRecurringIntervals),
      usageLimit := FromOptional(discount.usageLimit),
      restrictTo := RestrictToState(discount.restrictTo),
      expiresAt := FromOptional(discount.expiresAt),
      customData := StateOf(discount.customData),
      discountGroupId := FromOptional(discount.discountGroupId))
  }

  /** Read: any remote failure is reported, a not-found included, and so is unconvertible custom data. */
  method Read(state: DiscountModel, response: ApiResult<DiscountResponse>)
    returns (saved: Option<DiscountModel>, diags: seq<Diagnostic>)
    ensures response.Failed? ==> saved.None? && diags == [GeneralError("Error reading discount")]
    ensures response.Ok? && response.value.customData.Some? && !Renderable(response.value.customData.value) ==>
      saved.None? && diags == [GeneralError("Error processing custom data")]
    ensures response.Ok? && (response.value.customData.Some? ==> Renderable(response.value.customData.value)) ==>
      diags == [] && saved == Some(ReadState(state, response.value))
  {
    if response.Failed? {
      return None, [GeneralError("Error reading discount")];
    }
    var discount := response.value;
    var data := state;
    data := data.(status := Known(discount.status));
    data := data.(description := Known(discount.description));
    data := data.(enabledForCheckout := Known(discount.enabledForCheckout));
    data := data.(discountType := Known(discount.discountType));
    data := data.(mode := Known(discount.mode));
    data := data.(amount := Known(discount.amount));
    data := data.(recur := Known(discount.recur));
    data := data.(timesUsed := Known(discount.timesUsed));
    data := data.(createdAt := Known(discount.createdAt));
    data := data.(updatedAt := Known(discount.updatedAt));
    var code := FromOptionalStep(discount.code);
    data := data.(code := code);
    var currencyCode := FromOptionalStep(discount.currencyCode);
    data := data.(currencyCode := currencyCode);
    var maximumRecurringIntervals := FromOptionalStep(discount.maximumRecurringIntervals);
    data := data.(maximumRecurringIntervals := maximumRecurringIntervals);
    var usageLimit := FromOptionalStep(discount.usageLimit);
    data := data.(usageLimit := usageLimit);
    if |discount.restrictTo| > 0 {
      data := data.(restrictTo := Known(discount.restrictTo));
    } else {
      data := data.(restrictTo := Null);
    }
    var expiresAt := FromOptionalStep(discount.expiresAt);
    data := data.(expiresAt := expiresAt);
    var customData := ReadCustomData(discount.customData);
    if customData.None? {
      return None, [GeneralError("Error processing custom data")];
    }
    data := data.(customData := customData.value);
    var discountGroupId := FromOptionalStep(discount.discountGroupId);
    data := data.(discountGroupId := discountGroupId);
    return Some(data), [];
  }

  // ---------------------------------------------------------------------------------------
  // Update

  /** The update request for a plan. */
  function UpdateRequestOf(plan: DiscountModel): (req: UpdateDiscountRequest)
    ensures req.discountId == ValueString(plan.id)
    ensures req.description == Set(ValueString(plan.description))
    ensures req.amount == Set(ValueString(plan.amount))
    ensures req.discountType == Set(ValueString(plan.discountType))
    ensures req.enabledForCheckout == NotSent <==> plan.enabledForCheckout.Null?
    ensures req.recur == NotSent <==> plan.recur.Null?
    ensures plan.enabledForCheckout.Known? ==> req.enabledForCheckout == Set(plan.enabledForCheckout.value)
    ensures plan.recur.Known? ==> req.recur == Set(plan.recur.value)
    ensures req.enabledForCheckout != Cleared && req.recur != Cleared
    ensures req.code == Cleared <==> plan.code.Null?
    ensures req.usageLimit == Cleared <==> plan.usageLimit.Null?
    ensures req.expiresAt == Cleared <==> plan.expiresAt.Null?
    ensures req.discountGroupId == Cleared <==> plan.discountGroupId.Null?
    ensures req.code != NotSent && req.usageLimit != NotSent && req.expiresAt != NotSent && req.discountGroupId != NotSent
    ensures plan.code.Known? ==> req.code == Set(plan.code.value)
    ensures req.restrictTo.Set? <==> plan.restrictTo.Known?
    ensures req.restrictTo == Cleared <==> plan.restrictTo.Null?
    ensures plan.customData.Known? ==> req.customData == Set(FromStrings(plan.customData.value))
    ensures !plan.customData.Known? ==> req.customData == Cleared
    ensures req.mode == NotSent && req.currencyCode == NotSent && req.maximumRecurringIntervals == NotSent
    ensures req.status == NotSent
  {
    UpdateDiscountRequest(
      discountId := ValueString(plan.id),
      status := NotSent,
      description := AlwaysSet(plan.description, ""),
      enabledForCheckout := SetUnlessNull(plan.enabledForCheckout, false),
      code := ClearIfNull(plan.code, ""),
      discountType := AlwaysSet(plan.discountType, ""),
      mode := NotSent,
      amount := AlwaysSet(plan.amount, ""),
      currencyCode := NotSent,
      recur := SetUnlessNull(plan.recur, false),
      maximumRecurringIntervals := NotSent,
      usageLimit := ClearIfNull(plan.usageLimit, 0),
      restrictTo := SetKnownClearNull(plan.restrictTo),
      expiresAt := ClearIfNull(plan.expiresAt, ""),
      customData := if plan.customData.Known? then Set(FromStrings(plan.customData.value)) else Cleared,
      discountGroupId := ClearIfNull(plan.discountGroupId, ""))
  }

  method BuildUpdateRequest(plan: DiscountModel) returns (req: UpdateDiscountRequest)
    ensures req == UpdateRequestOf(plan)
  {
    var enabledForCheckout := SetUnlessNullStep(plan.enabledForCheckout, false);
    var code := ClearIfNullStep(plan.code, "");
    var recur := SetUnlessNullStep(plan.recur, false);
    var usageLimit := ClearIfNullStep(plan.usageLimit, 0);
    var restrictTo := SetKnownClearNullStep(plan.restrictTo);
    var expiresAt := ClearIfNullStep(plan.expiresAt, "");
    var customData: Patch<Json>;
    if !plan.customData.Null? && !plan.customData.Unknown? {
      var converted := MapToCustomData(Some(plan.customData.value));
      customData := Set(converted.value);
    } else {
      customData := Cleared;
    }
    var groupId := ClearIfNullStep(plan.discountGroupId, "");
    req := UpdateDiscountRequest(
      discountId := ValueString(plan.id),
      status := NotSent,
      description := Set(ValueString(plan.description)),
      enabledForCheckout := enabledForCheckout,
      code := code,
      discountType := Set(ValueString(plan.discountType)),
      mode := NotSent,
      amount := Set(ValueString(plan.amount)),
      currencyCode := NotSent,
      recur := recur,
      maximumRecurringIntervals := NotSent,
      usageLimit := usageLimit,
      restrictTo := restrictTo,
      expiresAt := expiresAt,
      customData := customData,
      discountGroupId := groupId);
  }

  /** Update: sends the update request; status, checkout flag, recurrence, usage count and update time come back. */
  method Update(plan: DiscountModel, response: ApiResult<DiscountResponse>)
    returns (sent: UpdateDiscountRequest, saved: Option<DiscountModel>, diags: seq<Diagnostic>)
    ensures sent == UpdateRequestOf(plan)
    ensures response.Failed? ==> saved.None? && diags == [GeneralError("Error updating discount")]
    ensures response.Ok? ==> diags == [] && saved == Some(plan.(
      status := Known(response.value.status),
      enabledForCheckout := Known(response.value.enabledForCheckout),
      recur := Known(response.value.recur),
      timesUsed := Known(response.value.timesUsed),
      updatedAt := Known(response.value.updatedAt)))
  {
    sent := BuildUpdateRequest(plan);
    if response.Failed? {
      return sent, None, [GeneralError("Error updating discount")];
    }
    var discount := response.value;
    var data := plan;
    data := data.(status := Known(discount.status));
    data := data.(enabledForCheckout := Known(discount.enabledForCheckout));
    data := data.(recur := Known(discount.recur));
    data := data.(timesUsed := Known(discount.timesUsed));
    data := data.(updatedAt := Known(discount.updatedAt));
    return sent, Some(data), [];
  }

  /**
   * No drift on the clearable fields: with a plan whose code, usage limit, expiry and group
   * are not unknown, the remote fields after the update read back as exactly the planned
   * values, nulls included, whatever they held before.
   */
  lemma UpdateThenReadBack(plan: DiscountModel, code: Option<string>, usageLimit: Option<int>,
                           expiresAt: Option<string>, discountGroupId: Option<string>)
    requires !plan.code.Unknown? && !plan.usageLimit.Unknown? && !plan.expiresAt.Unknown? && !plan.discountGroupId.Unknown?
    ensures var req := UpdateRequestOf(plan);
      && FromOptional(ApplyTo(req.code, code)) == plan.code
      && FromOptional(ApplyTo(req.usageLimit, usageLimit)) == plan.usageLimit
      && FromOptional(ApplyTo(req.expiresAt, expiresAt)) == plan.expiresAt
      && FromOptional(ApplyTo(req.discountGroupId, discountGroupId)) == plan.discountGroupId
  {
    ClearingPoliciesConverge(plan.code, "", code);
    ClearingPoliciesConverge(plan.usageLimit, 0, usageLimit);
    ClearingPoliciesConverge(plan.expiresAt, "", expiresAt);
    ClearingPoliciesConverge(plan.discountGroupId, "", discountGroupId);
  }

  /**
   * `restrict_to` after an update reads back as planned, except that a known empty list,
   * which the API stores as no restriction, reads back as null.
   */
  lemma RestrictToReadBack(plan: DiscountModel, current: Option<seq<string>>)
    requires !plan.restrictTo.Unknown?
    ensures var stored := ApplyTo(UpdateRequestOf(plan).restrictTo, current);
      RestrictToState(if stored.Some? then stored.value else []) ==
        (if plan.restrictTo == Known([]) then Null else plan.restrictTo)
  {
  }

  /** A null checkout flag or recurrence is not sent, so the remote value stays as it was. */
  lemma NullFlagsKeepRemoteValue(plan: DiscountModel, enabled: Option<bool>, recur: Option<bool>)
    requires plan.enabledForCheckout.Null? && plan.recur.Null?
    ensures ApplyTo(UpdateRequestOf(plan).enabledForCheckout, enabled) == enabled
    ensures ApplyTo(UpdateRequestOf(plan).recur, recur) == recur
  {
  }

  // ---------------------------------------------------------------------------------------
  // Delete

  /** Discounts cannot be deleted: Delete sends an update carrying only the identifier and status archived. */
  function ArchiveRequestOf(discountId: string): (req: UpdateDiscountRequest)
    ensures req.discountId == discountId && req.status == Set(StatusArchived)
    ensures req.description == NotSent && req.enabledForCheckout == NotSent && req.code == NotSent
    ensures req.discountType == NotSent && req.mode == NotSent && req.amount == NotSent && req.currencyCode == NotSent
    ensures req.recur == NotSent && req.maximumRecurringIntervals == NotSent && req.usageLimit == NotSent
    ensures req.restrictTo == NotSent && req.expiresAt == NotSent && req.customData == NotSent
    ensures req.discountGroupId == NotSent
  {
    UpdateDiscountRequest(discountId, Set(StatusArchived), NotSent, NotSent, NotSent, NotSent, NotSent,
                          NotSent, NotSent, NotSent, NotSent, NotSent, NotSent, NotSent, NotSent, NotSent)
  }

  method Delete(state: DiscountModel, result: ApiResult<DiscountResponse>)
    returns (sent: UpdateDiscountRequest, diags: seq<Diagnostic>)
    ensures sent == ArchiveRequestOf(ValueString(state.id))
    ensures diags == [] <==> result.Ok?
    ensures result.Failed? ==> diags == [GeneralError("Error archiving discount")]
  {
    sent := UpdateDiscountRequest(ValueString(state.id), Set(StatusArchived), NotSent, NotSent, NotSent, NotSent, NotSent,
                                  NotSent, NotSent, NotSent, NotSent, NotSent, NotSent, NotSent, NotSent, NotSent);
    if result.Failed? {
      return sent, [GeneralError("Error archiving discount")];
    }
    return sent, [];
  }
}
