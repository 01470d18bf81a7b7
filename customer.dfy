/**
 * The customer resource: optional-field inclusion on Create with the locale write-back, the
 * patch policy of Update for name, locale and custom data, the Read mapping, and the
 * archive-only Delete.
 */
module Customer {
  import opened Values
  import opened CustomData

  /** `customerResourceModel`. */
  datatype CustomerModel = CustomerModel(
    id: Cfg<string>,
    name: Cfg<string>,
    email: Cfg<string>,
    marketingConsent: Cfg<bool>,
    status: Cfg<string>,
    customData: Cfg<map<string, string>>,
    locale: Cfg<string>,
    createdAt: Cfg<string>,
    updatedAt: Cfg<string>)

  /** The SDK's `Customer` as the API returns it. */
  datatype CustomerResponse = CustomerResponse(
    id: string,
    name: Option<string>,
    email: string,
    marketingConsent: bool,
    status: string,
    customData: Option<Json>,
    locale: string,
    createdAt: string,
    updatedAt: string)

  datatype CreateCustomerRequest = CreateCustomerRequest(
    email: string,
    name: Option<string>,
    locale: Option<string>,
    customData: Option<Json>)

  /** The SDK's `UpdateCustomerRequest`, used both by Update and by the archiving Delete. */
  datatype UpdateCustomerRequest = UpdateCustomerRequest(
    customerId: string,
    name: Patch<string>,
    email: Patch<string>,
    status: Patch<string>,
    customData: Patch<Json>,
    locale: Patch<string>)

  const StatusArchived := "archived"

  // ---------------------------------------------------------------------------------------
  // Create

  function CreateRequestOf(plan: CustomerModel): (req: CreateCustomerRequest)
    ensures req.email == ValueString(plan.email)
    ensures req.name.Some? <==> !plan.name.Null?
    ensures req.locale.Some? <==> !plan.locale.Null?
    ensures plan.name.Known? ==> req.name == Some(plan.name.value)
    ensures plan.locale.Known? ==> req.locale == Some(plan.locale.value)
    ensures plan.locale.Unknown? ==> req.locale == Some("")
    ensures req.customData.Some? <==> plan.customData.Known?
    ensures plan.customData.Known? ==> req.customData == Some(FromStrings(plan.customData.value))
  {
    CreateCustomerRequest(
      email := ValueString(plan.email),
      name := IncludeUnlessNull(plan.name, ""),
      locale := IncludeUnlessNull(plan.locale, ""),
      customData := if plan.customData.Known? then Some(FromStrings(plan.customData.value)) else None)
  }

  method BuildCreateRequest(plan: CustomerModel) returns (req: CreateCustomerRequest)
    ensures req == CreateRequestOf(plan)
  {
    var name := IncludeUnlessNullStep(plan.name, "");
    var locale := IncludeUnlessNullStep(plan.locale, "");
    var customData: Option<Json> := None;
    if !plan.customData.Null? && !plan.customData.Unknown? {
      customData := MapToCustomData(Some(plan.customData.value));
    }
    req := CreateCustomerRequest(ValueString(plan.email), name, locale, customData);
  }

  /** The locale stored after Create: the response's when it is non-empty, else the planned one. */
  function CreatedLocale(planned: Cfg<string>, responseLocale: string): (c: Cfg<string>)
    ensures responseLocale != "" ==> c == Known(responseLocale)
    ensures responseLocale == "" ==> c == planned
  {
    if responseLocale != "" then Known(responseLocale) else planned
  }

  /**
   * Create: the identifier, marketing consent, status and timestamps come from the response,
   * and the locale too when the response carries one.
   */
  method Create(plan: CustomerModel, response: ApiResult<CustomerResponse>)
    returns (sent: CreateCustomerRequest, saved: Option<CustomerModel>, diags: seq<Diagnostic>)
    ensures sent == CreateRequestOf(plan)
    ensures response.Failed? ==> saved.None? && diags == [GeneralError("Error creating customer")]
    ensures response.Ok? ==> diags == [] && saved == Some(plan.(
      id := Known(response.value.id),
      marketingConsent := Known(response.value.marketingConsent),
      status := Known(response.value.status),
      createdAt := Known(response.value.createdAt),
      updatedAt := Known(response.value.updatedAt),
      locale := CreatedLocale(plan.locale, response.value.locale)))
  {
    sent := BuildCreateRequest(plan);
    if response.Failed? {
      return sent, None, [GeneralError("Error creating customer")];
    }
    var customer := response.value;
    var data := plan;
    data := data.(id := Known(customer.id));
    data := data.(marketingConsent := Known(customer.marketingConsent));
    data := data.(status := Known(customer.status));
    data := data.(createdAt := Known(customer.createdAt));
    data := data.(updatedAt := Known(customer.updatedAt));
    if customer.locale != "" {
      data := data.(locale := Known(customer.locale));
    }
    return sent, Some(data), [];
  }

  /**
   * An omitted locale is planned as unknown and is sent as the empty string; if the API
   * answers with an empty locale too, the stored locale is still unknown after Create.
   */
  lemma OmittedLocaleStaysUnknownOnEmptyResponse(plan: CustomerModel)
    requires plan.locale.Unknown?
    ensures CreateRequestOf(plan).locale == Some("")
    ensures CreatedLocale(plan.locale, "").Unknown?
  {
  }

  // ---------------------------------------------------------------------------------------
  // Read

  function ReadState(state: CustomerModel, customer: CustomerResponse): (r: CustomerModel)
    requires customer.customData.Some? ==> Renderable(customer.customData.value)
    ensures r.id == state.id
    ensures r.name == FromOptional(customer.name)
    ensures r.customData == StateOf(customer.customData)
    ensures r.locale == Known(customer.locale) && r.email == Known(customer.email)
    ensures r.marketingConsent == Known(customer.marketingConsent) && r.status == Known(customer.status)
    ensures r.createdAt == Known(customer.createdAt) && r.updatedAt == Known(customer.updatedAt)
  {
    state.(
      email := Known(customer.email),
      marketingConsent := Known(customer.marketingConsent),
      status := Known(customer.status),
      locale := Known(customer.locale),
      createdAt := Known(customer.createdAt),
      updatedAt := Known(customer.updatedAt),
      name := FromOptional(customer.name),
      customData := StateOf(customer.customData))
  }

  /** Read: any remote failure is reported, a not-found included, and so is unconvertible custom data. */
  method Read(state: CustomerModel, response: ApiResult<CustomerResponse>)
    returns (saved: Option<CustomerModel>, diags: seq<Diagnostic>)
    ensures response.Failed? ==> saved.None? && diags == [GeneralError("Error reading customer")]
    ensures response.Ok? && response.value.customData.Some? && !Renderable(response.value.customData.value) ==>
      saved.None? && diags == [GeneralError("Error processing custom data")]
    ensures response.Ok? && (response.value.customData.Some? ==> Renderable(response.value.customData.value)) ==>
      diags == [] && saved == Some(ReadState(state, response.value))
  {
    if response.Failed? {
      return None, [GeneralError("Error reading customer")];
    }
    var customer := response.value;
    var data := state;
    data := data.(email := Known(customer.email));
    data := data.(marketingConsent := Known(customer.marketingConsent));
    data := data.(status := Known(customer.status));
    data := data.(locale := Known(customer.locale));
    data := data.(createdAt := Known(customer.createdAt));
    data := data.(updatedAt := Known(customer.updatedAt));
    var name := FromOptionalStep(customer.name);
    data := data.(name := name);
    var customData := ReadCustomData(customer.customData);
    if customData.None? {
      return None, [GeneralError("Error processing custom data")];
    }
    data := data.(customData := customData.value);
    return Some(data), [];
  }

  // ---------------------------------------------------------------------------------------
  // Update

  function UpdateRequestOf(plan: CustomerModel): (req: UpdateCustomerRequest)
    ensures req.customerId == ValueString(plan.id)
    ensures req.email.Set? && (plan.email.Known? ==> req.email.value == plan.email.value)
    ensures req.name == Cleared <==> plan.name.Null?
    ensures req.name != NotSent
    ensures plan.name.Known? ==> req.name == Set(plan.name.value)
    ensures req.locale == NotSent <==> plan.locale.Null?
    ensures req.locale != Cleared
    ensures plan.locale.Known? ==> req.locale == Set(plan.locale.value)
    ensures plan.customData.Known? ==> req.customData == Set(FromStrings(plan.customData.value))
    ensures !plan.customData.Known? ==> req.customData == Cleared
    ensures req.status == NotSent
  {
    UpdateCustomerRequest(
      customerId := ValueString(plan.id),
      name := ClearIfNull(plan.name, ""),
      email := AlwaysSet(plan.email, ""),
      status := NotSent,
      customData := if plan.customData.Known? then Set(FromStrings(plan.customData.value)) else Cleared,
      locale := SetUnlessNull(plan.locale, ""))
  }

  method BuildUpdateRequest(plan: CustomerModel) returns (req: UpdateCustomerRequest)
    ensures req == UpdateRequestOf(plan)
  {
    var name := ClearIfNullStep(plan.name, "");
    var locale := SetUnlessNullStep(plan.locale, "");
    var customData: Patch<Json>;
    if !plan.customData.Null? && !plan.customData.Unknown? {
      var converted := MapToCustomData(Some(plan.customData.value));
      customData := Set(converted.value);
    } else {
      customData := Cleared;
    }
    req := UpdateCustomerRequest(
      customerId := ValueString(plan.id),
      name := name,
      email := Set(ValueString(plan.email)),
      status := NotSent,
      customData := customData,
      locale := locale);
  }

  /** Update: marketing consent, status and update time come from the response. */
  method Update(plan: CustomerModel, response: ApiResult<CustomerResponse>)
    returns (sent: UpdateCustomerRequest, saved: Option<CustomerModel>, diags: seq<Diagnostic>)
    ensures sent == UpdateRequestOf(plan)
    ensures response.Failed? ==> saved.None? && diags == [GeneralError("Error updating customer")]
    ensures response.Ok? ==> diags == [] && saved == Some(plan.(
      marketingConsent := Known(response.value.marketingConsent),
      status := Known(response.value.status),
      updatedAt := Known(response.value.updatedAt)))
  {
    sent := BuildUpdateRequest(plan);
    if response.Failed? {
      return sent, None, [GeneralError("Error updating customer")];
    }
    var customer := response.value;
    var data := plan;
    data := data.(marketingConsent := Known(customer.marketingConsent));
    data := data.(status := Known(customer.status));
    data := data.(updatedAt := Known(customer.updatedAt));
    return sent, Some(data), [];
  }

  /**
   * Name and custom data converge: for a plan whose name and custom data are not unknown the
   * remote fields after the update read back as planned, nulls included. Custom data that is
   * unknown is cleared, where the product resource leaves it untouched.
   */
  lemma UpdateThenReadBack(plan: CustomerModel, name: Option<string>, customData: Option<Json>)
    requires !plan.name.Unknown? && !plan.customData.Unknown?
    ensures var req := UpdateRequestOf(plan);
      var storedCustomData := ApplyTo(req.customData, customData);
      && FromOptional(ApplyTo(req.name, name)) == plan.name
      && (storedCustomData.Some? ==> Renderable(storedCustomData.value))
      && StateOf(storedCustomData) == plan.customData
  {
    ClearingPoliciesConverge(plan.name, "", name);
    if plan.customData.Known? {
      StringRoundTrip(plan.customData.value);
    }
  }

  /** Unknown custom data clears the remote custom data. */
  lemma UnknownCustomDataClearsRemote(plan: CustomerModel, customData: Option<Json>)
    requires plan.customData.Unknown?
    ensures ApplyTo(UpdateRequestOf(plan).customData, customData) == None
  {
  }

  /** The locale is never cleared: a null locale leaves the remote locale as it was. */
  lemma NullLocaleKeepsRemote(plan: CustomerModel, locale: Option<string>)
    requires plan.locale.Null?
    ensures ApplyTo(UpdateRequestOf(plan).locale, locale) == locale
  {
  }

  // ---------------------------------------------------------------------------------------
  // Delete

  /** Customers cannot be deleted: Delete sends an update carrying only the identifier and status archived. */
  function ArchiveRequestOf(customerId: string): (req: UpdateCustomerRequest)
    ensures req.customerId == customerId && req.status == Set(StatusArchived)
    ensures req.name == NotSent && req.email == NotSent && req.customData == NotSent && req.locale == NotSent
  {
    UpdateCustomerRequest(customerId, NotSent, NotSent, Set(StatusArchived), NotSent, NotSent)
  }

  method Delete(state: CustomerModel, result: ApiResult<CustomerResponse>)
    returns (sent: UpdateCustomerRequest, diags: seq<Diagnostic>)
    ensures sent == ArchiveRequestOf(ValueString(state.id))
    ensures diags == [] <==> result.Ok?
    ensures result.Failed? ==> diags == [GeneralError("Error archiving customer")]
  {
    sent := UpdateCustomerRequest(ValueString(state.id), NotSent, NotSent, Set(StatusArchived), NotSent, NotSent);
    if result.Failed? {
      return sent, [GeneralError("Error archiving customer")];
    }
    return sent, [];
  }
}
