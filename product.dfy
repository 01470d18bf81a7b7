/**
 * The product resource: optional-field inclusion on Create, the patch policy of Update for
 * description, image URL and custom data, the nil-to-null mapping of Read, and the
 * archive-only Delete.
 */
module Product {
  import opened Values
  import opened CustomData

  /** `productResourceModel`. */
  datatype ProductModel = ProductModel(
    id: Cfg<string>,
    name: Cfg<string>,
    description: Cfg<string>,
    taxCategory: Cfg<string>,
    imageUrl: Cfg<string>,
    customData: Cfg<map<string, string>>,
    status: Cfg<string>,
    createdAt: Cfg<string>,
    updatedAt: Cfg<string>)

  /** The SDK's `Product` as the API returns it. */
  datatype ProductResponse = ProductResponse(
    id: string,
    name: string,
    description: Option<string>,
    taxCategory: string,
    imageUrl: Option<string>,
    customData: Option<Json>,
    status: string,
    createdAt: string,
    updatedAt: string)

  datatype CreateProductRequest = CreateProductRequest(
    name: string,
    taxCategory: string,
    description: Option<string>,
    imageUrl: Option<string>,
    customData: Option<Json>)

  /** The SDK's `UpdateProductRequest`, used both by Update and by the archiving Delete. */
  datatype UpdateProductRequest = UpdateProductRequest(
    productId: string,
    name: Patch<string>,
    description: Patch<string>,
    taxCategory: Patch<string>,
    imageUrl: Patch<string>,
    customData: Patch<Json>,
    status: Patch<string>)

  const StatusArchived := "archived"

  // ---------------------------------------------------------------------------------------
  // Create

  function CreateRequestOf(plan: ProductModel): (req: CreateProductRequest)
    ensures req.name == ValueString(plan.name) && req.taxCategory == ValueString(plan.taxCategory)
    ensures req.description.Some? <==> !plan.description.Null?
    ensures req.imageUrl.Some? <==> !plan.imageUrl.Null?
    ensures plan.description.Known? ==> req.description == Some(plan.description.value)
    ensures plan.imageUrl.Known? ==> req.imageUrl == Some(plan.imageUrl.value)
    ensures req.customData.Some? <==> plan.customData.Known?
    ensures plan.customData.Known? ==> req.customData == Some(FromStrings(plan.customData.value))
  {
    CreateProductRequest(
      name := ValueString(plan.name),
      taxCategory := ValueString(plan.taxCategory),
      description := IncludeUnlessNull(plan.description, ""),
      imageUrl := IncludeUnlessNull(plan.imageUrl, ""),
      customData := if plan.customData.Known? then Some(FromStrings(plan.customData.value)) else None)
  }

  method BuildCreateRequest(plan: ProductModel) returns (req: CreateProductRequest)
    ensures req == CreateRequestOf(plan)
  {
    var customData: Option<map<string, string>> := None;
    if !plan.customData.Null? && !plan.customData.Unknown? {
      customData := Some(plan.customData.value);
    }
    var description := IncludeUnlessNullStep(plan.description, "");
    var imageUrl := IncludeUnlessNullStep(plan.imageUrl, "");
    var converted: Option<Json> := None;
    if customData.Some? {
      converted := MapToCustomData(customData);
    }
    req := CreateProductRequest(ValueString(plan.name), ValueString(plan.taxCategory), description, imageUrl, converted);
  }

  /** Create: only the identifier, status and timestamps come from the response. */
  method Create(plan: ProductModel, response: ApiResult<ProductResponse>)
    returns (sent: CreateProductRequest, saved: Option<ProductModel>, diags: seq<Diagnostic>)
    ensures sent == CreateRequestOf(plan)
    ensures response.Failed? ==> saved.None? && diags == [GeneralError("Error creating product")]
    ensures response.Ok? ==> diags == [] && saved == Some(plan.(
      id := Known(response.value.id),
      status := Known(response.value.status),
      createdAt := Known(response.value.createdAt),
      updatedAt := Known(response.value.updatedAt)))
  {
    sent := BuildCreateRequest(plan);
    if response.Failed? {
      return sent, None, [GeneralError("Error creating product")];
    }
    var product := response.value;
    var data := plan;
    data := data.(id := Known(product.id));
    data := data.(status := Known(product.status));
    data := data.(createdAt := Known(product.createdAt));
    data := data.(updatedAt := Known(product.updatedAt));
    return sent, Some(data), [];
  }

  // ---------------------------------------------------------------------------------------
  // Read

  function ReadState(state: ProductModel, product: ProductResponse): (r: ProductModel)
    requires product.customData.Some? ==> Renderable(product.customData.value)
    ensures r.id == state.id
    ensures r.description == FromOptional(product.description)
    ensures r.imageUrl == FromOptional(product.imageUrl)
    ensures r.customData == StateOf(product.customData)
    ensures r.name == Known(product.name) && r.taxCategory == Known(product.taxCategory)
    ensures r.status == Known(product.status)
    ensures r.createdAt == Known(product.createdAt) && r.updatedAt == Known(product.updatedAt)
  {
    state.(
      name := Known(product.name),
      taxCategory := Known(product.taxCategory),
      status := Known(product.status),
      createdAt := Known(product.createdAt),
      updatedAt := Known(product.updatedAt),
      description := FromOptional(product.description),
      imageUrl := FromOptional(product.imageUrl),
      customData := StateOf(product.customData))
  }

  /** Read: any remote failure is reported, a not-found included, and so is unconvertible custom data. */
  method Read(state: ProductModel, response: ApiResult<ProductResponse>)
    returns (saved: Option<ProductModel>, diags: seq<Diagnostic>)
    ensures response.Failed? ==> saved.None? && diags == [GeneralError("Error reading product")]
    ensures response.Ok? && response.value.customData.Some? && !Renderable(response.value.customData.value) ==>
      saved.None? && diags == [GeneralError("Error processing custom data")]
    ensures response.Ok? && (response.value.customData.Some? ==> Renderable(response.value.customData.value)) ==>
      diags == [] && saved == Some(ReadState(state, response.value))
  {
    if response.Failed? {
      return None, [GeneralError("Error reading product")];
    }
    var product := response.value;
    var data := state;
    data := data.(name := Known(product.name));
    data := data.(taxCategory := Known(product.taxCategory));
    data := data.(status := Known(product.status));
    data := data.(createdAt := Known(product.createdAt));
    data := data.(updatedAt := Known(product.updatedAt));
    var description := FromOptionalStep(product.description);
    data := data.(description := description);
    var imageUrl := FromOptionalStep(product.imageUrl);
    data := data.(imageUrl := imageUrl);
    var customData := ReadCustomData(product.customData);
    if customData.None? {
      return None, [GeneralError("Error processing custom data")];
    }
    data := data.(customData := customData.value);
    return Some(data), [];
  }

  // ---------------------------------------------------------------------------------------
  // Update

  function UpdateRequestOf(plan: ProductModel): (req: UpdateProductRequest)
    ensures req.productId == ValueString(plan.id)
    ensures req.name.Set? && req.taxCategory.Set?
    ensures plan.name.Known? ==> req.name.value == plan.name.value
    ensures plan.taxCategory.Known? ==> req.taxCategory.value == plan.taxCategory.value
    ensures req.description == Cleared <==> plan.description.Null?
    ensures req.imageUrl == Cleared <==> plan.imageUrl.Null?
    ensures req.description != NotSent && req.imageUrl != NotSent
    ensures plan.description.Known? ==> req.description == Set(plan.description.value)
    ensures plan.imageUrl.Known? ==> req.imageUrl == Set(plan.imageUrl.value)
    ensures plan.customData.Known? ==> req.customData == Set(FromStrings(plan.customData.value))
    ensures plan.customData.Null? ==> req.customData == Cleared
    ensures plan.customData.Unknown? ==> req.customData == NotSent
    ensures req.status == NotSent
  {
    UpdateProductRequest(
      productId := ValueString(plan.id),
      name := AlwaysSet(plan.name, ""),
      description := ClearIfNull(plan.description, ""),
      taxCategory := AlwaysSet(plan.taxCategory, ""),
      imageUrl := ClearIfNull(plan.imageUrl, ""),
      customData := match plan.customData
        case Known(m) => Set(FromStrings(m))
        case Null => Cleared
        case Unknown => NotSent,
      status := NotSent)
  }

  method BuildUpdateRequest(plan: ProductModel) returns (req: UpdateProductRequest)
    ensures req == UpdateRequestOf(plan)
  {
    var customData: Option<map<string, string>> := None;
    if !plan.customData.Null? && !plan.customData.Unknown? {
      customData := Some(plan.customData.value);
    }
    var description := ClearIfNullStep(plan.description, "");
    var imageUrl := ClearIfNullStep(plan.imageUrl, "");
    var customDataPatch: Patch<Json> := NotSent;
    if customData.Some? {
      var converted := MapToCustomData(customData);
      customDataPatch := Set(converted.value);
    } else if plan.customData.Null? {
      customDataPatch := Cleared;
    }
    req := UpdateProductRequest(
      productId := ValueString(plan.id),
      name := Set(ValueString(plan.name)),
      description := description,
      taxCategory := Set(ValueString(plan.taxCategory)),
      imageUrl := imageUrl,
      customData := customDataPatch,
      status := NotSent);
  }

  /** Update: only the status and update time come from the response. */
  method Update(plan: ProductModel, response: ApiResult<ProductResponse>)
    returns (sent: UpdateProductRequest, saved: Option<ProductModel>, diags: seq<Diagnostic>)
    ensures sent == UpdateRequestOf(plan)
    ensures response.Failed? ==> saved.None? && diags == [GeneralError("Error updating product")]
    ensures response.Ok? ==> diags == [] && saved == Some(plan.(
      status := Known(response.value.status),
      updatedAt := Known(response.value.updatedAt)))
  {
    sent := BuildUpdateRequest(plan);
    if response.Failed? {
      return sent, None, [GeneralError("Error updating product")];
    }
    var product := response.value;
    var data := plan;
    data := data.(status := Known(product.status));
    data := data.(updatedAt := Known(product.updatedAt));
    return sent, Some(data), [];
  }

  /**
   * No drift on the clearable fields: for a plan whose description, image URL and custom data
   * are not unknown, the remote fields after the update read back as exactly the planned
   * values, nulls included, whatever they held before.
   */
  lemma UpdateThenReadBack(plan: ProductModel, description: Option<string>, imageUrl: Option<string>,
                           customData: Option<Json>)
    requires !plan.description.Unknown? && !plan.imageUrl.Unknown? && !plan.customData.Unknown?
    ensures var req := UpdateRequestOf(plan);
      var storedCustomData := ApplyTo(req.customData, customData);
      && FromOptional(ApplyTo(req.description, description)) == plan.description
      && FromOptional(ApplyTo(req.imageUrl, imageUrl)) == plan.imageUrl
      && (storedCustomData.Some? ==> Renderable(storedCustomData.value))
      && StateOf(storedCustomData) == plan.customData
  {
    ClearingPoliciesConverge(plan.description, "", description);
    ClearingPoliciesConverge(plan.imageUrl, "", imageUrl);
    if plan.customData.Known? {
      StringRoundTrip(plan.customData.value);
    }
  }

  /** An unknown custom-data plan leaves the remote custom data untouched. */
  lemma UnknownCustomDataKeepsRemote(plan: ProductModel, customData: Option<Json>)
    requires plan.customData.Unknown?
    ensures ApplyTo(UpdateRequestOf(plan).customData, customData) == customData
  {
  }

  // ---------------------------------------------------------------------------------------
  // Delete

  /** Products cannot be deleted: Delete sends an update carrying only the identifier and status archived. */
  function ArchiveRequestOf(productId: string): (req: UpdateProductRequest)
    ensures req.productId == productId && req.status == Set(StatusArchived)
    ensures req.name == NotSent && req.description == NotSent && req.taxCategory == NotSent
    ensures req.imageUrl == NotSent && req.customData == NotSent
  {
    UpdateProductRequest(productId, NotSent, NotSent, NotSent, NotSent, NotSent, Set(StatusArchived))
  }

  method Delete(state: ProductModel, result: ApiResult<ProductResponse>)
    returns (sent: UpdateProductRequest, diags: seq<Diagnostic>)
    ensures sent == ArchiveRequestOf(ValueString(state.id))
    ensures diags == [] <==> result.Ok?
    ensures result.Failed? ==> diags == [GeneralError("Error archiving product")]
  {
    sent := UpdateProductRequest(ValueString(state.id), NotSent, NotSent, NotSent, NotSent, NotSent, Set(StatusArchived));
    if result.Failed? {
      return sent, [GeneralError("Error archiving product")];
    }
    return sent, [];
  }
}
