/**
 * The notification-setting (webhook) resource: request building for Create and Update,
 * the write-back of responses into state, the subscribed-event order merge done by Read,
 * and the hard Delete.
 */
module NotificationSetting {
  import opened Values

  /** `notificationSettingResourceModel`: the Terraform plan or state. */
  datatype NotificationSettingModel = NotificationSettingModel(
    id: Cfg<string>,
    description: Cfg<string>,
    settingType: Cfg<string>,
    destination: Cfg<string>,
    active: Cfg<bool>,
    subscribedEvents: seq<string>,
    endpointSecretKey: Cfg<string>,
    apiVersion: Cfg<int>,
    includeSensitiveFields: Cfg<bool>,
    trafficSource: Cfg<string>)

  /** The SDK's notification setting as the API returns it; events are given by name. */
  datatype NotificationSettingResponse = NotificationSettingResponse(
    id: string,
    description: string,
    settingType: string,
    destination: string,
    active: bool,
    subscribedEvents: seq<string>,
    endpointSecretKey: string,
    apiVersion: int,
    includeSensitiveFields: bool,
    trafficSource: string)

  datatype CreateRequest = CreateRequest(
    description: string,
    destination: string,
    subscribedEvents: seq<string>,
    settingType: string,
    includeSensitiveFields: Option<bool>,
    trafficSource: Option<string>)

  datatype UpdateRequest = UpdateRequest(
    notificationSettingId: string,
    description: Patch<string>,
    destination: Patch<string>,
    active: Patch<bool>,
    apiVersion: Patch<int>,
    includeSensitiveFields: Patch<bool>,
    subscribedEvents: Patch<seq<string>>,
    trafficSource: Patch<string>)

  datatype DeleteRequest = DeleteRequest(notificationSettingId: string)

  const TypeUrl := "url"

  // ---------------------------------------------------------------------------------------
  // Subscribed-event merge (Read)

  /** The elements `e` of `s` with `(e in other) == present`, in the order of `s`. */
  function KeepIf(s: seq<string>, other: seq<string>, present: bool): seq<string>
    decreases |s|
  {
    if s == [] then []
    else KeepIf(s[..|s| - 1], other, present) + (if (s[|s| - 1] in other) == present then [s[|s| - 1]] else [])
  }

  /**
   * The merged event list: the state events the API still returns, in state order, followed
   * by the API events absent from state, in API order.
   */
  function MergedEvents(stateEvents: seq<string>, apiEvents: seq<string>): seq<string>
  {
    KeepIf(stateEvents, apiEvents, true) + KeepIf(apiEvents, stateEvents, false)
  }

  /** `a` is `b` with some elements left out, the rest in the same order. */
  ghost predicate Subsequence(a: seq<string>, b: seq<string>)
    decreases |b|
  {
    if a == [] then true
    else if b == [] then false
    else (a[|a| - 1] == b[|b| - 1] && Subsequence(a[..|a| - 1], b[..|b| - 1])) || Subsequence(a, b[..|b| - 1])
  }

  lemma {:induction false} KeepIfMembers(s: seq<string>, other: seq<string>, present: bool, e: string)
    ensures e in KeepIf(s, other, present) <==> e in s && (e in other) == present
    decreases |s|
  {
    if s != [] {
      KeepIfMembers(s[..|s| - 1], other, present, e);
      assert s == s[..|s| - 1] + [s[|s| - 1]];
    }
  }

  lemma {:induction false} KeepIfIsSubsequence(s: seq<string>, other: seq<string>, present: bool)
    ensures Subsequence(KeepIf(s, other, present), s)
    decreases |s|
  {
    if s != [] {
      var init := s[..|s| - 1];
      KeepIfIsSubsequence(init, other, present);
      var k := KeepIf(s, other, present);
      if (s[|s| - 1] in other) == present {
        assert k[..|k| - 1] == KeepIf(init, other, present);
      } else {
        assert k == KeepIf(init, other, present);
        SubsequenceOfPrefix(k, init, s[|s| - 1]);
      }
    }
  }

  lemma {:induction false} SubsequenceOfPrefix(a: seq<string>, b: seq<string>, x: string)
    requires Subsequence(a, b)
    ensures Subsequence(a, b + [x])
  {
    if a != [] {
      assert (b + [x])[..|b + [x]| - 1] == b;
    }
  }

  /** Filtering a list all of whose elements pass changes nothing. */
  lemma {:induction false} KeepIfAllPass(s: seq<string>, other: seq<string>, present: bool)
    requires forall e :: e in s ==> (e in other) == present
    ensures KeepIf(s, other, present) == s
    decreases |s|
  {
    if s != [] {
      KeepIfAllPass(s[..|s| - 1], other, present);
      assert s == s[..|s| - 1] + [s[|s| - 1]];
    }
  }

  /** Filtering a list none of whose elements pass leaves nothing. */
  lemma {:induction false} KeepIfNonePass(s: seq<string>, other: seq<string>, present: bool)
    requires forall e :: e in s ==> (e in other) != present
    ensures KeepIf(s, other, present) == []
    decreases |s|
  {
    if s != [] {
      KeepIfNonePass(s[..|s| - 1], other, present);
    }
  }

  /** Filtering depends only on which elements `other` holds, not on its order or repetitions. */
  lemma {:induction false} KeepIfSameMembers(s: seq<string>, o1: seq<string>, o2: seq<string>, present: bool)
    requires forall e :: e in o1 <==> e in o2
    ensures KeepIf(s, o1, present) == KeepIf(s, o2, present)
    decreases |s|
  {
    if s != [] {
      KeepIfSameMembers(s[..|s| - 1], o1, o2, present);
    }
  }

  /**
   * The state events the API still returns come first, in state order, and every one of them
   * is kept.
   */
  lemma MergeKeepsSurvivorsInStateOrder(stateEvents: seq<string>, apiEvents: seq<string>)
    ensures var survivors := KeepIf(stateEvents, apiEvents, true);
      && MergedEvents(stateEvents, apiEvents)[..|survivors|] == survivors
      && Subsequence(survivors, stateEvents)
      && forall e :: e in stateEvents && e in apiEvents ==> e in survivors
  {
    var survivors := KeepIf(stateEvents, apiEvents, true);
    KeepIfIsSubsequence(stateEvents, apiEvents, true);
    forall e | e in stateEvents && e in apiEvents
      ensures e in survivors
    {
      KeepIfMembers(stateEvents, apiEvents, true, e);
    }
  }

  /** A state event the API no longer returns is dropped. */
  lemma MergeDropsRemovedEvents(stateEvents: seq<string>, apiEvents: seq<string>, e: string)
    requires e in stateEvents && e !in apiEvents
    ensures e !in MergedEvents(stateEvents, apiEvents)
  {
    KeepIfMembers(stateEvents, apiEvents, true, e);
    KeepIfMembers(apiEvents, stateEvents, false, e);
  }

  /** After the survivors come exactly the API events absent from state, in API order. */
  lemma MergeAppendsNewEventsInApiOrder(stateEvents: seq<string>, apiEvents: seq<string>)
    ensures MergedEvents(stateEvents, apiEvents)[|KeepIf(stateEvents, apiEvents, true)|..]
         == KeepIf(apiEvents, stateEvents, false)
    ensures Subsequence(KeepIf(apiEvents, stateEvents, false), apiEvents)
    ensures forall e :: e in KeepIf(apiEvents, stateEvents, false) <==> e in apiEvents && e !in stateEvents
  {
    var newcomers := KeepIf(apiEvents, stateEvents, false);
    assert MergedEvents(stateEvents, apiEvents)[|KeepIf(stateEvents, apiEvents, true)|..] == newcomers;
    KeepIfIsSubsequence(apiEvents, stateEvents, false);
    forall e
      ensures e in newcomers <==> e in apiEvents && e !in stateEvents
    {
      KeepIfMembers(apiEvents, stateEvents, false, e);
    }
  }

  /** The merged list holds exactly the events the API returns. */
  lemma {:induction false} MergeHasApiEventSet(stateEvents: seq<string>, apiEvents: seq<string>)
    ensures forall e :: e in MergedEvents(stateEvents, apiEvents) <==> e in apiEvents
  {
    forall e
      ensures e in MergedEvents(stateEvents, apiEvents) <==> e in apiEvents
    {
      KeepIfMembers(stateEvents, apiEvents, true, e);
      KeepIfMembers(apiEvents, stateEvents, false, e);
    }
  }

  /**
   * No order drift: when the API returns the same events as state in any order, the merge
   * returns the state list unchanged.
   */
  lemma NoDriftWhenApiReorders(stateEvents: seq<string>, apiEvents: seq<string>)
    requires forall e :: e in apiEvents <==> e in stateEvents
    ensures MergedEvents(stateEvents, apiEvents) == stateEvents
  {
    KeepIfAllPass(stateEvents, apiEvents, true);
    KeepIfNonePass(apiEvents, stateEvents, false);
  }

  /** In particular when the API returns a permutation of the state list. */
  lemma NoDriftOnPermutation(stateEvents: seq<string>, apiEvents: seq<string>)
    requires multiset(apiEvents) == multiset(stateEvents)
    ensures MergedEvents(stateEvents, apiEvents) == stateEvents
  {
    forall e
      ensures e in apiEvents <==> e in stateEvents
    {
      assert e in apiEvents <==> e in multiset(apiEvents);
      assert e in stateEvents <==> e in multiset(stateEvents);
    }
    NoDriftWhenApiReorders(stateEvents, apiEvents);
  }

  /** Merging again with the same API response changes nothing: a second Read is stable. */
  lemma MergeIsIdempotent(stateEvents: seq<string>, apiEvents: seq<string>)
    ensures MergedEvents(MergedEvents(stateEvents, apiEvents), apiEvents) == MergedEvents(stateEvents, apiEvents)
  {
    var merged := MergedEvents(stateEvents, apiEvents);
    MergeHasApiEventSet(stateEvents, apiEvents);
    NoDriftWhenApiReorders(merged, apiEvents);
  }

  /** State [A,B,C] with the API returning [D,C,B] merges to [B,C,D]. */
  lemma MergeExample()
    ensures MergedEvents(["A", "B", "C"], ["D", "C", "B"]) == ["B", "C", "D"]
  {
    var s := ["A", "B", "C"];
    var a := ["D", "C", "B"];
    assert s[..2] == ["A", "B"] && s[..1] == ["A"] && s[..0] == [];
    assert a[..2] == ["D", "C"] && a[..1] == ["D"] && a[..0] == [];
    assert KeepIf(s[..1], a, true) == [];
    assert KeepIf(s[..2], a, true) == ["B"];
    assert KeepIf(s, a, true) == ["B", "C"];
    assert KeepIf(a[..1], s, false) == ["D"];
    assert KeepIf(a[..2], s, false) == ["D"];
    assert KeepIf(a, s, false) == ["D"];
  }

  /**
   * The order-preserving merge as the Read handler runs it: a lookup map of API event names,
   * a pass over the state events, then a pass over the API events with a nested search.
   */
  method MergeSubscribedEvents(stateEvents: seq<string>, apiEvents: seq<string>) returns (ordered: seq<string>)
    ensures ordered == MergedEvents(stateEvents, apiEvents)
  {
    var apiEventsMap: map<string, bool> := map[];
    for i := 0 to |apiEvents|
      invariant forall e :: (e in apiEventsMap && apiEventsMap[e]) <==> e in apiEvents[..i]
    {
      apiEventsMap := apiEventsMap[apiEvents[i] := true];
      assert apiEvents[..i + 1] == apiEvents[..i] + [apiEvents[i]];
    }
    assert apiEvents[..|apiEvents|] == apiEvents;

    ordered := [];
    for i := 0 to |stateEvents|
      invariant ordered == KeepIf(stateEvents[..i], apiEvents, true)
    {
      var event := stateEvents[i];
      assert stateEvents[..i + 1][..i] == stateEvents[..i];
      if event in apiEventsMap && apiEventsMap[event] {
        ordered := ordered + [event];
      }
    }
    assert stateEvents[..|stateEvents|] == stateEvents;

    ghost var survivors := ordered;
    for i := 0 to |apiEvents|
      invariant ordered == survivors + KeepIf(apiEvents[..i], stateEvents, false)
    {
      var event := apiEvents[i];
      var found := false;
      var j := 0;
      while j < |stateEvents|
        invariant 0 <= j <= |stateEvents|
        invariant event !in stateEvents[..j]
      {
        if event == stateEvents[j] {
          found := true;
          break;
        }
        assert stateEvents[..j + 1] == stateEvents[..j] + [stateEvents[j]];
        j := j + 1;
      }
      assert found <==> event in stateEvents by {
        if !found {
          assert stateEvents[..j] == stateEvents;
        }
      }
      assert apiEvents[..i + 1][..i] == apiEvents[..i];
      if !found {
        ordered := ordered + [event];
      }
    }
    assert apiEvents[..|apiEvents|] == apiEvents;
  }

  // ---------------------------------------------------------------------------------------
  // Traffic source

  /** An empty traffic source in a response is stored as null. */
  function TrafficSourceState(trafficSource: string): (c: Cfg<string>)
    ensures c.Null? <==> trafficSource == ""
    ensures trafficSource != "" ==> c == Known(trafficSource)
  {
    if trafficSource != "" then Known(trafficSource) else Null
  }

  /** Update's traffic-source field: known is sent, null is sent as "", unknown is not sent. */
  function TrafficSourcePatch(planned: Cfg<string>): (p: Patch<string>)
    ensures p == NotSent <==> planned.Unknown?
    ensures planned.Null? ==> p == Set("")
    ensures planned.Known? ==> p == Set(planned.value)
  {
    SetKnownDefaultNull(planned, "")
  }

  /**
   * Sending null as "" round-trips: if the API echoes the traffic source it was sent, the
   * value written back to state is the planned one, null included.
   */
  lemma TrafficSourceRoundTrip(planned: Cfg<string>, previous: Option<string>)
    requires !planned.Unknown? && planned != Known("")
    ensures var echoed := ApplyTo(TrafficSourcePatch(planned), previous);
      echoed.Some? && TrafficSourceState(echoed.value) == planned
  {
  }

  // ---------------------------------------------------------------------------------------
  // Create

  /** The create request for a plan. */
  function CreateRequestOf(plan: NotificationSettingModel): (req: CreateRequest)
    ensures req.description == ValueString(plan.description)
    ensures req.destination == ValueString(plan.destination)
    ensures req.subscribedEvents == plan.subscribedEvents
    ensures plan.settingType.Known? ==> req.settingType == plan.settingType.value
    ensures !plan.settingType.Known? ==> req.settingType == TypeUrl
    ensures req.includeSensitiveFields.Some? <==> !plan.includeSensitiveFields.Null?
    ensures plan.includeSensitiveFields.Known? ==> req.includeSensitiveFields == Some(plan.includeSensitiveFields.value)
    ensures plan.includeSensitiveFields.Unknown? ==> req.includeSensitiveFields == Some(false)
    ensures req.trafficSource.Some? <==> plan.trafficSource.Known?
    ensures plan.trafficSource.Known? ==> req.trafficSource == Some(plan.trafficSource.value)
  {
    CreateRequest(
      description := ValueString(plan.description),
      destination := ValueString(plan.destination),
      subscribedEvents := plan.subscribedEvents,
      settingType := if plan.settingType.Known? then plan.settingType.value else TypeUrl,
      includeSensitiveFields := IncludeUnlessNull(plan.includeSensitiveFields, false),
      trafficSource := IncludeIfKnown(plan.trafficSource))
  }

  method BuildCreateRequest(plan: NotificationSettingModel) returns (req: CreateRequest)
    ensures req == CreateRequestOf(plan)
  {
    var settingType: string;
    if !plan.settingType.Null? && !plan.settingType.Unknown? {
      settingType := plan.settingType.value;
    } else {
      settingType := TypeUrl;
    }
    var includeSensitiveFields := IncludeUnlessNullStep(plan.includeSensitiveFields, false);
    var trafficSource := IncludeIfKnownStep(plan.trafficSource);
    req := CreateRequest(ValueString(plan.description), ValueString(plan.destination), plan.subscribedEvents,
                         settingType, includeSensitiveFields, trafficSource);
  }

  /**
   * Create: sends the create request; on success stores the plan with the identifier and the
   * computed fields taken from the response; on failure stores nothing and reports one error.
   */
  method Create(plan: NotificationSettingModel, response: ApiResult<NotificationSettingResponse>)
    returns (sent: CreateRequest, saved: Option<NotificationSettingModel>, diags: seq<Diagnostic>)
    ensures sent == CreateRequestOf(plan)
    ensures response.Failed? ==> saved.None? && diags == [GeneralError("Error creating notification setting")]
    ensures response.Ok? ==> diags == [] && saved == Some(plan.(
      id := Known(response.value.id),
      settingType := Known(response.value.settingType),
      active := Known(response.value.active),
      endpointSecretKey := Known(response.value.endpointSecretKey),
      apiVersion := Known(response.value.apiVersion),
      includeSensitiveFields := Known(response.value.includeSensitiveFields),
      trafficSource := TrafficSourceState(response.value.trafficSource)))
  {
    sent := BuildCreateRequest(plan);
    if response.Failed? {
      return sent, None, [GeneralError("Error creating notification setting")];
    }
    var setting := response.value;
    var data := plan;
    data := data.(id := Known(setting.id));
    data := data.(settingType := Known(setting.settingType));
    data := data.(active := Known(setting.active));
    data := data.(endpointSecretKey := Known(setting.endpointSecretKey));
    data := data.(apiVersion := Known(setting.apiVersion));
    data := data.(includeSensitiveFields := Known(setting.includeSensitiveFields));
    if setting.trafficSource != "" {
      data := data.(trafficSource := Known(setting.trafficSource));
    } else {
      data := data.(trafficSource := Null);
    }
    return sent, Some(data), [];
  }

  // ---------------------------------------------------------------------------------------
  // Read

  /**
   * Read: every field is refreshed from the response except the identifier; the subscribed
   * events are merged with the state order; an error stores nothing.
   */
  method Read(state: NotificationSettingModel, response: ApiResult<NotificationSettingResponse>)
    returns (saved: Option<NotificationSettingModel>, diags: seq<Diagnostic>)
    ensures response.Failed? ==> saved.None? && diags == [GeneralError("Error reading notification setting")]
    ensures response.Ok? ==> diags == [] && saved == Some(state.(
      description := Known(response.value.description),
      settingType := Known(response.value.settingType),
      destination := Known(response.value.destination),
      active := Known(response.value.active),
      endpointSecretKey := Known(response.value.endpointSecretKey),
      apiVersion := Known(response.value.apiVersion),
      includeSensitiveFields := Known(response.value.includeSensitiveFields),
      trafficSource := TrafficSourceState(response.value.trafficSource),
      subscribedEvents := MergedEvents(state.subscribedEvents, response.value.subscribedEvents)))
  {
    if response.Failed? {
      return None, [GeneralError("Error reading notification setting")];
    }
    var setting := response.value;
    var data := state;
    data := data.(description := Known(setting.description));
    data := data.(settingType := Known(setting.settingType));
    data := data.(destination := Known(setting.destination));
    data := data.(active := Known(setting.active));
    data := data.(endpointSecretKey := Known(setting.endpointSecretKey));
    data := data.(apiVersion := Known(setting.apiVersion));
    data := data.(includeSensitiveFields := Known(setting.includeSensitiveFields));
    if setting.trafficSource != "" {
      data := data.(trafficSource := Known(setting.trafficSource));
    } else {
      data := data.(trafficSource := Null);
    }
    var orderedEvents := MergeSubscribedEvents(state.subscribedEvents, setting.subscribedEvents);
    data := data.(subscribedEvents := orderedEvents);
    return Some(data), [];
  }

  // ---------------------------------------------------------------------------------------
  // Update

  /** The update request for a plan. */
  function UpdateRequestOf(plan: NotificationSettingModel): (req: UpdateRequest)
    ensures req.notificationSettingId == ValueString(plan.id)
    ensures req.description == Set(ValueString(plan.description))
    ensures req.destination == Set(ValueString(plan.destination))
    ensures req.subscribedEvents == Set(plan.subscribedEvents)
    ensures req.active.Set? <==> plan.active.Known?
    ensures req.includeSensitiveFields.Set? <==> plan.includeSensitiveFields.Known?
    ensures plan.active.Known? ==> req.active == Set(plan.active.value)
    ensures plan.includeSensitiveFields.Known? ==> req.includeSensitiveFields == Set(plan.includeSensitiveFields.value)
    ensures req.active != Cleared && req.includeSensitiveFields != Cleared
    ensures req.trafficSource == TrafficSourcePatch(plan.trafficSource)
    ensures req.apiVersion == NotSent
  {
    UpdateRequest(
      notificationSettingId := ValueString(plan.id),
      description := AlwaysSet(plan.description, ""),
      destination := AlwaysSet(plan.destination, ""),
      active := SetIfKnown(plan.active),
      apiVersion := NotSent,
      includeSensitiveFields := SetIfKnown(plan.includeSensitiveFields),
      subscribedEvents := Set(plan.subscribedEvents),
      trafficSource := TrafficSourcePatch(plan.trafficSource))
  }

  method BuildUpdateRequest(plan: NotificationSettingModel) returns (req: UpdateRequest)
    ensures req == UpdateRequestOf(plan)
  {
    var active := SetIfKnownStep(plan.active);
    var includeSensitiveFields := SetIfKnownStep(plan.includeSensitiveFields);
    var trafficSource := SetKnownDefaultNullStep(plan.trafficSource, "");
    req := UpdateRequest(
      notificationSettingId := ValueString(plan.id),
      description := Set(ValueString(plan.description)),
      destination := Set(ValueString(plan.destination)),
      active := active,
      apiVersion := NotSent,
      includeSensitiveFields := includeSensitiveFields,
      subscribedEvents := Set(plan.subscribedEvents),
      trafficSource := trafficSource);
  }

  /** Update: sends the update request and writes the computed fields of the response back. */
  method Update(plan: NotificationSettingModel, response: ApiResult<NotificationSettingResponse>)
    returns (sent: UpdateRequest, saved: Option<NotificationSettingModel>, diags: seq<Diagnostic>)
    ensures sent == UpdateRequestOf(plan)
    ensures response.Failed? ==> saved.None? && diags == [GeneralError("Error updating notification setting")]
    ensures response.Ok? ==> diags == [] && saved == Some(plan.(
      settingType := Known(response.value.settingType),
      active := Known(response.value.active),
      apiVersion := Known(response.value.apiVersion),
      includeSensitiveFields := Known(response.value.includeSensitiveFields),
      trafficSource := TrafficSourceState(response.value.trafficSource)))
  {
    sent := BuildUpdateRequest(plan);
    if response.Failed? {
      return sent, None, [GeneralError("Error updating notification setting")];
    }
    var setting := response.value;
    var data := plan;
    data := data.(settingType := Known(setting.settingType));
    data := data.(active := Known(setting.active));
    data := data.(apiVersion := Known(setting.apiVersion));
    data := data.(includeSensitiveFields := Known(setting.includeSensitiveFields));
    if setting.trafficSource != "" {
      data := data.(trafficSource := Known(setting.trafficSource));
    } else {
      data := data.(trafficSource := Null);
    }
    return sent, Some(data), [];
  }

  /**
   * With a fully known plan every mutable field is sent, so after the patch each remote field
   * holds the planned value whatever it held before.
   */
  lemma UpdateReconciles(plan: NotificationSettingModel, currentActive: Option<bool>,
                          currentIncludeSensitive: Option<bool>, currentTrafficSource: Option<string>)
    requires plan.active.Known? && plan.includeSensitiveFields.Known? && plan.trafficSource.Known?
    ensures var req := UpdateRequestOf(plan);
      && ApplyTo(req.active, currentActive) == Some(plan.active.value)
      && ApplyTo(req.includeSensitiveFields, currentIncludeSensitive) == Some(plan.includeSensitiveFields.value)
      && ApplyTo(req.trafficSource, currentTrafficSource) == Some(plan.trafficSource.value)
  {
  }

  // ---------------------------------------------------------------------------------------
  // Delete

  /** Delete is a true remote delete carrying only the identifier; any failure is reported. */
  method Delete(state: NotificationSettingModel, result: ApiResult<()>)
    returns (sent: DeleteRequest, diags: seq<Diagnostic>)
    ensures sent == DeleteRequest(ValueString(state.id))
    ensures diags == [] <==> result.Ok?
    ensures result.Failed? ==> diags == [GeneralError("Error deleting notification setting")]
  {
    sent := DeleteRequest(ValueString(state.id));
    if result.Failed? {
      return sent, [GeneralError("Error deleting notification setting")];
    }
    return sent, [];
  }
}
