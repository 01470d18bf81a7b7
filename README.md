# Paddle Terraform provider: a Dafny model of its decision logic

This project models the part of the Paddle Terraform provider that decides things, as opposed
to the part that only calls the Paddle SDK or the Terraform plugin framework. It covers:

- The string attribute validators. Tax category, discount type, tax mode and interval are
  enumerations; currency code and country code are shape checks.
- The custom-data codec between the SDK's JSON-valued `CustomData` and the string map that
  Terraform stores.
- The order-preserving merge of subscribed events that the notification-setting Read performs.
- For the price, discount, product, customer and notification-setting resources:
  - which request fields Create includes;
  - which patch fields Update sends, sets or clears;
  - how each response is written back into state;
  - what Delete sends.
- The provider's `Configure`, which resolves the API key and environment from the configuration
  and the environment variables.

Terraform values are `Cfg<T> = Null | Unknown | Known(v)`. SDK patch fields are
`Patch<T> = NotSent | Set(v) | Cleared`. `Cleared` is a patch field built from nil; `NotSent`
is a field left unassigned. `ApplyTo` gives the meaning of a patch for the remote field: an
unsent field keeps its value, a set field takes the new value, and a cleared field becomes
absent.

The meaning of each request is stated by a declarative function such as `Price.UpdateRequestOf`.
Its `ensures` clauses say field by field what is sent. A method, such as
`Price.BuildUpdateRequest`, performs the handler's conditional assignments in order and is
proved to produce exactly that request.

Each resource operation (`Create`, `Read`, `Update`, `Delete`) is a method. It takes the remote
call's outcome as an `ApiResult` parameter. It returns the request it sent, the state it saves
(`None` when it saves nothing) and the diagnostics it reports.

Inputs that come from outside are parameters of the model:

- the SDK responses;
- the `PADDLE_API_KEY` and `PADDLE_ENVIRONMENT` environment variables;
- whether the client constructor fails.

Modules and files:

| file | module | covers |
|---|---|---|
| values.dfy | Values | shared value types, the field policies, the assignment steps |
| validators.dfy | Validators | `ValidateString` of the six string validators |
| custom_data.dfy | CustomData | `CustomDataToMap`, `MapToCustomData`, the custom-data step of every Read |
| notification_setting.dfy | NotificationSetting | event merge, requests, write-back, Delete |
| price.dfy | Price | quantity normalisation, overrides, Create/Read/Update short-circuit/archive |
| discount.dfy | Discount | Create inclusion, Read nil-to-null, Update policy, archive |
| product.dfy | Product | Create inclusion, Read, Update policy, archive |
| customer.dfy | Customer | Create inclusion and locale write-back, Read, Update policy, archive |
| provider.dfy | Provider | `Configure` |

Where the description of the system and the code disagree, the model follows the code:

- Every Read reports any failure of the remote read as an error, a not-found included. No Read
  removes the resource from state.
- Every Delete reports any failure as an error. An already-absent resource is not treated as
  deleted.
- The discount schema describes `enabled_for_checkout` as defaulting to true. Create sends the
  flag whenever it is not null, so an omitted flag, which is unknown at plan time, is sent as
  `false`. `Discount.CreateRequestOf` states this. `recur` and `mode` behave the same way, and so
  does the notification setting's `include_sensitive_fields`.
- The price schema describes a change of `unit_price_overrides` as forcing a new resource, but
  the attribute has no replace modifier (internal/resources/price.go:143-168). Update's
  comparison of plan and state leaves the overrides out, so a change to the overrides alone
  makes no API call, and the plan is saved anyway. `Price.OverrideOnlyChangeIsNotSent` states
  this.

## Model

| member | source | states |
|---|---|---|
| Values.ValueOr | internal/resources/discount.go:398-401 | `ValueString`/`ValueBool`/`ValueInt64` give the known value, and the type's zero for null or unknown |
| Values.FromOptional | internal/resources/discount.go:321-343 | a nil pointer in a response becomes null in state, a non-nil one the known value |
| Values.AlwaysSet | internal/resources/discount.go:398-401 | a field in the request literal is always sent, with the known value when there is one |
| Values.SetUnlessNull | internal/resources/discount.go:403-405 | sent exactly when not null, and never cleared |
| Values.SetIfKnown | internal/resources/notification_setting.go:328-334 | sent exactly when known, never cleared |
| Values.ClearIfNull | internal/resources/discount.go:407-412 | cleared exactly when null, otherwise set: never left unsent |
| Values.SetKnownClearNull | internal/resources/discount.go:428-437 | set exactly when known, cleared exactly when null, unsent when unknown |
| Values.SetKnownDefaultNull | internal/resources/price.go:685-690 | known is set, null is set to a fixed default, unknown is unsent; never cleared |
| Values.IncludeUnlessNull | internal/resources/discount.go:208-269 | a create-request pointer is included exactly when the plan value is not null |
| Values.IncludeIfKnown | internal/resources/price.go:301-304 | a create-request pointer is included exactly when the plan value is known, with that value |
| Values.SetUnlessNullStep | internal/resources/discount.go:403-405 | the guarded assignment yields `SetUnlessNull` |
| Values.SetIfKnownStep | internal/resources/notification_setting.go:328-334 | the guarded assignment yields `SetIfKnown` |
| Values.ClearIfNullStep | internal/resources/discount.go:407-412 | the if/else assignment yields `ClearIfNull` |
| Values.SetKnownClearNullStep | internal/resources/discount.go:428-437 | the if/else-if assignment yields `SetKnownClearNull` |
| Values.SetKnownDefaultNullStep | internal/resources/price.go:685-690 | the if/else-if assignment yields `SetKnownDefaultNull` |
| Values.IncludeUnlessNullStep | internal/resources/discount.go:208-269 | the guarded pointer assignment yields `IncludeUnlessNull` |
| Values.IncludeIfKnownStep | internal/resources/price.go:301-304 | the guarded pointer assignment yields `IncludeIfKnown` |
| Values.FromOptionalStep | internal/resources/discount.go:321-343 | Read's nil-or-value branch yields `FromOptional` |
| Values.ClearingPoliciesConverge | internal/resources/discount.go:407-437 | after a clearing patch, the remote field holds exactly what a non-unknown plan denotes, whatever it held before |
| Values.NonClearingPoliciesKeepStaleValue | internal/resources/discount.go:403-405 | the never-clearing policies leave the remote value in place for a null plan |
| Values.IncludeThenReadBack | internal/resources/discount.go:208-269 | including a non-unknown value in a create request and reading it back nil-to-null gives the plan value |
| Validators.ValidateString | internal/validators/paddle_validators.go:23-47 | null and unknown give no diagnostic; otherwise no diagnostic exactly when the value is accepted; never more than one error, always at the request path |
| Validators.UpperRunIsForall | internal/validators/paddle_validators.go:136 | matching `[A-Z]*` over the whole string means every character is an upper-case ASCII letter |
| Validators.CurrencyCodeShape | internal/validators/paddle_validators.go:136 | a currency code is accepted exactly when it has three characters, all in A..Z |
| Validators.CountryCodeShape | internal/validators/paddle_validators.go:165 | a country code is accepted exactly when it has two characters, all in A..Z |
| Validators.TaxCategoryAcceptsExactly | internal/validators/paddle_validators.go:29-40 | exactly the eight listed tax categories are accepted |
| Validators.DiscountTypeAcceptsExactly | internal/validators/paddle_validators.go:66-72 | exactly percentage, flat and flat_per_seat are accepted |
| Validators.TaxModeAcceptsExactly | internal/validators/paddle_validators.go:192-198 | exactly account_setting, internal and external are accepted |
| Validators.IntervalAcceptsExactly | internal/validators/paddle_validators.go:224-231 | exactly day, week, month and year are accepted |
| Validators.EnumerationTableCases | internal/validators/paddle_validators_test.go:18-27 | "invalid" and "" fail every enumeration, "quarter" fails interval, "saas" passes; a failure is one error at the path |
| Validators.CurrencyCodeTableCases | internal/validators/paddle_validators_test.go:93-100 | USD, EUR, GBP pass; usd, US, USDD, US1 and "" fail |
| Validators.CountryCodeTableCases | internal/validators/paddle_validators_test.go:202-209 | US, GB, FR pass; us, U, USA, U1 and "" fail |
| CustomData.RenderAll | internal/helpers/custom_data.go:21-39 | the converted map has exactly the input's key set |
| CustomData.FromStrings | internal/helpers/custom_data.go:50-54 | the custom data has exactly the string map's key set |
| CustomData.CustomDataToMap | internal/helpers/custom_data.go:15-42 | nil gives nil; a map whose values all convert gives the converted map; otherwise the error names a key that failed to marshal |
| CustomData.MapToCustomData | internal/helpers/custom_data.go:45-55 | nil gives nil; otherwise every key and value is copied unchanged as a JSON string |
| CustomData.StateOf | internal/resources/price.go:612-629 | nil custom data is stored as null, a converted map as that known map |
| CustomData.ReadCustomData | internal/resources/price.go:612-629 | Read fails exactly when some value does not convert; otherwise it stores `StateOf` |
| CustomData.StringsAndBoolsConvert | internal/helpers/custom_data.go:25-29 | string and boolean values always convert, strings unchanged and booleans as "true"/"false"; only the marshal branch can fail |
| CustomData.StringRoundTrip | internal/helpers/custom_data_test.go:167-195 | a string map converted to custom data and back is the same map, with no error |
| CustomData.ConversionTableCases | internal/helpers/custom_data_test.go:47-56 | the table cases: strings pass through, booleans render as "true"/"false" |
| NotificationSetting.KeepIfMembers | internal/resources/notification_setting.go:265-285 | an element survives a filter exactly when it is in the list and its membership in the other list is as asked |
| NotificationSetting.KeepIfIsSubsequence | internal/resources/notification_setting.go:265-285 | filtering keeps the list's order |
| NotificationSetting.SubsequenceOfPrefix | internal/resources/notification_setting.go:265-285 | a subsequence stays one when the longer list grows by an element |
| NotificationSetting.KeepIfAllPass | internal/resources/notification_setting.go:265-271 | filtering a list whose every element passes changes nothing |
| NotificationSetting.KeepIfNonePass | internal/resources/notification_setting.go:273-285 | filtering a list of which no element passes leaves nothing |
| NotificationSetting.KeepIfSameMembers | internal/resources/notification_setting.go:260-263 | filtering depends only on the other list's set of elements |
| NotificationSetting.MergeKeepsSurvivorsInStateOrder | internal/resources/notification_setting.go:265-271 | the state events the API still returns form a prefix of the result, in state order, and each one is kept |
| NotificationSetting.MergeDropsRemovedEvents | internal/resources/notification_setting.go:268 | a state event absent from the response is not in the result |
| NotificationSetting.MergeAppendsNewEventsInApiOrder | internal/resources/notification_setting.go:273-285 | after the prefix come exactly the response events absent from state, in response order |
| NotificationSetting.MergeHasApiEventSet | internal/resources/notification_setting.go:260-285 | the merged list holds exactly the events of the response |
| NotificationSetting.NoDriftWhenApiReorders | internal/resources/notification_setting.go:251-252 | when the response holds the same events as state, in any order, the state list is returned unchanged |
| NotificationSetting.NoDriftOnPermutation | internal/resources/notification_setting.go:251-252 | when the response is a permutation of the state list, the state list is returned unchanged |
| NotificationSetting.MergeIsIdempotent | internal/resources/notification_setting.go:251-292 | merging the merged list with the same response again changes nothing |
| NotificationSetting.MergeExample | internal/resources/notification_setting.go:251-292 | state [A,B,C] merged with a response [D,C,B] gives [B,C,D] |
| NotificationSetting.MergeSubscribedEvents | internal/resources/notification_setting.go:251-292 | the map-and-two-loops merge computes `MergedEvents` |
| NotificationSetting.TrafficSourceState | internal/resources/notification_setting.go:245-249 | an empty traffic source in a response is stored as null, any other value as known |
| NotificationSetting.TrafficSourcePatch | internal/resources/notification_setting.go:336-341 | a known traffic source is sent, a null one as "", and an unknown one is not sent |
| NotificationSetting.TrafficSourceRoundTrip | internal/resources/notification_setting.go:336-341 | if the API echoes the traffic source the Update sent, the stored value is the planned one, null included |
| NotificationSetting.CreateRequestOf | internal/resources/notification_setting.go:163-183 | description, destination and events are sent; the type is the planned one when known and `url` otherwise; include_sensitive_fields is sent unless null, with the planned value when known and `false` when unknown; traffic_source is sent, as planned, only when known |
| NotificationSetting.BuildCreateRequest | internal/resources/notification_setting.go:163-183 | the handler's assignments produce `CreateRequestOf` |
| NotificationSetting.Create | internal/resources/notification_setting.go:141-211 | sends `CreateRequestOf`; a failure saves nothing and reports one error; on success id, type, active, secret key, API version and include_sensitive_fields come from the response, with traffic source empty-to-null |
| NotificationSetting.Read | internal/resources/notification_setting.go:214-296 | any failure saves nothing and reports one error; otherwise every field except the id is refreshed, with traffic source empty-to-null and the events merged in state order |
| NotificationSetting.UpdateRequestOf | internal/resources/notification_setting.go:321-341 | description and destination are always sent, with the planned value or `""`; events are sent as planned; active and include_sensitive_fields only when known, with the planned value, and never cleared; traffic source by `TrafficSourcePatch`; the API version is never sent |
| NotificationSetting.BuildUpdateRequest | internal/resources/notification_setting.go:321-341 | the handler's assignments produce `UpdateRequestOf` |
| NotificationSetting.Update | internal/resources/notification_setting.go:299-365 | sends `UpdateRequestOf`; a failure saves nothing; on success type, active, API version, include_sensitive_fields and traffic source (empty-to-null) come from the response |
| NotificationSetting.UpdateReconciles | internal/resources/notification_setting.go:328-341 | for a fully known plan, the remote active flag, include_sensitive_fields and traffic source each hold the planned value after the patch, whatever they held before |
| NotificationSetting.Delete | internal/resources/notification_setting.go:368-388 | a true delete carrying only the id; an error is reported exactly when the call fails |
| Price.QuantityState | internal/resources/price.go:597-609 | a response quantity is stored as the object exactly when min > 0 or max > 0, else as null |
| Price.QuantityRoundTrip | internal/resources/price.go:423-435 | a quantity with a positive bound reads back unchanged; the all-zero quantity reads back as null |
| Price.ConvertOverrides | internal/resources/price.go:307-346 | each planned override becomes one request override with the same country codes and unit price; an empty list leaves nothing to send |
| Price.OverridesRequest | internal/resources/price.go:307-346 | overrides are sent exactly when the plan's list is known and non-empty, and then as planned |
| Price.OverridesState | internal/resources/price.go:495-552 | a non-empty response list is stored as that list, an empty one as null |
| Price.OverridesToState | internal/resources/price.go:495-552 | Read's override loops compute `OverridesState` |
| Price.OverridesReadBack | internal/resources/price.go:495-552 | overrides sent on Create and echoed read back as planned, except that a known empty list reads back as null |
| Price.CreateRequestOf | internal/resources/price.go:286-399 | product id, description and unit price are sent; name unless null; tax mode, quantity and custom data only when known, with the planned values; overrides by `OverridesRequest`, that is only when known and non-empty; billing cycle and trial period as planned |
| Price.BuildCreateRequest | internal/resources/price.go:286-399 | the handler's assignments and loops produce `CreateRequestOf` |
| Price.Create | internal/resources/price.go:268-439 | sends `CreateRequestOf`; a failure saves nothing; on success id, status, tax mode and timestamps come from the response, the quantity is normalised, and everything else keeps its planned value |
| Price.ReadState | internal/resources/price.go:464-629 | the id is kept; product id, description, tax mode, status, unit price, billing cycle, trial period and timestamps are the response's; the name is the response's or null when nil; overrides by `OverridesState`; the quantity by `QuantityState`; custom data by `StateOf` |
| Price.Read | internal/resources/price.go:442-633 | any failure (not-found included) saves nothing and reports an error; so does custom data that does not convert; otherwise it saves `ReadState` |
| Price.UpdateRequestOf | internal/resources/price.go:672-716 | description is always sent; a null name is cleared, another is set; tax mode known→set, null→account_setting, unknown→unsent; quantity only when known, with the planned value; custom data set when known, cleared otherwise; unit price, billing cycle, trial period, overrides and status are never sent |
| Price.BuildUpdateRequest | internal/resources/price.go:672-716 | the handler's assignments produce `UpdateRequestOf` |
| Price.Update | internal/resources/price.go:636-754 | no request exactly when description, name, tax mode, quantity and custom data all equal state, and then the plan is saved with the state's status and update time; otherwise sends `UpdateRequestOf` and takes status, tax mode, update time and the normalised quantity from the response |
| Price.OverrideOnlyChangeIsNotSent | internal/resources/price.go:649-661 | a plan that differs from state only in its overrides makes no API call |
| Price.UpdateConverges | internal/resources/price.go:677-716 | after the update, name and custom data hold exactly what a non-unknown plan denotes; a null tax mode resets to account_setting |
| Price.ArchiveRequestOf | internal/resources/price.go:768-771 | the archive request carries the price id and status archived, and nothing else |
| Price.Delete | internal/resources/price.go:758-781 | sends the archive request; an error is reported exactly when the call fails |
| Discount.CreateRequestOf | internal/resources/discount.go:202-269 | description, type and amount are sent; every optional field is included exactly when not null, with the planned value when known; restrict_to and custom data only when known; an unknown enabled_for_checkout or recur is sent as `false` and an unknown mode as `""` |
| Discount.BuildCreateRequest | internal/resources/discount.go:202-269 | the handler's assignments produce `CreateRequestOf` |
| Discount.Create | internal/resources/discount.go:194-289 | sends `CreateRequestOf`; a failure saves nothing; on success id, status, checkout flag, recurrence, usage count and timestamps come from the response |
| Discount.RestrictToState | internal/resources/discount.go:345-354 | an empty restrict_to in a response is stored as a null list |
| Discount.ReadState | internal/resources/discount.go:310-385 | the id is kept; status, description, checkout flag, recurrence, type, mode, amount, usage count and timestamps are the response's; code, currency code, both limits, expiry and group id are the response's value or null when nil; restrict_to by `RestrictToState`; custom data by `StateOf` |
| Discount.Read | internal/resources/discount.go:291-388 | any failure saves nothing and reports an error; so does custom data that does not convert; otherwise it saves `ReadState` |
| Discount.UpdateRequestOf | internal/resources/discount.go:398-462 | description, amount and type are always sent, with the planned value or `""`; checkout flag and recurrence only when not null, with the planned value when known, never cleared; code, usage limit, expiry and group cleared exactly when null; restrict_to known→set, null→cleared, unknown→unsent; mode, currency code, maximum recurring intervals and status are never sent |
| Discount.BuildUpdateRequest | internal/resources/discount.go:398-462 | the handler's assignments produce `UpdateRequestOf` |
| Discount.Update | internal/resources/discount.go:390-480 | sends `UpdateRequestOf`; a failure saves nothing; on success status, checkout flag, recurrence, usage count and update time come from the response |
| Discount.UpdateThenReadBack | internal/resources/discount.go:407-462 | code, usage limit, expiry and group read back after the update as exactly the non-unknown planned values, nulls included |
| Discount.RestrictToReadBack | internal/resources/discount.go:428-437 | restrict_to reads back as planned after the update, except that a known empty list reads back as null |
| Discount.NullFlagsKeepRemoteValue | internal/resources/discount.go:403-419 | a null checkout flag or recurrence leaves the remote value as it was |
| Discount.ArchiveRequestOf | internal/resources/discount.go:490-493 | the archive request carries the discount id and status archived, and nothing else |
| Discount.Delete | internal/resources/discount.go:482-503 | sends the archive request; an error is reported exactly when the call fails |
| Product.CreateRequestOf | internal/resources/product.go:143-171 | name and tax category are sent; description and image URL unless null; custom data only when known |
| Product.BuildCreateRequest | internal/resources/product.go:143-171 | the handler's assignments produce `CreateRequestOf` |
| Product.Create | internal/resources/product.go:133-191 | sends `CreateRequestOf`; a failure saves nothing; on success only id, status and timestamps come from the response |
| Product.ReadState | internal/resources/product.go:216-251 | the id is kept; name, tax category, status and timestamps are the response's; description and image URL are the response's value or null when nil; custom data by `StateOf` |
| Product.Read | internal/resources/product.go:194-255 | any failure saves nothing and reports an error; so does custom data that does not convert; otherwise it saves `ReadState` |
| Product.UpdateRequestOf | internal/resources/product.go:268-303 | name and tax category are always sent, with the planned value when known; description and image URL cleared exactly when null, otherwise set; custom data known→set, null→cleared, unknown→unsent; status is never sent |
| Product.BuildUpdateRequest | internal/resources/product.go:268-303 | the handler's assignments produce `UpdateRequestOf` |
| Product.Update | internal/resources/product.go:258-321 | sends `UpdateRequestOf`; a failure saves nothing; on success only status and update time come from the response |
| Product.UpdateThenReadBack | internal/resources/product.go:285-303 | description, image URL and custom data read back after the update as exactly the non-unknown planned values, nulls included |
| Product.UnknownCustomDataKeepsRemote | internal/resources/product.go:268-303 | unknown custom data leaves the remote custom data untouched |
| Product.ArchiveRequestOf | internal/resources/product.go:335-338 | the archive request carries the product id and status archived, and nothing else |
| Product.Delete | internal/resources/product.go:325-348 | sends the archive request; an error is reported exactly when the call fails |
| Customer.CreateRequestOf | internal/resources/customer.go:133-154 | email is sent; name and locale unless null, so an unknown locale is sent as ""; custom data only when known |
| Customer.BuildCreateRequest | internal/resources/customer.go:133-154 | the handler's assignments produce `CreateRequestOf` |
| Customer.CreatedLocale | internal/resources/customer.go:171-173 | the response's locale replaces the planned one only when it is non-empty |
| Customer.Create | internal/resources/customer.go:125-176 | sends `CreateRequestOf`; a failure saves nothing; on success id, marketing consent, status and timestamps come from the response, and the locale by `CreatedLocale` |
| Customer.OmittedLocaleStaysUnknownOnEmptyResponse | internal/resources/customer.go:142-173 | an unknown locale is sent as "" and, with an empty locale in the response, stays unknown after Create |
| Customer.ReadState | internal/resources/customer.go:197-227 | the id is kept; email, locale, marketing consent, status and timestamps are the response's; the name is the response's or null when nil; custom data by `StateOf` |
| Customer.Read | internal/resources/customer.go:178-230 | any failure saves nothing and reports an error; so does custom data that does not convert; otherwise it saves `ReadState` |
| Customer.UpdateRequestOf | internal/resources/customer.go:240-266 | email is always sent; a null name is cleared, another is set; locale is sent only when not null and never cleared; custom data set when known, cleared when null or unknown; status is never sent |
| Customer.BuildUpdateRequest | internal/resources/customer.go:240-266 | the handler's assignments produce `UpdateRequestOf` |
| Customer.Update | internal/resources/customer.go:232-282 | sends `UpdateRequestOf`; a failure saves nothing; on success marketing consent, status and update time come from the response |
| Customer.UpdateThenReadBack | internal/resources/customer.go:245-266 | name and custom data read back after the update as exactly the non-unknown planned values, nulls included |
| Customer.UnknownCustomDataClearsRemote | internal/resources/customer.go:257-266 | unknown custom data clears the remote custom data, unlike the product resource |
| Customer.NullLocaleKeepsRemote | internal/resources/customer.go:252-255 | a null locale leaves the remote locale as it was |
| Customer.ArchiveRequestOf | internal/resources/customer.go:292-295 | the archive request carries the customer id and status archived, and nothing else |
| Customer.Delete | internal/resources/customer.go:284-305 | sends the archive request; an error is reported exactly when the call fails |
| Provider.UnknownDiagnostics | internal/provider/provider.go:85-101 | no diagnostic exactly when neither api_key nor environment is unknown; each unknown one gets its attribute error |
| Provider.Resolve | internal/provider/provider.go:110-119 | a known configured value wins over the environment variable; a null one falls back to it |
| Provider.EffectiveEnvironment | internal/provider/provider.go:134-136 | the environment is never empty: an empty resolved value defaults to sandbox |
| Provider.ValidationDiagnostics | internal/provider/provider.go:124-144 | no diagnostic exactly when the key is non-empty and the environment is sandbox or production; each failure gets its attribute error |
| Provider.Configure | internal/provider/provider.go:71-178 | the step-by-step resolution computes `ConfigureOutcome` |
| Provider.UnknownStopsBeforeEnvironment | internal/provider/provider.go:85-105 | an unknown api_key or environment stops with the unknown-value errors, whatever the environment variables and the constructor would give |
| Provider.EmptyKeyIsMissing | internal/provider/provider.go:124-132 | an empty resolved key is reported as missing and no client is built |
| Provider.InvalidEnvironmentIsReported | internal/provider/provider.go:138-148 | a resolved environment other than sandbox, production or empty is reported and no client is built |
| Provider.ConfiguredExactlyWhenValid | internal/provider/provider.go:146-175 | a client is configured exactly when nothing is unknown, the key is non-empty, the environment is valid and the constructor succeeds; it carries the resolved key, is a sandbox client exactly for sandbox, and goes to resources and data sources alike |
| Provider.DefaultsToSandbox | internal/provider/provider.go:134-161 | with no environment set anywhere, a valid key yields a sandbox client |
| Provider.ConfiguredKeyTakesPrecedence | internal/provider/provider.go:110-119 | a configured key wins over the environment variable; a null one falls back to it |

## Left out

- Remote SDK calls (`CreateX`, `GetX`, `UpdateX`, `DeleteNotificationSetting`, `paddle.New`, `paddle.NewSandbox`): they are foreign code. Their outcome is a parameter; a response is a given value and a failure is `Failed`.
- `os.Getenv`: the two environment variables are parameters of `Provider.Configure`.
- Logging through `tflog`, and the detail text of diagnostics: they do not change behaviour. Only the summary line of each diagnostic is kept.
- Framework conversions (`ElementsAs`, `As`, `ObjectValueFrom`) and the diagnostics they can append: they are framework plumbing. The model assumes they succeed.
- Schemas, metadata, plan modifiers (RequiresReplace, UseStateForUnknown) and the `Configure` type assertions of the resources: these are declarative framework wiring that this code does not enforce.
- IntervalValidator and CountryCodeValidator are modelled as validators. No resource attribute is claimed to use them, because the price schema does not attach them.
- `PercentageAmountValidator`: it depends on `strconv.ParseFloat` and floating-point comparison.
- CustomData.CustomDataToMap: numbers and nested values are an abstract `JOther` carrying the text that `%v` or `json.Marshal` gives, or none when marshalling fails. Floating-point formatting and JSON encoding are not modelled.
- CustomData.CustomDataToMap: Go visits map keys in an unspecified order, so when several values fail, the contract only says that the reported key is one that failed.
- The data sources: each is one remote read followed by the same field copy as the resource Reads.
- Timestamps, locales and amounts: they are carried as unparsed strings, so their formats are not modelled.
- Integer widths: the SDK's `int` and Terraform's `int64` are unbounded integers here. No value in this logic is computed, only copied, so no wrap-around arises.
- Price billing cycle and trial period are taken as null or known, not unknown, because they are optional configuration objects that Create reads only when present.
- Notification-setting subscribed events are one sequence of names. A null list, possible after an import, is the empty sequence.
- Read and Delete report every failure, as the code does. Removing a resource that Read no longer finds, and treating a failed Delete of an absent resource as success, are not modelled because the code does not do them.
