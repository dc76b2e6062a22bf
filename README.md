# Vendor check filter: a Dafny model

SandboxWebApi guards its customer actions with an action filter,
`VendorCheckFilter`. Before an action runs, the filter decides whether every
bound action argument belongs to the caller's vendor (the tenant named by the
caller's claim). It runs in four steps:

1. **Pre-check.** The claim must be present. An explicit `VendorId` argument, if
   bound, must equal the claim.
2. **Dispatch.** The arguments are taken in binding order. Class-typed values
   are routed by type. Integer values are routed by lower-cased parameter name.
3. **Validate.** The ownership checks consult a fixed customer table.
4. **Stop early.** The first failing argument ends the walk.

The model has four modules:

- `Models` (`models.dfy`): the records a request binds
  (`CustomersListFilterDataView`, `CustomerDataView`, `LocationDataView`). An
  argument value is a class instance (`ClassValue`) or a boxed integer
  (`IntValue`). A class instance is one of the three registered shapes or an
  `OtherObj` carrying its type name. `Lower` is ASCII lower-casing.
- `VendorCheck` (`vendor_check.dfy`): the gate as pure functions of the claim,
  the explicit VendorId, the customer table and the arguments. The per-kind
  checks `CheckVendor`, `CheckCustomersListFilterDataView`,
  `CheckCustomerDataView`, `CheckCustomer` and `CheckLocationDataView` write
  out the C# lifted `int?` comparisons. `Classify` and `Validate` do the
  dispatch. `CheckAll` and `FirstFailure` specify the walk. `Authorize` is the
  whole decision. The lemmas state the gate's security rules. The per-kind
  checks and the dispatch have no contracts of their own. The rule lemmas
  (`ListFilterRule`, `CustomerRule`, `LocationRule`, `ScalarRule`, …) state
  what they decide.
- `Filters` (`vendor_check_filter.dfy`): the filter object. The class
  `VendorCheckFilter` has the fields `vendorId` and `claimVendorId` and the
  table `customers`. `OnActionExecution` writes `vendorId` only when the
  "VendorId" key is bound, so the value survives from one request to the next
  as it does on the attribute instance. `CheckContext` is the `foreach` loop
  with its early exit. It is proved against `CheckAll` and `FirstFailure`.
- `Scenarios` (`scenarios.dfy`): concrete requests with claim 5 against the
  fixed table, shaped like the customer controller's actions.

Modelling choices:

- The decision is a value, `Proceed | Unauthorized`. The source throws
  `UnauthorizedAccessException` or awaits `next()` instead.
- `VendorId` is a field of the filter object, not a per-call local. A
  per-call gate that starts with no VendorId is `VendorCheck.AuthorizeRequest`,
  which the scenarios use.
- The key test `ContainsKey("VendorId")` is matched case-insensitively, by the
  same lower-casing as the scalar switch. This is a modelling choice: the
  argument dictionary belongs to the web framework, and VendorCheckFilter.cs
  only writes the literal `"VendorId"`.
- Within one filter object the claim and the table are fixed. They are
  parameters of the pure functions. The default constructor uses claim 5 and
  the table of VendorCheckFilter.cs. `WithClaim` takes any claim, including
  none.
- Every decision is a function of the claim, the held VendorId, the table and
  the arguments. Two calls with the same inputs therefore decide alike.
- The code has no failed-lookup path: the customer table is an in-memory
  list. The model has two outcomes.
- A null list-filter VendorId fails only because the pre-check has already
  rejected a null claim. `CheckCustomersListFilterDataView` on its own accepts
  a null VendorId when the claim is null as well
  (`ListFilterNullMatchesNullClaim`).

## Model

| member | source | states |
|---|---|---|
| `VendorCheck.GetCustomers` | SandboxWebApi/Filters/VendorCheckFilter.cs:150-165 | the table has ten rows; row i has id i+1; rows with ids 1-5 belong to vendor 5 and rows with ids 6-10 to vendor 6 |
| `VendorCheck.OwnedBy` | SandboxWebApi/Filters/VendorCheckFilter.cs:125-130 | the `Where(...).Any()` query is true exactly when some table row has the given id and the claim's vendor; it is never true without a claim |
| `VendorCheck.FixedTableOwnership` | SandboxWebApi/Filters/VendorCheckFilter.cs:152-163 | in the fixed table, customer id is owned by vendor v exactly when (id in 1..5 and v = 5) or (id in 6..10 and v = 6) |
| `Models.TypeNameIdentifiesShape` | SandboxWebApi/Filters/VendorCheckFilter.cs:41-54 | switching on the runtime type name selects exactly the matching registered shape, so the switch and the shape match are the same dispatch |
| `VendorCheck.CheckAll` | SandboxWebApi/Filters/VendorCheckFilter.cs:35-76 | the walk accepts exactly when every argument passes its check |
| `VendorCheck.FirstFailure` | SandboxWebApi/Filters/VendorCheckFilter.cs:71-73 | none exactly when all arguments pass; otherwise an index in range whose argument fails and before which every argument passes |
| `VendorCheck.VendorKeyValue` | SandboxWebApi/Filters/VendorCheckFilter.cs:19-21 | none exactly when no argument is named "VendorId" in any case; otherwise the value of an argument with that name |
| `VendorCheck.BoundVendorId` | SandboxWebApi/Filters/VendorCheckFilter.cs:19-22 | a bound "VendorId" argument replaces the held VendorId with its integer; with no such argument the VendorId held before is kept |
| `VendorCheck.BoundVendorMismatchDenies` | SandboxWebApi/Filters/VendorCheckFilter.cs:19-25 | a bound "VendorId" different from the claim replaces any held VendorId, fails the pre-check and refuses the call, whatever was held before |
| `VendorCheck.AuthorizeRequest` | SandboxWebApi/Filters/VendorCheckFilter.cs:17-31 | the per-call gate proceeds only with a claim and with every argument passing; with no "VendorId" argument it proceeds exactly then |
| `VendorCheck.IsPreValid` | SandboxWebApi/Filters/VendorCheckFilter.cs:79-93 | no contract; its rules are stated in `MissingClaimDenies` and `VendorMismatchDenies` |
| `VendorCheck.Authorize` | SandboxWebApi/Filters/VendorCheckFilter.cs:24-30 | no contract; its rules are stated in `MissingClaimDenies`, `VendorMismatchDenies`, `UnauthorizedIffSomeArgumentFails` and `FailureShortCircuits` |
| `VendorCheck.MissingClaimDenies` | SandboxWebApi/Filters/VendorCheckFilter.cs:24-25 | without a claim the pre-check fails and the decision is Unauthorized for every VendorId, table and argument list |
| `VendorCheck.VendorMismatchDenies` | SandboxWebApi/Filters/VendorCheckFilter.cs:86-90 | an explicit VendorId different from the claim fails the pre-check and the decision is Unauthorized, whatever the arguments |
| `VendorCheck.UnauthorizedIffSomeArgumentFails` | SandboxWebApi/Filters/VendorCheckFilter.cs:27-30 | once the pre-check passes, the decision is Unauthorized exactly when some argument fails; an empty argument list proceeds |
| `VendorCheck.FailureShortCircuits` | SandboxWebApi/Filters/VendorCheckFilter.cs:71-73 | if all arguments before a failing one pass, the first failure is at that index, the walk examines exactly the arguments up to it, and the call is refused whatever follows |
| `VendorCheck.PreCheckSubsumedByWalk` | SandboxWebApi/Filters/VendorCheckFilter.cs:17-28 | for a per-call gate, the pre-check's VendorId test never changes the decision: it is Unauthorized exactly when the claim is missing or some argument fails |
| `VendorCheck.Examined` | SandboxWebApi/Filters/VendorCheckFilter.cs:71-73 | no contract; its rule is stated in `FailureShortCircuits` and in the contract of `Filters.VendorCheckFilter.CheckContext` |
| `VendorCheck.CheckVendor` | SandboxWebApi/Filters/VendorCheckFilter.cs:96-99 | no contract; its rule is stated in `ScalarRule` |
| `VendorCheck.CheckCustomersListFilterDataView` | SandboxWebApi/Filters/VendorCheckFilter.cs:107-110 | no contract; its rules are stated in `ListFilterRule` and `ListFilterNullMatchesNullClaim` |
| `VendorCheck.CheckCustomerDataView` | SandboxWebApi/Filters/VendorCheckFilter.cs:115-123 | no contract; its rules are stated in `CustomerRule` and `CustomerNeedsCorroboration` |
| `VendorCheck.CheckCustomer` | SandboxWebApi/Filters/VendorCheckFilter.cs:125-130 | no contract; its rule is stated in `ScalarRule` and through `OwnedBy` |
| `VendorCheck.CheckLocationDataView` | SandboxWebApi/Filters/VendorCheckFilter.cs:139-144 | no contract; its rule is stated in `LocationRule` |
| `VendorCheck.Classify` | SandboxWebApi/Filters/VendorCheckFilter.cs:36-70 | no contract; its routing is stated in `ScalarRule`, `UnregisteredClassPasses`, `ScalarDispatchIgnoresCase` and `Models.TypeNameIdentifiesShape` |
| `VendorCheck.Validate` | SandboxWebApi/Filters/VendorCheckFilter.cs:36-70 | no contract; its rules are stated in `ListFilterRule`, `CustomerRule`, `LocationRule`, `ScalarRule` and `UnregisteredClassPasses` |
| `VendorCheck.CheckArgument` | SandboxWebApi/Filters/VendorCheckFilter.cs:36-70 | no contract; its rules are stated in the rule lemmas `ListFilterRule`, `CustomerRule`, `LocationRule`, `ScalarRule` and `UnregisteredClassPasses` |
| `Models.Lower` | SandboxWebApi/Filters/VendorCheckFilter.cs:59 | no contract; ASCII lower-casing, used by `ScalarRule` and `ScalarDispatchIgnoresCase` |
| `VendorCheck.ListFilterRule` | SandboxWebApi/Filters/VendorCheckFilter.cs:107-110 | with a claim, a list filter passes exactly when its VendorId is set and equal to the claim; a null VendorId fails |
| `VendorCheck.ListFilterNullMatchesNullClaim` | SandboxWebApi/Filters/VendorCheckFilter.cs:109 | with no claim, the lifted comparison accepts exactly the filters whose VendorId is null |
| `VendorCheck.CustomerRule` | SandboxWebApi/Filters/VendorCheckFilter.cs:115-123 | a customer passes exactly when its declared vendor is the claim and the table holds its id under the claim |
| `VendorCheck.CustomerNeedsCorroboration` | SandboxWebApi/Filters/VendorCheckFilter.cs:117-122 | a customer that declares the caller's vendor still fails when no table row holds its id under that vendor |
| `VendorCheck.LocationRule` | SandboxWebApi/Filters/VendorCheckFilter.cs:139-144 | a location passes exactly when the table holds its parent customer under the claim; the check equals the scalar customer check on the parent id and does not depend on the location's own id |
| `VendorCheck.ScalarRule` | SandboxWebApi/Filters/VendorCheckFilter.cs:56-69 | an integer named customerid in any case passes exactly when the table holds it under the claim; one named vendorid passes exactly when it equals the claim; any other name passes |
| `VendorCheck.UnregisteredClassPasses` | SandboxWebApi/Filters/VendorCheckFilter.cs:52-53 | a class-typed argument of an unregistered type passes, whatever its name |
| `VendorCheck.ScalarDispatchIgnoresCase` | SandboxWebApi/Filters/VendorCheckFilter.cs:59 | two parameter names equal after lower-casing get the same decision for the same integer |
| `Filters.VendorCheckFilter.constructor` | SandboxWebApi/Filters/VendorCheckFilter.cs:12-14 | a new filter holds no VendorId, the claim 5 and the fixed customer table |
| `Filters.VendorCheckFilter.WithClaim` | SandboxWebApi/Filters/VendorCheckFilter.cs:13-14 | a new filter holds no VendorId and the given claim and table |
| `Filters.VendorCheckFilter.OnActionExecution` | SandboxWebApi/Filters/VendorCheckFilter.cs:17-31 | the held VendorId becomes the bound "VendorId" value when there is one and is kept otherwise; the decision is `Authorize` on the new state; a failed pre-check examines no argument, otherwise exactly the arguments up to the first failure; a missing claim, or a bound "VendorId" different from the claim, refuses the call with no argument examined |
| `Filters.VendorCheckFilter.CheckContext` | SandboxWebApi/Filters/VendorCheckFilter.cs:33-77 | the loop accepts exactly when every argument passes; on a failure it has examined exactly the arguments up to and including the first failing one |
| `Filters.StaleVendorIdScenario` | SandboxWebApi/Filters/VendorCheckFilter.cs:17-25 | a filter that saw VendorId 6 refuses a following request that binds no VendorId and posts an owned customer, which a new filter lets through |
| `Scenarios.OwnCustomerIdProceeds` | SandboxWebApi/Controllers/CustomerController.cs:23-29 | `{customerId: 3}` with claim 5 proceeds |
| `Scenarios.ForeignCustomerIdDenied` | SandboxWebApi/Controllers/CustomerController.cs:23-29 | `{customerId: 6}` with claim 5 is refused |
| `Scenarios.ForeignVendorIdDenied` | SandboxWebApi/Filters/VendorCheckFilter.cs:19-25 | `{vendorId: 6}` with claim 5 binds VendorId 6, fails the pre-check and is refused |
| `Scenarios.OwnLocationProceeds` | SandboxWebApi/Controllers/CustomerController.cs:64-70 | a location under customer 2 proceeds with claim 5, whatever its own id |
| `Scenarios.UncorroboratedCustomerDenied` | SandboxWebApi/Controllers/CustomerController.cs:39-44 | `Post(vendorId: 5, entity)` with a customer declaring vendor 5 but listed under vendor 6 is refused |
| `Scenarios.NullFilterVendorDenied` | SandboxWebApi/Controllers/CustomerController.cs:54-60 | `Search2(vendorId: 5, test2)` with a filter whose VendorId is null is refused |
| `Scenarios.ClassTypedCustomerIdUnchecked` | SandboxWebApi/Filters/VendorCheckFilter.cs:38-55 | a class-typed value (a string, for one) bound as customerId is not checked and the call proceeds |

## Left out

- The asynchronous `next()` delegate and the exceptions are not modelled. The decision is returned as a value.
- Null argument values are left out. They would fault at `GetType()` before any check.
- Scalar values of other value types (bool, Guid, DateTime, …) are left out. Scalars are integers only, so the `(int)` casts of the scalar switch cannot fail.
- `OnActionExecution` requires a "VendorId" argument, if bound, to be an integer (`VendorKeyWellTyped`). A class-typed value there would fail the `(int?)` cast with an exception, which the model does not represent.
- A class from another namespace whose type name equals a registered name would fail its cast in the switch. It is excluded by the `UnregisteredName` type.
- `Models.Lower`: `string.ToLower()` is culture-sensitive, and `Lower` changes only ASCII letters. Under a Turkish or Azerbaijani current culture, `"customerId".ToLower()` is `"customerıd"` (dotless ı), and `"vendorId"` lowers the same way. Then neither case of the scalar switch matches, so the controller's `customerId` and `vendorId` integers pass unchecked. `ScalarRule` does not describe that culture.
- The unused `DataViewModel` property is not modelled.
- Concurrent use of one filter object by simultaneous requests is not modelled. Reuse of the object by successive requests is modelled by its `vendorId` field.
- Filters/CustomExceptionFilterAttribute.cs is not part of this model. It is logging and response writing: it maps the refusal's exception to a status code.
- The handlers of Controllers/CustomerController.cs are not part of this model. Their action signatures are used only as shapes for scenarios.
- No lookup-failure outcome and no cancellation are modelled. The code has neither.

## Findings

| source | as written | input that shows it | evidently intended | confidence | as-written member | corrected member |
|---|---|---|---|---|---|---|
| SandboxWebApi/Filters/VendorCheckFilter.cs:13-22 | `VendorId` is a property of the filter instance. It is assigned only when the "VendorId" argument is bound, so a request without one is pre-checked against the value left by an earlier request. | On one filter with claim 5: first `{vendorId: 6, entity: Customer(3, 5)}`, then `{entity: Customer(3, 5)}`. The second call is refused, though a new filter lets it through. | The VendorId of the pre-check is that of the current request, unset when it binds none. | not executed; applies when the framework reuses one attribute instance across requests and leaves unbound parameters out of the argument dictionary | `Filters.StaleVendorIdScenario` | `VendorCheck.AuthorizeRequest` |
