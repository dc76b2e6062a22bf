/** The decision logic of the vendor (tenant) gate as pure functions of the
    caller's claim, the explicit VendorId, the customer table and the bound
    arguments; and the properties the gate promises, as lemmas. */
module VendorCheck {
  import opened Models

  /** What the gate lets the framework do: run the action, or refuse it (the
      source throws `UnauthorizedAccessException` instead). */
  datatype Decision = Proceed | Unauthorized

  /** Which ownership check an argument is routed to. */
  datatype Check =
    | ListFilterCheck(filter: CustomersListFilterDataView)
    | CustomerCheck(customer: CustomerDataView)
    | LocationCheck(location: LocationDataView)
    | CustomerIdCheck(customerId: int)
    | VendorIdCheck(vendorId: int)
    | NoCheck

  // ---------------------------------------------------------------------------
  // The customer table

  /** The fixed in-memory customer table: ids 1 to 5 belong to vendor 5, ids 6
      to 10 to vendor 6. */
  function GetCustomers(): (t: seq<CustomerDataView>)
    ensures |t| == 10
    ensures forall i :: 0 <= i < |t| ==> t[i].id == i + 1
    ensures forall i :: 0 <= i < |t| ==> t[i].vendorId == (if i < 5 then 5 else 6)
  {
    [ CustomerDataView(1, 5), CustomerDataView(2, 5), CustomerDataView(3, 5),
      CustomerDataView(4, 5), CustomerDataView(5, 5), CustomerDataView(6, 6),
      CustomerDataView(7, 6), CustomerDataView(8, 6), CustomerDataView(9, 6),
      CustomerDataView(10, 6) ]
  }

  /** `table.Where(x => x.Id == id && x.VendorId == claim).Any()`, where the
      comparison of the `int` column with the nullable claim is lifted (false
      when the claim is null). */
  function OwnedBy(table: seq<CustomerDataView>, id: int, claim: Option<int>): (r: bool)
    ensures r <==> exists i :: 0 <= i < |table| && table[i].id == id && Some(table[i].vendorId) == claim
    ensures r ==> claim.Some?
  {
    if table == [] then false
    else if table[0].id == id && Some(table[0].vendorId) == claim then true
    else
      var rest := OwnedBy(table[1..], id, claim);
      assert forall i :: 0 < i < |table| ==> table[i] == table[1..][i - 1];
      rest
  }

  /** In the fixed table, customer `id` is owned by vendor `v` exactly when id is
      in 1..5 and v is 5, or id is in 6..10 and v is 6. */
  lemma FixedTableOwnership(id: int, v: int)
    ensures OwnedBy(GetCustomers(), id, Some(v)) <==> (1 <= id <= 5 && v == 5) || (6 <= id <= 10 && v == 6)
  {
    var t := GetCustomers();
    if (1 <= id <= 5 && v == 5) || (6 <= id <= 10 && v == 6) {
      assert t[id - 1].id == id && t[id - 1].vendorId == v;
    }
  }

  // ---------------------------------------------------------------------------
  // The per-kind ownership checks (C# lifted `int?` comparisons written out)

  /** `vendorId == ClaimVendorId`. */
  function CheckVendor(claim: Option<int>, vendorId: int): bool
  {
    Some(vendorId) == claim
  }

  /** `dv.VendorId == ClaimVendorId`: both sides nullable, so null equals null. */
  function CheckCustomersListFilterDataView(claim: Option<int>, dv: CustomersListFilterDataView): bool
  {
    dv.vendorId == claim
  }

  /** The declared vendor must be the claim, and the table must corroborate it. */
  function CheckCustomerDataView(claim: Option<int>, table: seq<CustomerDataView>, dv: CustomerDataView): bool
  {
    if Some(dv.vendorId) != claim then false
    else OwnedBy(table, dv.id, claim)
  }

  /** A customer id given as a scalar must be in the table under the claim. */
  function CheckCustomer(claim: Option<int>, table: seq<CustomerDataView>, customerId: int): bool
  {
    OwnedBy(table, customerId, claim)
  }

  /** A location is owned through its parent customer; its own id plays no part. */
  function CheckLocationDataView(claim: Option<int>, table: seq<CustomerDataView>, dv: LocationDataView): bool
  {
    OwnedBy(table, dv.customerId, claim)
  }

  // ---------------------------------------------------------------------------
  // Dispatch

  /** Class-typed values are routed by their type; scalars by their lower-cased
      parameter name. Anything unregistered gets no check. */
  function Classify(arg: Argument): Check
  {
    match arg.value
    case ClassValue(o) =>
      (match o
       case ListFilterObj(f) => ListFilterCheck(f)
       case CustomerObj(c) => CustomerCheck(c)
       case LocationObj(l) => LocationCheck(l)
       case OtherObj(_) => NoCheck)
    case IntValue(n) =>
      var key := Lower(arg.name);
      if key == "customerid" then CustomerIdCheck(n)
      else if key == "vendorid" then VendorIdCheck(n)
      else NoCheck
  }

  function Validate(claim: Option<int>, table: seq<CustomerDataView>, c: Check): bool
  {
    match c
    case ListFilterCheck(f) => CheckCustomersListFilterDataView(claim, f)
    case CustomerCheck(dv) => CheckCustomerDataView(claim, table, dv)
    case LocationCheck(dv) => CheckLocationDataView(claim, table, dv)
    case CustomerIdCheck(id) => CheckCustomer(claim, table, id)
    case VendorIdCheck(v) => CheckVendor(claim, v)
    case NoCheck => true
  }

  /** Whether one bound argument passes its ownership check. */
  function CheckArgument(claim: Option<int>, table: seq<CustomerDataView>, arg: Argument): bool
  {
    Validate(claim, table, Classify(arg))
  }

  // ---------------------------------------------------------------------------
  // The argument walk

  /** Every argument passes. */
  function CheckAll(claim: Option<int>, table: seq<CustomerDataView>, args: seq<Argument>): (r: bool)
    ensures r <==> forall i :: 0 <= i < |args| ==> CheckArgument(claim, table, args[i])
  {
    if args == [] then true
    else
      var rest := CheckAll(claim, table, args[1..]);
      assert forall i :: 0 < i < |args| ==> args[i] == args[1..][i - 1];
      CheckArgument(claim, table, args[0]) && rest
  }

  /** The index of the first argument that fails, if any. */
  function FirstFailure(claim: Option<int>, table: seq<CustomerDataView>, args: seq<Argument>): (r: Option<nat>)
    ensures r.None? <==> CheckAll(claim, table, args)
    ensures r.Some? ==> r.value < |args| && !CheckArgument(claim, table, args[r.value])
    ensures r.Some? ==> forall j :: 0 <= j < r.value ==> CheckArgument(claim, table, args[j])
  {
    if args == [] then None
    else if !CheckArgument(claim, table, args[0]) then Some(0)
    else
      match FirstFailure(claim, table, args[1..])
      case None => None
      case Some(k) =>
        assert forall j :: 0 < j < |args| ==> args[j] == args[1..][j - 1];
        Some(k + 1)
  }

  /** How many arguments the walk looks at: all of them, or up to and including
      the first that fails. */
  function Examined(claim: Option<int>, table: seq<CustomerDataView>, args: seq<Argument>): nat
  {
    match FirstFailure(claim, table, args)
    case None => |args|
    case Some(k) => k + 1
  }

  // ---------------------------------------------------------------------------
  // The pre-check and the whole gate

  /** The claim must be present, and an explicit VendorId, if any, must equal it. */
  function IsPreValid(claim: Option<int>, vendorId: Option<int>): bool
  {
    if claim.None? then false
    else if vendorId.Some? && vendorId != claim then false
    else true
  }

  /** The decision, given the VendorId the instance holds when the pre-check runs. */
  function Authorize(claim: Option<int>, vendorId: Option<int>, table: seq<CustomerDataView>,
                     args: seq<Argument>): Decision
  {
    if !IsPreValid(claim, vendorId) then Unauthorized
    else if !CheckAll(claim, table, args) then Unauthorized
    else Proceed
  }

  /** The value bound under the key "VendorId", matched case-insensitively. */
  function VendorKeyValue(args: seq<Argument>): (r: Option<Value>)
    ensures r.None? <==> forall i :: 0 <= i < |args| ==> Lower(args[i].name) != "vendorid"
    ensures r.Some? ==> exists i :: 0 <= i < |args| && Lower(args[i].name) == "vendorid" && args[i].value == r.value
  {
    if args == [] then None
    else if Lower(args[0].name) == "vendorid" then Some(args[0].value)
    else
      var rest := VendorKeyValue(args[1..]);
      assert forall i :: 0 < i < |args| ==> args[i] == args[1..][i - 1];
      rest
  }

  /** The cast `(int?)context.ActionArguments["VendorId"]` succeeds: the value
      under that key, if there is one, is an integer. */
  predicate VendorKeyWellTyped(args: seq<Argument>)
  {
    VendorKeyValue(args).None? || VendorKeyValue(args).value.IntValue?
  }

  /** The VendorId after binding: the bound value when the key is present,
      otherwise whatever the instance held before. */
  function BoundVendorId(args: seq<Argument>, previous: Option<int>): (r: Option<int>)
    requires VendorKeyWellTyped(args)
    ensures (forall i :: 0 <= i < |args| ==> Lower(args[i].name) != "vendorid") ==> r == previous
    ensures VendorKeyValue(args).Some? ==> r == Some(VendorKeyValue(args).value.n)
    ensures r != previous ==>
      (r.Some? &&
       exists i :: 0 <= i < |args| && Lower(args[i].name) == "vendorid" && args[i].value == IntValue(r.value))
  {
    match VendorKeyValue(args)
    case None => previous
    case Some(v) => Some(v.n)
  }

  /** The gate with VendorId held per call, starting unset. */
  function AuthorizeRequest(claim: Option<int>, table: seq<CustomerDataView>, args: seq<Argument>): (r: Decision)
    requires VendorKeyWellTyped(args)
    ensures r == Proceed ==> claim.Some? && CheckAll(claim, table, args)
    ensures (forall i :: 0 <= i < |args| ==> Lower(args[i].name) != "vendorid") ==>
      (r == Proceed <==> claim.Some? && CheckAll(claim, table, args))
  {
    Authorize(claim, BoundVendorId(args, None), table, args)
  }

  // ---------------------------------------------------------------------------
  // Properties of the gate

  /** Fail-closed: without a claim the call is refused, whatever the arguments. */
  lemma MissingClaimDenies(vendorId: Option<int>, table: seq<CustomerDataView>, args: seq<Argument>)
    ensures Authorize(None, vendorId, table, args) == Unauthorized
    ensures !IsPreValid(None, vendorId)
  {
  }

  /** An explicit VendorId different from the claim refuses the call before any
      argument is looked at. */
  lemma VendorMismatchDenies(claim: Option<int>, v: int, table: seq<CustomerDataView>, args: seq<Argument>)
    requires Some(v) != claim
    ensures !IsPreValid(claim, Some(v))
    ensures Authorize(claim, Some(v), table, args) == Unauthorized
  {
  }

  /** A bound "VendorId" argument different from the claim replaces whatever
      VendorId was held and refuses the call in the pre-check. */
  lemma BoundVendorMismatchDenies(claim: Option<int>, previous: Option<int>, table: seq<CustomerDataView>,
                                  args: seq<Argument>, v: int)
    requires VendorKeyValue(args) == Some(IntValue(v))
    requires Some(v) != claim
    ensures VendorKeyWellTyped(args)
    ensures BoundVendorId(args, previous) == Some(v)
    ensures !IsPreValid(claim, BoundVendorId(args, previous))
    ensures Authorize(claim, BoundVendorId(args, previous), table, args) == Unauthorized
  {
  }

  /** Once the pre-check passes, the call is refused exactly when some argument
      fails its check; with no arguments it proceeds. */
  lemma UnauthorizedIffSomeArgumentFails(claim: Option<int>, vendorId: Option<int>,
                                         table: seq<CustomerDataView>, args: seq<Argument>)
    requires IsPreValid(claim, vendorId)
    ensures Authorize(claim, vendorId, table, args) == Unauthorized
      <==> exists i :: 0 <= i < |args| && !CheckArgument(claim, table, args[i])
    ensures args == [] ==> Authorize(claim, vendorId, table, args) == Proceed
  {
  }

  /** Arguments after the first failing one cannot change the outcome, and the
      walk stops at that argument. */
  lemma {:induction false} FailureShortCircuits(claim: Option<int>, vendorId: Option<int>,
                                                table: seq<CustomerDataView>,
                                                prefix: seq<Argument>, failing: Argument,
                                                rest: seq<Argument>)
    requires forall j :: 0 <= j < |prefix| ==> CheckArgument(claim, table, prefix[j])
    requires !CheckArgument(claim, table, failing)
    ensures FirstFailure(claim, table, prefix + [failing] + rest) == Some(|prefix|)
    ensures Examined(claim, table, prefix + [failing] + rest) == |prefix| + 1
    ensures Authorize(claim, vendorId, table, prefix + [failing] + rest) == Unauthorized
  {
    var args := prefix + [failing] + rest;
    assert args[|prefix|] == failing;
    assert forall j :: 0 <= j < |prefix| ==> args[j] == prefix[j];
  }

  /** For a well-formed argument list, the pre-check's VendorId test never changes
      the per-call decision: a mismatching "vendorid" scalar also fails in the
      walk. The pre-check only makes the refusal happen before any lookup. */
  lemma PreCheckSubsumedByWalk(claim: Option<int>, table: seq<CustomerDataView>, args: seq<Argument>)
    requires VendorKeyWellTyped(args)
    ensures AuthorizeRequest(claim, table, args)
      == if claim.None? || !CheckAll(claim, table, args) then Unauthorized else Proceed
  {
    var v := BoundVendorId(args, None);
    if claim.Some? && v.Some? && v != claim {
      var i :| 0 <= i < |args| && Lower(args[i].name) == "vendorid" && args[i].value == IntValue(v.value);
      assert Classify(args[i]) == VendorIdCheck(v.value);
      assert !CheckArgument(claim, table, args[i]);
    }
  }

  // ---------------------------------------------------------------------------
  // Properties of the individual checks, as seen through dispatch

  /** A list filter passes exactly when its VendorId is set and equals the claim;
      a null VendorId always fails. */
  lemma ListFilterRule(claim: int, table: seq<CustomerDataView>, name: string, f: CustomersListFilterDataView)
    ensures CheckArgument(Some(claim), table, Argument(name, ClassValue(ListFilterObj(f))))
      <==> f.vendorId == Some(claim)
    ensures f.vendorId.None? ==> !CheckArgument(Some(claim), table, Argument(name, ClassValue(ListFilterObj(f))))
  {
  }

  /** The list-filter comparison is lifted: with a null claim it accepts a null
      VendorId. Only the pre-check keeps this case from being reached. */
  lemma ListFilterNullMatchesNullClaim(f: CustomersListFilterDataView)
    ensures CheckCustomersListFilterDataView(None, f) <==> f.vendorId.None?
  {
  }

  /** A customer passes exactly when its declared vendor is the claim and the
      table holds that id under the claim. */
  lemma CustomerRule(claim: int, table: seq<CustomerDataView>, name: string, c: CustomerDataView)
    ensures CheckArgument(Some(claim), table, Argument(name, ClassValue(CustomerObj(c))))
      <==> c.vendorId == claim
           && exists i :: 0 <= i < |table| && table[i].id == c.id && table[i].vendorId == claim
  {
  }

  /** The declared vendor alone is not enough: without a corroborating row the
      customer fails even when it names the caller's vendor. */
  lemma CustomerNeedsCorroboration(claim: int, table: seq<CustomerDataView>, c: CustomerDataView)
    requires c.vendorId == claim
    requires forall i :: 0 <= i < |table| ==> !(table[i].id == c.id && table[i].vendorId == claim)
    ensures !CheckCustomerDataView(Some(claim), table, c)
  {
  }

  /** A location passes exactly when its parent customer is owned by the claim;
      its own id is ignored. */
  lemma LocationRule(claim: int, table: seq<CustomerDataView>, name: string, l: LocationDataView, otherId: int)
    ensures CheckArgument(Some(claim), table, Argument(name, ClassValue(LocationObj(l))))
      <==> exists i :: 0 <= i < |table| && table[i].id == l.customerId && table[i].vendorId == claim
    ensures CheckLocationDataView(Some(claim), table, l)
      == CheckCustomer(Some(claim), table, l.customerId)
    ensures CheckLocationDataView(Some(claim), table, l)
      == CheckLocationDataView(Some(claim), table, l.(id := otherId))
  {
  }

  /** Scalars are routed by lower-cased name: "customerid" must be in the table
      under the claim, "vendorid" must equal the claim, any other name passes. */
  lemma ScalarRule(claim: Option<int>, table: seq<CustomerDataView>, name: string, n: int)
    ensures Lower(name) == "customerid" ==>
      (CheckArgument(claim, table, Argument(name, IntValue(n)))
       <==> exists i :: 0 <= i < |table| && table[i].id == n && Some(table[i].vendorId) == claim)
    ensures Lower(name) == "vendorid" ==>
      (CheckArgument(claim, table, Argument(name, IntValue(n))) <==> claim == Some(n))
    ensures Lower(name) != "customerid" && Lower(name) != "vendorid" ==>
      CheckArgument(claim, table, Argument(name, IntValue(n)))
  {
  }

  /** Class-typed arguments of any other type pass unchecked, whatever their name. */
  lemma UnregisteredClassPasses(claim: Option<int>, table: seq<CustomerDataView>, name: string, t: UnregisteredName)
    ensures CheckArgument(claim, table, Argument(name, ClassValue(OtherObj(t))))
  {
  }

  /** Scalar dispatch does not depend on the case of the parameter name. */
  lemma ScalarDispatchIgnoresCase(claim: Option<int>, table: seq<CustomerDataView>, a: string, b: string, n: int)
    requires Lower(a) == Lower(b)
    ensures CheckArgument(claim, table, Argument(a, IntValue(n)))
      == CheckArgument(claim, table, Argument(b, IntValue(n)))
  {
  }
}
