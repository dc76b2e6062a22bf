/** The action filter itself: an object whose VendorId property is written by
    each request it sees, and whose argument walk is a loop that stops at the
    first failing argument. */
module Filters {
  import opened Models
  import opened VendorCheck

  class VendorCheckFilter {
    /** The explicit VendorId last bound; kept between requests. */
    var vendorId: Option<int>
    /** The caller's vendor claim. */
    var claimVendorId: Option<int>
    /** The customer table the ownership checks consult. */
    const customers: seq<CustomerDataView>

    /** The filter as the attribute creates it: no VendorId yet, claim 5, the
        fixed customer table. */
    constructor ()
      ensures vendorId == None && claimVendorId == Some(5) && customers == GetCustomers()
    {
      vendorId := None;
      claimVendorId := Some(5);
      customers := GetCustomers();
    }

    /** A filter with another claim (possibly none) and another table. */
    constructor WithClaim(claim: Option<int>, table: seq<CustomerDataView>)
      ensures vendorId == None && claimVendorId == claim && customers == table
    {
      vendorId := None;
      claimVendorId := claim;
      customers := table;
    }

    /** Runs the gate for one request. `examined` counts the arguments the walk
        looked at. */
    method OnActionExecution(args: seq<Argument>) returns (d: Decision, ghost examined: nat)
      requires VendorKeyWellTyped(args)
      modifies this`vendorId
      ensures vendorId == BoundVendorId(args, old(vendorId))
      ensures d == Authorize(claimVendorId, vendorId, customers, args)
      ensures !IsPreValid(claimVendorId, vendorId) ==> examined == 0
      ensures IsPreValid(claimVendorId, vendorId) ==> examined == Examined(claimVendorId, customers, args)
      ensures claimVendorId.None? ==> d == Unauthorized && examined == 0
      ensures VendorKeyValue(args).Some? && Some(VendorKeyValue(args).value.n) != claimVendorId ==>
        d == Unauthorized && examined == 0
    {
      var key := VendorKeyValue(args);
      if key.Some? {
        vendorId := Some(key.value.n);
      }
      if !IsPreValid(claimVendorId, vendorId) {
        return Unauthorized, 0;
      }
      var valid;
      valid, examined := CheckContext(args);
      if !valid {
        return Unauthorized, examined;
      }
      return Proceed, examined;
    }

    /** Walks the arguments in binding order, dispatching each to its check, and
        stops at the first that fails. */
    method CheckContext(args: seq<Argument>) returns (valid: bool, ghost visited: nat)
      ensures valid == CheckAll(claimVendorId, customers, args)
      ensures valid ==> visited == |args|
      ensures !valid ==> FirstFailure(claimVendorId, customers, args) == Some(visited - 1)
      ensures visited == Examined(claimVendorId, customers, args)
    {
      valid := true;
      visited := 0;
      var i := 0;
      while i < |args|
        invariant 0 <= i <= |args|
        invariant visited == i
        invariant valid
        invariant forall j :: 0 <= j < i ==> CheckArgument(claimVendorId, customers, args[j])
      {
        var check := Classify(args[i]);
        if !check.NoCheck? {
          valid := Validate(claimVendorId, customers, check);
        }
        visited := visited + 1;
        if !valid {
          return;
        }
        i := i + 1;
      }
    }
  }

  /** The VendorId kept from an earlier request refuses a later request that
      binds no VendorId, although a fresh filter lets that request through. */
  method StaleVendorIdScenario() returns (first: Decision, second: Decision, freshDecision: Decision)
    ensures first == Unauthorized
    ensures second == Unauthorized
    ensures freshDecision == Proceed
  {
    var entity := Argument("entity", ClassValue(CustomerObj(CustomerDataView(3, 5))));
    var withVendor := [Argument("vendorId", IntValue(6)), entity];
    LowerParameterNames();
    assert VendorKeyValue(withVendor) == Some(IntValue(6));
    assert VendorKeyValue([entity]) == None;
    FixedTableOwnership(3, 5);
    assert CheckAll(Some(5), GetCustomers(), [entity]);
    var filter := new VendorCheckFilter();
    ghost var n;
    first, n := filter.OnActionExecution(withVendor);
    second, n := filter.OnActionExecution([entity]);
    var other := new VendorCheckFilter();
    freshDecision, n := other.OnActionExecution([entity]);
  }
}
