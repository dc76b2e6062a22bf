/** Concrete requests against the fixed customer table with the default claim 5,
    shaped like the actions of the customer controller. */
module Scenarios {
  import opened Models
  import opened VendorCheck

  /** `Get(customerId: 3)`: customer 3 belongs to vendor 5. */
  lemma OwnCustomerIdProceeds()
    ensures AuthorizeRequest(Some(5), GetCustomers(), [Argument("customerId", IntValue(3))]) == Proceed
  {
    var a := Argument("customerId", IntValue(3));
    LowerParameterNames();
    assert Classify(a) == CustomerIdCheck(3);
    FixedTableOwnership(3, 5);
    assert CheckArgument(Some(5), GetCustomers(), a);
    assert VendorKeyValue([a]) == None;
    assert CheckAll(Some(5), GetCustomers(), [a]);
  }

  /** `Get(customerId: 6)`: customer 6 belongs to vendor 6. */
  lemma ForeignCustomerIdDenied()
    ensures AuthorizeRequest(Some(5), GetCustomers(), [Argument("customerId", IntValue(6))]) == Unauthorized
  {
    var a := Argument("customerId", IntValue(6));
    LowerParameterNames();
    assert Classify(a) == CustomerIdCheck(6);
    FixedTableOwnership(6, 5);
    assert !CheckArgument(Some(5), GetCustomers(), a);
    assert !CheckAll(Some(5), GetCustomers(), [a]);
  }

  /** `{vendorId: 6}`: refused by the pre-check, before any argument is walked. */
  lemma ForeignVendorIdDenied()
    ensures BoundVendorId([Argument("vendorId", IntValue(6))], None) == Some(6)
    ensures !IsPreValid(Some(5), Some(6))
    ensures AuthorizeRequest(Some(5), GetCustomers(), [Argument("vendorId", IntValue(6))]) == Unauthorized
  {
    LowerParameterNames();
  }

  /** `LocationPost` with a location under customer 2: owned through customer 2,
      whatever the location's own id. */
  lemma OwnLocationProceeds(locationId: int)
    ensures AuthorizeRequest(Some(5), GetCustomers(),
                             [Argument("entity", ClassValue(LocationObj(LocationDataView(locationId, 2))))]) == Proceed
  {
    FixedTableOwnership(2, 5);
  }

  /** `Post(vendorId: 5, entity)` with an entity that declares vendor 5 but whose
      id 7 the table gives to vendor 6: the declaration is not trusted. */
  lemma UncorroboratedCustomerDenied()
    ensures AuthorizeRequest(Some(5), GetCustomers(),
                             [Argument("vendorId", IntValue(5)),
                              Argument("entity", ClassValue(CustomerObj(CustomerDataView(7, 5))))]) == Unauthorized
  {
    var args := [Argument("vendorId", IntValue(5)),
                 Argument("entity", ClassValue(CustomerObj(CustomerDataView(7, 5))))];
    LowerParameterNames();
    assert VendorKeyValue(args) == Some(IntValue(5));
    FixedTableOwnership(7, 5);
    assert !CheckArgument(Some(5), GetCustomers(), args[1]);
    assert !CheckAll(Some(5), GetCustomers(), args);
  }

  /** `Search2(vendorId: 5, test2)` with a filter whose VendorId is null. */
  lemma NullFilterVendorDenied()
    ensures AuthorizeRequest(Some(5), GetCustomers(),
                             [Argument("vendorId", IntValue(5)),
                              Argument("test2", ClassValue(ListFilterObj(
                                CustomersListFilterDataView(None, None, None, None))))]) == Unauthorized
  {
    var args := [Argument("vendorId", IntValue(5)),
                 Argument("test2", ClassValue(ListFilterObj(CustomersListFilterDataView(None, None, None, None))))];
    LowerParameterNames();
    assert VendorKeyValue(args) == Some(IntValue(5));
    assert !CheckArgument(Some(5), GetCustomers(), args[1]);
    assert !CheckAll(Some(5), GetCustomers(), args);
  }

  /** A class-typed parameter named customerId (a .NET `string`, type name
      "String", or any other unregistered class) is not checked at all, whatever
      customer it names. */
  lemma ClassTypedCustomerIdUnchecked(t: UnregisteredName)
    ensures AuthorizeRequest(Some(5), GetCustomers(),
                             [Argument("customerId", ClassValue(OtherObj(t)))]) == Proceed
  {
    var a := Argument("customerId", ClassValue(OtherObj(t)));
    assert |Lower("customerId")| == 10;
    assert VendorKeyValue([a]) == None;
    assert CheckAll(Some(5), GetCustomers(), [a]);
  }
}
