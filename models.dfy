/** The records that request binding hands to the vendor gate, and the shape of
    one bound action argument. */
module Models {

  datatype Option<+T> = None | Some(value: T)

  /** Search filter posted to the search actions. Only `vendorId` is inspected by
      the gate; it is nullable (`int?`). */
  datatype CustomersListFilterDataView = CustomersListFilterDataView(
    searchQuery: Option<string>,
    customerTypeIds: Option<string>,
    customerStatusTypeIds: Option<string>,
    vendorId: Option<int>)

  /** A customer as posted by a client, and also a row of the customer table. */
  datatype CustomerDataView = CustomerDataView(id: int, vendorId: int)

  /** A location: it names its parent customer but carries no vendor. */
  datatype LocationDataView = LocationDataView(id: int, customerId: int)

  const ListFilterTypeName: string := "CustomersListFilterDataView"
  const CustomerTypeName: string := "CustomerDataView"
  const LocationTypeName: string := "LocationDataView"

  /** The runtime type name of any other class-typed argument (for instance
      "String": a .NET string is a class). */
  type UnregisteredName = t: string
    | t != ListFilterTypeName && t != CustomerTypeName && t != LocationTypeName
    witness "String"

  /** A class-typed (reference) argument value, by its runtime type. */
  datatype Obj =
    | ListFilterObj(filter: CustomersListFilterDataView)
    | CustomerObj(customer: CustomerDataView)
    | LocationObj(location: LocationDataView)
    | OtherObj(typeName: UnregisteredName)

  /** A bound argument value: a class instance, or a boxed `int` (a value type). */
  datatype Value = ClassValue(obj: Obj) | IntValue(n: int)

  /** One entry of the action-argument dictionary, in binding order. */
  datatype Argument = Argument(name: string, value: Value)

  /** The runtime type name the class switch dispatches on. */
  function TypeName(o: Obj): string
  {
    match o
    case ListFilterObj(_) => ListFilterTypeName
    case CustomerObj(_) => CustomerTypeName
    case LocationObj(_) => LocationTypeName
    case OtherObj(t) => t
  }

  /** The type name determines the registered shape, so switching on the name
      and matching on the shape are the same dispatch. */
  lemma TypeNameIdentifiesShape(o: Obj)
    ensures TypeName(o) == ListFilterTypeName <==> o.ListFilterObj?
    ensures TypeName(o) == CustomerTypeName <==> o.CustomerObj?
    ensures TypeName(o) == LocationTypeName <==> o.LocationObj?
  {
    assert ListFilterTypeName[0] == 'C' && LocationTypeName[0] == 'L';
    assert |ListFilterTypeName| != |CustomerTypeName|;
    assert |ListFilterTypeName| != |LocationTypeName|;
  }

  /** ASCII lower-casing of one character. */
  function LowerChar(c: char): char
  {
    if 'A' <= c <= 'Z' then (c as int - 'A' as int + 'a' as int) as char else c
  }

  /** ASCII lower-casing of a string (`string.ToLower()` restricted to ASCII). */
  function Lower(s: string): string
  {
    seq(|s|, i requires 0 <= i < |s| => LowerChar(s[i]))
  }

  /** Lower-casing of the parameter names the customer controller binds. */
  lemma LowerParameterNames()
    ensures Lower("customerId") == "customerid"
    ensures Lower("vendorId") == "vendorid"
  {
    var c := Lower("customerId");
    assert c[8] == LowerChar('I') == 'i';
    assert forall i :: 0 <= i < 10 ==> c[i] == "customerid"[i];
    var v := Lower("vendorId");
    assert v[6] == LowerChar('I') == 'i';
    assert forall i :: 0 <= i < 8 ==> v[i] == "vendorid"[i];
  }
}
