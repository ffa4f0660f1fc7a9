/**
 * Address form helpers: the validity check over a map of form fields and the
 * builder of a blank address, whose id comes from a module-level counter.
 */
module Addresses {
  import opened Wrappers

  /** The value a form field may hold: null, a string, a number or a list of numbers. */
  datatype FieldValue = NullValue | Text(s: string) | Number(n: int) | Numbers(ns: seq<int>)

  /** One entry of `AddressFormFields`; the optional flags are `None` when absent. */
  datatype FormField = FormField(value: FieldValue, valid: Option<bool>,
                                 geolocationAutoCompleted: Option<bool>,
                                 postalCodeAutoCompleted: Option<bool>)

  type AddressFormFields = map<string, FormField>

  /** `field.valid === false`: only an explicit `false` marks a field invalid. */
  function MarkedInvalid(f: FormField): (invalid: bool)
    ensures f.valid.None? ==> !invalid
    ensures f.valid == Some(true) ==> !invalid
    ensures invalid <==> f.valid.Some? && !f.valid.value
  {
    f.valid == Some(false)
  }

  /** The meaning of a valid address: no field is marked invalid. */
  predicate NoInvalidField(address: AddressFormFields)
  {
    forall k :: k in address ==> !MarkedInvalid(address[k])
  }

  /** `order` visits exactly the keys of `address`, as a `for ... in` loop does. */
  predicate IsEnumeration(order: seq<string>, address: AddressFormFields)
  {
    (forall i :: 0 <= i < |order| ==> order[i] in address) &&
    (forall k :: k in address ==> k in order)
  }

  /**
   * The loop of `isValidAddress`: visits the keys in `order`, raising
   * `hasInvalidField` on every field marked invalid and never lowering it.
   */
  function ScanForInvalid(address: AddressFormFields, order: seq<string>, hasInvalidField: bool): (r: bool)
    requires forall i :: 0 <= i < |order| ==> order[i] in address
    ensures hasInvalidField ==> r
    ensures r <==> hasInvalidField || exists i :: 0 <= i < |order| && MarkedInvalid(address[order[i]])
    decreases |order|
  {
    if order == [] then hasInvalidField
    else
      var raised := if MarkedInvalid(address[order[0]]) then true else hasInvalidField;
      var r := ScanForInvalid(address, order[1..], raised);
      assert forall i :: 0 < i < |order| ==> order[i] == order[1..][i - 1];
      r
  }

  /** `isValidAddress`, with the loop's enumeration order as a parameter. */
  function IsValidAddress(address: AddressFormFields, order: seq<string>): (valid: bool)
    requires IsEnumeration(order, address)
    ensures valid <==> NoInvalidField(address)
  {
    var hasInvalidField := ScanForInvalid(address, order, false);
    assert !NoInvalidField(address) ==> hasInvalidField by {
      if !NoInvalidField(address) {
        var k :| k in address && MarkedInvalid(address[k]);
        var i :| 0 <= i < |order| && order[i] == k;
      }
    }
    !hasInvalidField
  }

  /** The verdict does not depend on the order the fields are visited in. */
  lemma ValidityIgnoresOrder(address: AddressFormFields, o1: seq<string>, o2: seq<string>)
    requires IsEnumeration(o1, address) && IsEnumeration(o2, address)
    ensures IsValidAddress(address, o1) == IsValidAddress(address, o2)
  {
  }

  /** An address without fields is valid. */
  lemma EmptyFormIsValid()
    ensures IsValidAddress(map[], [])
  {
  }

  /** Adding a field marked invalid makes any address invalid. */
  lemma InvalidFieldInvalidates(address: AddressFormFields, key: string, f: FormField,
                                order: seq<string>)
    requires MarkedInvalid(f)
    requires IsEnumeration(order, address[key := f])
    ensures !IsValidAddress(address[key := f], order)
  {
    assert key in address[key := f];
  }

  /** A field whose `valid` is absent or `true` has no say in the verdict. */
  lemma UnmarkedFieldIsNeutral(address: AddressFormFields, key: string, f: FormField,
                               withField: seq<string>, withoutField: seq<string>)
    requires !MarkedInvalid(f)
    requires IsEnumeration(withField, address[key := f])
    requires IsEnumeration(withoutField, address - {key})
    ensures IsValidAddress(address[key := f], withField) == IsValidAddress(address - {key}, withoutField)
  {
    var m := address[key := f];
    var rest := address - {key};
    forall k | k in rest
      ensures rest[k] == m[k]
    {
    }
    if NoInvalidField(rest) {
      forall k | k in m
        ensures !MarkedInvalid(m[k])
      {
        if k != key {
          assert k in rest;
        }
      }
    }
  }

  /** Removing fields never turns a valid address invalid. */
  lemma RemovingFieldsKeepsValid(address: AddressFormFields, keys: set<string>,
                                 order: seq<string>, smaller: seq<string>)
    requires IsEnumeration(order, address)
    requires IsEnumeration(smaller, address - keys)
    ensures IsValidAddress(address, order) ==> IsValidAddress(address - keys, smaller)
  {
  }

  /** The id `getGGUID` returns: derived from the counter value and the current time. */
  datatype AddressId = AddressId(serial: int, time: int)

  /** The counter's value when the module loads. */
  const InitialCounter: int := 1

  /**
   * `getGGUID`: the id is built from the counter's current value (`gguid++`) and the
   * time `now`; the counter moves on by one.
   */
  function NextId(counter: int, now: int): (r: (AddressId, int))
    ensures r.1 == counter + 1
    ensures r.0.serial == counter && r.0.time == now
  {
    (AddressId(counter, now), counter + 1)
  }

  /** The first blank address made after the module loads takes serial 1. */
  lemma FirstAddressTakesSerialOne(country: string, now: int)
    ensures GetEmptyAddress(country, InitialCounter, now).0.addressId.serial == 1
    ensures GetEmptyAddress(country, InitialCounter, now).1 == 2
  {
  }

  /** The record `getEmptyAddress` returns; `None` stands for `null`. */
  datatype BlankAddress = BlankAddress(
    addressId: AddressId,
    addressType: string,
    city: Option<string>,
    complement: Option<string>,
    country: string,
    receiverName: string,
    geoCoordinates: seq<int>,
    neighborhood: Option<string>,
    number: Option<string>,
    postalCode: Option<string>,
    reference: Option<string>,
    state: Option<string>,
    street: Option<string>,
    addressQuery: Option<string>)

  /** A commercial address for `country` with nothing else filled in. */
  predicate IsBlankFor(a: BlankAddress, country: string)
  {
    && a.country == country
    && a.addressType == "commercial"
    && a.receiverName == ""
    && a.geoCoordinates == []
    && a.city.None? && a.complement.None? && a.neighborhood.None? && a.number.None?
    && a.postalCode.None? && a.reference.None? && a.state.None? && a.street.None?
    && a.addressQuery.None?
  }

  /** `getEmptyAddress(country)`, returning the advanced counter alongside the address. */
  function GetEmptyAddress(country: string, counter: int, now: int): (r: (BlankAddress, int))
    ensures IsBlankFor(r.0, country)
    ensures r.0.addressId == NextId(counter, now).0
    ensures r.1 == counter + 1
  {
    var (id, next) := NextId(counter, now);
    (BlankAddress(id, "commercial", None, None, country, "", [], None, None, None, None, None, None, None),
     next)
  }

  /**
   * Successive `getEmptyAddress` calls at the times `times`: the i-th address gets
   * serial `counter + i`, and the counter ends `|times|` further on.
   */
  function EmptyAddresses(country: string, counter: int, times: seq<int>): (r: (seq<BlankAddress>, int))
    ensures |r.0| == |times|
    ensures r.1 == counter + |times|
    ensures forall i :: 0 <= i < |times| ==>
              IsBlankFor(r.0[i], country) && r.0[i].addressId == AddressId(counter + i, times[i])
    decreases |times|
  {
    if times == [] then ([], counter)
    else
      var (first, next) := GetEmptyAddress(country, counter, times[0]);
      var (rest, last) := EmptyAddresses(country, next, times[1..]);
      ([first] + rest, last)
  }

  /** Addresses made one after another carry pairwise distinct (serial, time) pairs. */
  lemma SuccessiveIdsDistinct(country: string, counter: int, times: seq<int>, i: int, j: int)
    requires 0 <= i < j < |times|
    ensures EmptyAddresses(country, counter, times).0[i].addressId !=
            EmptyAddresses(country, counter, times).0[j].addressId
  {
  }
}
