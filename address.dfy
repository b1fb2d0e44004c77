/** A postal address: four required text fields, validated on creation and
    printed on one line. */
module Addresses {
  import opened Wrappers

  datatype Address = Address(street: string, city: string, country: string, postalCode: string)

  /** The validation message of each field, in schema order. */
  const StreetRequired: string := "Street is required"
  const CityRequired: string := "City is required"
  const CountryRequired: string := "Country is required"
  const PostalCodeRequired: string := "Postal code is required"

  /** Every field is non-empty. */
  predicate Complete(a: Address) {
    a.street != "" && a.city != "" && a.country != "" && a.postalCode != ""
  }

  /** The messages of the empty fields, in schema order. */
  function Issues(a: Address): (issues: seq<string>)
    ensures issues == [] <==> Complete(a)
    ensures StreetRequired in issues <==> a.street == ""
    ensures CityRequired in issues <==> a.city == ""
    ensures CountryRequired in issues <==> a.country == ""
    ensures PostalCodeRequired in issues <==> a.postalCode == ""
  {
    (if a.street == "" then [StreetRequired] else [])
    + (if a.city == "" then [CityRequired] else [])
    + (if a.country == "" then [CountryRequired] else [])
    + (if a.postalCode == "" then [PostalCodeRequired] else [])
  }

  /** `Address.create`: the address when every field is filled in, else the
      list of what is missing. */
  function Create(props: Address): (r: Result<Address, seq<string>>)
    ensures r.Success? <==> Complete(props)
    ensures r.Success? ==> Snapshot(r.value) == props
    ensures r.Failure? ==> r.error == Issues(props) && |r.error| >= 1
  {
    var issues := Issues(props);
    if issues != [] then Failure(issues) else Success(props)
  }

  /** `snapshot`: the four fields. */
  function Snapshot(a: Address): (s: Address)
    ensures s.street == a.street && s.city == a.city && s.country == a.country && s.postalCode == a.postalCode
  {
    Address(a.street, a.city, a.country, a.postalCode)
  }

  /** `toString`: "street, postalCode city, country". */
  function ToString(a: Address): (s: string)
    ensures |s| == |a.street| + |a.postalCode| + |a.city| + |a.country| + 5
    ensures var p := |a.street| + 2;
            var c := p + |a.postalCode| + 1;
            var k := c + |a.city| + 2;
            && s[..|a.street|] == a.street && s[|a.street|..p] == ", "
            && s[p..p + |a.postalCode|] == a.postalCode && s[p + |a.postalCode|] == ' '
            && s[c..c + |a.city|] == a.city && s[c + |a.city|..k] == ", "
            && s[k..] == a.country
  {
    a.street + ", " + a.postalCode + " " + a.city + ", " + a.country
  }

  /** The printed line gives back every field once the field lengths are
      known: two addresses with fields of the same lengths print alike only
      when they are the same address. */
  lemma ToStringRecoversFields(a: Address, b: Address)
    requires |a.street| == |b.street| && |a.postalCode| == |b.postalCode| && |a.city| == |b.city|
    requires ToString(a) == ToString(b)
    ensures a == b
  {
    var s := ToString(a);
    var p := |a.street| + 2;
    var c := p + |a.postalCode| + 1;
    var k := c + |a.city| + 2;
    assert a.street == s[..|a.street|] == b.street;
    assert a.postalCode == s[p..p + |a.postalCode|] == b.postalCode;
    assert a.city == s[c..c + |a.city|] == b.city;
    assert a.country == s[k..] == b.country;
  }

  /** Re-creating an address from its snapshot gives it back. */
  lemma SnapshotRoundTrip(a: Address)
    requires Create(a).Success?
    ensures Create(Snapshot(Create(a).value)) == Create(a)
  {
  }

  /** Filling in a field never adds an issue. */
  lemma FillingFieldRemovesIssue(a: Address, street: string)
    requires street != ""
    ensures |Issues(a.(street := street))| == |Issues(a)| - (if a.street == "" then 1 else 0)
  {
  }
}
