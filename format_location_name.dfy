/** The label shown for a reverse-geocoded trip endpoint. */
module FormatLocationName {
  import opened Wrappers

  /** What the reverse geocoder answers for a point; every part may be missing. */
  datatype Address = Address(placeName: Option<string>, street: Option<string>, city: Option<string>, region: Option<string>)

  const LOADING_ADDRESS: string := "Loading address..."
  const UNKNOWN_LOCATION: string := "Unknown location"

  /** A JavaScript string is truthy when it is present and not empty. */
  predicate Present(part: Option<string>) {
    part.Some? && part.value != ""
  }

  /** All three parts of a street address are there. */
  predicate IsComplete(a: Address) {
    Present(a.street) && Present(a.city) && Present(a.region)
  }

  /**
   * The label for `addr`: a placeholder while there is no answer, the street
   * address when it is complete, else the place name (even an empty one), else
   * a fixed fallback.
   */
  function FormatAddress(addr: Option<Address>): (r: string)
    ensures addr.None? ==> r == LOADING_ADDRESS
    ensures addr.Some? && IsComplete(addr.value) ==>
      r == addr.value.street.value + ", " + addr.value.city.value + ", " + addr.value.region.value
    ensures addr.Some? && !IsComplete(addr.value) && addr.value.placeName.Some? ==> r == addr.value.placeName.value
    ensures addr.Some? && !IsComplete(addr.value) && addr.value.placeName.None? ==> r == UNKNOWN_LOCATION
  {
    match addr
    case None => LOADING_ADDRESS
    case Some(a) =>
      if IsComplete(a) then a.street.value + ", " + a.city.value + ", " + a.region.value
      else a.placeName.GetOr(UNKNOWN_LOCATION)
  }

  /** The label is empty only when an incomplete address carries an empty place name. */
  lemma FormatAddressEmptyIff(addr: Option<Address>)
    ensures FormatAddress(addr) == "" <==>
      addr.Some? && !IsComplete(addr.value) && addr.value.placeName == Some("")
  {
  }

  /**
   * A complete street address can never be mistaken for the placeholder: it
   * holds a comma right after the street, and the placeholder holds none.
   */
  lemma CompleteAddressIsNotPlaceholder(a: Address)
    requires IsComplete(a)
    ensures FormatAddress(Some(a)) != LOADING_ADDRESS
  {
    var r := FormatAddress(Some(a));
    var k := |a.street.value|;
    assert r[k] == ',';
    assert forall i :: 0 <= i < |LOADING_ADDRESS| ==> LOADING_ADDRESS[i] != ',';
  }
}
