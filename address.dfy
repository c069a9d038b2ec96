/**
 * The add-address form (src/screens/AddAddressScreen.tsx): the address
 * record the inputs edit field by field, the mapping that fills it from the
 * components of a reverse-geocoding answer, and the check the Save button
 * makes before leaving the screen.
 */
module AddAddressScreen {
  import opened Wrappers
  import opened JsText
  import opened Alerts

  /** `'home' | 'work' | 'other'`. */
  datatype AddressType = Home | Work | Other

  /** The form's `address` (`addressType` is its `type` field). */
  datatype Address = Address(
    street: string,
    landmark: string,
    city: string,
    state: string,
    pincode: string,
    addressType: AddressType)

  /** The fields of the geocoder's `address` object that the mapping reads; a missing one is "". */
  datatype AddressComponents = AddressComponents(
    road: string,
    houseNumber: string,
    city: string,
    town: string,
    village: string,
    state: string,
    postcode: string)

  /** `data.address || {}` when the answer has no `address` object. */
  const NoComponents: AddressComponents := AddressComponents("", "", "", "", "", "", "")

  /** `parts.filter(Boolean)` over strings: the non-empty ones, in order. */
  function NonEmpty(parts: seq<string>): (r: seq<string>)
    ensures forall i | 0 <= i < |r| :: r[i] != ""
    ensures multiset(r) == multiset(parts)["" := 0]
  {
    if parts == [] then []
    else
      assert parts == [parts[0]] + parts[1..];
      (if parts[0] != "" then [parts[0]] else []) + NonEmpty(parts[1..])
  }

  /** The filter distributes over concatenation, so the kept parts stay in their order. */
  lemma {:induction false} NonEmptyAppend(a: seq<string>, b: seq<string>)
    ensures NonEmpty(a + b) == NonEmpty(a) + NonEmpty(b)
  {
    if a != [] {
      assert (a + b)[0] == a[0];
      assert (a + b)[1..] == a[1..] + b;
      NonEmptyAppend(a[1..], b);
    } else {
      assert a + b == b;
    }
  }

  /** `[road, house_number].filter(Boolean).join(' ')`: road first, one space, empty parts left out. */
  function StreetOf(c: AddressComponents): (r: string)
    ensures c.road != "" && c.houseNumber != "" ==> r == c.road + " " + c.houseNumber
    ensures c.road != "" && c.houseNumber == "" ==> r == c.road
    ensures c.road == "" ==> r == c.houseNumber
  {
    var parts := NonEmpty([c.road, c.houseNumber]);
    assert [c.road, c.houseNumber][1..] == [c.houseNumber];
    assert [c.houseNumber][1..] == [];
    assert NonEmpty([c.houseNumber]) == if c.houseNumber != "" then [c.houseNumber] else [];
    assert c.road != "" && c.houseNumber != "" ==> parts == [c.road, c.houseNumber] && parts[1..] == [c.houseNumber];
    assert Join([c.houseNumber], " ") == c.houseNumber;
    Join(parts, " ")
  }

  /** `city || town || village || ''`. */
  function CityOf(c: AddressComponents): string {
    if c.city != "" then c.city else if c.town != "" then c.town else c.village
  }

  /**
   * The city is the first of city, town and village that is present, and it
   * is empty only when all three are.
   */
  lemma CityFallback(c: AddressComponents)
    ensures CityOf(c) == "" <==> c.city == "" && c.town == "" && c.village == ""
    ensures CityOf(c) != "" ==> CityOf(c) in [c.city, c.town, c.village]
    ensures c.city == "" ==> CityOf(c) == CityOf(c.(city := c.town, town := c.village))
  {
  }

  /** The `setAddress` of `fetchAddress`: street, city, state and pincode from the components; landmark and type kept. */
  function WithComponents(prev: Address, c: AddressComponents): (r: Address)
    ensures r.landmark == prev.landmark && r.addressType == prev.addressType
    ensures r.street == StreetOf(c) && r.city == CityOf(c)
    ensures r.state == c.state && r.pincode == c.postcode
  {
    prev.(street := StreetOf(c), city := CityOf(c), state := c.state, pincode := c.postcode)
  }

  // ------------------------------------------------------------------- save

  const FillRequiredFields: string := "Please fill in all required fields"

  /** The message `handleSaveAddress` rejects the address with, or `None` when it goes back. */
  function SaveRejection(address: Address): (r: Option<string>)
    ensures r.None? <==> address.street != "" && address.city != "" && address.pincode != ""
    ensures r.Some? ==> r.value == FillRequiredFields
  {
    if address.street == "" || address.city == "" || address.pincode == "" then Some(FillRequiredFields)
    else None
  }

  /** Neither the state, the landmark nor the type decides whether the address can be saved. */
  lemma SaveIgnoresOptionalFields(address: Address, state: string, landmark: string, addressType: AddressType)
    ensures SaveRejection(address.(state := state, landmark := landmark, addressType := addressType)) ==
            SaveRejection(address)
  {
  }

  /** An answer without an `address` object clears the located fields, so the address cannot be saved. */
  lemma NoComponentsCannotBeSaved(prev: Address)
    ensures var a := WithComponents(prev, NoComponents);
            a.street == "" && a.city == "" && a.state == "" && a.pincode == "" &&
            SaveRejection(a) == Some(FillRequiredFields)
  {
    assert NonEmpty(["", ""]) == [] by {
      assert ["", ""][1..] == [""];
      assert [""][1..] == [];
    }
  }

  /** A geocoded address with a road, a city or town or village, and a postcode can be saved. */
  lemma GeocodedAddressCanBeSaved(prev: Address, c: AddressComponents)
    requires c.road != "" && (c.city != "" || c.town != "" || c.village != "") && c.postcode != ""
    ensures SaveRejection(WithComponents(prev, c)).None?
  {
    CityFallback(c);
  }

  /** The longest PIN code the input accepts (`maxLength={6}`). */
  const PincodeMaxLength: nat := 6

  /** The form's state. */
  class AddressForm {
    var address: Address

    constructor ()
      ensures address == Address("", "", "", "", "", Home)
    {
      address := Address("", "", "", "", "", Home);
    }

    /** One of the three type buttons: only the type changes. */
    method SetType(addressType: AddressType)
      modifies this
      ensures address == old(address).(addressType := addressType)
    {
      address := address.(addressType := addressType);
    }

    method SetStreet(text: string)
      modifies this
      ensures address == old(address).(street := text)
    {
      address := address.(street := text);
    }

    method SetLandmark(text: string)
      modifies this
      ensures address == old(address).(landmark := text)
    {
      address := address.(landmark := text);
    }

    method SetCity(text: string)
      modifies this
      ensures address == old(address).(city := text)
    {
      address := address.(city := text);
    }

    method SetState(text: string)
      modifies this
      ensures address == old(address).(state := text)
    {
      address := address.(state := text);
    }

    /** The PIN code input keeps at most its first six characters. */
    method SetPincode(text: string)
      modifies this
      ensures |address.pincode| <= PincodeMaxLength
      ensures address == old(address).(pincode := address.pincode)
      ensures address.pincode == if |text| <= PincodeMaxLength then text else text[..PincodeMaxLength]
    {
      var kept := if |text| <= PincodeMaxLength then text else text[..PincodeMaxLength];
      address := address.(pincode := kept);
    }

    /**
     * The end of a successful `fetchAddress`: `components` is the answer's
     * `address` object, or `None` when it has none.
     */
    method ApplyGeocode(components: Option<AddressComponents>)
      modifies this
      ensures address == WithComponents(old(address), components.GetOr(NoComponents))
    {
      address := WithComponents(address, components.GetOr(NoComponents));
    }

    /** `handleSaveAddress`: either the alert, or going back (`goBack`). */
    method HandleSaveAddress() returns (alert: Option<Alert>, goBack: bool)
      ensures goBack <==> address.street != "" && address.city != "" && address.pincode != ""
      ensures goBack ==> alert == None
      ensures !goBack ==> alert == Some(Error(FillRequiredFields))
    {
      if address.street == "" || address.city == "" || address.pincode == "" {
        return Some(Error(FillRequiredFields)), false;
      }
      return None, true;
    }
  }
}
