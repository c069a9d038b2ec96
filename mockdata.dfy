/**
 * The shapes of the catalog that the chat, home and checkout screens read
 * from `mockData.json`. The file's contents are not part of this model; every
 * operation takes the catalog as an input. A string field that the JSON may
 * leave out is "" here: the screens only test such fields for truthiness.
 */
module MockData {
  import opened Wrappers

  /** An entry of `services`. */
  datatype Service = Service(id: string, name: string)

  /** An entry of a service's `superSaverPacks`. */
  datatype Pack = Pack(name: string, price: string)

  /** An FAQ stored with a service, under either `question`/`answer` or `q`/`a`. */
  datatype RawFaq = RawFaq(question: string, answer: string, q: string, a: string)

  /** A value of `serviceDetails`. */
  datatype ServiceDetail = ServiceDetail(
    name: string,
    description: string,
    superSaverPacks: seq<Pack>,
    faqs: seq<RawFaq>)

  /** One property of the `serviceDetails` object, in the object's enumeration order. */
  datatype DetailEntry = DetailEntry(key: string, detail: ServiceDetail)

  /** An entry of `user.addresses` (`addressLabel` is its `label` field). */
  datatype SavedAddress = SavedAddress(id: string, addressLabel: string, address: string)

  /** A flattened FAQ: question, answer and the service it came from, if any. */
  datatype Faq = Faq(q: string, a: string, service: Option<string>)

  datatype Catalog = Catalog(
    services: seq<Service>,
    serviceDetails: seq<DetailEntry>,
    faqs: seq<Faq>,          // the global `faqs`, taken as they are
    offers: seq<string>,     // each offer as the text it shows
    addresses: seq<SavedAddress>)

  /** The index of the first property named `key`, if there is one. */
  predicate IsFirstKey(details: seq<DetailEntry>, key: string, k: int) {
    0 <= k < |details| && details[k].key == key &&
    forall j | 0 <= j < k :: details[j].key != key
  }

  /** `serviceDetails[key]`: the value stored under `key`, if any. */
  function DetailsFor(details: seq<DetailEntry>, key: string): (r: Option<ServiceDetail>)
    ensures r.None? <==> forall e | e in details :: e.key != key
    ensures r.Some? ==> exists k :: IsFirstKey(details, key, k) && r.value == details[k].detail
  {
    if details == [] then None
    else if details[0].key == key then
      assert IsFirstKey(details, key, 0);
      Some(details[0].detail)
    else
      var r := DetailsFor(details[1..], key);
      if r.Some? then
        var k :| IsFirstKey(details[1..], key, k) && r.value == details[1..][k].detail;
        assert IsFirstKey(details, key, k + 1);
        r
      else
        r
  }
}
