/**
 * The `Recipient` and `Sender` records of handwrytten/models.py. The two
 * classes have the same fields, the same defaults and the same `to_dict`, so
 * one datatype stands for both.
 */
module Addresses {
  import opened Wrappers
  import opened Dicts

  datatype AddressRecord = AddressRecord(
    firstName: string,
    lastName: string,
    street1: string,
    city: string,
    state: string,
    zip: string,
    street2: Option<string>,
    company: Option<string>,
    country: string)

  /** The dataclass constructor, with its defaults: no street2, no company, country "US". */
  function NewAddress(firstName: string, lastName: string, street1: string, city: string,
                      state: string, zip: string, street2: Option<string> := None,
                      company: Option<string> := None, country: string := "US"): (a: AddressRecord)
    ensures a.firstName == firstName && a.lastName == lastName && a.street1 == street1
    ensures a.city == city && a.state == state && a.zip == zip
    ensures a.street2 == street2 && a.company == company && a.country == country
  {
    AddressRecord(firstName, lastName, street1, city, state, zip, street2, company, country)
  }

  /** An optional text field that Python treats as true: present and non-empty. */
  predicate Present(o: Option<string>) {
    o.Some? && o.value != ""
  }

  /** The friendly-key names that `to_dict` always emits. */
  predicate IsRequiredKey(k: string) {
    k == "firstName" || k == "lastName" || k == "street1" || k == "city" || k == "state" || k == "zip" || k == "country"
  }

  /** The seven entries `to_dict` always writes. */
  function RequiredEntries(a: AddressRecord): (d: Dict<string>)
    ensures Get(d, "firstName") == Some(a.firstName) && Get(d, "lastName") == Some(a.lastName)
    ensures Get(d, "street1") == Some(a.street1) && Get(d, "city") == Some(a.city)
    ensures Get(d, "state") == Some(a.state) && Get(d, "zip") == Some(a.zip)
    ensures Get(d, "country") == Some(a.country)
    ensures forall k :: HasKey(d, k) ==> IsRequiredKey(k)
    ensures UniqueKeys(d)
  {
    var d: Dict<string> := [("firstName", a.firstName), ("lastName", a.lastName), ("street1", a.street1),
      ("city", a.city), ("state", a.state), ("zip", a.zip), ("country", a.country)];
    GetFirst(d, 0, "firstName");
    GetFirst(d, 1, "lastName");
    GetFirst(d, 2, "street1");
    GetFirst(d, 3, "city");
    GetFirst(d, 4, "state");
    GetFirst(d, 5, "zip");
    GetFirst(d, 6, "country");
    forall k | !IsRequiredKey(k) ensures !HasKey(d, k) {
      GetMissing(d, k);
    }
    d
  }

  /** `if value: d[key] = value` */
  function PutIfPresent(d: Dict<string>, key: string, o: Option<string>): (r: Dict<string>)
    ensures Get(r, key) == if Present(o) then o else Get(d, key)
    ensures forall k :: k != key ==> Get(r, k) == Get(d, k)
    ensures UniqueKeys(d) ==> UniqueKeys(r)
  {
    if Present(o) then
      assert UniqueKeys(d) ==> UniqueKeys(Put(d, key, o.value)) by {
        if UniqueKeys(d) { PutUnique(d, key, o.value); }
      }
      Put(d, key, o.value)
    else d
  }

  /**
   * `Recipient.to_dict()` / `Sender.to_dict()`: the seven required keys,
   * then street2 and company only when they are truthy.
   */
  function ToDict(a: AddressRecord): (d: Dict<string>)
    ensures Get(d, "firstName") == Some(a.firstName) && Get(d, "lastName") == Some(a.lastName)
    ensures Get(d, "street1") == Some(a.street1) && Get(d, "city") == Some(a.city)
    ensures Get(d, "state") == Some(a.state) && Get(d, "zip") == Some(a.zip)
    ensures Get(d, "country") == Some(a.country)
    ensures Get(d, "street2") == if Present(a.street2) then a.street2 else None
    ensures Get(d, "company") == if Present(a.company) then a.company else None
    ensures forall k :: HasKey(d, k) ==> IsRequiredKey(k) || k == "street2" || k == "company"
    ensures UniqueKeys(d)
  {
    var base := RequiredEntries(a);
    var withStreet2 := PutIfPresent(base, "street2", a.street2);
    var d := PutIfPresent(withStreet2, "company", a.company);
    OptionalKeysAdded(a, base, withStreet2, d);
    d
  }

  /** Adding street2 and company to the required entries: the required ones stay, the optional ones appear when truthy. */
  lemma OptionalKeysAdded(a: AddressRecord, base: Dict<string>, withStreet2: Dict<string>, d: Dict<string>)
    requires forall k :: HasKey(base, k) ==> IsRequiredKey(k)
    requires withStreet2 == PutIfPresent(base, "street2", a.street2)
    requires d == PutIfPresent(withStreet2, "company", a.company)
    ensures forall k :: IsRequiredKey(k) ==> Get(d, k) == Get(base, k)
    ensures Get(d, "street2") == if Present(a.street2) then a.street2 else None
    ensures Get(d, "company") == if Present(a.company) then a.company else None
    ensures forall k :: HasKey(d, k) ==> IsRequiredKey(k) || k == "street2" || k == "company"
  {
    assert !HasKey(base, "street2") && !HasKey(base, "company");
    forall k | HasKey(d, k) && k != "street2" && k != "company" ensures IsRequiredKey(k) {
      assert Get(d, k) == Get(base, k);
    }
  }
}
