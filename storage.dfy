/** The browser's `localStorage`: a flat map from string keys to stored
    values, enumerated by index. Values are kept as typed documents instead
    of JSON text; `Unparsable` stands for text that `JSON.parse` rejects. */
module Storage {
  import opened Common
  import opened Entities

  datatype Value =
    | UserDoc(user: User)
    | InstitutionDoc(institution: Institution)
    | DonationDoc(donation: Donation)
    | CategoryDoc(category: Category)
    | RatingDoc(rating: Rating)
    | DirectoryMarker(created: Timestamp)
    | ImageFile(name: string, data: string, mimeType: string, size: nat, createdAt: Timestamp)
    | Unparsable

  class LocalStorage {
    /** `localStorage.key(0) .. localStorage.key(length - 1)`: every stored
        key once, in an order the browser chooses. */
    var keys: seq<string>
    var items: map<string, Value>

    ghost predicate Valid()
      reads this
    {
      && (forall k :: multiset(keys)[k] <= 1)
      && (forall k :: k in keys <==> k in items)
    }

    constructor ()
      ensures Valid() && items == map[] && keys == []
    {
      keys := [];
      items := map[];
    }

    /** `localStorage.getItem(k)` */
    function GetItem(k: string): (r: Option<Value>)
      reads this
      ensures r.Some? <==> k in items
      ensures r.Some? ==> r.value == items[k]
    {
      if k in items then Some(items[k]) else None
    }

    /** `localStorage.setItem(k, v)`: overwrites, and a new key joins the
        enumeration at a place the contract leaves open. */
    method SetItem(k: string, v: Value)
      requires Valid()
      modifies this
      ensures Valid()
      ensures items == old(items)[k := v]
    {
      if k !in items {
        assert multiset(keys)[k] == 0;
        keys := keys + [k];
      }
      items := items[k := v];
    }

    /** `localStorage.removeItem(k)`; removing an absent key does nothing. */
    method RemoveItem(k: string)
      requires Valid()
      modifies this
      ensures Valid()
      ensures items == old(items) - {k}
    {
      keys := RemoveBy(keys, Self, k);
      items := items - {k};
    }
  }
}
