/** The emulated file system over `localStorage` (fileSystemService.ts).
    Every entity is a document under the key `benigna_data/<dir>/<id>.json`;
    a directory is a `<path>/.directory` marker key; "get all" scans every
    stored key for the collection's prefix and the `.json` suffix. The five
    per-entity copies of save / get / getAll / delete in the source are one
    generic member here, instantiated with a `Collection` descriptor. */
module FileSystem {
  import opened Common
  import opened Entities
  import opened Storage

  const BaseDir := "benigna_data"

  /** One entity type: its directory, how a record becomes a stored value and
      back (the `JSON.stringify` / `JSON.parse` pair), and its id field. */
  datatype Collection<!T> = Collection(dir: string, enc: T -> Value, dec: Value -> Option<T>, idOf: T -> string)

  function StoreUser(u: User): Value { UserDoc(u) }
  function StoreInstitution(i: Institution): Value { InstitutionDoc(i) }
  function StoreDonation(d: Donation): Value { DonationDoc(d) }
  function StoreCategory(c: Category): Value { CategoryDoc(c) }
  function StoreRating(r: Rating): Value { RatingDoc(r) }

  // Reading a value back as the collection's record. A value of another kind
  // is taken as one that does not parse.
  function AsUser(v: Value): Option<User> { if v.UserDoc? then Some(v.user) else None }
  function AsInstitution(v: Value): Option<Institution> { if v.InstitutionDoc? then Some(v.institution) else None }
  function AsDonation(v: Value): Option<Donation> { if v.DonationDoc? then Some(v.donation) else None }
  function AsCategory(v: Value): Option<Category> { if v.CategoryDoc? then Some(v.category) else None }
  function AsRating(v: Value): Option<Rating> { if v.RatingDoc? then Some(v.rating) else None }

  const Users: Collection<User> := Collection("users", StoreUser, AsUser, UserId)
  const Institutions: Collection<Institution> := Collection("institutions", StoreInstitution, AsInstitution, InstitutionId)
  const Donations: Collection<Donation> := Collection("donations", StoreDonation, AsDonation, DonationId)
  const Categories: Collection<Category> := Collection("categories", StoreCategory, AsCategory, CategoryId)
  const Ratings: Collection<Rating> := Collection("ratings", StoreRating, AsRating, RatingId)

  /** `${BASE_DIR}/<dir>/` */
  function Prefix<T>(c: Collection<T>): string {
    BaseDir + "/" + c.dir + "/"
  }

  /** `${BASE_DIR}/<dir>/${id}.json` */
  function EntityKey<T>(c: Collection<T>, id: string): string {
    Prefix(c) + id + ".json"
  }

  /** The test every `getAll*` loop applies to a key. */
  predicate InCollection<T>(c: Collection<T>, k: string) {
    StartsWith(k, Prefix(c)) && EndsWith(k, ".json")
  }

  /** Storing a record and reading it back gives the record. */
  ghost predicate Decodes<T(!new)>(c: Collection<T>) {
    forall x :: c.dec(c.enc(x)) == Some(x)
  }

  /** Directories whose first letters differ have prefixes no key shares. */
  predicate Disjoint<T, U>(c: Collection<T>, d: Collection<U>) {
    |c.dir| > 0 && |d.dir| > 0 && c.dir[0] != d.dir[0]
  }

  lemma CollectionsDecode()
    ensures Decodes(Users) && Decodes(Institutions) && Decodes(Donations)
    ensures Decodes(Categories) && Decodes(Ratings)
  {
  }

  /** The five directories start with u, i, d, c and r. */
  lemma CollectionsDisjoint()
    ensures Disjoint(Users, Institutions) && Disjoint(Users, Donations) && Disjoint(Users, Categories) && Disjoint(Users, Ratings)
    ensures Disjoint(Institutions, Users) && Disjoint(Institutions, Donations) && Disjoint(Institutions, Categories) && Disjoint(Institutions, Ratings)
    ensures Disjoint(Donations, Users) && Disjoint(Donations, Institutions) && Disjoint(Donations, Categories) && Disjoint(Donations, Ratings)
    ensures Disjoint(Categories, Users) && Disjoint(Categories, Institutions) && Disjoint(Categories, Donations) && Disjoint(Categories, Ratings)
    ensures Disjoint(Ratings, Users) && Disjoint(Ratings, Institutions) && Disjoint(Ratings, Donations) && Disjoint(Ratings, Categories)
  {
  }

  // ---------------------------------------------------------------------
  // Keys

  lemma EntityKeyInCollection<T>(c: Collection<T>, id: string)
    ensures InCollection(c, EntityKey(c, id))
  {
    var k := EntityKey(c, id);
    assert k[..|Prefix(c)|] == Prefix(c);
    assert k[|k| - 5..] == ".json";
  }

  /** Distinct ids give distinct keys. */
  lemma {:induction false} EntityKeyInjective<T>(c: Collection<T>, a: string, b: string)
    requires EntityKey(c, a) == EntityKey(c, b)
    ensures a == b
  {
    var p := Prefix(c);
    var ka, kb := EntityKey(c, a), EntityKey(c, b);
    assert |a| == |b|;
    assert a == ka[|p|..|p| + |a|];
    assert b == kb[|p|..|p| + |b|];
  }

  /** Every collection key lies under `benigna_data`. */
  lemma CollectionKeyUnderBase<T>(c: Collection<T>, k: string)
    requires InCollection(c, k)
    ensures StartsWith(k, BaseDir)
  {
    assert StartsWith(Prefix(c), BaseDir) by {
      assert Prefix(c)[..|BaseDir|] == BaseDir;
    }
    StartsWithTransitive(k, Prefix(c), BaseDir);
  }

  /** A key of one collection is never a key of a disjoint one. */
  lemma OutsideOther<T, U>(c: Collection<T>, d: Collection<U>, k: string)
    requires Disjoint(c, d) && InCollection(c, k)
    ensures !InCollection(d, k)
  {
    assert |BaseDir + "/"| == 13;
    assert Prefix(c)[13] == c.dir[0];
    assert Prefix(d)[13] == d.dir[0];
    NoCommonExtension(k, Prefix(c), Prefix(d), 13);
  }

  // ---------------------------------------------------------------------
  // What a collection holds, stated over the map, independent of key order

  /** Some key of the collection holds a value that does not parse; the
      source's `getAll*` then throws inside its try block and returns []. */
  ghost predicate Corrupt<T>(items: map<string, Value>, c: Collection<T>) {
    exists k :: k in items && InCollection(c, k) && c.dec(items[k]).None?
  }

  ghost predicate IsStored<T>(items: map<string, Value>, c: Collection<T>, x: T) {
    exists k :: k in items && InCollection(c, k) && c.dec(items[k]) == Some(x)
  }

  /** Every record sits under the key of its own id (what `saveX` writes). */
  ghost predicate KeyedById<T>(items: map<string, Value>, c: Collection<T>) {
    forall k :: k in items && InCollection(c, k) && c.dec(items[k]).Some? ==>
      k == EntityKey(c, c.idOf(c.dec(items[k]).value))
  }

  /** The two maps agree on every key of the collection. */
  ghost predicate SameSlice<T>(m1: map<string, Value>, m2: map<string, Value>, c: Collection<T>) {
    forall k :: InCollection(c, k) ==> (k in m1 <==> k in m2) && (k in m1 ==> m1[k] == m2[k])
  }

  ghost predicate EmptySlice<T>(m: map<string, Value>, c: Collection<T>) {
    forall k :: k in m ==> !InCollection(c, k)
  }

  lemma SameSliceFacts<T>(m1: map<string, Value>, m2: map<string, Value>, c: Collection<T>)
    requires SameSlice(m1, m2, c)
    ensures Corrupt(m1, c) <==> Corrupt(m2, c)
    ensures forall x :: IsStored(m1, c, x) <==> IsStored(m2, c, x)
    ensures KeyedById(m1, c) <==> KeyedById(m2, c)
    ensures EmptySlice(m1, c) <==> EmptySlice(m2, c)
  {
    forall x
      ensures IsStored(m1, c, x) <==> IsStored(m2, c, x)
    {
      if IsStored(m1, c, x) {
        var k :| k in m1 && InCollection(c, k) && c.dec(m1[k]) == Some(x);
        assert k in m2 && c.dec(m2[k]) == Some(x);
      }
      if IsStored(m2, c, x) {
        var k :| k in m2 && InCollection(c, k) && c.dec(m2[k]) == Some(x);
        assert k in m1 && c.dec(m1[k]) == Some(x);
      }
    }
  }

  /** Writing outside a collection leaves what it holds as it was. */
  lemma WriteOutside<T>(items: map<string, Value>, k: string, v: Value, c: Collection<T>)
    requires !InCollection(c, k)
    ensures SameSlice(items, items[k := v], c)
    ensures SameSlice(items, items - {k}, c)
  {
  }

  // ---------------------------------------------------------------------
  // getX / saveX / deleteX

  /** `getX(id)`: the record under the id's key, or null when the key is
      absent or its value does not parse. */
  function Lookup<T>(items: map<string, Value>, c: Collection<T>, id: string): (r: Option<T>)
    ensures r.Some? ==> IsStored(items, c, r.value)
  {
    EntityKeyInCollection(c, id);
    var k := EntityKey(c, id);
    if k in items then c.dec(items[k]) else None
  }

  /** In a store keyed by id, `getX(id)` returns exactly the stored record
      with that id. */
  lemma LookupKeyed<T>(items: map<string, Value>, c: Collection<T>, id: string, x: T)
    requires KeyedById(items, c)
    ensures Lookup(items, c, id) == Some(x) <==> IsStored(items, c, x) && c.idOf(x) == id
  {
    var k := EntityKey(c, id);
    if Lookup(items, c, id) == Some(x) {
      EntityKeyInjective(c, id, c.idOf(x));
    }
    if IsStored(items, c, x) && c.idOf(x) == id {
      var j :| j in items && InCollection(c, j) && c.dec(items[j]) == Some(x);
      assert j == k;
    }
  }

  /** `saveX(x)`: `setItem` under the key of `x`'s id. */
  method Save<T>(ls: LocalStorage, c: Collection<T>, x: T)
    requires ls.Valid()
    modifies ls
    ensures ls.Valid()
    ensures ls.items == old(ls.items)[EntityKey(c, c.idOf(x)) := c.enc(x)]
  {
    ls.SetItem(EntityKey(c, c.idOf(x)), c.enc(x));
  }

  /** `deleteUser(id)` / `deleteCategory(id)`: `removeItem` of the id's key. */
  method Delete<T>(ls: LocalStorage, c: Collection<T>, id: string)
    requires ls.Valid()
    modifies ls
    ensures ls.Valid()
    ensures ls.items == old(ls.items) - {EntityKey(c, id)}
  {
    ls.RemoveItem(EntityKey(c, id));
  }

  /** After `saveX(x)`, `getX(x.id)` returns `x`; a save under the same id
      overwrites (last write wins); other ids of the collection read as
      before. */
  lemma SaveThenLookup<T(!new)>(items: map<string, Value>, c: Collection<T>, x: T, y: T, id: string)
    requires Decodes(c)
    ensures Lookup(items[EntityKey(c, c.idOf(x)) := c.enc(x)], c, c.idOf(x)) == Some(x)
    ensures c.idOf(y) == c.idOf(x) ==>
      Lookup(items[EntityKey(c, c.idOf(x)) := c.enc(x)][EntityKey(c, c.idOf(y)) := c.enc(y)], c, c.idOf(x)) == Some(y)
    ensures id != c.idOf(x) ==> Lookup(items[EntityKey(c, c.idOf(x)) := c.enc(x)], c, id) == Lookup(items, c, id)
  {
    if id != c.idOf(x) && EntityKey(c, id) == EntityKey(c, c.idOf(x)) {
      EntityKeyInjective(c, id, c.idOf(x));
    }
  }

  /** After `deleteX(id)`, `getX(id)` returns null and every other id of the
      collection reads as before. */
  lemma DeleteThenLookup<T>(items: map<string, Value>, c: Collection<T>, id: string, other: string)
    ensures Lookup(items - {EntityKey(c, id)}, c, id) == None
    ensures other != id ==> Lookup(items - {EntityKey(c, id)}, c, other) == Lookup(items, c, other)
  {
    if other != id && EntityKey(c, id) == EntityKey(c, other) {
      EntityKeyInjective(c, id, other);
    }
  }

  /** When every record sits under its own id's key, deleting an id takes
      every record with that id out of what the collection holds. */
  lemma DeleteRemovesFromCollection<T>(items: map<string, Value>, c: Collection<T>, x: T)
    requires KeyedById(items, c)
    ensures !IsStored(items - {EntityKey(c, c.idOf(x))}, c, x)
  {
  }

  /** Saving or deleting a record of one type does not change what any other
      type's collection holds. */
  lemma WriteLeavesOtherCollections<T, U>(items: map<string, Value>, c: Collection<T>, x: T, id: string, d: Collection<U>)
    requires Disjoint(c, d)
    ensures SameSlice(items, items[EntityKey(c, c.idOf(x)) := c.enc(x)], d)
    ensures SameSlice(items, items - {EntityKey(c, id)}, d)
  {
    EntityKeyInCollection(c, c.idOf(x));
    OutsideOther(c, d, EntityKey(c, c.idOf(x)));
    WriteOutside(items, EntityKey(c, c.idOf(x)), c.enc(x), d);
    EntityKeyInCollection(c, id);
    OutsideOther(c, d, EntityKey(c, id));
    WriteOutside(items, EntityKey(c, id), c.enc(x), d);
  }

  // ---------------------------------------------------------------------
  // getAllX: the scan over `localStorage.key(0 .. length - 1)`

  /** The records the scan collects from `keys`, in key order, or None when a
      matching key holds a value that does not parse. A key with no value is
      skipped (`if (data)`). */
  function Scan<T>(keys: seq<string>, items: map<string, Value>, c: Collection<T>): (r: Option<seq<T>>)
    ensures r.Some? ==> |r.value| <= |keys|
  {
    if keys == [] then Some([])
    else
      var k := keys[|keys| - 1];
      match Scan(keys[..|keys| - 1], items, c)
      case None => None
      case Some(prev) =>
        if InCollection(c, k) && k in items then
          (match c.dec(items[k])
           case None => None
           case Some(x) => Some(prev + [x]))
        else Some(prev)
  }

  /** The catch block: a failed scan returns []. */
  function Listed<T>(o: Option<seq<T>>): seq<T> {
    if o.Some? then o.value else []
  }

  lemma {:induction false} ScanFailureSticks<T>(keys: seq<string>, items: map<string, Value>, c: Collection<T>, n: nat)
    requires n <= |keys| && Scan(keys[..n], items, c).None?
    ensures Scan(keys, items, c).None?
    decreases |keys| - n
  {
    if n == |keys| {
      assert keys[..n] == keys;
    } else {
      assert keys[..n + 1][..n] == keys[..n];
      ScanFailureSticks(keys, items, c, n + 1);
    }
  }

  /** The scan fails exactly when some matching key's value does not parse,
      and otherwise collects exactly the records of the matching keys. */
  lemma {:induction false} ScanContents<T>(keys: seq<string>, items: map<string, Value>, c: Collection<T>)
    ensures Scan(keys, items, c).None? <==>
      exists k :: k in keys && k in items && InCollection(c, k) && c.dec(items[k]).None?
    ensures Scan(keys, items, c).Some? ==> forall x ::
      x in Scan(keys, items, c).value <==> exists k :: k in keys && k in items && InCollection(c, k) && c.dec(items[k]) == Some(x)
  {
    if keys != [] {
      var init, k := keys[..|keys| - 1], keys[|keys| - 1];
      assert keys == init + [k];
      ScanContents(init, items, c);
    }
  }

  /** The scan over a valid store, read against the map. */
  lemma ScanOfStore<T>(keys: seq<string>, items: map<string, Value>, c: Collection<T>)
    requires forall k :: k in keys <==> k in items
    ensures Scan(keys, items, c).None? <==> Corrupt(items, c)
    ensures Scan(keys, items, c).Some? ==> forall x :: x in Scan(keys, items, c).value <==> IsStored(items, c, x)
  {
    ScanContents(keys, items, c);
  }

  /** `getAllX()` */
  method GetAll<T>(ls: LocalStorage, c: Collection<T>) returns (r: seq<T>)
    requires ls.Valid()
    ensures r == Listed(Scan(ls.keys, ls.items, c))
    ensures Corrupt(ls.items, c) ==> r == []
    ensures !Corrupt(ls.items, c) ==> forall x :: x in r <==> IsStored(ls.items, c, x)
  {
    ScanOfStore(ls.keys, ls.items, c);
    var acc: seq<T> := [];
    var i := 0;
    while i < |ls.keys|
      invariant 0 <= i <= |ls.keys|
      invariant Scan(ls.keys[..i], ls.items, c) == Some(acc)
    {
      var key := ls.keys[i];
      assert ls.keys[..i + 1][..i] == ls.keys[..i];
      if StartsWith(key, Prefix(c)) && EndsWith(key, ".json") {
        match c.dec(ls.items[key])
        case None =>
          ScanFailureSticks(ls.keys, ls.items, c, i + 1);
          return [];
        case Some(x) =>
          acc := acc + [x];
      }
      i := i + 1;
    }
    assert ls.keys[..i] == ls.keys;
    r := acc;
  }

  // ---------------------------------------------------------------------
  // clearAllData

  /** The map with every key that starts with `benigna_data` gone. */
  function Cleared(items: map<string, Value>): (m: map<string, Value>)
    ensures forall k :: k in m <==> k in items && !StartsWith(k, BaseDir)
    ensures forall k | k in m :: m[k] == items[k]
  {
    map k | k in items && !StartsWith(k, BaseDir) :: items[k]
  }

  /** `clearAllData`: collect the keys under `benigna_data`, then remove
      them one by one. */
  method ClearAllData(ls: LocalStorage)
    requires ls.Valid()
    modifies ls
    ensures ls.Valid()
    ensures ls.items == Cleared(old(ls.items))
  {
    var keysToRemove: seq<string> := [];
    var i := 0;
    while i < |ls.keys|
      invariant 0 <= i <= |ls.keys|
      invariant forall k :: k in keysToRemove <==> k in ls.keys[..i] && StartsWith(k, BaseDir)
    {
      assert ls.keys[..i + 1] == ls.keys[..i] + [ls.keys[i]];
      if StartsWith(ls.keys[i], BaseDir) {
        keysToRemove := keysToRemove + [ls.keys[i]];
      }
      i := i + 1;
    }
    assert ls.keys[..i] == ls.keys;
    ghost var before := ls.items;
    for j := 0 to |keysToRemove|
      invariant ls.Valid()
      invariant forall k :: k in ls.items <==> k in before && k !in keysToRemove[..j]
      invariant forall k | k in ls.items :: ls.items[k] == before[k]
    {
      assert keysToRemove[..j + 1] == keysToRemove[..j] + [keysToRemove[j]];
      ls.RemoveItem(keysToRemove[j]);
    }
    assert keysToRemove[..|keysToRemove|] == keysToRemove;
  }

  /** After clearing, no collection holds anything, while every key outside
      `benigna_data` (such as the current-user slot) keeps its value. */
  lemma ClearEmptiesCollections<T>(items: map<string, Value>, c: Collection<T>)
    ensures EmptySlice(Cleared(items), c)
  {
    forall k | k in Cleared(items) ensures !InCollection(c, k) {
      if InCollection(c, k) { CollectionKeyUnderBase(c, k); }
    }
  }

  // ---------------------------------------------------------------------
  // createDirectory / initializeDirectories

  const DirectoryNames: seq<string> := [
    "users", "institutions", "donations", "categories", "ratings",
    "images/profiles", "images/institutions", "images/donations"
  ]

  /** `${BASE_DIR}/<dir>` */
  function DirectoryPath(dir: string): string {
    BaseDir + "/" + dir
  }

  /** `${path}/.directory` */
  function MarkerKey(path: string): string {
    path + "/.directory"
  }

  /** `createDirectory(path)`: a marker whose content is its creation time. */
  method CreateDirectory(ls: LocalStorage, path: string, now: Timestamp)
    requires ls.Valid()
    modifies ls
    ensures ls.Valid()
    ensures ls.items == old(ls.items)[MarkerKey(path) := DirectoryMarker(now)]
  {
    ls.SetItem(MarkerKey(path), DirectoryMarker(now));
  }

  /** The map after one marker per listed directory, written in list order. */
  function WithMarkers(items: map<string, Value>, dirs: seq<string>, now: Timestamp): map<string, Value> {
    if dirs == [] then items
    else WithMarkers(items, dirs[..|dirs| - 1], now)[MarkerKey(DirectoryPath(dirs[|dirs| - 1])) := DirectoryMarker(now)]
  }

  /** `initializeDirectories()` */
  method InitializeDirectories(ls: LocalStorage, now: Timestamp)
    requires ls.Valid()
    modifies ls
    ensures ls.Valid()
    ensures ls.items == WithMarkers(old(ls.items), DirectoryNames, now)
  {
    var directories := DirectoryNames;
    for i := 0 to |directories|
      invariant ls.Valid()
      invariant ls.items == WithMarkers(old(ls.items), directories[..i], now)
    {
      assert directories[..i + 1][..i] == directories[..i];
      CreateDirectory(ls, DirectoryPath(directories[i]), now);
    }
    assert directories[..|directories|] == directories;
  }

  /** A marker key never passes the `.json` test of a collection scan. */
  lemma MarkerOutsideCollections<T>(c: Collection<T>, path: string)
    ensures !InCollection(c, MarkerKey(path))
  {
    var k := MarkerKey(path);
    assert k[|k| - 1] == 'y';
  }

  /** Each listed directory gets its marker; every other key is untouched, so
      no collection changes. */
  lemma {:induction false} MarkersWritten<T>(items: map<string, Value>, dirs: seq<string>, now: Timestamp, c: Collection<T>)
    ensures forall d | d in dirs ::
              MarkerKey(DirectoryPath(d)) in WithMarkers(items, dirs, now)
              && WithMarkers(items, dirs, now)[MarkerKey(DirectoryPath(d))] == DirectoryMarker(now)
    ensures forall k | forall d | d in dirs :: k != MarkerKey(DirectoryPath(d)) ::
      (k in WithMarkers(items, dirs, now) <==> k in items) && (k in items ==> WithMarkers(items, dirs, now)[k] == items[k])
    ensures SameSlice(items, WithMarkers(items, dirs, now), c)
  {
    if dirs != [] {
      var init := dirs[..|dirs| - 1];
      assert dirs == init + [dirs[|dirs| - 1]];
      MarkersWritten(items, init, now, c);
      MarkerOutsideCollections(c, DirectoryPath(dirs[|dirs| - 1]));
    }
  }

  // ---------------------------------------------------------------------
  // exportData / importData

  /** The export bundle (the object `exportData` serialises). */
  datatype Backup = Backup(
    users: seq<User>,
    institutions: seq<Institution>,
    donations: seq<Donation>,
    categories: seq<Category>,
    ratings: seq<Rating>,
    exportDate: Timestamp)

  /** The object `importData` parses; a missing collection is None. */
  datatype ImportPayload = ImportPayload(
    users: Option<seq<User>>,
    institutions: Option<seq<Institution>>,
    donations: Option<seq<Donation>>,
    categories: Option<seq<Category>>,
    ratings: Option<seq<Rating>>)

  /** An export bundle read back: every collection present. */
  function AsPayload(b: Backup): ImportPayload {
    ImportPayload(Some(b.users), Some(b.institutions), Some(b.donations), Some(b.categories), Some(b.ratings))
  }

  /** `exportData()` */
  method ExportData(ls: LocalStorage, now: Timestamp) returns (b: Backup)
    requires ls.Valid()
    ensures b.users == Listed(Scan(ls.keys, ls.items, Users))
    ensures b.institutions == Listed(Scan(ls.keys, ls.items, Institutions))
    ensures b.donations == Listed(Scan(ls.keys, ls.items, Donations))
    ensures b.categories == Listed(Scan(ls.keys, ls.items, Categories))
    ensures b.ratings == Listed(Scan(ls.keys, ls.items, Ratings))
    ensures b.exportDate == now
  {
    var users := GetAll(ls, Users);
    var institutions := GetAll(ls, Institutions);
    var donations := GetAll(ls, Donations);
    var categories := GetAll(ls, Categories);
    var ratings := GetAll(ls, Ratings);
    b := Backup(users, institutions, donations, categories, ratings, now);
  }

  /** The map after saving `xs` one after the other. */
  function SaveAll<T>(items: map<string, Value>, c: Collection<T>, xs: seq<T>): map<string, Value> {
    if xs == [] then items
    else
      var x := xs[|xs| - 1];
      SaveAll(items, c, xs[..|xs| - 1])[EntityKey(c, c.idOf(x)) := c.enc(x)]
  }

  /** `for (const x of xs) await this.saveX(x);` */
  method SaveEach<T>(ls: LocalStorage, c: Collection<T>, xs: seq<T>)
    requires ls.Valid()
    modifies ls
    ensures ls.Valid()
    ensures ls.items == SaveAll(old(ls.items), c, xs)
  {
    for i := 0 to |xs|
      invariant ls.Valid()
      invariant ls.items == SaveAll(old(ls.items), c, xs[..i])
    {
      assert xs[..i + 1][..i] == xs[..i];
      Save(ls, c, xs[i]);
    }
    assert xs[..|xs|] == xs;
  }

  function SaveIfPresent<T>(items: map<string, Value>, c: Collection<T>, xs: Option<seq<T>>): map<string, Value> {
    if xs.Some? then SaveAll(items, c, xs.value) else items
  }

  /** The store after `importData`: everything under `benigna_data` cleared,
      then each present collection saved, in the source's order. */
  function Imported(items: map<string, Value>, p: ImportPayload): map<string, Value> {
    var m0 := Cleared(items);
    var m1 := SaveIfPresent(m0, Users, p.users);
    var m2 := SaveIfPresent(m1, Institutions, p.institutions);
    var m3 := SaveIfPresent(m2, Donations, p.donations);
    var m4 := SaveIfPresent(m3, Categories, p.categories);
    SaveIfPresent(m4, Ratings, p.ratings)
  }

  /** `importData(json)`, given the parsed payload. */
  method ImportData(ls: LocalStorage, p: ImportPayload)
    requires ls.Valid()
    modifies ls
    ensures ls.Valid()
    ensures ls.items == Imported(old(ls.items), p)
  {
    ClearAllData(ls);
    if p.users.Some? { SaveEach(ls, Users, p.users.value); }
    if p.institutions.Some? { SaveEach(ls, Institutions, p.institutions.value); }
    if p.donations.Some? { SaveEach(ls, Donations, p.donations.value); }
    if p.categories.Some? { SaveEach(ls, Categories, p.categories.value); }
    if p.ratings.Some? { SaveEach(ls, Ratings, p.ratings.value); }
  }

  /** Saving into a collection changes no key outside it. */
  lemma {:induction false} SaveAllOutside<T>(m: map<string, Value>, c: Collection<T>, xs: seq<T>, k: string)
    requires !InCollection(c, k)
    ensures k in SaveAll(m, c, xs) <==> k in m
    ensures k in m ==> SaveAll(m, c, xs)[k] == m[k]
  {
    if xs != [] {
      SaveAllOutside(m, c, xs[..|xs| - 1], k);
      EntityKeyInCollection(c, c.idOf(xs[|xs| - 1]));
    }
  }

  lemma SaveAllLeavesOther<T, U>(m: map<string, Value>, c: Collection<T>, xs: seq<T>, d: Collection<U>)
    requires Disjoint(c, d)
    ensures SameSlice(m, SaveAll(m, c, xs), d)
  {
    forall k | InCollection(d, k)
      ensures (k in m <==> k in SaveAll(m, c, xs)) && (k in m ==> m[k] == SaveAll(m, c, xs)[k])
    {
      if InCollection(c, k) { OutsideOther(c, d, k); }
      SaveAllOutside(m, c, xs, k);
    }
  }

  /** Saving readable records keeps a readable collection readable, and the
      last record saved is then stored. */
  lemma {:induction false} SaveAllKeepsReadable<T(!new)>(m: map<string, Value>, c: Collection<T>, xs: seq<T>)
    requires Decodes(c) && !Corrupt(m, c)
    ensures !Corrupt(SaveAll(m, c, xs), c)
    ensures xs != [] ==> IsStored(SaveAll(m, c, xs), c, xs[|xs| - 1])
  {
    if xs != [] {
      var x := xs[|xs| - 1];
      SaveAllKeepsReadable(m, c, xs[..|xs| - 1]);
      EntityKeyInCollection(c, c.idOf(x));
    }
  }

  /** No two different records of the list share an id. */
  ghost predicate IdConsistent<T>(xs: seq<T>, c: Collection<T>) {
    forall i, j | 0 <= i < |xs| && 0 <= j < |xs| :: c.idOf(xs[i]) == c.idOf(xs[j]) ==> xs[i] == xs[j]
  }

  /** Saving a list into an empty collection stores exactly that list's
      records, each under its own id, all readable. */
  lemma {:induction false} SaveAllContents<T(!new)>(m: map<string, Value>, c: Collection<T>, xs: seq<T>)
    requires Decodes(c) && EmptySlice(m, c) && IdConsistent(xs, c)
    ensures forall k | k in SaveAll(m, c, xs) && InCollection(c, k) ::
      exists i | 0 <= i < |xs| :: k == EntityKey(c, c.idOf(xs[i])) && SaveAll(m, c, xs)[k] == c.enc(xs[i])
    ensures forall i | 0 <= i < |xs| ::
      EntityKey(c, c.idOf(xs[i])) in SaveAll(m, c, xs) && SaveAll(m, c, xs)[EntityKey(c, c.idOf(xs[i]))] == c.enc(xs[i])
  {
    if xs != [] {
      var init, y := xs[..|xs| - 1], xs[|xs| - 1];
      var prev := SaveAll(m, c, init);
      var ky := EntityKey(c, c.idOf(y));
      assert IdConsistent(init, c);
      SaveAllContents(m, c, init);
      forall k | k in SaveAll(m, c, xs) && InCollection(c, k)
        ensures exists i | 0 <= i < |xs| :: k == EntityKey(c, c.idOf(xs[i])) && SaveAll(m, c, xs)[k] == c.enc(xs[i])
      {
        if k == ky {
          assert xs[|xs| - 1] == y;
        } else {
          var i :| 0 <= i < |init| && k == EntityKey(c, c.idOf(init[i])) && prev[k] == c.enc(init[i]);
          assert xs[i] == init[i];
        }
      }
      forall i | 0 <= i < |xs|
        ensures EntityKey(c, c.idOf(xs[i])) in SaveAll(m, c, xs) && SaveAll(m, c, xs)[EntityKey(c, c.idOf(xs[i]))] == c.enc(xs[i])
      {
        if i < |init| {
          assert xs[i] == init[i];
          if EntityKey(c, c.idOf(xs[i])) == ky {
            EntityKeyInjective(c, c.idOf(xs[i]), c.idOf(y));
          }
        }
      }
    }
  }

  /** Hence the saved collection is healthy and holds exactly the list. */
  lemma SavedCollection<T(!new)>(m: map<string, Value>, c: Collection<T>, xs: seq<T>)
    requires Decodes(c) && EmptySlice(m, c) && IdConsistent(xs, c)
    ensures !Corrupt(SaveAll(m, c, xs), c) && KeyedById(SaveAll(m, c, xs), c)
    ensures forall x :: IsStored(SaveAll(m, c, xs), c, x) <==> x in xs
  {
    var s := SaveAll(m, c, xs);
    SaveAllContents(m, c, xs);
    forall x | x in xs ensures IsStored(s, c, x) {
      var i :| 0 <= i < |xs| && xs[i] == x;
      EntityKeyInCollection(c, c.idOf(x));
    }
  }

  /** What a healthy collection lists has no two records with one id. */
  lemma ListedIdConsistent<T>(items: map<string, Value>, c: Collection<T>, xs: seq<T>)
    requires KeyedById(items, c)
    requires forall x :: x in xs <==> IsStored(items, c, x)
    ensures IdConsistent(xs, c)
  {
    forall i, j | 0 <= i < |xs| && 0 <= j < |xs| && c.idOf(xs[i]) == c.idOf(xs[j])
      ensures xs[i] == xs[j]
    {
      assert IsStored(items, c, xs[i]) && IsStored(items, c, xs[j]);
      var ki :| ki in items && InCollection(c, ki) && c.dec(items[ki]) == Some(xs[i]);
      var kj :| kj in items && InCollection(c, kj) && c.dec(items[kj]) == Some(xs[j]);
    }
  }

  /** The state the round trip preserves for one collection. */
  ghost predicate Healthy<T>(items: map<string, Value>, c: Collection<T>) {
    !Corrupt(items, c) && KeyedById(items, c)
  }

  /** A store that agrees with a healthy one on a collection's keys is
      healthy for it too. */
  lemma HealthyOnSameSlice<T>(m1: map<string, Value>, m2: map<string, Value>, c: Collection<T>)
    requires SameSlice(m1, m2, c) && Healthy(m1, c)
    ensures Healthy(m2, c)
  {
    SameSliceFacts(m1, m2, c);
  }

  /** `saveX` keeps its own collection healthy: the new value parses, and it
      sits under the key of its own id. */
  lemma SaveKeepsHealthy<T(!new)>(items: map<string, Value>, c: Collection<T>, x: T)
    requires Decodes(c) && Healthy(items, c)
    ensures Healthy(items[EntityKey(c, c.idOf(x)) := c.enc(x)], c)
  {
    var k := EntityKey(c, c.idOf(x));
    var after := items[k := c.enc(x)];
    assert c.dec(c.enc(x)) == Some(x);
    forall j | j in after && InCollection(c, j)
      ensures c.dec(after[j]).Some? && j == EntityKey(c, c.idOf(c.dec(after[j]).value))
    {
      if j != k {
        assert j in items && after[j] == items[j];
      }
    }
  }

  /** Removing any key (`deleteX`, `removeItem` of an image, of the session
      slot or during `clearAllData`) keeps a collection healthy. */
  lemma RemoveKeepsHealthy<T>(items: map<string, Value>, c: Collection<T>, k: string)
    requires Healthy(items, c)
    ensures Healthy(items - {k}, c)
  {
    var after := items - {k};
    forall j | j in after && InCollection(c, j)
      ensures c.dec(after[j]).Some? && j == EntityKey(c, c.idOf(c.dec(after[j]).value))
    {
      assert j in items && after[j] == items[j];
    }
  }

  /** Writing a key outside a collection keeps it healthy. */
  lemma OutsideWriteKeepsHealthy<T>(items: map<string, Value>, c: Collection<T>, k: string, v: Value)
    requires !InCollection(c, k) && Healthy(items, c)
    ensures Healthy(items[k := v], c)
  {
    WriteOutside(items, k, v, c);
    HealthyOnSameSlice(items, items[k := v], c);
  }

  /** Saving or deleting a record of one type keeps every other type
      healthy. */
  lemma OtherWriteKeepsHealthy<T, U>(items: map<string, Value>, c: Collection<T>, x: T, id: string, d: Collection<U>)
    requires Disjoint(c, d) && Healthy(items, d)
    ensures Healthy(items[EntityKey(c, c.idOf(x)) := c.enc(x)], d)
    ensures Healthy(items - {EntityKey(c, id)}, d)
  {
    WriteLeavesOtherCollections(items, c, x, id, d);
    HealthyOnSameSlice(items, items[EntityKey(c, c.idOf(x)) := c.enc(x)], d);
    HealthyOnSameSlice(items, items - {EntityKey(c, id)}, d);
  }

  /** After `clearAllData` every collection is healthy, whatever it held. */
  lemma ClearMakesHealthy<T>(items: map<string, Value>, c: Collection<T>)
    ensures Healthy(Cleared(items), c)
  {
    ClearEmptiesCollections(items, c);
  }

  /** `initializeDirectories` keeps every collection healthy. */
  lemma MarkersKeepHealthy<T>(items: map<string, Value>, now: Timestamp, c: Collection<T>)
    requires Healthy(items, c)
    ensures Healthy(WithMarkers(items, DirectoryNames, now), c)
  {
    MarkersWritten(items, DirectoryNames, now, c);
    HealthyOnSameSlice(items, WithMarkers(items, DirectoryNames, now), c);
  }

  /** An empty store is healthy, so every store the app builds from it with
      the writes above is too. */
  lemma EmptyIsHealthy<T>(c: Collection<T>)
    ensures Healthy(map[], c)
  {
  }

  /** One collection across export then import: if it is saved from the list
      the export produced and the later saves touch only other collections,
      it ends up holding what it held before. */
  lemma RoundTripOne<T(!new)>(items: map<string, Value>, before: map<string, Value>, after: map<string, Value>, c: Collection<T>, xs: seq<T>)
    requires Decodes(c) && Healthy(items, c) && EmptySlice(before, c)
    requires forall x :: x in xs <==> IsStored(items, c, x)
    requires SameSlice(SaveAll(before, c, xs), after, c)
    ensures Healthy(after, c)
    ensures forall x :: IsStored(after, c, x) <==> IsStored(items, c, x)
  {
    ListedIdConsistent(items, c, xs);
    SavedCollection(before, c, xs);
    SameSliceFacts(SaveAll(before, c, xs), after, c);
  }

  /** Importing what `exportData` produced gives back the same users,
      institutions, donations, categories and ratings, compared as sets of
      records (and so by id), provided no collection held an unparsable
      value and every record sat under its own id. */
  lemma ExportImportRoundTrip(items: map<string, Value>, b: Backup)
    requires Healthy(items, Users) && Healthy(items, Institutions) && Healthy(items, Donations)
    requires Healthy(items, Categories) && Healthy(items, Ratings)
    requires forall x :: x in b.users <==> IsStored(items, Users, x)
    requires forall x :: x in b.institutions <==> IsStored(items, Institutions, x)
    requires forall x :: x in b.donations <==> IsStored(items, Donations, x)
    requires forall x :: x in b.categories <==> IsStored(items, Categories, x)
    requires forall x :: x in b.ratings <==> IsStored(items, Ratings, x)
    ensures var after := Imported(items, AsPayload(b));
      && Healthy(after, Users) && (forall x :: IsStored(after, Users, x) <==> IsStored(items, Users, x))
      && Healthy(after, Institutions) && (forall x :: IsStored(after, Institutions, x) <==> IsStored(items, Institutions, x))
      && Healthy(after, Donations) && (forall x :: IsStored(after, Donations, x) <==> IsStored(items, Donations, x))
      && Healthy(after, Categories) && (forall x :: IsStored(after, Categories, x) <==> IsStored(items, Categories, x))
      && Healthy(after, Ratings) && (forall x :: IsStored(after, Ratings, x) <==> IsStored(items, Ratings, x))
  {
    CollectionsDecode();
    CollectionsDisjoint();
    var m0 := Cleared(items);
    var m1 := SaveAll(m0, Users, b.users);
    var m2 := SaveAll(m1, Institutions, b.institutions);
    var m3 := SaveAll(m2, Donations, b.donations);
    var m4 := SaveAll(m3, Categories, b.categories);
    var m5 := SaveAll(m4, Ratings, b.ratings);
    assert Imported(items, AsPayload(b)) == m5;
    ClearEmptiesCollections(items, Users);
    ClearEmptiesCollections(items, Institutions);
    ClearEmptiesCollections(items, Donations);
    ClearEmptiesCollections(items, Categories);
    ClearEmptiesCollections(items, Ratings);
    // Users: saved into m0, untouched by the four later saves.
    SaveAllLeavesOther(m1, Institutions, b.institutions, Users);
    SaveAllLeavesOther(m2, Donations, b.donations, Users);
    SaveAllLeavesOther(m3, Categories, b.categories, Users);
    SaveAllLeavesOther(m4, Ratings, b.ratings, Users);
    RoundTripOne(items, m0, m5, Users, b.users);
    // Institutions: empty in m1, saved into it, untouched afterwards.
    SaveAllLeavesOther(m0, Users, b.users, Institutions);
    SameSliceFacts(m0, m1, Institutions);
    SaveAllLeavesOther(m2, Donations, b.donations, Institutions);
    SaveAllLeavesOther(m3, Categories, b.categories, Institutions);
    SaveAllLeavesOther(m4, Ratings, b.ratings, Institutions);
    RoundTripOne(items, m1, m5, Institutions, b.institutions);
    // Donations.
    SaveAllLeavesOther(m0, Users, b.users, Donations);
    SaveAllLeavesOther(m1, Institutions, b.institutions, Donations);
    SameSliceFacts(m0, m2, Donations);
    SaveAllLeavesOther(m3, Categories, b.categories, Donations);
    SaveAllLeavesOther(m4, Ratings, b.ratings, Donations);
    RoundTripOne(items, m2, m5, Donations, b.donations);
    // Categories.
    SaveAllLeavesOther(m0, Users, b.users, Categories);
    SaveAllLeavesOther(m1, Institutions, b.institutions, Categories);
    SaveAllLeavesOther(m2, Donations, b.donations, Categories);
    SameSliceFacts(m0, m3, Categories);
    SaveAllLeavesOther(m4, Ratings, b.ratings, Categories);
    RoundTripOne(items, m3, m5, Categories, b.categories);
    // Ratings: saved last.
    SaveAllLeavesOther(m0, Users, b.users, Ratings);
    SaveAllLeavesOther(m1, Institutions, b.institutions, Ratings);
    SaveAllLeavesOther(m2, Donations, b.donations, Ratings);
    SaveAllLeavesOther(m3, Categories, b.categories, Ratings);
    SameSliceFacts(m0, m4, Ratings);
    RoundTripOne(items, m4, m5, Ratings, b.ratings);
  }

  /** Import clears everything under `benigna_data` first: afterwards such a
      key survives only as a record of a collection the payload carried
      (directory markers and images are gone, a missing collection stays
      empty), and every key outside `benigna_data` keeps its value. */
  lemma ImportReplacesData(items: map<string, Value>, p: ImportPayload, k: string)
    ensures !StartsWith(k, BaseDir) ==>
      (k in Imported(items, p) <==> k in items) && (k in items ==> Imported(items, p)[k] == items[k])
    ensures StartsWith(k, BaseDir) && k in Imported(items, p) ==>
      (p.users.Some? && InCollection(Users, k)) || (p.institutions.Some? && InCollection(Institutions, k))
      || (p.donations.Some? && InCollection(Donations, k)) || (p.categories.Some? && InCollection(Categories, k))
      || (p.ratings.Some? && InCollection(Ratings, k))
  {
    var m0 := Cleared(items);
    var m1 := SaveIfPresent(m0, Users, p.users);
    var m2 := SaveIfPresent(m1, Institutions, p.institutions);
    var m3 := SaveIfPresent(m2, Donations, p.donations);
    var m4 := SaveIfPresent(m3, Categories, p.categories);
    if !(p.users.Some? && InCollection(Users, k)) && !(p.institutions.Some? && InCollection(Institutions, k))
      && !(p.donations.Some? && InCollection(Donations, k)) && !(p.categories.Some? && InCollection(Categories, k))
      && !(p.ratings.Some? && InCollection(Ratings, k))
    {
      if p.users.Some? { SaveAllOutside(m0, Users, p.users.value, k); }
      if p.institutions.Some? { SaveAllOutside(m1, Institutions, p.institutions.value, k); }
      if p.donations.Some? { SaveAllOutside(m2, Donations, p.donations.value, k); }
      if p.categories.Some? { SaveAllOutside(m3, Categories, p.categories.value, k); }
      if p.ratings.Some? { SaveAllOutside(m4, Ratings, p.ratings.value, k); }
    } else {
      if InCollection(Users, k) { CollectionKeyUnderBase(Users, k); }
      if InCollection(Institutions, k) { CollectionKeyUnderBase(Institutions, k); }
      if InCollection(Donations, k) { CollectionKeyUnderBase(Donations, k); }
      if InCollection(Categories, k) { CollectionKeyUnderBase(Categories, k); }
      if InCollection(Ratings, k) { CollectionKeyUnderBase(Ratings, k); }
    }
  }
}
