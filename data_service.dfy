/** The data-access layer of dataService.ts: queries that filter a scanned
    collection, the one-time seeding of the default categories, and the
    one-time seeding of the sample institutions. Its plain delegations
    (`getInstitutions`, `saveDonation`, `getDonationById`, ...) are the
    generic members of FileSystem. */
module DataService {
  import opened Common
  import opened Entities
  import opened Storage
  import opened FileSystem

  // ---------------------------------------------------------------------
  // Queries

  /** `donations.filter(don => don.donorId === donorId)` */
  function DonationsByDonor(ds: seq<Donation>, donorId: string): (r: seq<Donation>)
    ensures forall d :: d in r <==> d in ds && d.donorId == donorId
    ensures forall d :: multiset(r)[d] == if d.donorId == donorId then multiset(ds)[d] else 0
  {
    FilterBy(ds, DonationDonor, donorId)
  }

  /** `donations.filter(don => don.institutionId === institutionId)` */
  function DonationsByInstitution(ds: seq<Donation>, institutionId: string): (r: seq<Donation>)
    ensures forall d :: d in r <==> d in ds && d.institutionId == institutionId
    ensures forall d :: multiset(r)[d] == if d.institutionId == institutionId then multiset(ds)[d] else 0
  {
    FilterBy(ds, DonationInstitution, institutionId)
  }

  /** `ratings.filter(rating => rating.institutionId === institutionId)` */
  function RatingsByInstitution(rs: seq<Rating>, institutionId: string): (r: seq<Rating>)
    ensures forall x :: x in r <==> x in rs && x.institutionId == institutionId
    ensures forall x :: multiset(r)[x] == if x.institutionId == institutionId then multiset(rs)[x] else 0
  {
    FilterBy(rs, RatingInstitution, institutionId)
  }

  /** `getDonationsByDonor(donorId)`: the stored donations of that donor, in
      scan order. */
  method GetDonationsByDonor(ls: LocalStorage, donorId: string) returns (r: seq<Donation>)
    requires ls.Valid()
    ensures r == DonationsByDonor(Listed(Scan(ls.keys, ls.items, Donations)), donorId)
    ensures !Corrupt(ls.items, Donations) ==>
      forall d :: d in r <==> IsStored(ls.items, Donations, d) && d.donorId == donorId
  {
    var donations := GetAll(ls, Donations);
    r := DonationsByDonor(donations, donorId);
  }

  /** `getDonationsByInstitution(institutionId)` */
  method GetDonationsByInstitution(ls: LocalStorage, institutionId: string) returns (r: seq<Donation>)
    requires ls.Valid()
    ensures r == DonationsByInstitution(Listed(Scan(ls.keys, ls.items, Donations)), institutionId)
    ensures !Corrupt(ls.items, Donations) ==>
      forall d :: d in r <==> IsStored(ls.items, Donations, d) && d.institutionId == institutionId
  {
    var donations := GetAll(ls, Donations);
    r := DonationsByInstitution(donations, institutionId);
  }

  /** `getRatingsByInstitution(institutionId)` */
  method GetRatingsByInstitution(ls: LocalStorage, institutionId: string) returns (r: seq<Rating>)
    requires ls.Valid()
    ensures r == RatingsByInstitution(Listed(Scan(ls.keys, ls.items, Ratings)), institutionId)
    ensures !Corrupt(ls.items, Ratings) ==>
      forall x :: x in r <==> IsStored(ls.items, Ratings, x) && x.institutionId == institutionId
  {
    var ratings := GetAll(ls, Ratings);
    r := RatingsByInstitution(ratings, institutionId);
  }

  // ---------------------------------------------------------------------
  // Default categories

  /** How many fresh ids `getDefaultCategories` draws: 5 categories and 16
      subcategories. */
  const DefaultIdCount := 21

  function Unlinked(id: string, name: string): Subcategory {
    Subcategory(id, name, "")
  }

  /** The literal list of `getDefaultCategories`, ids in the order the
      `uuidv4()` calls are evaluated, every `categoryId` still empty. */
  function DefaultTemplate(ids: seq<string>): seq<Category>
    requires |ids| >= DefaultIdCount
  {
    [ Category(ids[0], "Roupas", "👕",
        [Unlinked(ids[1], "Roupas Infantis"), Unlinked(ids[2], "Roupas Adultas"),
         Unlinked(ids[3], "Roupas de Frio"), Unlinked(ids[4], "Calçados")]),
      Category(ids[5], "Alimentos", "🍞",
        [Unlinked(ids[6], "Alimentos Não Perecíveis"), Unlinked(ids[7], "Cestas Básicas"),
         Unlinked(ids[8], "Produtos de Higiene")]),
      Category(ids[9], "Móveis", "🪑",
        [Unlinked(ids[10], "Móveis Pequenos"), Unlinked(ids[11], "Móveis Grandes"),
         Unlinked(ids[12], "Eletrodomésticos")]),
      Category(ids[13], "Livros e Material Escolar", "📚",
        [Unlinked(ids[14], "Livros Didáticos"), Unlinked(ids[15], "Material Escolar"),
         Unlinked(ids[16], "Brinquedos Educativos")]),
      Category(ids[17], "Brinquedos", "🧸",
        [Unlinked(ids[18], "Brinquedos Infantis"), Unlinked(ids[19], "Jogos"),
         Unlinked(ids[20], "Brinquedos Educativos")])
    ]
  }

  /** The template holds five categories of at least three subcategories
      each, takes every id from the first 21 fresh ids, and leaves every
      `categoryId` empty for the fix-up loop to fill. */
  lemma DefaultTemplateShape(ids: seq<string>)
    requires |ids| >= DefaultIdCount
    ensures var r := DefaultTemplate(ids);
      && |r| == 5
      && (forall i | 0 <= i < |r| :: r[i].id in ids[..DefaultIdCount] && |r[i].subcategories| >= 3)
      && (forall i, sub | 0 <= i < |r| && sub in r[i].subcategories ::
            sub.id in ids[..DefaultIdCount] && sub.categoryId == "")
  {
  }

  /** `b` is `a` with nothing changed but the subcategories' `categoryId`. */
  predicate SameExceptOwner(a: Category, b: Category) {
    && a.id == b.id && a.name == b.name && a.icon == b.icon
    && |a.subcategories| == |b.subcategories|
    && forall j | 0 <= j < |a.subcategories| ::
         a.subcategories[j].id == b.subcategories[j].id && a.subcategories[j].name == b.subcategories[j].name
  }

  /** The nested `forEach` that sets `sub.categoryId = category.id`. */
  method LinkSubcategories(cats: seq<Category>) returns (r: seq<Category>)
    ensures |r| == |cats|
    ensures forall i | 0 <= i < |r| :: SameExceptOwner(cats[i], r[i]) && SubcategoriesPointToOwner(r[i])
  {
    r := cats;
    for i := 0 to |r|
      invariant |r| == |cats|
      invariant forall k | 0 <= k < i :: SameExceptOwner(cats[k], r[k]) && SubcategoriesPointToOwner(r[k])
      invariant forall k | i <= k < |r| :: r[k] == cats[k]
    {
      var category := r[i];
      var subs := category.subcategories;
      for j := 0 to |subs|
        invariant |subs| == |category.subcategories|
        invariant forall m | 0 <= m < |subs| ::
          subs[m].id == category.subcategories[m].id && subs[m].name == category.subcategories[m].name
        invariant forall m | 0 <= m < j :: subs[m].categoryId == category.id
      {
        subs := subs[j := subs[j].(categoryId := category.id)];
      }
      r := r[i := category.(subcategories := subs)];
    }
  }

  /** `r` is the default list: the template's categories and subcategories,
      every subcategory pointing to its owner. */
  predicate IsDefaultCategories(r: seq<Category>, ids: seq<string>)
    requires |ids| >= DefaultIdCount
  {
    && |r| == |DefaultTemplate(ids)|
    && forall i | 0 <= i < |r| :: SameExceptOwner(DefaultTemplate(ids)[i], r[i]) && SubcategoriesPointToOwner(r[i])
  }

  /** `getDefaultCategories()`: build, link, save each, return. */
  method GetDefaultCategories(ls: LocalStorage, ids: seq<string>) returns (r: seq<Category>)
    requires ls.Valid() && |ids| >= DefaultIdCount
    modifies ls
    ensures ls.Valid()
    ensures IsDefaultCategories(r, ids)
    ensures ls.items == SaveAll(old(ls.items), Categories, r)
  {
    var defaultCategories := DefaultTemplate(ids);
    r := LinkSubcategories(defaultCategories);
    SaveEach(ls, Categories, r);
  }

  /** `getCategories()`: the stored categories when the scan finds any (and
      no write), otherwise the defaults, saved. */
  method GetCategories(ls: LocalStorage, ids: seq<string>) returns (r: seq<Category>)
    requires ls.Valid() && |ids| >= DefaultIdCount
    modifies ls
    ensures ls.Valid()
    ensures var stored := Listed(Scan(old(ls.keys), old(ls.items), Categories));
      && (|stored| > 0 ==> r == stored && ls.keys == old(ls.keys) && ls.items == old(ls.items))
      && (|stored| == 0 ==> IsDefaultCategories(r, ids) && ls.items == SaveAll(old(ls.items), Categories, r))
  {
    var categories := GetAll(ls, Categories);
    if |categories| > 0 {
      r := categories;
    } else {
      r := GetDefaultCategories(ls, ids);
    }
  }

  /** There are five defaults, and every one of their subcategories points to
      its owner. */
  lemma DefaultsPointToOwners(r: seq<Category>, ids: seq<string>)
    requires |ids| >= DefaultIdCount && IsDefaultCategories(r, ids)
    ensures |r| == 5
    ensures forall c | c in r :: SubcategoriesPointToOwner(c)
  {
  }

  /** Seeding happens once: after the defaults are saved into a store whose
      categories all parse, the next scan finds categories, so the next
      `getCategories` returns the stored ones and writes nothing. */
  lemma SeedingHappensOnce(items: map<string, Value>, keys: seq<string>, ids: seq<string>, r: seq<Category>)
    requires |ids| >= DefaultIdCount && IsDefaultCategories(r, ids)
    requires !Corrupt(items, Categories)
    requires forall k :: k in keys <==> k in SaveAll(items, Categories, r)
    ensures |Listed(Scan(keys, SaveAll(items, Categories, r), Categories))| > 0
  {
    CollectionsDecode();
    SaveAllKeepsReadable(items, Categories, r);
    ScanOfStore(keys, SaveAll(items, Categories, r), Categories);
    var s := Scan(keys, SaveAll(items, Categories, r), Categories);
    assert r[|r| - 1] in s.value;
  }

  /** One category record that does not parse makes the scan come back
      empty, so `getCategories` seeds the defaults again beside the stored
      categories. */
  lemma CorruptCategoryReseeds(keys: seq<string>, items: map<string, Value>)
    requires forall k :: k in keys <==> k in items
    requires Corrupt(items, Categories)
    ensures Listed(Scan(keys, items, Categories)) == []
  {
    ScanOfStore(keys, items, Categories);
  }

  // ---------------------------------------------------------------------
  // Sample institutions

  function WeekHours(open: string, close: string, saturdayOpen: bool, saturdayClose: string): seq<WorkingHours> {
    [ WorkingHours(0, false, "", ""),
      WorkingHours(1, true, open, close), WorkingHours(2, true, open, close),
      WorkingHours(3, true, open, close), WorkingHours(4, true, open, close),
      WorkingHours(5, true, open, close),
      if saturdayOpen then WorkingHours(6, true, open, saturdayClose) else WorkingHours(6, false, "", "") ]
  }

  const FirstSampleDescription := "Instituição dedicada ao apoio de famílias em situação de vulnerabilidade social, oferecendo assistência alimentar, educacional e de saúde."
  const SecondSampleDescription := "Organização não governamental focada na educação e desenvolvimento de crianças e adolescentes em comunidades carentes."

  /** The two institutions of `createSampleInstitutions`, with the four ids
      in evaluation order (institution, address, institution, address). */
  function SampleInstitutions(ids: seq<string>, now: Timestamp): (r: seq<Institution>)
    requires |ids| >= 4
    ensures |r| == 2 && r[0].id == ids[0] && r[1].id == ids[2]
    ensures r[0].address.id == ids[1] && r[1].address.id == ids[3]
    ensures forall i | 0 <= i < 2 ::
      && r[i].role == InstitutionRole && r[i].verified && 1.0 <= r[i].rating <= 5.0
      && r[i].createdAt == now && r[i].updatedAt == now
  {
    var first := Institution(ids[0], "Casa de Apoio São Francisco", "contato@casasaofrancisco.org", "",
        "(11) 3456-7890", "12.345.678/0001-90", InstitutionRole,
        FirstSampleDescription,
        Address(ids[1], "Rua das Flores", "123", "Centro", "São Paulo", "SP", "01234-567", -23.5505, -46.6333),
        WeekHours("08:00", "17:00", true, "12:00"),
        ["Roupas", "Alimentos", "Brinquedos"], 4.5, 23, true, now, now);
    var second := Institution(ids[2], "ONG Esperança", "contato@ongesperanca.org", "",
        "(11) 2345-6789", "23.456.789/0001-01", InstitutionRole,
        SecondSampleDescription,
        Address(ids[3], "Avenida da Esperança", "456", "Vila Nova", "São Paulo", "SP", "02345-678", -23.5489, -46.6388),
        WeekHours("09:00", "18:00", false, ""),
        ["Livros e Material Escolar", "Brinquedos", "Roupas"], 4.8, 15, true, now, now);
    [first, second]
  }

  /** Every category a sample institution accepts is the name of one of the
      default categories. */
  lemma SamplesAcceptDefaults(ids: seq<string>, now: Timestamp, defaultIds: seq<string>)
    requires |ids| >= 4 && |defaultIds| >= DefaultIdCount
    ensures forall i, j | 0 <= i < 2 && 0 <= j < |SampleInstitutions(ids, now)[i].acceptedCategories| ::
      exists k | 0 <= k < 5 :: DefaultTemplate(defaultIds)[k].name == SampleInstitutions(ids, now)[i].acceptedCategories[j]
  {
    var d := DefaultTemplate(defaultIds);
    var a := SampleInstitutions(ids, now)[0].acceptedCategories;
    var b := SampleInstitutions(ids, now)[1].acceptedCategories;
    assert a == [d[0].name, d[1].name, d[4].name];
    assert b == [d[3].name, d[4].name, d[0].name];
  }

  /** `initializeSampleData()`: the two samples are written only when the
      institution scan finds none. */
  method InitializeSampleData(ls: LocalStorage, ids: seq<string>, now: Timestamp)
    requires ls.Valid() && |ids| >= 4
    modifies ls
    ensures ls.Valid()
    ensures var stored := Listed(Scan(old(ls.keys), old(ls.items), Institutions));
      && (|stored| > 0 ==> ls.keys == old(ls.keys) && ls.items == old(ls.items))
      && (|stored| == 0 ==> ls.items == SaveAll(old(ls.items), Institutions, SampleInstitutions(ids, now)))
  {
    var samples := SampleInstitutions(ids, now);
    var institutions := GetAll(ls, Institutions);
    if |institutions| == 0 {
      SaveEach(ls, Institutions, samples);
    }
  }

  /** Seeding an empty institution collection stores exactly the two
      samples, when their ids differ. */
  lemma SampleSeedStoresTwo(items: map<string, Value>, ids: seq<string>, now: Timestamp)
    requires |ids| >= 4 && ids[0] != ids[2]
    requires EmptySlice(items, Institutions)
    ensures |SampleInstitutions(ids, now)| == 2
    ensures forall x :: IsStored(SaveAll(items, Institutions, SampleInstitutions(ids, now)), Institutions, x)
                        <==> x in SampleInstitutions(ids, now)
  {
    CollectionsDecode();
    var s := SampleInstitutions(ids, now);
    assert IdConsistent(s, Institutions);
    SavedCollection(items, Institutions, s);
  }
}
