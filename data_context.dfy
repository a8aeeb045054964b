/** DataContext.tsx: the provider that holds the four collections in memory
    and patches them after every write to the store. React's state setters
    become field assignments, in the order the handlers issue them. */
module DataContext {
  import opened Common
  import opened Entities
  import opened Storage
  import opened FileSystem
  import opened DataService

  // ---------------------------------------------------------------------
  // The rating aggregate

  /** `rs.reduce((sum, r) => sum + r.rating, 0)`, folded from the left. */
  function Sum(rs: seq<Rating>): real {
    if rs == [] then 0.0 else Sum(rs[..|rs| - 1]) + rs[|rs| - 1].rating
  }

  /** The arithmetic mean of a non-empty list of scores. */
  function Mean(rs: seq<Rating>): real
    requires |rs| > 0
  {
    Sum(rs) / (|rs| as real)
  }

  /** `v` added `n` times, the linear form of `v * n`. */
  function Times(v: real, n: nat): real {
    if n == 0 then 0.0 else Times(v, n - 1) + v
  }

  lemma {:induction false} TimesIsProduct(v: real, n: nat)
    ensures Times(v, n) == v * (n as real)
  {
    if n > 0 {
      TimesIsProduct(v, n - 1);
      assert v * (n as real) == v * ((n - 1) as real) + v;
    }
  }

  /** Scores within a range sum to within count times the range. */
  lemma {:induction false} SumBounds(rs: seq<Rating>, lo: real, hi: real)
    requires forall x | x in rs :: lo <= x.rating <= hi
    ensures Times(lo, |rs|) <= Sum(rs) <= Times(hi, |rs|)
  {
    if rs != [] {
      var init, last := rs[..|rs| - 1], rs[|rs| - 1];
      assert forall x | x in init :: x in rs;
      assert last in rs;
      SumBounds(init, lo, hi);
    }
  }

  /** Dividing a sum that lies within count times a range by the count
      lands within the range. */
  lemma QuotientBounds(sum: real, n: real, lo: real, hi: real)
    requires n > 0.0 && lo * n <= sum <= hi * n
    ensures lo <= sum / n <= hi
  {
    assert (sum / n) * n == sum;
  }

  /** Scores within a range average to a value within it; with the 1-5
      stars of the rating form, the institution's rating stays in 1-5. */
  lemma MeanBounds(rs: seq<Rating>, lo: real, hi: real)
    requires |rs| > 0
    requires forall x | x in rs :: lo <= x.rating <= hi
    ensures lo <= Mean(rs) <= hi
  {
    var total, n := Sum(rs), |rs| as real;
    SumBounds(rs, lo, hi);
    TimesIsProduct(lo, |rs|);
    TimesIsProduct(hi, |rs|);
    assert lo * n <= total <= hi * n;
    QuotientBounds(total, n, lo, hi);
  }

  /** The ratings `addRating` averages over: the earlier ratings of that
      institution followed by the new one, so there is at least one and
      their sum grows by exactly the new score. */
  lemma RatingAggregate(prior: seq<Rating>, r: Rating)
    ensures var rs := RatingsByInstitution(prior + [r], r.institutionId);
      && rs == RatingsByInstitution(prior, r.institutionId) + [r]
      && |rs| == |RatingsByInstitution(prior, r.institutionId)| + 1
      && Sum(rs) == Sum(RatingsByInstitution(prior, r.institutionId)) + r.rating
  {
    FilterByAppend(prior, [r], RatingInstitution, r.institutionId);
    assert FilterBy([r], RatingInstitution, r.institutionId) == [r];
    var rs := RatingsByInstitution(prior + [r], r.institutionId);
    assert rs[..|rs| - 1] == RatingsByInstitution(prior, r.institutionId);
  }

  /** The institution `addRating` writes back: only `rating` and
      `totalRatings` change. */
  function Rerated(inst: Institution, rs: seq<Rating>): (r: Institution)
    requires |rs| > 0
    ensures r.rating == Mean(rs) && r.totalRatings == |rs| >= 1
    ensures r.(rating := inst.rating, totalRatings := inst.totalRatings) == inst
  {
    inst.(rating := Mean(rs), totalRatings := |rs|)
  }

  // ---------------------------------------------------------------------
  // The provider

  class DataProvider {
    const store: LocalStorage
    var institutions: seq<Institution>
    var donations: seq<Donation>
    var categories: seq<Category>
    var ratings: seq<Rating>

    /** The provider mounts with four empty lists. */
    constructor (store: LocalStorage)
      ensures this.store == store
      ensures institutions == [] && donations == [] && categories == [] && ratings == []
    {
      this.store := store;
      institutions, donations, categories, ratings := [], [], [], [];
    }

    /** `refreshData()`: the four scans run in argument order; the category
        seeding of `getCategories`, if any, runs after them. */
    method RefreshData(ids: seq<string>)
      requires store.Valid() && |ids| >= DefaultIdCount
      modifies this, store
      ensures store.Valid()
      ensures institutions == Listed(Scan(old(store.keys), old(store.items), Institutions))
      ensures donations == Listed(Scan(old(store.keys), old(store.items), Donations))
      ensures ratings == Listed(Scan(old(store.keys), old(store.items), Ratings))
      ensures var stored := Listed(Scan(old(store.keys), old(store.items), Categories));
        && (|stored| > 0 ==> categories == stored && store.keys == old(store.keys) && store.items == old(store.items))
        && (|stored| == 0 ==> IsDefaultCategories(categories, ids))
        && (|stored| == 0 ==> store.items == SaveAll(old(store.items), Categories, categories))
    {
      var institutionsData := GetAll(store, Institutions);
      var donationsData := GetAll(store, Donations);
      var categoriesData := GetAll(store, Categories);
      var ratingsData := GetAll(store, Ratings);
      if |categoriesData| == 0 {
        categoriesData := GetDefaultCategories(store, ids);
      }
      institutions := institutionsData;
      donations := donationsData;
      categories := categoriesData;
      ratings := ratingsData;
    }

    /** `addInstitution(institution)`: save, then append. */
    method AddInstitution(institution: Institution)
      requires store.Valid()
      modifies this, store
      ensures store.Valid()
      ensures store.items == old(store.items)[EntityKey(Institutions, institution.id) := InstitutionDoc(institution)]
      ensures institutions == old(institutions) + [institution]
      ensures donations == old(donations) && categories == old(categories) && ratings == old(ratings)
    {
      Save(store, Institutions, institution);
      institutions := institutions + [institution];
    }

    /** `updateInstitution(institution)`: save, then replace by id. */
    method UpdateInstitution(institution: Institution)
      requires store.Valid()
      modifies this, store
      ensures store.Valid()
      ensures store.items == old(store.items)[EntityKey(Institutions, institution.id) := InstitutionDoc(institution)]
      ensures institutions == ReplaceBy(old(institutions), InstitutionId, institution)
      ensures donations == old(donations) && categories == old(categories) && ratings == old(ratings)
    {
      Save(store, Institutions, institution);
      institutions := ReplaceBy(institutions, InstitutionId, institution);
    }

    /** `addDonation(donation)` */
    method AddDonation(donation: Donation)
      requires store.Valid()
      modifies this, store
      ensures store.Valid()
      ensures store.items == old(store.items)[EntityKey(Donations, donation.id) := DonationDoc(donation)]
      ensures donations == old(donations) + [donation]
      ensures institutions == old(institutions) && categories == old(categories) && ratings == old(ratings)
    {
      Save(store, Donations, donation);
      donations := donations + [donation];
    }

    /** `updateDonation(donation)` */
    method UpdateDonation(donation: Donation)
      requires store.Valid()
      modifies this, store
      ensures store.Valid()
      ensures store.items == old(store.items)[EntityKey(Donations, donation.id) := DonationDoc(donation)]
      ensures donations == ReplaceBy(old(donations), DonationId, donation)
      ensures institutions == old(institutions) && categories == old(categories) && ratings == old(ratings)
    {
      Save(store, Donations, donation);
      donations := ReplaceBy(donations, DonationId, donation);
    }

    /** `addRating(rating)`: save and append the rating; then, when the
        institution is in the list, recompute its aggregate over the earlier
        ratings plus the new one and update it. The earlier lists are the
        ones the handler closed over. */
    method AddRating(rating: Rating)
      requires store.Valid()
      modifies this, store
      ensures store.Valid()
      ensures ratings == old(ratings) + [rating]
      ensures donations == old(donations) && categories == old(categories)
      ensures var found := FindBy(old(institutions), InstitutionId, rating.institutionId);
        && (found.None? ==> institutions == old(institutions))
        && (found.None? ==> store.items == old(store.items)[EntityKey(Ratings, rating.id) := RatingDoc(rating)])
      ensures var found := FindBy(old(institutions), InstitutionId, rating.institutionId);
        found.Some? ==>
          var updated := Rerated(found.value, RatingsByInstitution(old(ratings) + [rating], rating.institutionId));
          && institutions == ReplaceBy(old(institutions), InstitutionId, updated)
          && store.items == old(store.items)[EntityKey(Ratings, rating.id) := RatingDoc(rating)]
                                            [EntityKey(Institutions, updated.id) := InstitutionDoc(updated)]
    {
      Save(store, Ratings, rating);
      var prior := ratings;
      ratings := ratings + [rating];
      var institution := FindBy(institutions, InstitutionId, rating.institutionId);
      if institution.Some? {
        var institutionRatings := RatingsByInstitution(prior + [rating], rating.institutionId);
        assert rating in institutionRatings;
        var updatedInstitution := Rerated(institution.value, institutionRatings);
        UpdateInstitution(updatedInstitution);
      }
    }

    /** `addCategory(category)` */
    method AddCategory(category: Category)
      requires store.Valid()
      modifies this, store
      ensures store.Valid()
      ensures store.items == old(store.items)[EntityKey(Categories, category.id) := CategoryDoc(category)]
      ensures categories == old(categories) + [category]
      ensures institutions == old(institutions) && donations == old(donations) && ratings == old(ratings)
    {
      Save(store, Categories, category);
      categories := categories + [category];
    }

    /** `updateCategory(category)` */
    method UpdateCategory(category: Category)
      requires store.Valid()
      modifies this, store
      ensures store.Valid()
      ensures store.items == old(store.items)[EntityKey(Categories, category.id) := CategoryDoc(category)]
      ensures categories == ReplaceBy(old(categories), CategoryId, category)
      ensures institutions == old(institutions) && donations == old(donations) && ratings == old(ratings)
    {
      Save(store, Categories, category);
      categories := ReplaceBy(categories, CategoryId, category);
    }

    /** `deleteCategory(categoryId)`: remove the key, then filter the list.
        Donations name their category by text and are not touched. */
    method DeleteCategory(categoryId: string)
      requires store.Valid()
      modifies this, store
      ensures store.Valid()
      ensures store.items == old(store.items) - {EntityKey(Categories, categoryId)}
      ensures categories == RemoveBy(old(categories), CategoryId, categoryId)
      ensures institutions == old(institutions) && donations == old(donations) && ratings == old(ratings)
    {
      Delete(store, Categories, categoryId);
      categories := RemoveBy(categories, CategoryId, categoryId);
    }
  }

  // ---------------------------------------------------------------------
  // Properties of the list patches

  /** An update keeps the list's length, puts the new record wherever its id
      was, and leaves every other element where it was; for an id not in the
      list the list is unchanged. */
  lemma UpdatePatch<T>(s: seq<T>, field: T -> string, x: T)
    ensures |ReplaceBy(s, field, x)| == |s|
    ensures forall i | 0 <= i < |s| && field(s[i]) != field(x) :: ReplaceBy(s, field, x)[i] == s[i]
    ensures forall i | 0 <= i < |s| && field(s[i]) == field(x) :: ReplaceBy(s, field, x)[i] == x
    ensures (forall y | y in s :: field(y) != field(x)) ==> ReplaceBy(s, field, x) == s
  {
    if forall y | y in s :: field(y) != field(x) {
      ReplaceAbsent(s, field, x);
    }
  }

  /** Deleting a category removes every element with that id and keeps the
      rest, in order: deleting from a concatenation deletes from each part. */
  lemma DeletePatch(a: seq<Category>, b: seq<Category>, id: string)
    ensures forall c :: c in RemoveBy(a + b, CategoryId, id) <==> (c in a || c in b) && c.id != id
    ensures RemoveBy(a + b, CategoryId, id) == RemoveBy(a, CategoryId, id) + RemoveBy(b, CategoryId, id)
  {
    RemoveByAppend(a, b, CategoryId, id);
  }

  /** The aggregate `addRating` writes: its count is the number of that
      institution's ratings including the new one, its rating their mean,
      and with scores in a range the mean stays in it. */
  lemma AddRatingAggregate(prior: seq<Rating>, r: Rating, inst: Institution, lo: real, hi: real)
    ensures var before := RatingsByInstitution(prior, r.institutionId);
      var after := Rerated(inst, RatingsByInstitution(prior + [r], r.institutionId));
      && after.totalRatings == |before| + 1
      && after.rating == Mean(before + [r])
      && Sum(before + [r]) == Sum(before) + r.rating
    ensures (forall x | x in prior + [r] :: lo <= x.rating <= hi) ==>
      lo <= Rerated(inst, RatingsByInstitution(prior + [r], r.institutionId)).rating <= hi
  {
    RatingAggregate(prior, r);
    var rs := RatingsByInstitution(prior + [r], r.institutionId);
    if forall x | x in prior + [r] :: lo <= x.rating <= hi {
      assert forall x | x in rs :: x in prior + [r];
      MeanBounds(rs, lo, hi);
    }
  }
}
