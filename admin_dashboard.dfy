/** The data side of AdminDashboard.tsx: the statistics cards and the
    category editor. Each handler builds its new category with spread, map
    or filter and hands it to the provider; the pure part is modelled as a
    function, the handler as a method on the provider. Dialogs, form resets
    and rendering are left out. */
module AdminDashboard {
  import opened Common
  import opened Entities
  import opened Storage
  import opened FileSystem
  import opened DataContext

  // ---------------------------------------------------------------------
  // Statistics

  datatype AdminStats = AdminStats(
    totalInstitutions: nat,
    verifiedInstitutions: nat,
    totalDonations: nat,
    deliveredDonations: nat,
    totalRatings: nat,
    averageRating: real,
    totalCategories: nat,
    totalSubcategories: nat)

  predicate IsVerified(i: Institution) { i.verified }
  predicate IsDelivered(d: Donation) { d.status == Delivered }

  /** `categories.reduce((sum, cat) => sum + cat.subcategories.length, 0)` */
  function SubcategoryTotal(cats: seq<Category>): (n: nat)
    ensures forall c | c in cats :: |c.subcategories| <= n
    ensures cats == [] ==> n == 0
  {
    if cats == [] then 0
    else SubcategoryTotal(cats[..|cats| - 1]) + |cats[|cats| - 1].subcategories|
  }

  /** The statistics object and the two category counters of the page. */
  function Stats(institutions: seq<Institution>, donations: seq<Donation>,
                 categories: seq<Category>, ratings: seq<Rating>): (s: AdminStats)
    ensures s.totalInstitutions == |institutions| && s.verifiedInstitutions <= s.totalInstitutions
    ensures s.totalDonations == |donations| && s.deliveredDonations <= s.totalDonations
    ensures s.totalRatings == |ratings|
    ensures |ratings| == 0 ==> s.averageRating == 0.0
    ensures |ratings| > 0 ==> s.averageRating == Mean(ratings)
    ensures s.totalCategories == |categories| && s.totalSubcategories == SubcategoryTotal(categories)
  {
    AdminStats(
      |institutions|, Count(institutions, IsVerified),
      |donations|, Count(donations, IsDelivered),
      |ratings|, if |ratings| > 0 then Mean(ratings) else 0.0,
      |categories|, SubcategoryTotal(categories))
  }

  /** With every score between 1 and 5 stars the average shown is 0 (no
      ratings) or lies between 1 and 5. */
  lemma AverageWithinStars(institutions: seq<Institution>, donations: seq<Donation>,
                           categories: seq<Category>, ratings: seq<Rating>)
    requires forall x | x in ratings :: 1.0 <= x.rating <= 5.0
    ensures var avg := Stats(institutions, donations, categories, ratings).averageRating;
      avg == 0.0 || 1.0 <= avg <= 5.0
  {
    if |ratings| > 0 {
      MeanBounds(ratings, 1.0, 5.0);
    }
  }

  /** Two lists that differ at one position only have totals that differ by
      the difference of the subcategory counts there. */
  lemma {:induction false} TotalPointwise(a: seq<Category>, b: seq<Category>, i: nat)
    requires |a| == |b| && i < |a|
    requires forall j | 0 <= j < |a| && j != i :: a[j] == b[j]
    ensures SubcategoryTotal(b) + |a[i].subcategories| == SubcategoryTotal(a) + |b[i].subcategories|
  {
    var n := |a|;
    if i == n - 1 {
      assert a[..n - 1] == b[..n - 1];
    } else {
      TotalPointwise(a[..n - 1], b[..n - 1], i);
    }
  }

  // ---------------------------------------------------------------------
  // The category editor, as list transformations

  /** Every category's subcategories point to it. */
  predicate AllPointToOwners(cats: seq<Category>) {
    forall c | c in cats :: SubcategoriesPointToOwner(c)
  }

  predicate DistinctIds(cats: seq<Category>) {
    forall j, k | 0 <= j < |cats| && 0 <= k < |cats| && cats[j].id == cats[k].id :: j == k
  }

  /** `handleAddCategory`'s check and record: refused when the name or the
      icon is blank once trimmed; otherwise a category with the given name
      and icon, the fresh id and no subcategories. */
  function CategoryDraft(name: string, icon: string, id: string): (r: Option<Category>)
    ensures r.None? <==> AllWhitespace(name) || AllWhitespace(icon)
    ensures r.Some? ==> r.value.id == id && r.value.name == name && r.value.icon == icon
    ensures r.Some? ==> r.value.subcategories == [] && SubcategoriesPointToOwner(r.value)
  {
    TrimEmptyIffBlank(name);
    TrimEmptyIffBlank(icon);
    if Trim(name) == [] || Trim(icon) == [] then None
    else Some(Category(id, name, icon, []))
  }

  datatype SubcategoryOutcome = Rejected | NotFound | Updated(category: Category)

  /** `handleAddSubcategory`'s decision: refused for a blank name or no
      selected category, nothing for an unknown category, and otherwise the
      first category with that id with the new subcategory appended. */
  function SubcategoryAdded(categories: seq<Category>, name: string, categoryId: string, subId: string)
      : (r: SubcategoryOutcome)
    ensures r == Rejected <==> AllWhitespace(name) || categoryId == ""
    ensures r == NotFound <==> !AllWhitespace(name) && categoryId != "" && forall c | c in categories :: c.id != categoryId
    ensures r.Updated? ==> var found := FindBy(categories, CategoryId, categoryId);
      && found.Some?
      && r.category == found.value.(subcategories := found.value.subcategories + [Subcategory(subId, name, categoryId)])
    ensures r.Updated? ==> r.category.id == categoryId
  {
    TrimEmptyIffBlank(name);
    if Trim(name) == [] || categoryId == "" then Rejected
    else
      match FindBy(categories, CategoryId, categoryId)
      case None => NotFound
      case Some(category) =>
        Updated(category.(subcategories := category.subcategories + [Subcategory(subId, name, categoryId)]))
  }

  /** `handleEditSubcategory`'s new category: the entry with the edited
      subcategory's id replaced in the first category with that id, nothing
      else changed; None when the category is unknown. */
  function SubcategoryEdited(categories: seq<Category>, categoryId: string, sub: Subcategory): (r: Option<Category>)
    ensures r.None? <==> forall c | c in categories :: c.id != categoryId
    ensures r.Some? ==> var found := FindBy(categories, CategoryId, categoryId);
      && found.Some?
      && r.value == found.value.(subcategories := ReplaceBy(found.value.subcategories, SubcategoryId, sub))
  {
    match FindBy(categories, CategoryId, categoryId)
    case None => None
    case Some(category) => Some(category.(subcategories := ReplaceBy(category.subcategories, SubcategoryId, sub)))
  }

  /** `handleDeleteSubcategory`'s new category: every entry with that id
      filtered out of the first category with that id; None when the
      category is unknown. */
  function SubcategoryDeleted(categories: seq<Category>, categoryId: string, subId: string): (r: Option<Category>)
    ensures r.None? <==> forall c | c in categories :: c.id != categoryId
    ensures r.Some? ==> var found := FindBy(categories, CategoryId, categoryId);
      && found.Some?
      && r.value == found.value.(subcategories := RemoveBy(found.value.subcategories, SubcategoryId, subId))
  {
    match FindBy(categories, CategoryId, categoryId)
    case None => None
    case Some(category) => Some(category.(subcategories := RemoveBy(category.subcategories, SubcategoryId, subId)))
  }

  /** Adding keeps the earlier subcategories in place and appends one that
      points to the category, so the ownership invariant is preserved. */
  lemma AddKeepsOwners(categories: seq<Category>, name: string, categoryId: string, subId: string)
    requires AllPointToOwners(categories)
    ensures var r := SubcategoryAdded(categories, name, categoryId, subId);
      r.Updated? ==> SubcategoriesPointToOwner(r.category) && |r.category.subcategories| >= 1
    ensures var r := SubcategoryAdded(categories, name, categoryId, subId);
      r.Updated? ==> r.category.subcategories[|r.category.subcategories| - 1] == Subcategory(subId, name, categoryId)
  {
    var r := SubcategoryAdded(categories, name, categoryId, subId);
    if r.Updated? {
      var found := FindBy(categories, CategoryId, categoryId).value;
      assert SubcategoriesPointToOwner(found);
    }
  }

  /** Editing a subcategory (whose owner is that category, as the editor
      copies it from there) keeps the list's length and order and the
      ownership invariant. */
  lemma EditKeepsOwners(categories: seq<Category>, categoryId: string, sub: Subcategory)
    requires AllPointToOwners(categories) && sub.categoryId == categoryId
    ensures var r := SubcategoryEdited(categories, categoryId, sub);
      r.Some? ==> SubcategoriesPointToOwner(r.value)
  {
    var r := SubcategoryEdited(categories, categoryId, sub);
    if r.Some? {
      var found := FindBy(categories, CategoryId, categoryId).value;
      assert SubcategoriesPointToOwner(found);
    }
  }

  /** Deleting a subcategory keeps the others, in order, and the ownership
      invariant. */
  lemma DeleteKeepsOwners(categories: seq<Category>, categoryId: string, subId: string)
    requires AllPointToOwners(categories)
    ensures var r := SubcategoryDeleted(categories, categoryId, subId);
      r.Some? ==> SubcategoriesPointToOwner(r.value)
  {
    var r := SubcategoryDeleted(categories, categoryId, subId);
    if r.Some? {
      var c := FindBy(categories, CategoryId, categoryId).value;
      assert SubcategoriesPointToOwner(c);
      forall j | 0 <= j < |r.value.subcategories| ensures r.value.subcategories[j].categoryId == r.value.id {
        assert r.value.subcategories[j] in c.subcategories;
      }
    }
  }

  /** `updateCategory` with a category that points to its subcategories
      keeps the invariant over the whole list. */
  lemma ReplaceKeepsOwners(categories: seq<Category>, c: Category)
    requires AllPointToOwners(categories) && SubcategoriesPointToOwner(c)
    ensures AllPointToOwners(ReplaceBy(categories, CategoryId, c))
  {
    ReplaceContents(categories, CategoryId, c);
  }

  /** With distinct category ids, adding a subcategory and updating the list
      raises the subcategory total by exactly one. */
  lemma AddGrowsTotal(categories: seq<Category>, name: string, categoryId: string, subId: string)
    requires DistinctIds(categories)
    ensures var r := SubcategoryAdded(categories, name, categoryId, subId);
      r.Updated? ==> SubcategoryTotal(ReplaceBy(categories, CategoryId, r.category)) == SubcategoryTotal(categories) + 1
  {
    var r := SubcategoryAdded(categories, name, categoryId, subId);
    if r.Updated? {
      var c :| c in categories && c.id == categoryId
        && r.category == c.(subcategories := c.subcategories + [Subcategory(subId, name, categoryId)]);
      var i :| 0 <= i < |categories| && categories[i] == c;
      var b := ReplaceBy(categories, CategoryId, r.category);
      assert b[i] == r.category;
      TotalPointwise(categories, b, i);
    }
  }

  // ---------------------------------------------------------------------
  // The handlers

  /** `handleAddCategory()`: nothing is written for a blank name or icon. */
  method HandleAddCategory(ctx: DataProvider, name: string, icon: string, id: string) returns (added: bool)
    requires ctx.store.Valid()
    modifies ctx, ctx.store
    ensures ctx.store.Valid()
    ensures added <==> CategoryDraft(name, icon, id).Some?
    ensures !added ==> ctx.store.items == old(ctx.store.items) && ctx.categories == old(ctx.categories)
    ensures added ==> ctx.categories == old(ctx.categories) + [CategoryDraft(name, icon, id).value]
    ensures added ==>
      ctx.store.items == old(ctx.store.items)[EntityKey(Categories, id) := CategoryDoc(CategoryDraft(name, icon, id).value)]
    ensures ctx.institutions == old(ctx.institutions) && ctx.donations == old(ctx.donations) && ctx.ratings == old(ctx.ratings)
  {
    var category := CategoryDraft(name, icon, id);
    if category.None? {
      return false;
    }
    ctx.AddCategory(category.value);
    added := true;
  }

  /** `handleAddSubcategory()` */
  method HandleAddSubcategory(ctx: DataProvider, name: string, categoryId: string, subId: string)
      returns (r: SubcategoryOutcome)
    requires ctx.store.Valid()
    modifies ctx, ctx.store
    ensures ctx.store.Valid()
    ensures r == SubcategoryAdded(old(ctx.categories), name, categoryId, subId)
    ensures !r.Updated? ==> ctx.store.items == old(ctx.store.items) && ctx.categories == old(ctx.categories)
    ensures r.Updated? ==> ctx.categories == ReplaceBy(old(ctx.categories), CategoryId, r.category)
    ensures r.Updated? ==> ctx.store.items == old(ctx.store.items)[EntityKey(Categories, categoryId) := CategoryDoc(r.category)]
    ensures ctx.institutions == old(ctx.institutions) && ctx.donations == old(ctx.donations) && ctx.ratings == old(ctx.ratings)
  {
    r := SubcategoryAdded(ctx.categories, name, categoryId, subId);
    if r.Updated? {
      ctx.UpdateCategory(r.category);
    }
  }

  /** `handleEditCategory()`: saves the category being edited, if any. */
  method HandleEditCategory(ctx: DataProvider, editing: Option<Category>)
    requires ctx.store.Valid()
    modifies ctx, ctx.store
    ensures ctx.store.Valid()
    ensures editing.None? ==> ctx.store.items == old(ctx.store.items) && ctx.categories == old(ctx.categories)
    ensures editing.Some? ==> ctx.categories == ReplaceBy(old(ctx.categories), CategoryId, editing.value)
    ensures editing.Some? ==>
      ctx.store.items == old(ctx.store.items)[EntityKey(Categories, editing.value.id) := CategoryDoc(editing.value)]
    ensures ctx.institutions == old(ctx.institutions) && ctx.donations == old(ctx.donations) && ctx.ratings == old(ctx.ratings)
  {
    if editing.Some? {
      ctx.UpdateCategory(editing.value);
    }
  }

  /** `handleEditSubcategory()`: `editing` holds the edited subcategory and
      the id of the category it was taken from. */
  method HandleEditSubcategory(ctx: DataProvider, editing: Option<(Subcategory, string)>) returns (r: Option<Category>)
    requires ctx.store.Valid()
    modifies ctx, ctx.store
    ensures ctx.store.Valid()
    ensures editing.None? ==> r.None?
    ensures editing.Some? ==> r == SubcategoryEdited(old(ctx.categories), editing.value.1, editing.value.0)
    ensures r.None? ==> ctx.store.items == old(ctx.store.items) && ctx.categories == old(ctx.categories)
    ensures r.Some? ==> ctx.categories == ReplaceBy(old(ctx.categories), CategoryId, r.value)
    ensures r.Some? ==> ctx.store.items == old(ctx.store.items)[EntityKey(Categories, r.value.id) := CategoryDoc(r.value)]
    ensures ctx.institutions == old(ctx.institutions) && ctx.donations == old(ctx.donations) && ctx.ratings == old(ctx.ratings)
  {
    if editing.None? {
      return None;
    }
    r := SubcategoryEdited(ctx.categories, editing.value.1, editing.value.0);
    if r.Some? {
      ctx.UpdateCategory(r.value);
    }
  }

  /** `handleDeleteCategory(categoryId)`: deletes only when the dialog was
      confirmed. */
  method HandleDeleteCategory(ctx: DataProvider, categoryId: string, confirmed: bool)
    requires ctx.store.Valid()
    modifies ctx, ctx.store
    ensures ctx.store.Valid()
    ensures !confirmed ==> ctx.store.items == old(ctx.store.items) && ctx.categories == old(ctx.categories)
    ensures confirmed ==> ctx.categories == RemoveBy(old(ctx.categories), CategoryId, categoryId)
    ensures confirmed ==> ctx.store.items == old(ctx.store.items) - {EntityKey(Categories, categoryId)}
    ensures ctx.institutions == old(ctx.institutions) && ctx.donations == old(ctx.donations) && ctx.ratings == old(ctx.ratings)
  {
    if confirmed {
      ctx.DeleteCategory(categoryId);
    }
  }

  /** `handleDeleteSubcategory(categoryId, subcategoryId)`, after the
      dialog. */
  method HandleDeleteSubcategory(ctx: DataProvider, categoryId: string, subId: string, confirmed: bool)
      returns (r: Option<Category>)
    requires ctx.store.Valid()
    modifies ctx, ctx.store
    ensures ctx.store.Valid()
    ensures !confirmed ==> r.None?
    ensures confirmed ==> r == SubcategoryDeleted(old(ctx.categories), categoryId, subId)
    ensures r.None? ==> ctx.store.items == old(ctx.store.items) && ctx.categories == old(ctx.categories)
    ensures r.Some? ==> ctx.categories == ReplaceBy(old(ctx.categories), CategoryId, r.value)
    ensures r.Some? ==> ctx.store.items == old(ctx.store.items)[EntityKey(Categories, r.value.id) := CategoryDoc(r.value)]
    ensures ctx.institutions == old(ctx.institutions) && ctx.donations == old(ctx.donations) && ctx.ratings == old(ctx.ratings)
  {
    if !confirmed {
      return None;
    }
    r := SubcategoryDeleted(ctx.categories, categoryId, subId);
    if r.Some? {
      ctx.UpdateCategory(r.value);
    }
  }
}
