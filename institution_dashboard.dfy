/** The data side of InstitutionDashboard.tsx: which institution and which
    donations the page shows, the accepted-categories toggle, confirming a
    delivery, saving the profile form, and the statistics cards. */
module InstitutionDashboard {
  import opened Common
  import opened Entities
  import opened Storage
  import opened FileSystem
  import opened DataService
  import opened DataContext
  import AuthService

  // ---------------------------------------------------------------------
  // What the page shows

  /** The effect on `[user, donations, institutions]`: for a signed-in
      institution user whose id names an institution, that institution and
      exactly its donations, in list order; otherwise the effect sets
      nothing. */
  function InstitutionView(user: Option<User>, institutions: seq<Institution>, donations: seq<Donation>)
      : (r: Option<(Institution, seq<Donation>)>)
    ensures r.Some? <==>
      user.Some? && user.value.role == InstitutionRole && exists i | i in institutions :: i.id == user.value.id
    ensures r.Some? ==> r.value.0 in institutions && r.value.0.id == user.value.id
    ensures r.Some? ==> forall d :: d in r.value.1 <==> d in donations && d.institutionId == user.value.id
    ensures r.Some? ==> r.value.1 == DonationsByInstitution(donations, r.value.0.id)
  {
    if user.Some? && user.value.role == InstitutionRole then
      match FindBy(institutions, InstitutionId, user.value.id)
      case None => None
      case Some(inst) => Some((inst, DonationsByInstitution(donations, inst.id)))
    else None
  }

  // ---------------------------------------------------------------------
  // Accepted categories

  /** `handleCategoryToggle(categoryName)` on the form's list. */
  function Toggled(accepted: seq<string>, name: string): (r: seq<string>)
    ensures name in r <==> name !in accepted
    ensures forall x | x != name :: x in r <==> x in accepted
    ensures name in accepted ==> forall x :: multiset(r)[x] == if x == name then 0 else multiset(accepted)[x]
    ensures name !in accepted ==> r == accepted + [name]
  {
    if name in accepted then RemoveBy(accepted, Self, name) else accepted + [name]
  }

  /** Toggling an absent name twice gives back the list; toggling a present
      name twice leaves one copy of it, at the end, after the others in
      their order. */
  lemma ToggleTwice(accepted: seq<string>, name: string)
    ensures name !in accepted ==> Toggled(Toggled(accepted, name), name) == accepted
    ensures name in accepted ==> Toggled(Toggled(accepted, name), name) == RemoveBy(accepted, Self, name) + [name]
  {
    if name !in accepted {
      RemoveByAppend(accepted, [name], Self, name);
      RemoveByAbsent(accepted, Self, name);
      assert RemoveBy([name], Self, name) == [];
      assert accepted + [] == accepted;
    }
  }

  // ---------------------------------------------------------------------
  // Confirming a delivery

  /** The button is rendered only for scheduled donations. */
  predicate ConfirmOffered(d: Donation) {
    d.status == Scheduled
  }

  /** The donation `handleConfirmDelivery` writes: delivered, with the
      delivery and update dates set, every other field as it was. */
  function MarkedDelivered(d: Donation, now: Timestamp): (r: Donation)
    ensures r.status == Delivered && r.deliveredDate == Some(now) && r.updatedAt == now
    ensures r.(status := d.status, deliveredDate := d.deliveredDate, updatedAt := d.updatedAt) == d
  {
    d.(status := Delivered, deliveredDate := Some(now), updatedAt := now)
  }

  /** Confirming moves a scheduled donation forward, and a delivered one is
      not offered again. */
  lemma ConfirmMovesForward(d: Donation, now: Timestamp)
    requires ConfirmOffered(d)
    ensures !ConfirmOffered(MarkedDelivered(d, now))
    ensures MarkedDelivered(d, now).id == d.id && MarkedDelivered(d, now).institutionId == d.institutionId
  {
  }

  /** `handleConfirmDelivery(donationId)`: looks the id up in the page's
      donation list; when found, updates the donation through the
      provider; otherwise nothing happens. */
  method HandleConfirmDelivery(ctx: DataProvider, shown: seq<Donation>, donationId: string, now: Timestamp)
      returns (r: Option<Donation>)
    requires ctx.store.Valid()
    modifies ctx, ctx.store
    ensures ctx.store.Valid()
    ensures r.None? <==> forall d | d in shown :: d.id != donationId
    ensures r.Some? ==> r.value == MarkedDelivered(FindBy(shown, DonationId, donationId).value, now)
    ensures r.None? ==> ctx.store.items == old(ctx.store.items) && ctx.donations == old(ctx.donations)
    ensures r.Some? ==> ctx.donations == ReplaceBy(old(ctx.donations), DonationId, r.value)
    ensures r.Some? ==> ctx.store.items == old(ctx.store.items)[EntityKey(Donations, donationId) := DonationDoc(r.value)]
    ensures ctx.institutions == old(ctx.institutions) && ctx.categories == old(ctx.categories) && ctx.ratings == old(ctx.ratings)
  {
    var donation := FindBy(shown, DonationId, donationId);
    if donation.None? {
      return None;
    }
    var updatedDonation := MarkedDelivered(donation.value, now);
    ctx.UpdateDonation(updatedDonation);
    r := Some(updatedDonation);
  }

  /** After confirming, the donation in the provider's list (if it is there)
      is delivered and every other donation is as it was. */
  lemma ConfirmedInList(donations: seq<Donation>, d: Donation, now: Timestamp)
    ensures var after := ReplaceBy(donations, DonationId, MarkedDelivered(d, now));
      && |after| == |donations|
      && (forall i | 0 <= i < |after| && donations[i].id == d.id :: after[i].status == Delivered)
      && (forall i | 0 <= i < |after| && donations[i].id != d.id :: after[i] == donations[i])
  {
  }

  // ---------------------------------------------------------------------
  // Saving the profile form

  datatype EditForm = EditForm(
    name: string,
    email: string,
    phone: string,
    description: string,
    acceptedCategories: seq<string>)

  /** The form the effect fills from the institution. */
  function FormOf(inst: Institution): (f: EditForm)
    ensures f.name == inst.name && f.email == inst.email && f.phone == inst.phone
    ensures f.description == inst.description && f.acceptedCategories == inst.acceptedCategories
  {
    EditForm(inst.name, inst.email, inst.phone, inst.description, inst.acceptedCategories)
  }

  /** The user record of `handleSaveChanges`: name, email and phone from the
      form, the rest unchanged. */
  function EditedUser(user: User, form: EditForm): (u: User)
    ensures u.name == form.name && u.email == form.email && u.phone == form.phone
    ensures u.(name := user.name, email := user.email, phone := user.phone) == user
  {
    user.(name := form.name, email := form.email, phone := form.phone)
  }

  /** The institution record of `handleSaveChanges`: the five form fields
      and the update date, the rest unchanged. */
  function EditedInstitution(inst: Institution, form: EditForm, now: Timestamp): (i: Institution)
    ensures i.name == form.name && i.email == form.email && i.phone == form.phone
    ensures i.description == form.description && i.acceptedCategories == form.acceptedCategories
    ensures i.updatedAt == now
    ensures i.(name := inst.name, email := inst.email, phone := inst.phone, description := inst.description,
               acceptedCategories := inst.acceptedCategories, updatedAt := inst.updatedAt) == inst
  {
    inst.(name := form.name, email := form.email, phone := form.phone, description := form.description,
          acceptedCategories := form.acceptedCategories, updatedAt := now)
  }

  /** The two records agree on name, email and phone, and saving an
      unedited form changes the institution only in its update date. */
  lemma SavedRecordsAgree(user: User, inst: Institution, form: EditForm, now: Timestamp)
    ensures EditedUser(user, form).name == EditedInstitution(inst, form, now).name
    ensures EditedUser(user, form).email == EditedInstitution(inst, form, now).email
    ensures EditedUser(user, form).phone == EditedInstitution(inst, form, now).phone
    ensures EditedInstitution(inst, FormOf(inst), now) == inst.(updatedAt := now)
  {
  }

  /** `handleSaveChanges()`: the user is saved (record and session slot,
      with `updateUser`'s fresh date) before the institution. `editedAt` is
      the date taken for the institution, `savedAt` the one `updateUser`
      takes. */
  method HandleSaveChanges(ctx: DataProvider, institution: Option<Institution>, user: Option<User>,
                           form: EditForm, editedAt: Timestamp, savedAt: Timestamp)
    requires ctx.store.Valid()
    modifies ctx, ctx.store
    ensures ctx.store.Valid()
    ensures institution.None? || user.None? ==>
      ctx.store.items == old(ctx.store.items) && ctx.institutions == old(ctx.institutions)
    ensures institution.Some? && user.Some? ==>
      var u := EditedUser(user.value, form).(updatedAt := savedAt);
      var i := EditedInstitution(institution.value, form, editedAt);
      && ctx.institutions == ReplaceBy(old(ctx.institutions), InstitutionId, i)
      && ctx.store.items == old(ctx.store.items)[EntityKey(Users, u.id) := UserDoc(u)]
                                                [AuthService.CurrentUserKey := UserDoc(u)]
                                                [EntityKey(Institutions, i.id) := InstitutionDoc(i)]
    ensures ctx.donations == old(ctx.donations) && ctx.categories == old(ctx.categories) && ctx.ratings == old(ctx.ratings)
  {
    if institution.None? || user.None? {
      return;
    }
    var updatedUser := EditedUser(user.value, form);
    var updatedInstitution := EditedInstitution(institution.value, form, editedAt);
    var _ := AuthService.UpdateUser(ctx.store, updatedUser, savedAt);
    ctx.UpdateInstitution(updatedInstitution);
  }

  // ---------------------------------------------------------------------
  // Statistics

  datatype InstitutionStats = InstitutionStats(total: nat, scheduled: nat, delivered: nat, rating: real)

  predicate IsScheduled(d: Donation) { d.status == Scheduled }
  predicate IsDeliveredDonation(d: Donation) { d.status == Delivered }

  /** The page's `stats`: no donation is both scheduled and delivered, so
      the two counts never exceed the total. */
  function Stats(shown: seq<Donation>, institution: Option<Institution>): (s: InstitutionStats)
    ensures s.total == |shown|
    ensures s.scheduled + s.delivered <= s.total
    ensures s.rating == if institution.Some? then institution.value.rating else 0.0
  {
    CountDisjoint(shown, IsScheduled, IsDeliveredDonation);
    InstitutionStats(|shown|, Count(shown, IsScheduled), Count(shown, IsDeliveredDonation),
                     if institution.Some? then institution.value.rating else 0.0)
  }
}
