/** The records the application keeps: users, institutions, donations,
    categories (with their embedded subcategories) and ratings. Only the
    fields the modelled code reads, writes or seeds appear. Dates are
    millisecond timestamps supplied by the caller. */
module Entities {
  import opened Common

  type Timestamp = nat

  datatype UserRole = Donor | InstitutionRole | Admin

  datatype User = User(
    id: string,
    name: string,
    email: string,
    password: string,          // a bcrypt digest once stored
    phone: string,
    cpf: Option<string>,
    cnpj: Option<string>,
    role: UserRole,
    profileImage: Option<string>,
    createdAt: Timestamp,
    updatedAt: Timestamp)

  datatype Address = Address(
    id: string,
    street: string,
    number: string,
    neighborhood: string,
    city: string,
    state: string,
    zipCode: string,
    latitude: real,
    longitude: real)

  datatype WorkingHours = WorkingHours(dayOfWeek: nat, isOpen: bool, openTime: string, closeTime: string)

  datatype Institution = Institution(
    id: string,
    name: string,
    email: string,
    password: string,
    phone: string,
    cnpj: string,
    role: UserRole,
    description: string,
    address: Address,
    workingHours: seq<WorkingHours>,
    acceptedCategories: seq<string>,   // category NAMES, not ids
    rating: real,
    totalRatings: nat,
    verified: bool,
    createdAt: Timestamp,
    updatedAt: Timestamp)

  datatype Condition = New | UsedGood | UsedFair

  datatype DonationStatus = Pending | Scheduled | Delivered

  datatype Donation = Donation(
    id: string,
    donorId: string,
    institutionId: string,
    category: string,
    subcategory: string,
    quantity: nat,
    condition: Condition,
    status: DonationStatus,
    scheduledDate: Option<Timestamp>,
    deliveredDate: Option<Timestamp>,
    updatedAt: Timestamp)

  datatype Subcategory = Subcategory(id: string, name: string, categoryId: string)

  datatype Category = Category(id: string, name: string, icon: string, subcategories: seq<Subcategory>)

  datatype Rating = Rating(id: string, donorId: string, institutionId: string, rating: real)

  // Field selectors, so that the generic list operations of Common can be
  // given the field a handler compares on.
  function UserId(u: User): string { u.id }
  function UserEmail(u: User): string { u.email }
  function UserCpf(u: User): Option<string> { u.cpf }
  function UserCnpj(u: User): Option<string> { u.cnpj }
  function InstitutionId(i: Institution): string { i.id }
  function DonationId(d: Donation): string { d.id }
  function DonationDonor(d: Donation): string { d.donorId }
  function DonationInstitution(d: Donation): string { d.institutionId }
  function CategoryId(c: Category): string { c.id }
  function SubcategoryId(s: Subcategory): string { s.id }
  function RatingId(r: Rating): string { r.id }
  function RatingInstitution(r: Rating): string { r.institutionId }
  function Self(s: string): string { s }

  /** The invariant the category editor is meant to keep: every embedded
      subcategory carries its owner's id. */
  predicate SubcategoriesPointToOwner(c: Category) {
    forall j | 0 <= j < |c.subcategories| :: c.subcategories[j].categoryId == c.id
  }
}
