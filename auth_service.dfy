/** authService.ts: registration with its uniqueness checks, login against
    the stored digests, and the single current-user slot of `localStorage`.
    bcrypt's `hash` and `compare` are parameters; the salt rounds are folded
    into `hash`. */
module AuthService {
  import opened Common
  import opened Entities
  import opened Storage
  import opened FileSystem

  /** The key of the session slot. It lies outside `benigna_data`. */
  const CurrentUserKey := "benigna_current_user"

  datatype AuthError = EmailTaken | CpfTaken | CnpjTaken | EmailNotFound | WrongPassword

  /** The fields `register` reads from its partial user. */
  datatype RegisterInput = RegisterInput(
    name: string,
    email: string,
    password: string,
    phone: string,
    cpf: Option<string>,
    cnpj: Option<string>,
    role: UserRole,
    profileImage: Option<string>)

  /** A CPF or CNPJ field takes part in the checks only when it is truthy:
      present and not the empty string. */
  predicate Provided(o: Option<string>) {
    o.Some? && o.value != ""
  }

  // ---------------------------------------------------------------------
  // The session slot

  lemma SlotOutsideData()
    ensures !StartsWith(CurrentUserKey, BaseDir)
  {
    assert CurrentUserKey[8] == 'c' && BaseDir[8] == 'd';
  }

  lemma SlotOutsideCollection<T>(c: Collection<T>)
    ensures !InCollection(c, CurrentUserKey)
  {
    SlotOutsideData();
    if InCollection(c, CurrentUserKey) {
      CollectionKeyUnderBase(c, CurrentUserKey);
    }
  }

  /** Writing or clearing the session slot keeps every collection healthy. */
  lemma SessionWriteKeepsHealthy<T>(items: map<string, Value>, c: Collection<T>, v: Value)
    requires Healthy(items, c)
    ensures Healthy(items[CurrentUserKey := v], c)
    ensures Healthy(items - {CurrentUserKey}, c)
  {
    SlotOutsideCollection(c);
    OutsideWriteKeepsHealthy(items, c, CurrentUserKey, v);
    RemoveKeepsHealthy(items, c, CurrentUserKey);
  }

  /** `getCurrentUser()`: the user in the slot, or null when the slot is
      empty or holds something that is not a user. */
  function CurrentUser(items: map<string, Value>): (r: Option<User>)
    ensures r.Some? ==> CurrentUserKey in items && items[CurrentUserKey] == UserDoc(r.value)
    ensures r.None? ==> CurrentUserKey !in items || !items[CurrentUserKey].UserDoc?
  {
    if CurrentUserKey in items then AsUser(items[CurrentUserKey]) else None
  }

  /** `clearAllData` (and so `importData`) keeps the session. */
  lemma ClearKeepsSession(items: map<string, Value>)
    ensures CurrentUser(Cleared(items)) == CurrentUser(items)
  {
    SlotOutsideData();
  }

  /** `logout()` */
  method Logout(ls: LocalStorage)
    requires ls.Valid()
    modifies ls
    ensures ls.Valid()
    ensures ls.items == old(ls.items) - {CurrentUserKey}
    ensures CurrentUser(ls.items) == None
  {
    ls.RemoveItem(CurrentUserKey);
  }

  /** Writing a user's record and then the slot (what `register` and
      `updateUser` do): both `getUser(id)` and `getCurrentUser()` return
      that user, and no collection other than the users changes. */
  lemma WrittenUserReadsBack<T>(items: map<string, Value>, u: User, c: Collection<T>)
    requires Disjoint(Users, c)
    ensures var m := items[EntityKey(Users, u.id) := UserDoc(u)][CurrentUserKey := UserDoc(u)];
      && Lookup(m, Users, u.id) == Some(u)
      && CurrentUser(m) == Some(u)
      && SameSlice(items, m, c)
  {
    var m1 := items[EntityKey(Users, u.id) := UserDoc(u)];
    EntityKeyInCollection(Users, u.id);
    SlotOutsideCollection(Users);
    assert EntityKey(Users, u.id) != CurrentUserKey;
    WriteLeavesOtherCollections(items, Users, u, u.id, c);
    SlotOutsideCollection(c);
    WriteOutside(m1, CurrentUserKey, UserDoc(u), c);
  }

  // ---------------------------------------------------------------------
  // register

  /** The three checks of `register`, in their order: email, then CPF, then
      CNPJ, the last two only for a provided value. */
  function RegistrationError(users: seq<User>, input: RegisterInput): (r: Option<AuthError>)
    ensures r == Some(EmailTaken) <==> exists u | u in users :: u.email == input.email
    ensures r == Some(CpfTaken) <==>
      && (forall u | u in users :: u.email != input.email)
      && Provided(input.cpf) && exists u | u in users :: u.cpf == input.cpf
    ensures r == Some(CnpjTaken) <==>
      && (forall u | u in users :: u.email != input.email)
      && (Provided(input.cpf) ==> forall u | u in users :: u.cpf != input.cpf)
      && Provided(input.cnpj) && exists u | u in users :: u.cnpj == input.cnpj
    ensures r.None? || r == Some(EmailTaken) || r == Some(CpfTaken) || r == Some(CnpjTaken)
  {
    if FindBy(users, UserEmail, input.email).Some? then Some(EmailTaken)
    else if Provided(input.cpf) && FindBy(users, UserCpf, input.cpf).Some? then Some(CpfTaken)
    else if Provided(input.cnpj) && FindBy(users, UserCnpj, input.cnpj).Some? then Some(CnpjTaken)
    else None
  }

  /** The record `register` builds: a fresh id, the digest in place of the
      password, both dates set to now. */
  function NewUser(input: RegisterInput, id: string, now: Timestamp, hash: string -> string): (u: User)
    ensures u.id == id && u.password == hash(input.password)
    ensures u.email == input.email && u.cpf == input.cpf && u.cnpj == input.cnpj && u.role == input.role
    ensures u.createdAt == now && u.updatedAt == now
  {
    User(id, input.name, input.email, hash(input.password), input.phone,
         input.cpf, input.cnpj, input.role, input.profileImage, now, now)
  }

  /** `register(userData)`: on a clash nothing is written; otherwise the new
      user is saved and becomes the current user. */
  method Register(ls: LocalStorage, input: RegisterInput, id: string, now: Timestamp, hash: string -> string)
      returns (r: Result<User, AuthError>)
    requires ls.Valid()
    modifies ls
    ensures ls.Valid()
    ensures var e := RegistrationError(Listed(Scan(old(ls.keys), old(ls.items), Users)), input);
      && (e.Some? ==> r == Failure(e.value) && ls.keys == old(ls.keys) && ls.items == old(ls.items))
      && (e.None? ==> r == Success(NewUser(input, id, now, hash)))
      && (e.None? ==> ls.items == old(ls.items)[EntityKey(Users, id) := UserDoc(r.value)][CurrentUserKey := UserDoc(r.value)])
  {
    var users := GetAll(ls, Users);
    var e := RegistrationError(users, input);
    if e.Some? {
      return Failure(e.value);
    }
    var newUser := NewUser(input, id, now, hash);
    Save(ls, Users, newUser);
    ls.SetItem(CurrentUserKey, UserDoc(newUser));
    r := Success(newUser);
  }

  /** Once a user is registered into a store whose users all parse, a second
      registration with the same email is refused. */
  lemma RegisteredEmailIsTaken(items: map<string, Value>, keys: seq<string>, input: RegisterInput,
                               id: string, now: Timestamp, hash: string -> string, again: RegisterInput)
    requires !Corrupt(items, Users) && again.email == input.email
    requires var u := NewUser(input, id, now, hash);
      forall k :: k in keys <==> k in items[EntityKey(Users, id) := UserDoc(u)][CurrentUserKey := UserDoc(u)]
    ensures var u := NewUser(input, id, now, hash);
      RegistrationError(Listed(Scan(keys, items[EntityKey(Users, id) := UserDoc(u)][CurrentUserKey := UserDoc(u)], Users)), again)
        == Some(EmailTaken)
  {
    var u := NewUser(input, id, now, hash);
    var ek := EntityKey(Users, id);
    var m := items[ek := UserDoc(u)][CurrentUserKey := UserDoc(u)];
    EntityKeyInCollection(Users, id);
    SlotOutsideCollection(Users);
    assert m[ek] == UserDoc(u);
    assert !Corrupt(m, Users) by {
      forall k | k in m && InCollection(Users, k) ensures AsUser(m[k]).Some? {
        if k != ek {
          assert k in items && m[k] == items[k];
        }
      }
    }
    assert IsStored(m, Users, u);
    ScanOfStore(keys, m, Users);
  }

  /** One user record that does not parse empties the scan, and then every
      registration passes the three checks, whatever the stored users'
      emails and documents are. */
  lemma CorruptUsersPassChecks(keys: seq<string>, items: map<string, Value>, input: RegisterInput)
    requires forall k :: k in keys <==> k in items
    requires Corrupt(items, Users)
    ensures RegistrationError(Listed(Scan(keys, items, Users)), input) == None
  {
    ScanOfStore(keys, items, Users);
  }

  // ---------------------------------------------------------------------
  // login

  /** What `login` decides: the first user with that email, accepted when
      `compare` accepts the password against the stored digest. */
  function LoginResult(users: seq<User>, email: string, password: string, compare: (string, string) -> bool)
      : (r: Result<User, AuthError>)
    ensures r == Failure(EmailNotFound) <==> forall u | u in users :: u.email != email
    ensures forall i | 0 <= i < |users| && users[i].email == email && (forall j | 0 <= j < i :: users[j].email != email) ::
      && (r.Success? <==> compare(password, users[i].password))
      && (r.Success? ==> r.value == users[i])
      && (r.Failure? ==> r.error == WrongPassword)
  {
    var i := FirstIndex(users, UserEmail, email);
    if i == |users| then Failure(EmailNotFound)
    else if !compare(password, users[i].password) then Failure(WrongPassword)
    else Success(users[i])
  }

  /** `login(email, password)`: the slot is written only on success. */
  method Login(ls: LocalStorage, email: string, password: string, compare: (string, string) -> bool)
      returns (r: Result<User, AuthError>)
    requires ls.Valid()
    modifies ls
    ensures ls.Valid()
    ensures r == LoginResult(Listed(Scan(old(ls.keys), old(ls.items), Users)), email, password, compare)
    ensures r.Failure? ==> ls.keys == old(ls.keys) && ls.items == old(ls.items)
    ensures r.Success? ==> ls.items == old(ls.items)[CurrentUserKey := UserDoc(r.value)]
  {
    var users := GetAll(ls, Users);
    var user := FindBy(users, UserEmail, email);
    if user.None? {
      return Failure(EmailNotFound);
    }
    var isPasswordValid := compare(password, user.value.password);
    if !isPasswordValid {
      return Failure(WrongPassword);
    }
    ls.SetItem(CurrentUserKey, UserDoc(user.value));
    r := Success(user.value);
  }

  /** A successful login leaves the user's record as it was and makes it the
      current user. */
  lemma LoginSetsSession(items: map<string, Value>, u: User)
    ensures CurrentUser(items[CurrentUserKey := UserDoc(u)]) == Some(u)
    ensures SameSlice(items, items[CurrentUserKey := UserDoc(u)], Users)
  {
    SlotOutsideCollection(Users);
  }

  // ---------------------------------------------------------------------
  // updateUser and the sample admin

  /** `updateUser(user)`: the record with a refreshed `updatedAt`, saved and
      written to the slot. */
  method UpdateUser(ls: LocalStorage, user: User, now: Timestamp) returns (updated: User)
    requires ls.Valid()
    modifies ls
    ensures ls.Valid()
    ensures updated == user.(updatedAt := now)
    ensures ls.items == old(ls.items)[EntityKey(Users, user.id) := UserDoc(updated)][CurrentUserKey := UserDoc(updated)]
  {
    updated := user.(updatedAt := now);
    Save(ls, Users, updated);
    ls.SetItem(CurrentUserKey, UserDoc(updated));
  }

  /** The administrator `initializeSampleData` seeds. */
  function SampleAdmin(id: string, now: Timestamp, hash: string -> string): (u: User)
    ensures u.id == id && u.role == Admin && u.email == "admin@benigna.com"
    ensures u.password == hash("admin123")
  {
    User(id, "Administrador", "admin@benigna.com", hash("admin123"), "(11) 99999-9999",
         None, None, Admin, None, now, now)
  }

  /** `initializeSampleData()`: the admin is saved only when the user scan
      finds nobody. */
  method InitializeSampleData(ls: LocalStorage, id: string, now: Timestamp, hash: string -> string)
    requires ls.Valid()
    modifies ls
    ensures ls.Valid()
    ensures var stored := Listed(Scan(old(ls.keys), old(ls.items), Users));
      && (|stored| > 0 ==> ls.keys == old(ls.keys) && ls.items == old(ls.items))
      && (|stored| == 0 ==> ls.items == old(ls.items)[EntityKey(Users, id) := UserDoc(SampleAdmin(id, now, hash))])
  {
    var users := GetAll(ls, Users);
    if |users| == 0 {
      Save(ls, Users, SampleAdmin(id, now, hash));
    }
  }
}
