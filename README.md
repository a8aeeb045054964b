# Benigna donation platform: a verified model of its storage and record-keeping

Benigna connects donors with charitable institutions. The browser app keeps
all of its data in `localStorage`, laid out as a pretend directory tree:
every record sits under a key of the form `benigna_data/<type>/<id>.json`.
Directories are marked by `…/.directory` keys. The signed-in user sits in a
separate slot, `benigna_current_user`.

This project models, in Dafny:

- **the store** (`storage.dfy`): `localStorage` as a class. It holds a
  key-to-value map and the key enumeration, which contains each key once.
  Values are typed records, not JSON text.
  - `Unparsable` stands for text that `JSON.parse` rejects.
  - A record of the wrong type is treated the same way.
- **the file-system service** (`file_system.dfy`) provides, for every entity
  type:
  - save, get, get-all (the prefix-and-suffix scan over every key) and
    delete;
  - the directory markers;
  - `clearAllData`, `exportData` and `importData`.
  The five per-type copies in the source are one generic member over a
  `Collection` descriptor: directory, encoder, decoder and id field.
- **the image-folder helpers** (`file_service.dfy`): `listFiles` and
  `deleteImage`.
- **the data service** (`data_service.dfy`): the donor, institution and
  rating filters, the one-time seeding of the five default categories with
  their subcategory fix-up loop, and the seeding of the two sample
  institutions.
- **the authentication service** (`auth_service.dfy`):
  - registration, with its email, CPF and CNPJ checks in the source order;
  - login against the stored digest;
  - the session slot, its update and logout;
  - the administrator seed.
- **the data provider** (`data_context.dfy`): a class holding the four
  in-memory lists, patched after each store write. The rating aggregate
  uses exact `real` arithmetic.
- **the two dashboards** (`admin_dashboard.dfy`, `institution_dashboard.dfy`):
  - the statistics;
  - the category editor, including the invariant "every subcategory's
    `categoryId` is its owner's id";
  - the accepted-categories toggle;
  - delivery confirmation;
  - the profile save.
  Each transformation is a function; each handler is a method on the
  provider.

Some inputs are parameters rather than computed:

- Fresh ids (`uuidv4()`) are a sequence `ids`, consumed in evaluation order.
- Dates are `Timestamp` parameters.
- bcrypt's `hash` and `compare` are function parameters.

All properties about what a collection holds across writes are stated over
the map (`IsStored`, `Corrupt`, `SameSlice`), not over scan order. This is
because the browser decides where a new key appears in the enumeration.

Two behaviours of the code are proved as lemmas, because a reader may not
expect them:

- A single unparsable record makes the whole scan of that type return `[]`.
  So `getCategories` then seeds the defaults again beside the stored
  categories (`DataService.CorruptCategoryReseeds`).
- In the same way, `register`'s uniqueness checks all pass
  (`AuthService.CorruptUsersPassChecks`).

Where the code and its design description differ, the model follows the
code:

- `addRating` averages over the provider's in-memory ratings list, not over
  the stored ratings. The two agree only while the list mirrors the store.
- `register` and `login` rethrow their errors to the caller rather than
  swallowing them. The model returns a `Failure`.

## Model

| member | source | states |
|---|---|---|
| Common.TrimStart | src/pages/AdminDashboard.tsx:41 | `trim()`'s leading part: the result is a suffix, starts with no ECMAScript whitespace, and everything dropped is whitespace |
| Common.TrimEnd | src/pages/AdminDashboard.tsx:41 | `trim()`'s trailing part: a prefix ending in non-whitespace, only whitespace dropped |
| Common.TrimEmptyIffBlank | src/pages/AdminDashboard.tsx:41 | `s.trim()` is empty exactly when every character of `s` is whitespace |
| Common.Trim | src/pages/AdminDashboard.tsx:41 | `trim()`: no longer than `s`, and a non-empty result starts and ends with a non-whitespace character |
| Common.FilterBy | src/services/dataService.ts:34 | `filter` by a field: membership iff the field matches, multiplicities kept for matches and zero otherwise |
| Common.RemoveBy | src/contexts/DataContext.tsx:115 | `filter` by `!==`: exactly the non-matching elements, with their multiplicities |
| Common.FilterByAppend | src/contexts/DataContext.tsx:90 | filtering distributes over concatenation, so the relative order is kept |
| Common.RemoveByAppend | src/contexts/DataContext.tsx:115 | removal distributes over concatenation: the elements that stay keep their order |
| Common.RemoveByAbsent | src/pages/InstitutionDashboard.tsx:126 | removing a value nobody carries changes nothing |
| Common.FindBy | src/services/authService.ts:57 | `find`: None iff no element matches, otherwise the first matching element |
| Common.FirstIndex | src/services/authService.ts:57 | where `find` stops: every earlier element fails the test, and the element there passes it unless the end was reached |
| Common.ReplaceBy | src/contexts/DataContext.tsx:70 | `map`-replace: same length, each position is the new record iff its id matches |
| Common.ReplaceContents | src/contexts/DataContext.tsx:70 | after replacing, elements are the new record or untouched non-matching ones, and all non-matching ones remain |
| Common.ReplaceAbsent | src/contexts/DataContext.tsx:69-70 | replacing an id absent from the list leaves the list unchanged |
| Common.CountDisjoint | src/pages/InstitutionDashboard.tsx:165-167 | two counts by exclusive tests add up to at most the length |
| Common.Count | src/pages/InstitutionDashboard.tsx:165-167 | `filter(p).length`: never more than the list holds |
| Storage.LocalStorage.GetItem | src/services/fileSystemService.ts:44 | `getItem` returns the stored value iff the key is present |
| Storage.LocalStorage.SetItem | src/services/fileSystemService.ts:38 | `setItem` overwrites exactly that key; keys stay distinct and match the map |
| Storage.LocalStorage.RemoveItem | src/services/fileSystemService.ts:76 | `removeItem` deletes exactly that key, also when absent |
| FileSystem.EntityKeyInCollection | src/services/fileSystemService.ts:36-72 | a saved record's key passes its type's prefix and `.json` scan test |
| FileSystem.EntityKeyInjective | src/services/fileSystemService.ts:37 | distinct ids give distinct keys |
| FileSystem.OutsideOther | src/services/fileSystemService.ts:36-228 | a key of one type never passes another type's scan test (the directory names differ in their first letter) |
| FileSystem.CollectionsDecode | src/services/fileSystemService.ts:36-50 | for every type, decoding an encoded record gives that record back |
| FileSystem.CollectionsDisjoint | src/services/fileSystemService.ts:36-228 | any two of the five collections share no key |
| FileSystem.WriteOutside | src/services/fileSystemService.ts:52-71 | writing or removing a key outside a collection leaves that collection's slice unchanged |
| FileSystem.CollectionKeyUnderBase | src/services/fileSystemService.ts:52-72 | every collection key starts with `benigna_data` |
| FileSystem.Lookup | src/services/fileSystemService.ts:41-50 | `getX(id)`: whatever it returns is a stored record of that type |
| FileSystem.LookupKeyed | src/services/fileSystemService.ts:41-50 | in a store keyed by id, `getX(id)` returns a record iff it is stored and has that id |
| FileSystem.Save | src/services/fileSystemService.ts:36-39 | `saveX` writes the record under `benigna_data/<type>/<id>.json` and nothing else |
| FileSystem.Delete | src/services/fileSystemService.ts:74-77 | `deleteUser`/`deleteCategory` remove exactly that key |
| FileSystem.SaveThenLookup | src/services/fileSystemService.ts:36-50 | after save, get returns the record; a second save under the same id wins; other ids read as before |
| FileSystem.DeleteThenLookup | src/services/fileSystemService.ts:74-77 | after delete, get returns null and every other id reads as before |
| FileSystem.DeleteRemovesFromCollection | src/services/fileSystemService.ts:196-199 | when records sit under their own ids, no record with the deleted id is left in the collection |
| FileSystem.WriteLeavesOtherCollections | src/services/fileSystemService.ts:36-228 | saving or deleting one type leaves every other type's slice of the store unchanged |
| FileSystem.SameSliceFacts | src/services/fileSystemService.ts:52-71 | stores that agree on a type's keys agree on its get-all outcome and contents |
| FileSystem.ScanFailureSticks | src/services/fileSystemService.ts:52-71 | once a parse fails, the scan's result is the catch block's |
| FileSystem.Scan | src/services/fileSystemService.ts:52-71 | the loop and its `if`s over `localStorage.key(i)`: a successful scan returns at most one record per key; `ScanContents` gives its exact contents |
| FileSystem.Listed | src/services/fileSystemService.ts:68-71 | the `catch` block: a failed scan lists as `[]`; `GetAll`'s contract states the result |
| FileSystem.ScanContents | src/services/fileSystemService.ts:52-71 | the scan fails iff some matching key holds an unparsable value; otherwise it returns exactly the matching keys' records |
| FileSystem.ScanOfStore | src/services/fileSystemService.ts:52-71 | the same, stated over the store's map |
| FileSystem.GetAll | src/services/fileSystemService.ts:52-72 | `getAllX` returns `[]` on a corrupt entry and otherwise exactly the stored records of the type, `.directory` markers never among them |
| FileSystem.Cleared | src/services/fileSystemService.ts:330-341 | the keys kept are exactly those not starting with `benigna_data`, with their values |
| FileSystem.ClearAllData | src/services/fileSystemService.ts:330-341 | collects the `benigna_data*` keys, removes them, and the store equals `Cleared` of the old one |
| FileSystem.ClearEmptiesCollections | src/services/fileSystemService.ts:330-341 | after clearing, no collection holds anything |
| FileSystem.CreateDirectory | src/services/fileSystemService.ts:28-33 | writes `<path>/.directory` with its creation time |
| FileSystem.InitializeDirectories | src/services/fileSystemService.ts:7-26 | one marker per listed directory, in list order |
| FileSystem.MarkerOutsideCollections | src/services/fileSystemService.ts:28-72 | a marker key never passes a `.json` scan test |
| FileSystem.MarkersWritten | src/services/fileSystemService.ts:7-33 | each of the listed directories has its marker, all other keys are untouched, no collection changes |
| FileSystem.ExportData | src/services/fileSystemService.ts:274-285 | the bundle holds the five get-all results and the export date |
| FileSystem.SaveEach | src/services/fileSystemService.ts:296-298 | saving a list one record at a time gives the `SaveAll` fold |
| FileSystem.ImportData | src/services/fileSystemService.ts:287-328 | clear, then save every present collection in the source's order |
| FileSystem.SaveAllOutside | src/services/fileSystemService.ts:295-323 | saving one type's records leaves every key outside that type as it was |
| FileSystem.SaveAllLeavesOther | src/services/fileSystemService.ts:295-323 | importing one type does not change another type's slice |
| FileSystem.SaveAllKeepsReadable | src/services/fileSystemService.ts:295-323 | saving records keeps a readable collection readable, and the last one is stored |
| FileSystem.SaveAllContents | src/services/fileSystemService.ts:295-323 | into an empty slice, each saved key holds the record of that id |
| FileSystem.SavedCollection | src/services/fileSystemService.ts:295-323 | saved into an empty slice, the collection holds exactly the listed records |
| FileSystem.ListedIdConsistent | src/services/fileSystemService.ts:274-285 | an export of records keyed by their ids has no two different records with one id |
| FileSystem.RoundTripOne | src/services/fileSystemService.ts:274-328 | one type survives clear-then-save with the same contents |
| FileSystem.ExportImportRoundTrip | src/services/fileSystemService.ts:274-328 | importing the export of a healthy store gives back the same users, institutions, donations, categories and ratings, as sets |
| FileSystem.ImportReplacesData | src/services/fileSystemService.ts:287-323 | keys outside `benigna_data` survive import; every `benigna_data` key afterwards is a freshly imported record (old images and markers are gone) |
| FileSystem.HealthyOnSameSlice | src/services/fileSystemService.ts:52-72 | a store that agrees with a healthy one on a type's keys is healthy for that type |
| FileSystem.SaveKeepsHealthy | src/services/fileSystemService.ts:36-39 | `saveX` keeps its own type healthy: every value parses and sits under its own id |
| FileSystem.RemoveKeepsHealthy | src/services/fileSystemService.ts:74-77 | removing any key (a record, an image, the session slot) keeps every type healthy |
| FileSystem.OutsideWriteKeepsHealthy | src/services/fileSystemService.ts:28-33 | writing a key outside a type's scan test keeps that type healthy |
| FileSystem.OtherWriteKeepsHealthy | src/services/fileSystemService.ts:36-228 | saving or deleting a record of one type keeps every other type healthy |
| FileSystem.ClearMakesHealthy | src/services/fileSystemService.ts:330-341 | after `clearAllData` every type is healthy, whatever the store held |
| FileSystem.MarkersKeepHealthy | src/services/fileSystemService.ts:7-26 | `initializeDirectories` keeps every type healthy |
| FileSystem.EmptyIsHealthy | src/services/fileSystemService.ts:52-72 | the empty store is healthy, so every store built from it by the writes above satisfies the round trip's precondition |
| FileService.ListedKeys | src/services/fileService.ts:23-35 | a key is listed iff it is in the store, starts with `benigna_data/images/<folder>/` and does not end with `/.directory` |
| FileService.ListFiles | src/services/fileService.ts:23-35 | the loop returns those keys in key order and changes nothing |
| FileService.DeleteImage | src/services/fileService.ts:12-20 | removes only that key and returns true, also for an absent key |
| FileService.SiblingNotListed | src/services/fileService.ts:24 | keys of a sibling folder whose name extends `folder` are not listed |
| FileService.MarkerNotListed | src/services/fileService.ts:29 | an image folder's directory marker is never listed |
| FileService.CollectionsOutsideImages | src/services/fileSystemService.ts:9-18 | none of the five record directories begins with `im`, so none shares a prefix with `images/` |
| FileService.ImageWriteKeepsHealthy | src/services/fileSystemService.ts:230-258 | an image key is never a record key, so storing or deleting an image keeps every type healthy |
| DataService.DonationsByDonor | src/services/dataService.ts:32-35 | exactly the donations with that donor id, with multiplicities |
| DataService.DonationsByInstitution | src/services/dataService.ts:37-40 | exactly the donations with that institution id |
| DataService.RatingsByInstitution | src/services/dataService.ts:135-138 | exactly the ratings with that institution id |
| DataService.GetDonationsByDonor | src/services/dataService.ts:32-35 | the filter over the scan; with no corrupt donation, exactly the stored donations of the donor |
| DataService.GetDonationsByInstitution | src/services/dataService.ts:37-40 | likewise for an institution |
| DataService.GetRatingsByInstitution | src/services/dataService.ts:135-138 | likewise for ratings |
| DataService.LinkSubcategories | src/services/dataService.ts:111-116 | every category keeps its id, name, icon and subcategory ids and names, and every subcategory now points to its owner |
| DataService.DefaultTemplate | src/services/dataService.ts:57-109 | the five categories and their subcategories, ids taken in the order the `uuidv4()` calls run; `DefaultTemplateShape` states its shape |
| DataService.DefaultTemplateShape | src/services/dataService.ts:57-109 | five categories of at least three subcategories each, every id among the first 21 fresh ids, every `categoryId` still empty |
| DataService.GetDefaultCategories | src/services/dataService.ts:56-124 | returns the five template categories linked, and saves each |
| DataService.GetCategories | src/services/dataService.ts:43-46 | stored categories are returned unchanged with no write, otherwise the defaults are saved and returned |
| DataService.DefaultsPointToOwners | src/services/dataService.ts:57-116 | there are five defaults and each subcategory's `categoryId` is its parent's id |
| DataService.SeedingHappensOnce | src/services/dataService.ts:43-124 | after seeding a readable store, the next scan finds categories, so no second seed |
| DataService.CorruptCategoryReseeds | src/services/dataService.ts:43-45 | a corrupt category record empties the scan, which triggers seeding again |
| DataService.InitializeSampleData | src/services/dataService.ts:141-146 | the sample institutions are written only when the institution scan is empty |
| DataService.SampleSeedStoresTwo | src/services/dataService.ts:148-227 | seeding an empty collection stores exactly the two samples |
| DataService.SampleInstitutions | src/services/dataService.ts:148-222 | two institutions with ids 0 and 2 and address ids 1 and 3, verified, of the institution role, rated within 1–5, both dates the one timestamp |
| DataService.SamplesAcceptDefaults | src/services/dataService.ts:179-215 | every accepted category of a sample is the name of a default category |
| AuthService.SlotOutsideData | src/services/authService.ts:7 | `benigna_current_user` does not start with `benigna_data` |
| AuthService.SlotOutsideCollection | src/services/authService.ts:7 | the slot is never a collection key |
| AuthService.CurrentUser | src/services/authService.ts:76-84 | the slot's user, or null when it is empty or not a user |
| AuthService.ClearKeepsSession | src/services/fileSystemService.ts:330-341 | clearing all data keeps the signed-in user |
| AuthService.SessionWriteKeepsHealthy | src/services/authService.ts:68-88 | writing or clearing `benigna_current_user` keeps every type healthy |
| AuthService.Logout | src/services/authService.ts:86-88 | removes the slot; `getCurrentUser` then returns null |
| AuthService.WrittenUserReadsBack | src/services/authService.ts:44-45 | after the record and slot writes, `getUser` and `getCurrentUser` both return that user and other collections are unchanged |
| AuthService.RegistrationError | src/services/authService.ts:13-25 | email clash first; then CPF, only if provided; then CNPJ, only if provided; no error iff no clash |
| AuthService.NewUser | src/services/authService.ts:27-42 | the new record has the fresh id, `hash(password)` as password, the given fields and both dates now |
| AuthService.Register | src/services/authService.ts:9-52 | on a clash nothing is written; otherwise the user is saved and put in the slot |
| AuthService.RegisteredEmailIsTaken | src/services/authService.ts:14-45 | once registered into a readable store, the same email is refused |
| AuthService.CorruptUsersPassChecks | src/services/authService.ts:11-25 | a corrupt user record makes every uniqueness check pass |
| AuthService.LoginResult | src/services/authService.ts:56-66 | unknown email iff nobody has it; otherwise success iff `compare` accepts against the first such user's digest, returning that user |
| AuthService.Login | src/services/authService.ts:54-74 | the slot is written only on success, with that user |
| AuthService.LoginSetsSession | src/services/authService.ts:68 | after login, the current user is that user and the users collection is unchanged |
| AuthService.UpdateUser | src/services/authService.ts:90-94 | saves the user with a fresh `updatedAt` and writes the same record to the slot |
| AuthService.SampleAdmin | src/services/authService.ts:101-110 | the admin record: admin role, `admin@benigna.com`, `hash("admin123")` |
| AuthService.InitializeSampleData | src/services/authService.ts:97-114 | the admin is saved only when the user scan is empty |
| DataContext.Sum | src/contexts/DataContext.tsx:91 | the `reduce` sum of the scores; `SumBounds` and `RatingAggregate` state its meaning |
| DataContext.Mean | src/contexts/DataContext.tsx:91 | the sum divided by the length of a non-empty list; `MeanBounds` states its range |
| DataContext.SumBounds | src/contexts/DataContext.tsx:91 | scores within [lo, hi] sum to between n·lo and n·hi |
| DataContext.MeanBounds | src/contexts/DataContext.tsx:91 | the mean of scores in [lo, hi] lies in [lo, hi] |
| DataContext.RatingAggregate | src/contexts/DataContext.tsx:90-91 | the averaged list is the institution's earlier ratings followed by the new one; count rises by one and the sum by the new score |
| DataContext.Rerated | src/contexts/DataContext.tsx:93-97 | only `rating` (the mean) and `totalRatings` (the count, at least 1) change |
| DataContext.AddRatingAggregate | src/contexts/DataContext.tsx:83-100 | the written institution has count = earlier + 1 and rating = mean of earlier plus new; with scores in range the mean stays in range |
| DataContext.DataProvider.constructor | src/contexts/DataContext.tsx:36-39 | the four lists start empty |
| DataContext.DataProvider.RefreshData | src/contexts/DataContext.tsx:45-61 | the four lists become the data service's results; category seeding runs after the four scans |
| DataContext.DataProvider.AddInstitution | src/contexts/DataContext.tsx:63-66 | saved and appended at the end; other lists unchanged |
| DataContext.DataProvider.UpdateInstitution | src/contexts/DataContext.tsx:68-71 | saved and replaced by id |
| DataContext.DataProvider.AddDonation | src/contexts/DataContext.tsx:73-76 | saved and appended |
| DataContext.DataProvider.UpdateDonation | src/contexts/DataContext.tsx:78-81 | saved and replaced by id |
| DataContext.DataProvider.AddRating | src/contexts/DataContext.tsx:83-101 | rating saved and appended; a found institution is rerated over the earlier plus new ratings and updated; an unknown institution changes nothing else |
| DataContext.DataProvider.AddCategory | src/contexts/DataContext.tsx:103-106 | saved and appended |
| DataContext.DataProvider.UpdateCategory | src/contexts/DataContext.tsx:108-111 | saved and replaced by id |
| DataContext.DataProvider.DeleteCategory | src/contexts/DataContext.tsx:113-116 | key removed and every element with that id filtered out; donations untouched |
| DataContext.UpdatePatch | src/contexts/DataContext.tsx:68-71 | replace keeps the length, changes only matching positions, and is the identity for an absent id |
| DataContext.DeletePatch | src/contexts/DataContext.tsx:113-116 | delete removes exactly the matching ids and keeps the rest in order |
| AdminDashboard.Stats | src/pages/AdminDashboard.tsx:31-38 | verified ≤ total institutions, delivered ≤ total donations, average 0 without ratings and the mean otherwise, subcategory total the sum of list lengths |
| AdminDashboard.SubcategoryTotal | src/pages/AdminDashboard.tsx:333 | the `reduce` over subcategory counts: empty list 0, and at least each category's own count |
| AdminDashboard.AverageWithinStars | src/pages/AdminDashboard.tsx:37 | with 1–5 star scores the average is 0 or within 1–5 |
| AdminDashboard.TotalPointwise | src/pages/AdminDashboard.tsx:333 | changing one category changes the total by that category's difference |
| AdminDashboard.CategoryDraft | src/pages/AdminDashboard.tsx:40-56 | refused iff the name or icon is blank after trimming; otherwise the given name and icon, fresh id, no subcategories |
| AdminDashboard.SubcategoryAdded | src/pages/AdminDashboard.tsx:80-103 | rejected iff the name is blank or no category is chosen; not found iff no category has the id; otherwise the first category with that id (`find`) with the new subcategory appended |
| AdminDashboard.SubcategoryEdited | src/pages/AdminDashboard.tsx:152-165 | None iff no category has the id; otherwise the first category with that id (`find`) with the matching subcategory replaced |
| AdminDashboard.SubcategoryDeleted | src/pages/AdminDashboard.tsx:237-244 | None iff no category has the id; otherwise the first category with that id (`find`) with the matching subcategories filtered out |
| AdminDashboard.AddKeepsOwners | src/pages/AdminDashboard.tsx:94-103 | the appended subcategory is last and points to its owner, so the invariant holds |
| AdminDashboard.EditKeepsOwners | src/pages/AdminDashboard.tsx:158-165 | an edit of a subcategory taken from that category keeps the invariant |
| AdminDashboard.DeleteKeepsOwners | src/pages/AdminDashboard.tsx:240-244 | deleting a subcategory keeps the invariant |
| AdminDashboard.ReplaceKeepsOwners | src/contexts/DataContext.tsx:108-111 | updating with an owner-consistent category keeps the invariant over the whole list |
| AdminDashboard.AddGrowsTotal | src/pages/AdminDashboard.tsx:94-106 | with distinct category ids, adding a subcategory raises the subcategory total by exactly one |
| AdminDashboard.HandleAddCategory | src/pages/AdminDashboard.tsx:40-78 | nothing persisted on refusal; otherwise the category is saved and appended |
| AdminDashboard.HandleAddSubcategory | src/pages/AdminDashboard.tsx:80-125 | only an `Updated` outcome writes, through `updateCategory` |
| AdminDashboard.HandleEditCategory | src/pages/AdminDashboard.tsx:127-150 | saves the category being edited, if any |
| AdminDashboard.HandleEditSubcategory | src/pages/AdminDashboard.tsx:152-187 | writes only when a category was found |
| AdminDashboard.HandleDeleteCategory | src/pages/AdminDashboard.tsx:189-222 | deletes only when confirmed |
| AdminDashboard.HandleDeleteSubcategory | src/pages/AdminDashboard.tsx:224-265 | deletes only when confirmed and the category is found |
| InstitutionDashboard.InstitutionView | src/pages/InstitutionDashboard.tsx:42-60 | set only for an institution user whose id names an institution; the donations are exactly those with that institution id |
| InstitutionDashboard.Toggled | src/pages/InstitutionDashboard.tsx:122-129 | flips membership of the name; a present name is removed everywhere with the rest kept; an absent one is appended |
| InstitutionDashboard.ToggleTwice | src/pages/InstitutionDashboard.tsx:125-127 | toggling an absent name twice restores the list |
| InstitutionDashboard.MarkedDelivered | src/pages/InstitutionDashboard.tsx:65-70 | status delivered, delivery and update dates set, every other field unchanged |
| InstitutionDashboard.ConfirmMovesForward | src/pages/InstitutionDashboard.tsx:457-466 | a scheduled donation once confirmed is no longer offered the button |
| InstitutionDashboard.HandleConfirmDelivery | src/pages/InstitutionDashboard.tsx:62-73 | nothing happens for an id not in the page's list; otherwise the delivered donation is saved and replaced |
| InstitutionDashboard.ConfirmedInList | src/contexts/DataContext.tsx:78-81 | in the provider's list only the confirmed id changes, to delivered |
| InstitutionDashboard.FormOf | src/pages/InstitutionDashboard.tsx:48-54 | the form is filled from the institution |
| InstitutionDashboard.EditedUser | src/pages/InstitutionDashboard.tsx:80-85 | name, email and phone from the form, everything else unchanged |
| InstitutionDashboard.EditedInstitution | src/pages/InstitutionDashboard.tsx:88-96 | the five form fields and the update date, everything else unchanged |
| InstitutionDashboard.SavedRecordsAgree | src/pages/InstitutionDashboard.tsx:80-96 | user and institution get identical name, email and phone |
| InstitutionDashboard.HandleSaveChanges | src/pages/InstitutionDashboard.tsx:75-102 | nothing without an institution and a user; otherwise the user (record and slot) is written before the institution |
| InstitutionDashboard.Stats | src/pages/InstitutionDashboard.tsx:164-169 | scheduled + delivered ≤ total; rating is the institution's or 0 |

## Left out

- `src/components/Map.tsx` is not part of this model. It is Leaflet rendering with floating-point distances.
- JSX rendering, SweetAlert dialogs, form-state resets and date-fns formatting are not modelled. A dialog's answer is a `confirmed` parameter.
- `JSON.stringify`/`JSON.parse` are not modelled; records are stored typed.
  - A value that would not parse, or that parses to the wrong kind of record, is `Unparsable` (or a value of another kind). Get returns null for it and get-all returns `[]`.
  - A parsed object with missing or extra fields is not represented.
  - `importData`'s own parse failure (which throws before anything is cleared) is outside the model. The model starts from the parsed payload.
- `FileSystem.GetAll`: the `if (data)` guard also skips a key whose value is the empty string. Only absent values are skipped here, because a stored record is never empty text.
- `saveImage`/`getImage` are not modelled: they rely on `FileReader` callbacks and the clock. Image files appear only as stored values, for `listFiles`, `deleteImage` and clearing.
- `fileService.initializeFolders` is not modelled separately: it only delegates to `initializeDirectories`.
- `uuidv4()`, `new Date()` and `Date.now()` are parameters rather than computed. Dates are opaque `Timestamp` numbers.
- Dates change type across the store, and the model does not capture this. The source writes `Date` objects, `JSON.stringify` turns them into ISO strings, and `getX` returns those strings (the page re-wraps one with `new Date(...)`). In the model a date reads back as the same `Timestamp` it was written as.
- A single timestamp parameter stands for several separate `new Date()` calls in these members, so their contracts force dates to be equal that the source only makes close in time:
  - `AuthService.NewUser`: `createdAt == updatedAt`.
  - `AuthService.SampleAdmin`: `createdAt == updatedAt`.
  - `DataService.SampleInstitutions`: `createdAt` and `updatedAt` of both samples are equal.
  - `FileSystem.InitializeDirectories` (through `FileSystem.WithMarkers`): all eight markers carry one creation time, while the source calls `new Date()` once per `createDirectory`.
  - `InstitutionDashboard.HandleConfirmDelivery` (through `InstitutionDashboard.MarkedDelivered`): `deliveredDate` and `updatedAt` are equal.
- `InstitutionDashboard.HandleSaveChanges` takes one timestamp for the institution and a separate one for `updateUser`.
- `AuthService` (bcrypt): `hash` and `compare` are parameters, with the salt rounds folded into `hash`. "The stored password is not the plaintext" is stated as "the stored password is `hash(password)`", because bcrypt's security is not modelled.
- The `Promise.all` concurrency in `refreshData` and the interleaving of other `async` handlers are not modelled. Handlers run one after another, in the order their `await`s take.
- `localStorage` key order is implementation-defined. `SetItem` leaves the position of a new key unspecified, and properties that span writes are stated over sets.
- `localStorage` quota errors and the `try`/`catch` around writes are not modelled: every write succeeds. `deleteImage`'s `false` branch is therefore unreachable here.
- `src/contexts/AuthContext.tsx` is not part of this model. `HandleSaveChanges` calls `AuthService.UpdateUser` directly where the page goes through the context's `updateUser`.
- `src/types` is not part of this model. The records carry the fields the modelled code reads, writes or seeds.
- `InstitutionDashboard.InstitutionView` returns None where the effect sets nothing. The page then keeps whatever it showed before, and that state is not modelled.
- Registration input: the email is always given. An `undefined` email in the partial user is not represented.
- Floating point is replaced by exact `real` for the rating mean and for coordinates.
