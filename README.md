# Contact manager: client state controller and contact table, in Dafny

This project models the two parts of the contact manager whose behaviour can be
stated precisely:

- **The page's state controller** (`frontend/src/App.tsx`). The page keeps
  three state cells: the in-progress `form`, the list of `contacts` and the
  `editingIndex` of the contact under edit. It handles add, edit, cancel,
  favorite and delete entirely on these cells. `ContactList`
  (`contact_list.dfy`) holds the record types and the pure list transforms:
  `toggleFavorite` is a `map` and `deleteContact` a `filter`. `ContactApp.App`
  (`app.dfy`) is a class with the three cells as fields and one method per
  handler.
- **The `contact_details` table** (`backend/src/models/ContactModel.js`).
  `ContactStore` (`contact_store.dfy`) covers its columns, its NOT NULL and
  UNIQUE constraints and its auto-increment primary key. `Create` returns an
  error or the extended table. Lemmas show that `Create` keeps phone and email
  unique and ids distinct.

`wrappers.dfy` defines `Option` and `Result`.

Parameters stand in for foreign calls. `Date.now()` becomes `now`.
`URL.createObjectURL(form.image)` becomes `objectUrl`, which is used only when
an image was picked. The `File` the image input yields becomes `Option<File>`,
with `File` reduced to an identity.

Three facts about the code shape the model:

- The page never sends these changes to the server. It takes ids from the
  clock, edits and deletes locally, and its one fetch only logs the response,
  so `contacts` starts empty.
- The schema only declares `allowNull: false` for `name`, `phone`, `email` and
  `address`, so `Create` accepts `""` for them.
- The schema has no `favorite` column, so favorite is client-only state
  (`StoredContact.favorite`).

## Model

| member | source | states |
|---|---|---|
| ContactStore.MissingColumns | backend/src/models/ContactModel.js:12-29 | a column is reported missing exactly when it is one of name, phone, email, address and the request gives it no value; none is missing iff all four are present |
| ContactStore.RowOf | backend/src/models/ContactModel.js:7-41 | the stored row carries the given id and, column by column, exactly the values the request supplied (nullable columns stay absent when absent) |
| ContactStore.Create | backend/src/models/ContactModel.js:4-47 | create succeeds iff the NOT NULL columns are all given and neither phone nor email is already stored; missing columns are reported as such; a success advances the id counter |
| ContactStore.EmptyTableValid | backend/src/models/ContactModel.js:7-25 | the empty table with the counter at 1 satisfies the uniqueness and key constraints |
| ContactStore.CreateRejectsMissing | backend/src/models/ContactModel.js:12-29 | a request leaving any of name, phone, email, address without a value is refused with a not-null violation naming that column |
| ContactStore.CreateRejectsDuplicatePhone | backend/src/models/ContactModel.js:16-20 | a complete request whose phone equals a stored row's phone is refused as a phone collision |
| ContactStore.CreateRejectsDuplicateEmail | backend/src/models/ContactModel.js:21-25 | a complete request whose email equals a stored row's email is refused (as an email collision when the phone is free) |
| ContactStore.CreateAcceptsOptionalAbsent | backend/src/models/ContactModel.js:30-41 | a complete, non-colliding request is accepted whatever facebook, instagram and image hold, and the new row stores them as given |
| ContactStore.CreateAppendsOneRow | backend/src/models/ContactModel.js:4-47 | a successful create adds exactly one row at the end, with the counter's id and the request's values, and leaves the existing rows unchanged |
| ContactStore.CreateFreshId | backend/src/models/ContactModel.js:7-11 | in a valid table the id a create assigns differs from every existing row's id |
| ContactStore.CreateIdsIncrease | backend/src/models/ContactModel.js:7-11 | in a valid table the id a create assigns is greater than every existing row's id |
| ContactStore.CreatePreservesValid | backend/src/models/ContactModel.js:7-25 | create keeps phones pairwise distinct, emails pairwise distinct, ids pairwise distinct and below the counter |
| ContactStore.DuplicatePhoneScenario | backend/src/models/ContactModel.js:16-20 | storing one contact gives one row with a positive id; a second request with the same phone is refused |
| ContactList.WithField | frontend/src/App.tsx:138-168 | after typing into one input, that field reads back the typed value and every other field, the favorite flag and the image are unchanged |
| ContactList.NewContact | frontend/src/App.tsx:81-85 | the added entry carries exactly the form's fields and the clock reading as id; its preview is the object URL when an image was picked and "" otherwise |
| ContactList.EditedContact | frontend/src/App.tsx:69-75 | the edited entry carries exactly the form's fields and keeps the old id; it keeps the old preview when no image was picked and takes the object URL otherwise |
| ContactList.EditForm | frontend/src/App.tsx:92-104 | the edit form agrees with the contact on name, phone, email, address, facebook, instagram and favorite, and has no image picked |
| ContactList.FlipFavoriteAt | frontend/src/App.tsx:108-114 | the list keeps its length, entry `index` (if in range) has its favorite flipped, and every other entry is unchanged |
| ContactList.DropAt | frontend/src/App.tsx:116-118 | the list loses one entry when `index` is in range and none otherwise |
| ContactList.FlipFavoriteOnlyFavorite | frontend/src/App.tsx:110-112 | flipping changes the favorite flag of the entry and no other field of it |
| ContactList.FlipFavoriteTwice | frontend/src/App.tsx:108-114 | flipping the same entry twice restores the original list |
| ContactList.FlipFavoriteOutOfRange | frontend/src/App.tsx:110-112 | an index outside the list leaves it unchanged |
| ContactList.DropAtSplices | frontend/src/App.tsx:116-118 | deleting an in-range index gives `cs[..i] + cs[i+1..]`: the survivors keep their order |
| ContactList.DropAtOutOfRange | frontend/src/App.tsx:116-118 | deleting an index outside the list leaves it unchanged |
| ContactList.EditRoundTrip | frontend/src/App.tsx:67-106 | starting an edit and submitting the unchanged form gives the contact back, except that its stored image becomes null |
| ContactList.AddThenEditForm | frontend/src/App.tsx:81-104 | editing a just-added contact starts from the form that added it, with no image picked |
| ContactApp.App.constructor | frontend/src/App.tsx:23-46 | the page starts with the blank form, no contacts and no edit in progress |
| ContactApp.App.HandleImage | frontend/src/App.tsx:48-51 | only the form's image changes, to the picked file or none |
| ContactApp.App.SetField | frontend/src/App.tsx:138-168 | only the edited field of the form changes; contacts and edit position are untouched |
| ContactApp.App.ResetForm | frontend/src/App.tsx:53-65 | the form becomes blank and edit mode ends; the list is untouched; the new form and edit position do not depend on the old ones, so resetting again changes nothing |
| ContactApp.App.SubmitForm | frontend/src/App.tsx:67-90 | add mode appends exactly one entry built from the form, keeping earlier entries; edit mode keeps the length, rewrites only the edited entry and keeps its id; afterwards the form is blank and edit mode is off |
| ContactApp.App.StartEdit | frontend/src/App.tsx:92-106 | the form is seeded from the chosen entry with no image, the edit position is that entry, and the list is untouched |
| ContactApp.App.ToggleFavorite | frontend/src/App.tsx:108-114 | the list becomes the flipped list; form and edit position are untouched |
| ContactApp.App.DeleteContact | frontend/src/App.tsx:116-118 | the list loses exactly entry `index` (or nothing, when out of range); form and edit position are untouched |
| ContactApp.DeleteWhileEditingRetargets | frontend/src/App.tsx:67-118 | with two contacts, editing the first, deleting it and submitting leaves one contact that has the second contact's id, the second contact's preview and the first contact's fields: the edit lands on another contact |

## Left out

- ContactApp.App.SubmitForm: requires the edit position to be inside the list. `deleteContact` does not clear or shift the edit position, so deleting the entry under edit, or an earlier one, leaves it stale. Two outcomes follow.
  - If the stale position is still inside the list, it names a different contact. Submitting overwrites that contact with the form and keeps its id and, unless a new image was picked, its preview; its other fields are lost silently. The model covers this case (`ContactApp.DeleteWhileEditingRetargets`).
  - If the stale position is past the end, the source reads past the end of the list. With no image picked that read throws. With an image picked it writes an entry without an id past the end. The model does not cover this case.
- ContactApp.App.StartEdit: requires an index inside the list. The source reads `contacts[index]` unchecked and would throw on an out-of-range index, and its only caller passes a rendered entry's position.
- The per-field setters build the new form from the form of the current render, not from the latest update. Two changes handled within one render would lose one of them. The model applies changes one at a time.
- The one server fetch on mount only logs the response, so it is left out. So are all rendering, the server start-up, CORS, the port setting and the HTTP routes. The routes are thin wrappers around `create` and `findAll` that map failures to status 500.
- `Date.now()`, `URL.createObjectURL` and the browser's `File` are parameters, as described above.
- ContactStore.Create: on a double collision it reports the phone before the email. The real order depends on the database's index checks. With several missing columns it reports all of them, in declaration order.
- ContactStore.Create: a rejected create returns no new table, so the caller keeps the old one. A database may still consume an auto-increment value on a rejected insert. The model promises only that ids are fresh, positive and increasing, not that they are consecutive.
- The model compares column values by exact string equality. A database collation that ignores case would also reject emails that differ only in case. `STRING` length limits, the 32-bit range of `INTEGER` ids and the `createdAt`/`updatedAt` timestamps are not modelled.
- Reading, updating and deleting rows, and file uploads, are not part of this model.
