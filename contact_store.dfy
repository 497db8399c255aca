/**
 * The persisted `contact_details` table: its columns, its NOT NULL and UNIQUE
 * constraints and its auto-increment primary key, with the `create` operation
 * the POST route performs on it.
 */
module ContactStore {
  import opened Wrappers

  /** The value columns of `contact_details`, in declaration order; the `id` key is kept apart. */
  datatype Column = Name | Phone | Email | Address | Facebook | Instagram | Image

  /**
   * The values a create request supplies. `None` is a value the request left
   * out (undefined) or sent as null; an empty string is a supplied value.
   */
  datatype ContactFields = ContactFields(
    name: Option<string>,
    phone: Option<string>,
    email: Option<string>,
    address: Option<string>,
    facebook: Option<string>,
    instagram: Option<string>,
    image: Option<string>)

  /** One stored row: the four NOT NULL columns are plain strings, the others may be null. */
  datatype Contact = Contact(
    id: nat,
    name: string,
    phone: string,
    email: string,
    address: string,
    facebook: Option<string>,
    instagram: Option<string>,
    image: Option<string>)

  /** The table's rows in insertion order and the next value of the auto-increment counter. */
  datatype Table = Table(rows: seq<Contact>, nextId: nat)

  /** A freshly synchronised, empty table: the auto-increment counter starts at 1. */
  const EmptyTable := Table([], 1)

  /** Why a create is refused: NOT NULL columns left empty, or a UNIQUE column that collides. */
  datatype CreateError =
    | NotNullViolation(columns: seq<Column>)
    | UniqueViolation(column: Column)

  /** The columns declared `allowNull: false`. */
  predicate IsRequired(c: Column) {
    c == Name || c == Phone || c == Email || c == Address
  }

  /** The value a request supplies for a column. */
  function Supplied(f: ContactFields, c: Column): Option<string> {
    match c
    case Name => f.name
    case Phone => f.phone
    case Email => f.email
    case Address => f.address
    case Facebook => f.facebook
    case Instagram => f.instagram
    case Image => f.image
  }

  /** The NOT NULL columns a request leaves without a value, in declaration order. */
  function MissingColumns(f: ContactFields): (r: seq<Column>)
    ensures forall c :: c in r <==> IsRequired(c) && Supplied(f, c).None?
    ensures r == [] <==> f.name.Some? && f.phone.Some? && f.email.Some? && f.address.Some?
    ensures |r| <= 4
  {
    (if f.name.None? then [Name] else [])
    + (if f.phone.None? then [Phone] else [])
    + (if f.email.None? then [Email] else [])
    + (if f.address.None? then [Address] else [])
  }

  /** Some row already holds this phone number. */
  predicate PhoneTaken(rows: seq<Contact>, phone: string) {
    exists k :: 0 <= k < |rows| && rows[k].phone == phone
  }

  /** Some row already holds this email address. */
  predicate EmailTaken(rows: seq<Contact>, email: string) {
    exists k :: 0 <= k < |rows| && rows[k].email == email
  }

  /** A request that every constraint of the table admits. */
  predicate Admissible(rows: seq<Contact>, f: ContactFields) {
    MissingColumns(f) == []
    && !PhoneTaken(rows, f.phone.value)
    && !EmailTaken(rows, f.email.value)
  }

  /** The row a complete request becomes once the table assigns it an id. */
  function RowOf(id: nat, f: ContactFields): (c: Contact)
    requires MissingColumns(f) == []
    ensures c.id == id
    ensures forall col :: Supplied(f, col) == ColumnValue(c, col)
  {
    Contact(id, f.name.value, f.phone.value, f.email.value, f.address.value,
            f.facebook, f.instagram, f.image)
  }

  /** The value a row holds in a column. */
  function ColumnValue(c: Contact, col: Column): Option<string> {
    match col
    case Name => Some(c.name)
    case Phone => Some(c.phone)
    case Email => Some(c.email)
    case Address => Some(c.address)
    case Facebook => c.facebook
    case Instagram => c.instagram
    case Image => c.image
  }

  /** Phone numbers are pairwise distinct across the table. */
  predicate UniquePhones(rows: seq<Contact>) {
    forall i, j :: 0 <= i < j < |rows| ==> rows[i].phone != rows[j].phone
  }

  /** Email addresses are pairwise distinct across the table. */
  predicate UniqueEmails(rows: seq<Contact>) {
    forall i, j :: 0 <= i < j < |rows| ==> rows[i].email != rows[j].email
  }

  /** Primary keys are pairwise distinct across the table. */
  predicate DistinctIds(rows: seq<Contact>) {
    forall i, j :: 0 <= i < j < |rows| ==> rows[i].id != rows[j].id
  }

  /** The table's integrity: the UNIQUE columns and the key hold, and every key was drawn from the counter. */
  predicate Valid(t: Table) {
    UniquePhones(t.rows) && UniqueEmails(t.rows) && DistinctIds(t.rows)
    && 1 <= t.nextId
    && forall k :: 0 <= k < |t.rows| ==> 1 <= t.rows[k].id < t.nextId
  }

  /**
   * Inserts one contact. Missing NOT NULL values are reported first (all of
   * them), then a colliding phone, then a colliding email; otherwise the row
   * is appended with the next auto-increment id.
   */
  function Create(t: Table, f: ContactFields): (r: Result<Table, CreateError>)
    ensures r.Ok? <==> Admissible(t.rows, f)
    ensures MissingColumns(f) != [] ==> r == Err(NotNullViolation(MissingColumns(f)))
    ensures r.Ok? ==> r.value.nextId > t.nextId
  {
    var missing := MissingColumns(f);
    if missing != [] then Err(NotNullViolation(missing))
    else if PhoneTaken(t.rows, f.phone.value) then Err(UniqueViolation(Phone))
    else if EmailTaken(t.rows, f.email.value) then Err(UniqueViolation(Email))
    else Ok(Table(t.rows + [RowOf(t.nextId, f)], t.nextId + 1))
  }

  /** The empty table satisfies every constraint. */
  lemma EmptyTableValid()
    ensures Valid(EmptyTable)
  {
  }

  /** A request without a value for some NOT NULL column is refused, naming exactly the missing columns. */
  lemma CreateRejectsMissing(t: Table, f: ContactFields, c: Column)
    requires IsRequired(c) && Supplied(f, c).None?
    ensures Create(t, f).Err? && Create(t, f).error.NotNullViolation?
    ensures c in Create(t, f).error.columns
  {
  }

  /** A complete request whose phone is already stored is refused as a phone collision. */
  lemma CreateRejectsDuplicatePhone(t: Table, f: ContactFields, k: nat)
    requires MissingColumns(f) == []
    requires k < |t.rows| && t.rows[k].phone == f.phone.value
    ensures Create(t, f) == Err(UniqueViolation(Phone))
  {
  }

  /** A request whose email is already stored is refused; with a free phone, as an email collision. */
  lemma CreateRejectsDuplicateEmail(t: Table, f: ContactFields, k: nat)
    requires MissingColumns(f) == []
    requires k < |t.rows| && t.rows[k].email == f.email.value
    ensures Create(t, f).Err?
    ensures !PhoneTaken(t.rows, f.phone.value) ==> Create(t, f) == Err(UniqueViolation(Email))
  {
  }

  /**
   * A complete request that collides with nothing is accepted whatever it
   * supplies for the nullable columns, and the new row stores them as given.
   */
  lemma CreateAcceptsOptionalAbsent(t: Table, f: ContactFields)
    requires MissingColumns(f) == []
    requires !PhoneTaken(t.rows, f.phone.value) && !EmailTaken(t.rows, f.email.value)
    ensures Create(t, f).Ok?
    ensures var rows := Create(t, f).value.rows;
      rows[|rows| - 1].facebook == f.facebook
      && rows[|rows| - 1].instagram == f.instagram
      && rows[|rows| - 1].image == f.image
  {
  }

  /**
   * A successful create adds exactly one row at the end, holding the request's
   * values under the counter's id, and leaves every existing row as it was.
   */
  lemma CreateAppendsOneRow(t: Table, f: ContactFields)
    requires Create(t, f).Ok?
    ensures var rows := Create(t, f).value.rows;
      |rows| == |t.rows| + 1
      && rows[..|t.rows|] == t.rows
      && rows[|t.rows|].id == t.nextId
      && forall col :: ColumnValue(rows[|t.rows|], col) == Supplied(f, col)
  {
    var rows := Create(t, f).value.rows;
    assert rows == t.rows + [RowOf(t.nextId, f)];
  }

  /** In a valid table, the id a successful create assigns belongs to no existing row. */
  lemma CreateFreshId(t: Table, f: ContactFields)
    requires Valid(t) && Create(t, f).Ok?
    ensures forall k :: 0 <= k < |t.rows| ==> t.rows[k].id != Create(t, f).value.rows[|t.rows|].id
  {
    CreateAppendsOneRow(t, f);
  }

  /** In a valid table the id a create assigns is greater than every existing row's id. */
  lemma CreateIdsIncrease(t: Table, f: ContactFields)
    requires Valid(t) && Create(t, f).Ok?
    ensures forall k :: 0 <= k < |t.rows| ==> t.rows[k].id < Create(t, f).value.rows[|t.rows|].id
  {
    CreateAppendsOneRow(t, f);
  }

  /** Create keeps phone and email unique, ids distinct and ids below the counter. */
  lemma CreatePreservesValid(t: Table, f: ContactFields)
    requires Valid(t) && Create(t, f).Ok?
    ensures Valid(Create(t, f).value)
  {
    var t' := Create(t, f).value;
    var n := |t.rows|;
    CreateAppendsOneRow(t, f);
    assert t'.rows[n] == RowOf(t.nextId, f);
    forall i | 0 <= i < n
      ensures t'.rows[i] == t.rows[i]
      ensures t'.rows[i].phone != t'.rows[n].phone
      ensures t'.rows[i].email != t'.rows[n].email
      ensures 1 <= t'.rows[i].id < t'.nextId
    {
      assert t'.rows[i] == t'.rows[..n][i];
    }
  }

  /**
   * The request-level scenario: one contact is stored, giving a one-row table
   * whose row has a positive id; a second request repeating its phone is
   * refused, so no table replaces that one-row table.
   */
  lemma DuplicatePhoneScenario()
    ensures var first := ContactFields(Some("A"), Some("1"), Some("a@x.com"), Some("Addr"), None, None, None);
      var second := ContactFields(Some("B"), Some("1"), Some("b@x.com"), Some("Addr"), None, None, None);
      var r := Create(EmptyTable, first);
      r.Ok? && |r.value.rows| == 1 && r.value.rows[0].id > 0 && r.value.rows[0].name == "A"
      && Create(r.value, second) == Err(UniqueViolation(Phone))
  {
    var first := ContactFields(Some("A"), Some("1"), Some("a@x.com"), Some("Addr"), None, None, None);
    var second := ContactFields(Some("B"), Some("1"), Some("b@x.com"), Some("Addr"), None, None, None);
    var t1 := Create(EmptyTable, first).value;
    assert t1.rows[0].phone == "1";
    CreateRejectsDuplicatePhone(t1, second, 0);
  }
}
