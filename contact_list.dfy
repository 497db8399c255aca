/**
 * The contact manager page's client-side records — the in-progress form and
 * the locally held contacts — and the pure transforms its handlers apply to
 * them.
 */
module ContactList {
  import opened Wrappers

  /** A browser `File` picked in the image input; only its identity matters here. */
  datatype File = File(handle: nat)

  /** The in-progress form: one contact's editable fields and the picked, not yet uploaded, image. */
  datatype ContactForm = ContactForm(
    name: string,
    phone: string,
    email: string,
    address: string,
    facebook: string,
    instagram: string,
    favorite: bool,
    image: Option<File>)

  /**
   * A contact in the local list: every field of the form it came from, a
   * numeric id and an optional preview URL for its image.
   */
  datatype StoredContact = StoredContact(
    id: int,
    name: string,
    phone: string,
    email: string,
    address: string,
    facebook: string,
    instagram: string,
    favorite: bool,
    image: Option<File>,
    imageData: Option<string>)

  /** The text inputs of the form, each with its own change handler. */
  datatype Field = Name | Phone | Email | Address | Facebook | Instagram

  /** The blank form the page starts with and returns to after every submit or cancel. */
  const EmptyForm := ContactForm("", "", "", "", "", "", false, None)

  /** The form part of a stored contact (its id and preview dropped). */
  function FormOf(c: StoredContact): ContactForm {
    ContactForm(c.name, c.phone, c.email, c.address, c.facebook, c.instagram, c.favorite, c.image)
  }

  /** What a text input shows for a field. */
  function FieldValue(form: ContactForm, field: Field): string {
    match field
    case Name => form.name
    case Phone => form.phone
    case Email => form.email
    case Address => form.address
    case Facebook => form.facebook
    case Instagram => form.instagram
  }

  /** The form after typing `value` into one field's input. */
  function WithField(form: ContactForm, field: Field, value: string): (r: ContactForm)
    ensures FieldValue(r, field) == value
    ensures forall other :: other != field ==> FieldValue(r, other) == FieldValue(form, other)
    ensures r.favorite == form.favorite && r.image == form.image
  {
    match field
    case Name => form.(name := value)
    case Phone => form.(phone := value)
    case Email => form.(email := value)
    case Address => form.(address := value)
    case Facebook => form.(facebook := value)
    case Instagram => form.(instagram := value)
  }

  /** The preview a submit gives an entry: the object URL when an image was picked, else `fallback`. */
  function Preview(form: ContactForm, objectUrl: string, fallback: Option<string>): Option<string> {
    if form.image.Some? then Some(objectUrl) else fallback
  }

  /**
   * The entry an add-mode submit appends: the form's fields, the timestamp
   * `now` as id and, for the preview, the object URL of the picked image or
   * the empty string when none was picked.
   */
  function NewContact(form: ContactForm, now: int, objectUrl: string): (r: StoredContact)
    ensures FormOf(r) == form
    ensures r.id == now
    ensures form.image.None? ==> r.imageData == Some("")
    ensures form.image.Some? ==> r.imageData == Some(objectUrl)
  {
    StoredContact(now, form.name, form.phone, form.email, form.address,
                  form.facebook, form.instagram, form.favorite, form.image,
                  Preview(form, objectUrl, Some("")))
  }

  /**
   * The entry an edit-mode submit writes over `prev`: the form's fields over
   * `prev`'s, `prev`'s id, and a new preview only when an image was picked.
   */
  function EditedContact(prev: StoredContact, form: ContactForm, objectUrl: string): (r: StoredContact)
    ensures FormOf(r) == form
    ensures r.id == prev.id
    ensures form.image.None? ==> r.imageData == prev.imageData
    ensures form.image.Some? ==> r.imageData == Some(objectUrl)
  {
    prev.(name := form.name, phone := form.phone, email := form.email,
          address := form.address, facebook := form.facebook,
          instagram := form.instagram, favorite := form.favorite,
          image := form.image, imageData := Preview(form, objectUrl, prev.imageData))
  }

  /** The form editing a contact starts from: the contact's fields, with no image picked. */
  function EditForm(c: StoredContact): (r: ContactForm)
    ensures r.image == None
    ensures r.(image := c.image) == FormOf(c)
  {
    ContactForm(c.name, c.phone, c.email, c.address, c.facebook, c.instagram, c.favorite, None)
  }

  /** A contact with its favorite flag flipped and nothing else changed. */
  function Flip(c: StoredContact): StoredContact {
    c.(favorite := !c.favorite)
  }

  /**
   * The list with entry `index` flipped: `map` over the entries, flipping the
   * one whose position equals `index`. An index outside the list flips none.
   */
  function FlipFavoriteAt(cs: seq<StoredContact>, index: int): (r: seq<StoredContact>)
    ensures |r| == |cs|
    ensures forall j :: 0 <= j < |cs| && j != index ==> r[j] == cs[j]
    ensures 0 <= index < |cs| ==> r[index] == Flip(cs[index])
  {
    if cs == [] then []
    else
      var n := |cs| - 1;
      FlipFavoriteAt(cs[..n], index) + [if n == index then Flip(cs[n]) else cs[n]]
  }

  /**
   * The list without entry `index`: `filter` over the entries, keeping those
   * whose position differs from `index`. An index outside the list drops none.
   */
  function DropAt(cs: seq<StoredContact>, index: int): (r: seq<StoredContact>)
    ensures |r| == if 0 <= index < |cs| then |cs| - 1 else |cs|
  {
    if cs == [] then []
    else
      var n := |cs| - 1;
      DropAt(cs[..n], index) + (if n == index then [] else [cs[n]])
  }

  /** Flipping an entry changes its favorite flag and no other field of it. */
  lemma FlipFavoriteOnlyFavorite(cs: seq<StoredContact>, index: int)
    requires 0 <= index < |cs|
    ensures FlipFavoriteAt(cs, index)[index].favorite == !cs[index].favorite
    ensures FlipFavoriteAt(cs, index)[index].(favorite := cs[index].favorite) == cs[index]
  {
  }

  /** Flipping the same entry twice gives back the list. */
  lemma {:induction false} FlipFavoriteTwice(cs: seq<StoredContact>, index: int)
    ensures FlipFavoriteAt(FlipFavoriteAt(cs, index), index) == cs
  {
    var r := FlipFavoriteAt(FlipFavoriteAt(cs, index), index);
    assert forall j :: 0 <= j < |cs| ==> r[j] == cs[j];
  }

  /** An index outside the list leaves it unchanged. */
  lemma {:induction false} FlipFavoriteOutOfRange(cs: seq<StoredContact>, index: int)
    requires !(0 <= index < |cs|)
    ensures FlipFavoriteAt(cs, index) == cs
  {
    var r := FlipFavoriteAt(cs, index);
    assert forall j :: 0 <= j < |cs| ==> r[j] == cs[j];
  }

  /** Dropping an index inside the list splices that entry out; the others keep their order. */
  lemma {:induction false} DropAtSplices(cs: seq<StoredContact>, index: int)
    requires 0 <= index < |cs|
    ensures DropAt(cs, index) == cs[..index] + cs[index + 1..]
  {
    var n := |cs| - 1;
    if n == index {
      DropAtOutOfRange(cs[..n], index);
      assert cs[..index] + cs[index + 1..] == cs[..n];
    } else {
      DropAtSplices(cs[..n], index);
      assert cs[..n][..index] == cs[..index];
      assert cs[..n][index + 1..] + [cs[n]] == cs[index + 1..];
    }
  }

  /** Dropping an index outside the list leaves it unchanged. */
  lemma {:induction false} DropAtOutOfRange(cs: seq<StoredContact>, index: int)
    requires !(0 <= index < |cs|)
    ensures DropAt(cs, index) == cs
  {
    if cs != [] {
      var n := |cs| - 1;
      DropAtOutOfRange(cs[..n], index);
      assert cs[..n] + [cs[n]] == cs;
    }
  }

  /** Editing a contact and submitting the untouched form gives back the contact, minus its picked image. */
  lemma EditRoundTrip(c: StoredContact, objectUrl: string)
    ensures EditedContact(c, EditForm(c), objectUrl) == c.(image := None)
  {
  }

  /** Editing a just-added contact starts from the form that added it, with no image picked. */
  lemma AddThenEditForm(form: ContactForm, now: int, objectUrl: string)
    ensures EditForm(NewContact(form, now, objectUrl)) == form.(image := None)
  {
  }
}
