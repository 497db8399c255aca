/**
 * The contact manager page's state controller: the three state cells of the
 * page (`form`, `contacts`, `editingIndex`) and the handlers that update them.
 * Every handler works on local state only; the page never sends these changes
 * to the server.
 */
module ContactApp {
  import opened Wrappers
  import opened ContactList

  class App {
    /** The in-progress form. */
    var form: ContactForm
    /** The contacts shown in the list, in display order. */
    var contacts: seq<StoredContact>
    /** The position of the contact being edited, or `None` in add mode. */
    var editingIndex: Option<nat>

    /** The page as first rendered: a blank form, no contacts, add mode. */
    constructor ()
      ensures form == EmptyForm && contacts == [] && editingIndex == None
    {
      form := EmptyForm;
      contacts := [];
      editingIndex := None;
    }

    /** The image input changed: `file` is the first file picked, or `None` when none is. */
    method HandleImage(file: Option<File>)
      modifies this
      ensures form == old(form).(image := file)
      ensures contacts == old(contacts) && editingIndex == old(editingIndex)
    {
      form := form.(image := file);
    }

    /** A text input changed: that one field of the form takes the typed value. */
    method SetField(field: Field, value: string)
      modifies this
      ensures FieldValue(form, field) == value
      ensures forall other :: other != field ==> FieldValue(form, other) == FieldValue(old(form), other)
      ensures form.favorite == old(form).favorite && form.image == old(form).image
      ensures contacts == old(contacts) && editingIndex == old(editingIndex)
    {
      form := WithField(form, field, value);
    }

    /** Cancel: blank the form and return to add mode; the list is kept. */
    method ResetForm()
      modifies this
      ensures form == EmptyForm && editingIndex == None
      ensures contacts == old(contacts)
    {
      form := EmptyForm;
      editingIndex := None;
    }

    /**
     * Submit the form. In add mode the form becomes a new last entry with id
     * `now` (the clock reading); in edit mode it is written over the entry
     * being edited, which keeps its id. `objectUrl` is the preview URL the
     * browser would create for the picked image. Either way the form is
     * blanked and add mode restored.
     */
    method SubmitForm(now: int, objectUrl: string)
      requires editingIndex.Some? ==> editingIndex.value < |contacts|
      modifies this
      ensures form == EmptyForm && editingIndex == None
      ensures old(editingIndex).None? ==>
        |contacts| == |old(contacts)| + 1
        && contacts[..|old(contacts)|] == old(contacts)
        && contacts[|old(contacts)|] == NewContact(old(form), now, objectUrl)
      ensures old(editingIndex).Some? ==>
        var i := old(editingIndex).value;
        |contacts| == |old(contacts)|
        && contacts[i] == EditedContact(old(contacts)[i], old(form), objectUrl)
        && forall j :: 0 <= j < |contacts| && j != i ==> contacts[j] == old(contacts)[j]
    {
      if editingIndex.Some? {
        var i := editingIndex.value;
        var updatedContact := EditedContact(contacts[i], form, objectUrl);
        var updatedContacts := contacts;
        updatedContacts := updatedContacts[i := updatedContact];
        contacts := updatedContacts;
      } else {
        var newContact := NewContact(form, now, objectUrl);
        contacts := contacts + [newContact];
      }
      ResetForm();
    }

    /** Enter edit mode on entry `index`: the form is seeded from it, with no image picked. */
    method StartEdit(index: nat)
      requires index < |contacts|
      modifies this
      ensures form == EditForm(old(contacts)[index])
      ensures editingIndex == Some(index)
      ensures contacts == old(contacts)
    {
      var contact := contacts[index];
      form := EditForm(contact);
      editingIndex := Some(index);
    }

    /** Flip the favorite flag of entry `index`; an index outside the list changes nothing. */
    method ToggleFavorite(index: int)
      modifies this
      ensures contacts == FlipFavoriteAt(old(contacts), index)
      ensures form == old(form) && editingIndex == old(editingIndex)
    {
      contacts := FlipFavoriteAt(contacts, index);
    }

    /**
     * Remove entry `index`; an index outside the list removes nothing. The
     * edit position is left as it was, even when it named the removed entry.
     */
    method DeleteContact(index: int)
      modifies this
      ensures contacts == DropAt(old(contacts), index)
      ensures 0 <= index < |old(contacts)| ==>
        contacts == old(contacts)[..index] + old(contacts)[index + 1..]
      ensures !(0 <= index < |old(contacts)|) ==> contacts == old(contacts)
      ensures form == old(form) && editingIndex == old(editingIndex)
    {
      contacts := DropAt(contacts, index);
      if 0 <= index < |old(contacts)| {
        DropAtSplices(old(contacts), index);
      } else {
        DropAtOutOfRange(old(contacts), index);
      }
    }
  }

  /**
   * Deleting the entry under edit leaves the edit position in place, where
   * the next contact has moved: with two contacts, editing the first,
   * deleting it and submitting writes the first contact's fields over the
   * second contact, which keeps its id and, no new image having been picked,
   * its own preview.
   */
  method DeleteWhileEditingRetargets(app: App, objectUrl: string)
    requires |app.contacts| == 2
    modifies app
    ensures |app.contacts| == 1
    ensures app.contacts[0].id == old(app.contacts[1]).id
    ensures FormOf(app.contacts[0]) == EditForm(old(app.contacts[0]))
    ensures app.contacts[0].imageData == old(app.contacts[1]).imageData
  {
    app.StartEdit(0);
    app.DeleteContact(0);
    app.SubmitForm(0, objectUrl);
  }
}
