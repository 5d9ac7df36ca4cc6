/**
 * The contact editor of src/widgets/ContactDetails/index.tsx: the form holds the four
 * editable fields; saving sends only the fields that differ from the contact and, once
 * the update succeeded, hands the contact with those fields overwritten to the page.
 */
module ContactDetails {
  import opened Wrappers
  import opened Types
  import opened Api
  import opened Notifications

  const NoChangesMessage := "No changes to save"
  const UpdatedMessage := "Contact details updated successfully"
  const UpdateFailedMessage := "Failed to update contact details"

  /** `formData`: input name to value. */
  type Form = map<string, string>

  /** The form filled from the contact (initial state, the prop-change effect and `handleCancel`). */
  function InitialForm(c: Contact): Form {
    map["lastname" := c.lastname, "firstname" := c.firstname, "phone" := c.phone, "email" := c.email]
  }

  /** The form holds the four editable fields, as its TypeScript type says. */
  predicate HasFields(f: Form) {
    "lastname" in f && "firstname" in f && "phone" in f && "email" in f
  }

  /** The form agrees with the contact on all four editable fields. */
  predicate Agrees(f: Form, c: Contact)
    requires HasFields(f)
  {
    f["lastname"] == c.lastname && f["firstname"] == c.firstname && f["phone"] == c.phone && f["email"] == c.email
  }

  /** `changedFields` of `handleSave`: each editable field whose form value differs from the contact. */
  function Diff(f: Form, c: Contact): (r: ContactPatch)
    requires HasFields(f)
    ensures r.lastname.Some? <==> f["lastname"] != c.lastname
    ensures r.firstname.Some? <==> f["firstname"] != c.firstname
    ensures r.phone.Some? <==> f["phone"] != c.phone
    ensures r.email.Some? <==> f["email"] != c.email
    ensures r.lastname.Some? ==> r.lastname.value == f["lastname"]
    ensures r.firstname.Some? ==> r.firstname.value == f["firstname"]
    ensures r.phone.Some? ==> r.phone.value == f["phone"]
    ensures r.email.Some? ==> r.email.value == f["email"]
    ensures r.id.None? && r.createdAt.None? && r.updatedAt.None?
    ensures r == NoContactChanges <==> Agrees(f, c)
  {
    ContactPatch(
      None,
      if f["lastname"] != c.lastname then Some(f["lastname"]) else None,
      if f["firstname"] != c.firstname then Some(f["firstname"]) else None,
      if f["phone"] != c.phone then Some(f["phone"]) else None,
      if f["email"] != c.email then Some(f["email"]) else None,
      None,
      None)
  }

  /** `{ ...contact, ...changedFields }`. */
  function Merge(c: Contact, p: ContactPatch): Contact {
    Contact(
      p.id.GetOr(c.id),
      p.lastname.GetOr(c.lastname),
      p.firstname.GetOr(c.firstname),
      p.phone.GetOr(c.phone),
      p.email.GetOr(c.email),
      p.createdAt.GetOr(c.createdAt),
      p.updatedAt.GetOr(c.updatedAt))
  }

  /** The contact handed to `onUpdate` carries the form's four values and the old id and timestamps. */
  lemma SavedContact(f: Form, c: Contact)
    requires HasFields(f)
    ensures var m := Merge(c, Diff(f, c));
            && m.lastname == f["lastname"] && m.firstname == f["firstname"]
            && m.phone == f["phone"] && m.email == f["email"]
            && m.id == c.id && m.createdAt == c.createdAt && m.updatedAt == c.updatedAt
  {
  }

  /** Saving again right after a successful save finds nothing to send. */
  lemma SaveConverges(f: Form, c: Contact)
    requires HasFields(f)
    ensures Diff(f, Merge(c, Diff(f, c))) == NoContactChanges
  {
    SavedContact(f, c);
  }

  /** A form reset by `handleCancel` has nothing to save. */
  lemma CancelLeavesNothingToSave(c: Contact)
    ensures HasFields(InitialForm(c)) && Diff(InitialForm(c), c) == NoContactChanges
  {
  }

  /** `handleInputChange` sets one key and so keeps the four editable fields present. */
  lemma InputChangeKeepsFields(f: Form, name: string, value: string)
    requires HasFields(f)
    ensures HasFields(f[name := value])
  {
  }

  class ContactDetailsWidget {
    /** The `contact` prop. */
    var contact: Contact
    var form: Form
    var isEditing: bool
    var isLoading: bool
    const api: ApiClient
    const notes: NotificationCenter

    constructor (contact: Contact, api: ApiClient, notes: NotificationCenter)
      ensures this.contact == contact && form == InitialForm(contact)
      ensures !isEditing && !isLoading
      ensures this.api == api && this.notes == notes
    {
      this.contact := contact;
      form := InitialForm(contact);
      isEditing := false;
      isLoading := false;
      this.api := api;
      this.notes := notes;
    }

    /** `handleInputChange`: `{ ...prev, [name]: value }`. */
    method InputChange(name: string, value: string)
      modifies this`form
      ensures form == old(form)[name := value]
    {
      form := form[name := value];
    }

    /** The effect run when the `contact` prop changes: the form is refilled from the new contact. */
    method PropChanged(contact: Contact)
      modifies this`contact, this`form
      ensures this.contact == contact && form == InitialForm(contact)
    {
      this.contact := contact;
      form := InitialForm(contact);
    }

    /** `handleCancel`: back to the contact's values, out of editing. */
    method Cancel()
      modifies this`form, this`isEditing
      ensures form == InitialForm(contact) && !isEditing
    {
      form := InitialForm(contact);
      isEditing := false;
    }

    /** The chain of conditional assignments that builds `changedFields` in `handleSave`. */
    method ChangedFields() returns (changed: ContactPatch)
      requires HasFields(form)
      ensures changed == Diff(form, contact)
    {
      changed := NoContactChanges;
      if form["lastname"] != contact.lastname {
        changed := changed.(lastname := Some(form["lastname"]));
      }
      if form["firstname"] != contact.firstname {
        changed := changed.(firstname := Some(form["firstname"]));
      }
      if form["phone"] != contact.phone {
        changed := changed.(phone := Some(form["phone"]));
      }
      if form["email"] != contact.email {
        changed := changed.(email := Some(form["email"]));
      }
    }

    /**
     * `handleSave`, the update request succeeding or not; returns the contact passed
     * to `onUpdate`, if it is called.
     */
    method Save(succeeded: bool) returns (updated: Option<Contact>)
      requires notes.Valid() && HasFields(form)
      modifies this`isEditing, this`isLoading, api, notes
      ensures notes.Valid() && !isLoading
      ensures Agrees(form, contact) ==>
                && updated == None && !isEditing && unchanged(api)
                && notes.Showed(NoChangesMessage, Info)
      ensures !Agrees(form, contact) ==>
                && api.localUpdateInProgress
                && api.inFlight == old(api.inFlight)
                && api.pendingResets == old(api.pendingResets) + 1
                && api.storage == old(api.storage)
                && api.authToken == CachedToken(old(api.authToken), old(api.storage))
                && api.sent == old(api.sent) + [Request(Patch, ContactPath(contact.id), HeadersFor(JsonContentType, api.authToken),
                                                        ContactFields(Diff(form, contact)))]
      ensures !Agrees(form, contact) && succeeded ==>
                && updated == Some(Merge(contact, Diff(form, contact)))
                && !isEditing
                && notes.Showed(UpdatedMessage, Success)
      ensures !Agrees(form, contact) && !succeeded ==>
                && updated == None
                && isEditing == old(isEditing)
                && notes.Showed(UpdateFailedMessage, Error)
    {
      isLoading := true;
      var changed := ChangedFields();

      updated := None;
      if changed == NoContactChanges {
        notes.Show(NoChangesMessage, Info);
        isEditing := false;
        isLoading := false;
        return;
      }
      api.UpdateContact(contact.id, changed);
      api.Settle();
      if succeeded {
        updated := Some(Merge(contact, changed));
        isEditing := false;
        notes.Show(UpdatedMessage, Success);
      } else {
        notes.Show(UpdateFailedMessage, Error);
      }
      isLoading := false;
    }
  }
}
