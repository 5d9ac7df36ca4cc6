/**
 * The contact page of src/pages/ContactPage/index.tsx, split at its one `await` like the
 * company page: `FetchContactData` runs up to the contact request, `ReceiveContact`
 * resumes it. Unlike the company page, a new fetch does not clear an earlier error.
 */
module ContactPage {
  import opened Wrappers
  import opened Types
  import opened Api
  import opened Notifications

  const LoadFailedMessage := "Failed to load contact data"
  const RefreshedMessage := "Data refreshed"

  class Page {
    /** The `id` route parameter. */
    const routeId: Option<string>
    var contact: Option<Contact>
    var isLoading: bool
    var error: Option<string>
    /** `isLocalUpdate.current`. */
    var isLocalUpdate: bool
    /** Fetches waiting for the contact read to answer. */
    var awaitingContact: nat
    const api: ApiClient
    const notes: NotificationCenter

    /** The first render: nothing loaded yet, shown as loading. */
    constructor (routeId: Option<string>, api: ApiClient, notes: NotificationCenter)
      ensures this.routeId == routeId && this.api == api && this.notes == notes
      ensures contact == None && isLoading && error == None && !isLocalUpdate && awaitingContact == 0
    {
      this.routeId := routeId;
      contact := None;
      isLoading := true;
      error := None;
      isLocalUpdate := false;
      awaitingContact := 0;
      this.api := api;
      this.notes := notes;
    }

    /**
     * `fetchContactData` up to its `await`: no id, nothing happens; a pending local
     * update is skipped and clears the one-shot; otherwise the contact read goes out and,
     * the global flag having just been seen down, is never rejected.
     */
    method FetchContactData()
      modifies this`isLocalUpdate, this`isLoading, this`awaitingContact, api
      ensures !Truthy(routeId) ==> unchanged(this, api)
      ensures Truthy(routeId) && (old(isLocalUpdate) || old(api.localUpdateInProgress)) ==>
                && !isLocalUpdate && unchanged(api)
                && isLoading == old(isLoading) && awaitingContact == old(awaitingContact)
      ensures Truthy(routeId) && !old(isLocalUpdate) && !old(api.localUpdateInProgress) ==>
                && isLoading && isLocalUpdate == old(isLocalUpdate)
                && awaitingContact == old(awaitingContact) + 1
                && api.localUpdateInProgress == old(api.localUpdateInProgress)
                && api.inFlight == old(api.inFlight) && api.pendingResets == old(api.pendingResets)
                && api.storage == old(api.storage)
                && api.authToken == CachedToken(old(api.authToken), old(api.storage))
                && api.sent == old(api.sent) + [Request(Get, ContactPath(routeId.value),
                                                        HeadersFor(JsonContentType, api.authToken), NoBody)]
    {
      if !Truthy(routeId) {
        return;
      }
      if isLocalUpdate || api.localUpdateInProgress {
        isLocalUpdate := false;
        return;
      }
      isLoading := true;
      var r := api.GetContact(routeId.value);
      if r.Rejected? {
        // The flag was seen down just above, so the sentinel cannot come from this read.
        assert false;
      }
      awaitingContact := awaitingContact + 1;
    }

    /** The fetch resumes with the read's answer and ends. */
    method ReceiveContact(response: Response<Contact>)
      requires awaitingContact > 0 && notes.Valid()
      modifies this`contact, this`isLoading, this`error, this`awaitingContact, notes
      ensures notes.Valid() && !isLoading
      ensures awaitingContact == old(awaitingContact) - 1
      ensures response.Delivered? ==> contact == Some(response.value) && error == old(error) && unchanged(notes)
      ensures response.Failed? ==>
                && contact == old(contact) && error == Some(LoadFailedMessage)
                && notes.Showed(LoadFailedMessage, Error)
    {
      awaitingContact := awaitingContact - 1;
      if response.Delivered? {
        contact := Some(response.value);
      } else {
        error := Some(LoadFailedMessage);
        notes.Show(LoadFailedMessage, Error);
      }
      isLoading := false;
    }

    /** `handleContactUpdate`: show the edited contact and skip the next fetch. */
    method HandleContactUpdate(updated: Contact)
      modifies this`contact, this`isLocalUpdate
      ensures contact == Some(updated) && isLocalUpdate
    {
      isLocalUpdate := true;
      contact := Some(updated);
    }

    /** `handleRefreshClick`: clear the one-shot, fetch, and say so. */
    method HandleRefreshClick()
      requires notes.Valid()
      modifies this`isLocalUpdate, this`isLoading, this`awaitingContact, api, notes
      ensures notes.Valid() && !isLocalUpdate
      ensures notes.Showed(RefreshedMessage, Info)
      ensures api.localUpdateInProgress == old(api.localUpdateInProgress)
      ensures api.inFlight == old(api.inFlight) && api.pendingResets == old(api.pendingResets)
      ensures error == old(error)
      ensures !Truthy(routeId) || old(api.localUpdateInProgress) ==>
                unchanged(api) && isLoading == old(isLoading) && awaitingContact == old(awaitingContact)
      ensures Truthy(routeId) && !old(api.localUpdateInProgress) ==>
                && isLoading
                && awaitingContact == old(awaitingContact) + 1
                && api.storage == old(api.storage)
                && api.authToken == CachedToken(old(api.authToken), old(api.storage))
                && api.sent == old(api.sent) + [Request(Get, ContactPath(routeId.value),
                                                        HeadersFor(JsonContentType, api.authToken), NoBody)]
    {
      isLocalUpdate := false;
      FetchContactData();
      notes.Show(RefreshedMessage, Info);
    }
  }

  /**
   * A failed load leaves its error in place through a later successful refresh: the
   * contact arrives but the page keeps reporting the failure.
   */
  method ErrorOutlivesRefresh(storage: map<string, string>, id: string, later: Contact)
    returns (shown: Option<Contact>, error: Option<string>)
    requires id != ""
    ensures shown == Some(later) && error == Some(LoadFailedMessage)
  {
    var api := new ApiClient(storage);
    var notes := new NotificationCenter();
    var page := new Page(Some(id), api, notes);
    page.FetchContactData();
    page.ReceiveContact(Failed);
    page.HandleRefreshClick();
    page.ReceiveContact(Delivered(later));
    shown, error := page.contact, page.error;
  }

  /**
   * After the contact was saved on this page, a refresh sends nothing while the API's
   * flag is up (the refresh itself clears the ref first); once the 500 ms reset fired,
   * a refresh reads the contact again.
   */
  method RefreshAfterResetReads(storage: map<string, string>, id: string, data: ContactPatch, updated: Contact)
    returns (skipped: nat, afterReset: nat)
    requires id != ""
    ensures skipped == 1 && afterReset == 2
  {
    var api := new ApiClient(storage);
    var notes := new NotificationCenter();
    var page := new Page(Some(id), api, notes);
    api.UpdateContact(id, data);
    page.HandleContactUpdate(updated);
    page.HandleRefreshClick();
    skipped := |api.sent|;
    api.Settle();
    api.FireReset();
    page.HandleRefreshClick();
    afterReset := |api.sent|;
  }
}
