/**
 * The company page of src/pages/CompanyPage/index.tsx. Loading the company (and its
 * contact) is split at each `await`: `FetchCompanyData` runs up to the company request,
 * `ReceiveCompany` and `ReceiveContact` resume it when an answer arrives. The one-shot
 * `isLocalUpdate` ref, raised by the widgets' update callbacks, makes the next fetch a
 * no-op; so does the API's global local-update flag.
 */
module CompanyPage {
  import opened Wrappers
  import opened Types
  import opened Api
  import opened Notifications

  const LoadFailedMessage := "Failed to load company data"
  const RefreshedMessage := "Data refreshed"
  const DeletedMessage := "Company deleted successfully"
  const DeleteFailedMessage := "Failed to delete company"

  class Page {
    /** The `id` route parameter. */
    const routeId: Option<string>
    var company: Option<Company>
    var contact: Option<Contact>
    var isLoading: bool
    var error: Option<string>
    var isDeleteDialogOpen: bool
    /** `isLocalUpdate.current`. */
    var isLocalUpdate: bool
    /** Fetches waiting for the company read to answer. */
    var awaitingCompany: nat
    /** Fetches waiting for the contact read to answer. */
    var awaitingContact: nat
    /** `navigate("/")` was called. */
    var leftPage: bool
    const api: ApiClient
    const notes: NotificationCenter

    /** The first render: nothing loaded yet, shown as loading. */
    constructor (routeId: Option<string>, api: ApiClient, notes: NotificationCenter)
      ensures this.routeId == routeId && this.api == api && this.notes == notes
      ensures company == None && contact == None && isLoading && error == None
      ensures !isDeleteDialogOpen && !isLocalUpdate && !leftPage
      ensures awaitingCompany == 0 && awaitingContact == 0
    {
      this.routeId := routeId;
      company := None;
      contact := None;
      isLoading := true;
      error := None;
      isDeleteDialogOpen := false;
      isLocalUpdate := false;
      awaitingCompany := 0;
      awaitingContact := 0;
      leftPage := false;
      this.api := api;
      this.notes := notes;
    }

    /**
     * `fetchCompanyData` up to its first `await`. Without an id nothing happens; a
     * pending local update (the page's own or the API's) is skipped and clears the
     * one-shot; otherwise the company read goes out, and since the global flag was just
     * seen down it is never rejected here.
     */
    method FetchCompanyData()
      modifies this`isLocalUpdate, this`isLoading, this`error, this`awaitingCompany, api
      ensures !Truthy(routeId) ==> unchanged(this, api)
      ensures Truthy(routeId) && (old(isLocalUpdate) || old(api.localUpdateInProgress)) ==>
                && !isLocalUpdate && unchanged(api)
                && isLoading == old(isLoading) && error == old(error) && awaitingCompany == old(awaitingCompany)
      ensures Truthy(routeId) && !old(isLocalUpdate) && !old(api.localUpdateInProgress) ==>
                && isLoading && error == None && isLocalUpdate == old(isLocalUpdate)
                && awaitingCompany == old(awaitingCompany) + 1
                && api.localUpdateInProgress == old(api.localUpdateInProgress)
                && api.inFlight == old(api.inFlight) && api.pendingResets == old(api.pendingResets)
                && api.storage == old(api.storage)
                && api.authToken == CachedToken(old(api.authToken), old(api.storage))
                && api.sent == old(api.sent) + [Request(Get, CompanyPath(BaseId(routeId.value)),
                                                        HeadersFor(JsonContentType, api.authToken), NoBody)]
    {
      if !Truthy(routeId) {
        return;
      }
      if isLocalUpdate || api.localUpdateInProgress {
        isLocalUpdate := false;
        return;
      }
      isLoading := true;
      error := None;
      var r := api.GetCompany(routeId.value);
      if r.Rejected? {
        // The flag was seen down just above, so the sentinel cannot come from this read.
        assert false;
      }
      awaitingCompany := awaitingCompany + 1;
    }

    /**
     * A fetch resumes with the company read's answer: a company is shown at once and its
     * contact is requested when it names one; a rejected contact read (a local update
     * started meanwhile) ends the fetch quietly; a failed read shows the load error.
     */
    method ReceiveCompany(response: Response<Company>)
      requires awaitingCompany > 0 && notes.Valid()
      modifies this`company, this`isLoading, this`error, this`awaitingCompany, this`awaitingContact, api, notes
      ensures notes.Valid()
      ensures awaitingCompany == old(awaitingCompany) - 1
      ensures response.Failed? ==>
                && company == old(company) && !isLoading && error == Some(LoadFailedMessage)
                && awaitingContact == old(awaitingContact) && unchanged(api)
                && notes.Showed(LoadFailedMessage, Error)
      ensures response.Delivered? ==>
                company == Some(response.value) && error == old(error) && unchanged(notes)
      ensures response.Delivered? && response.value.contactId == "" ==>
                !isLoading && awaitingContact == old(awaitingContact) && unchanged(api)
      ensures response.Delivered? && response.value.contactId != "" && old(api.localUpdateInProgress) ==>
                !isLoading && awaitingContact == old(awaitingContact) && unchanged(api)
      ensures response.Delivered? && response.value.contactId != "" && !old(api.localUpdateInProgress) ==>
                && isLoading == old(isLoading) && awaitingContact == old(awaitingContact) + 1
                && api.localUpdateInProgress == old(api.localUpdateInProgress)
                && api.inFlight == old(api.inFlight) && api.pendingResets == old(api.pendingResets)
                && api.storage == old(api.storage)
                && api.authToken == CachedToken(old(api.authToken), old(api.storage))
                && api.sent == old(api.sent) + [Request(Get, ContactPath(response.value.contactId),
                                                        HeadersFor(JsonContentType, api.authToken), NoBody)]
    {
      awaitingCompany := awaitingCompany - 1;
      if response.Failed? {
        error := Some(LoadFailedMessage);
        notes.Show(LoadFailedMessage, Error);
        isLoading := false;
        return;
      }
      var companyData := response.value;
      company := Some(companyData);
      if companyData.contactId != "" {
        var r := api.GetContact(companyData.contactId);
        if r.Rejected? {
          isLoading := false;
          return;
        }
        awaitingContact := awaitingContact + 1;
        return;
      }
      isLoading := false;
    }

    /** A fetch resumes with the contact read's answer and ends. */
    method ReceiveContact(response: Response<Contact>)
      requires awaitingContact > 0 && notes.Valid()
      modifies this`contact, this`isLoading, this`error, this`awaitingContact, notes
      ensures notes.Valid() && !isLoading
      ensures awaitingContact == old(awaitingContact) - 1
      ensures response.Delivered? ==> contact == Some(response.value) && error == old(error) && unchanged(notes)
      ensures response.Failed? ==>
                && contact == old(contact) && error == Some(LoadFailedMessage)
                && notes.Showed(LoadFailedMessage, Error)
    {
      awaitingContact := awaitingContact - 1;
      if response.Delivered? {
        contact := Some(response.value);
      } else {
        error := Some(LoadFailedMessage);
        notes.Show(LoadFailedMessage, Error);
      }
      isLoading := false;
    }

    /** `handleCompanyUpdate`: show the edited company and skip the next fetch. */
    method HandleCompanyUpdate(updated: Company)
      modifies this`company, this`isLocalUpdate
      ensures company == Some(updated) && isLocalUpdate
    {
      isLocalUpdate := true;
      company := Some(updated);
    }

    /** `handleContactUpdate`: show the edited contact and skip the next fetch. */
    method HandleContactUpdate(updated: Contact)
      modifies this`contact, this`isLocalUpdate
      ensures contact == Some(updated) && isLocalUpdate
    {
      isLocalUpdate := true;
      contact := Some(updated);
    }

    /** `handleImagesUpdate`: replace only the photos of the company shown, if there is one. */
    method HandleImagesUpdate(images: seq<Image>)
      modifies this`company, this`isLocalUpdate
      ensures old(company).None? ==> company == None && isLocalUpdate == old(isLocalUpdate)
      ensures old(company).Some? ==> company == Some(old(company).value.(photos := images)) && isLocalUpdate
    {
      if company.Some? {
        isLocalUpdate := true;
        company := Some(company.value.(photos := images));
      }
    }

    /** `handleDeleteClick`. */
    method DeleteClick()
      modifies this`isDeleteDialogOpen
      ensures isDeleteDialogOpen
    {
      isDeleteDialogOpen := true;
    }

    /** `handleDeleteConfirm`, the delete request succeeding or not. */
    method DeleteConfirm(succeeded: bool)
      requires notes.Valid()
      modifies this`isDeleteDialogOpen, this`leftPage, api, notes
      ensures notes.Valid()
      ensures !Truthy(routeId) ==> unchanged(this, api, notes)
      ensures Truthy(routeId) ==>
                && !isDeleteDialogOpen && leftPage == (old(leftPage) || succeeded)
                && api.localUpdateInProgress == old(api.localUpdateInProgress)
                && api.inFlight == old(api.inFlight) && api.pendingResets == old(api.pendingResets)
                && api.storage == old(api.storage)
                && api.authToken == CachedToken(old(api.authToken), old(api.storage))
                && api.sent == old(api.sent) + [Request(Delete, CompanyPath(routeId.value),
                                                        HeadersFor(JsonContentType, api.authToken), NoBody)]
                && (if succeeded then notes.Showed(DeletedMessage, Success) else notes.Showed(DeleteFailedMessage, Error))
    {
      if !Truthy(routeId) {
        return;
      }
      api.DeleteCompany(routeId.value);
      if succeeded {
        notes.Show(DeletedMessage, Success);
        leftPage := true;
      } else {
        notes.Show(DeleteFailedMessage, Error);
      }
      isDeleteDialogOpen := false;
    }

    /**
     * `handleRefreshClick`: clear the one-shot, fetch, and say so. Only the API's global
     * flag can still hold the fetch back.
     */
    method HandleRefreshClick()
      requires notes.Valid()
      modifies this`isLocalUpdate, this`isLoading, this`error, this`awaitingCompany, api, notes
      ensures notes.Valid() && !isLocalUpdate
      ensures notes.Showed(RefreshedMessage, Info)
      ensures api.localUpdateInProgress == old(api.localUpdateInProgress)
      ensures api.inFlight == old(api.inFlight) && api.pendingResets == old(api.pendingResets)
      ensures !Truthy(routeId) || old(api.localUpdateInProgress) ==>
                && unchanged(api)
                && isLoading == old(isLoading) && error == old(error) && awaitingCompany == old(awaitingCompany)
      ensures Truthy(routeId) && !old(api.localUpdateInProgress) ==>
                && isLoading && error == None
                && awaitingCompany == old(awaitingCompany) + 1
                && api.storage == old(api.storage)
                && api.authToken == CachedToken(old(api.authToken), old(api.storage))
                && api.sent == old(api.sent) + [Request(Get, CompanyPath(BaseId(routeId.value)),
                                                        HeadersFor(JsonContentType, api.authToken), NoBody)]
    {
      isLocalUpdate := false;
      FetchCompanyData();
      notes.Show(RefreshedMessage, Info);
    }
  }

  /**
   * After an edit reported through `onUpdate`, the next fetch sends nothing and the one
   * after it reads the company again: the ref suppresses exactly one fetch.
   */
  method EditSkipsOneFetch(storage: map<string, string>, id: string, updated: Company)
    returns (requestsAfterFirst: nat, requestsAfterSecond: nat)
    requires id != ""
    ensures requestsAfterFirst == 0 && requestsAfterSecond == 1
  {
    var api := new ApiClient(storage);
    var notes := new NotificationCenter();
    var page := new Page(Some(id), api, notes);
    page.HandleCompanyUpdate(updated);
    page.FetchCompanyData();
    requestsAfterFirst := |api.sent|;
    page.FetchCompanyData();
    requestsAfterSecond := |api.sent|;
  }

  /**
   * A page opened while another page's update is still within its 500 ms window sends
   * nothing on its first fetch and stays loading with no company. The loading view has
   * no refresh button; only a later run of the fetch effect can load the company.
   */
  method OpenedDuringLocalUpdateStaysLoading(storage: map<string, string>, contactId: string, data: ContactPatch,
                                             id: string)
    returns (loading: bool, shown: Option<Company>, requests: nat)
    requires id != ""
    ensures loading && shown == None && requests == 1
  {
    var api := new ApiClient(storage);
    api.UpdateContact(contactId, data);
    var notes := new NotificationCenter();
    var page := new Page(Some(id), api, notes);
    page.FetchCompanyData();
    loading, shown, requests := page.isLoading, page.company, |api.sent|;
  }

  /**
   * A write that starts while the company read is out makes the contact read reject:
   * the fetch ends without the contact and without an error.
   */
  method WriteDuringFetchDropsContact(storage: map<string, string>, id: string, company: Company,
                                      contactData: ContactPatch)
    returns (shownCompany: Option<Company>, shownContact: Option<Contact>, error: Option<string>, loading: bool)
    requires id != "" && company.contactId != ""
    ensures shownCompany == Some(company) && shownContact == None && error == None && !loading
  {
    var api := new ApiClient(storage);
    var notes := new NotificationCenter();
    var page := new Page(Some(id), api, notes);
    page.FetchCompanyData();
    api.UpdateContact(company.contactId, contactData);
    page.ReceiveCompany(Delivered(company));
    shownCompany, shownContact, error, loading := page.company, page.contact, page.error, page.isLoading;
  }
}
