# Company card client: a Dafny model

This project models the client side of a single-page app for viewing and editing a
company card. The card has four parts:

- the company's details;
- its contact person;
- a photo gallery;
- toast notifications.

The model follows the source file by file:

- `api.dfy` (module `Api`) models the API client of `src/shared/api/api.ts`.
  - It holds the process-wide *local update in progress* flag. The two updates and the two image calls raise it (`deleteCompany` does not). A 500 ms timer clears it after the write settles.
  - While the flag is up, `getCompany` and `getContact` reject with "Local update in progress" and send nothing.
  - It holds the cached auth token, which is reloaded lazily from `localStorage`.
  - `getHeaders` adds the `Authorization` header only when a token exists.
  - `auth` picks the token from four places in priority order.
  - `updateCompany` coerces a non-array `type` to `[]`.
  - `getCompany` drops the query part of an id.
- `notifications.dfy` (module `Notifications`) models the toast list of `NotificationProvider.tsx`. Ids come from a counter that starts at 1. Each toast has a 5000 ms hide timer. Hiding filters the list by id.
- `company_details.dfy` and `contact_details.dfy` model the two editor widgets:
  - the edit form, including dotted input names such as `contract.no`;
  - the diff of changed fields, and the "No changes to save" short-circuit;
  - the optimistic merge handed to the page;
  - cancelling an edit.
- `image_gallery.dfy` models the gallery. An upload appends the returned image. A delete removes every image with the selected name and clears the selection.
- `company_page.dfy` and `contact_page.dfy` model the two pages:
  - the fetch guarded by the one-shot `isLocalUpdate` ref and by the global flag;
  - the swallowed "Local update in progress" error;
  - the update callbacks;
  - the refresh button;
  - deleting the company.
- `types.dfy` holds the records of `src/shared/types.ts`, plus the partial records that PATCH requests carry. `strings.dfy` holds JavaScript's `split` for a one-character separator. `wrappers.dfy` holds `Option` and JavaScript truthiness for optional strings.

Time and asynchrony are modelled as separate events on the API client and the pages:

- A write call (`UpdateCompany`, `UploadCompanyImage`, `DeleteCompanyImage`, `UpdateContact`) raises the flag and appends its request to `ApiClient.sent`.
- `Settle` is the request finishing, with success or failure. It schedules one reset.
- `FireReset` is a 500 ms timer going off.
- A page's fetch is cut at its `await`s: it continues in `ReceiveCompany` / `ReceiveContact` with the server's answer as input.

The widgets' writes (`Save`, `FileChange`, `DeleteConfirm`) and the company page's `DeleteConfirm` are not cut: each runs its request, its settling and its continuation as one step, with the outcome as an input.

The server's answer is always an input; nothing is fetched. Two inherited behaviours are kept as written, and client methods exhibit them:

- `Api.ResetDuringLaterMutation`: an earlier write's timer clears the flag while a later write is still in flight.
- `Api.ContactWriteSuppressesCompanyRead`: the flag is shared by all entities, so a contact write suppresses a company read.

Two facts of the code that are easy to miss:

- `getCompany` does not coerce `type`; only `updateCompany` does, on the data it sends. So `Company.types` may be a non-array (`NotArray`).
- `deleteCompany` does not raise the flag (`Api.ApiClient.DeleteCompany`).

## Model

| member | source | states |
|---|---|---|
| Strings.Split | src/shared/api/api.ts:95 | `split` with a one-char separator: at least one piece; the first piece is a prefix; no piece holds the separator; exactly one piece iff the separator is absent |
| Strings.JoinSplit | src/shared/api/api.ts:95 | joining the pieces of `split` with the separator gives back the string |
| Strings.SplitJoin | src/widgets/CompanyDetails/index.tsx:50 | splitting pieces free of the separator, joined by it, gives back the pieces |
| Strings.SplitWithoutSeparator | src/shared/api/api.ts:95 | a string without the separator splits into itself alone |
| Strings.SplitAfterFirst | src/widgets/CompanyDetails/index.tsx:49-50 | `a + sep + b` with no separator in `a` splits into `a` followed by the pieces of `b` |
| Api.BaseId | src/shared/api/api.ts:95 | the base id is a prefix of the id without `?`; an id without `?` is kept whole |
| Api.BaseIdDropsQuery | src/shared/api/api.ts:95 | everything from the first `?` on is dropped |
| Api.SecondWord | src/shared/api/api.ts:58 | `split(" ")[1]` is undefined iff there is no space; otherwise it is a word without spaces |
| Api.SecondWordAfterFirstSpace | src/shared/api/api.ts:58 | the second word is the text after the first space, up to the next space or the end |
| Api.BearerTokenRoundTrip | src/shared/api/api.ts:36 | the token extracted from `"Bearer " + token` is the token (round trip with getHeaders' format) |
| Api.TokenFromResponse | src/shared/api/api.ts:55-83 | a non-empty header wins and its second word is the token; otherwise a non-empty body `Authorization` gives its second word; otherwise an object body yields its `token` iff that is non-empty; a string body yields its second word iff it starts with "Bearer "; a body that is not JSON or is null fails with that reason; any other miss fails with "Invalid authentication response"; errors only when the header is empty |
| Api.HeaderTokenWins | src/shared/api/api.ts:55-61 | the header `Bearer t` yields `t`, whatever the body |
| Api.BodyAuthorizationToken | src/shared/api/api.ts:63-69 | with no header, the body's `Authorization: Bearer t` yields `t` |
| Api.CachedTokenStable | src/shared/api/api.ts:22-27 | asking for the token again returns what the first call cached |
| Api.CachedToken | src/shared/api/api.ts:22-27 | the token `getAuthToken` returns and caches: the cache when truthy, otherwise what storage holds; its stability is stated by CachedTokenStable |
| Api.HeadersFor | src/shared/api/api.ts:29-40 | `Content-Type` always; `Authorization` present iff the token is non-empty, then `Bearer <token>`; no other header |
| Api.NormalizeType | src/shared/api/api.ts:120-125 | an absent `type` stays absent, an array is kept, a non-array becomes `[]`; every other key is unchanged |
| Api.NormalizeTypeIdempotent | src/shared/api/api.ts:120-125 | afterwards `type` is absent or an array, and normalising again changes nothing |
| Api.ApiClient.constructor | src/shared/api/api.ts:5-7 | flag down, no token cached, nothing sent |
| Api.ApiClient.SetLocalUpdateFlag | src/shared/api/api.ts:9-11 | the flag takes the value |
| Api.ApiClient.GetLocalUpdateFlag | src/shared/api/api.ts:13-15 | returns the flag |
| Api.ApiClient.SetAuthToken | src/shared/api/api.ts:17-20 | caches the token and stores its text under `authToken` (`undefined` is stored as "undefined") |
| Api.ApiClient.GetAuthToken | src/shared/api/api.ts:22-27 | a non-empty cached token is returned; otherwise the stored one is loaded, cached and returned |
| Api.ApiClient.GetHeaders | src/shared/api/api.ts:29-40 | the headers are `HeadersFor` the token `getAuthToken` leaves cached |
| Api.ApiClient.Auth | src/shared/api/api.ts:43-88 | sends the auth request; a non-ok answer fails; otherwise the outcome is `TokenFromResponse`; a found token is cached and stored; a failure stores nothing and leaves the cache as `getHeaders` refilled it; only a non-ok answer fails with "Authentication failed" |
| Api.ApiClient.GetCompany | src/shared/api/api.ts:90-114 | with the flag up it rejects with "Local update in progress" and sends nothing; otherwise it sends one GET of `/companies/<base id>` with the headers |
| Api.ApiClient.GetContact | src/shared/api/api.ts:210-228 | with the flag up it rejects and sends nothing; otherwise it sends one GET of `/contacts/<id>` |
| Api.ApiClient.UpdateCompany | src/shared/api/api.ts:116-133 | raises the flag, counts one write in flight, sends a PATCH with the normalised data |
| Api.ApiClient.DeleteCompany | src/shared/api/api.ts:154-162 | sends a DELETE and leaves the flag alone |
| Api.ApiClient.UploadCompanyImage | src/shared/api/api.ts:164-177 | raises the flag and sends a POST whose only header is `Authorization: Bearer <token or "null">` |
| Api.ApiClient.DeleteCompanyImage | src/shared/api/api.ts:191-198 | raises the flag and sends a DELETE of `/companies/<id>/image/<name>` |
| Api.ApiClient.UpdateContact | src/shared/api/api.ts:230-240 | raises the flag and sends a PATCH with the data as given |
| Api.ApiClient.Settle | src/shared/api/api.ts:147-151 | a settled write, whether it succeeded or not, schedules exactly one reset |
| Api.ApiClient.FireReset | src/shared/api/api.ts:148-150 | a reset timer clears the flag, whatever is still in flight |
| Api.ResetDuringLaterMutation | src/shared/api/api.ts:147-151 | a company write's reset clears the flag while a contact write is still in flight |
| Api.ContactWriteSuppressesCompanyRead | src/shared/api/api.ts:90-94 | a contact write in flight makes a company read reject without a request |
| Api.AuthThenNextRequest | src/shared/api/api.ts:55-61 | after `auth` got `Bearer t` in the header, the next request carries `Authorization: Bearer t` |
| Api.SetThenGetToken | src/shared/api/api.ts:17-27 | after `setAuthToken(t)`, `getAuthToken()` returns a truthy `t` as set; an undefined token comes back as the text "undefined", an empty one as "" |
| Notifications.WithoutId | src/shared/assets/ui/Notification/NotificationProvider.tsx:55-57 | a notification stays iff its id differs; the list does not grow |
| Notifications.WithoutIdConcat | src/shared/assets/ui/Notification/NotificationProvider.tsx:56 | filtering distributes over concatenation, so order is kept |
| Notifications.WithoutAbsentId | src/shared/assets/ui/Notification/NotificationProvider.tsx:56 | hiding an id nobody carries changes nothing |
| Notifications.WithoutIdIdempotent | src/shared/assets/ui/Notification/NotificationProvider.tsx:55-57 | hiding twice is hiding once |
| Notifications.WithoutIdKeepsOrder | src/shared/assets/ui/Notification/NotificationProvider.tsx:56 | ids stay strictly increasing after hiding |
| Notifications.NotificationCenter.constructor | src/shared/assets/ui/Notification/NotificationProvider.tsx:32-33 | no notifications, next id 1 |
| Notifications.NotificationCenter.Show | src/shared/assets/ui/Notification/NotificationProvider.tsx:35-53 | appends the message under the current id, counts up, schedules that id's hide; ids stay unique and increasing |
| Notifications.NotificationCenter.Hide | src/shared/assets/ui/Notification/NotificationProvider.tsx:55-57 | removes exactly the notifications with that id, keeping the invariant |
| Notifications.NotificationCenter.FireHide | src/shared/assets/ui/Notification/NotificationProvider.tsx:48-50 | the oldest 5000 ms timer hides its id and is used up |
| ImageGallery.WithoutName | src/widgets/ImageGallery/index.tsx:61 | an image stays iff its name differs; the list does not grow |
| ImageGallery.WithoutNameConcat | src/widgets/ImageGallery/index.tsx:61 | filtering distributes over concatenation, so order is kept |
| ImageGallery.WithoutAbsentName | src/widgets/ImageGallery/index.tsx:61 | deleting a name nobody carries changes nothing |
| ImageGallery.UploadThenDelete | src/widgets/ImageGallery/index.tsx:37-61 | deleting the image just uploaded is deleting its name from the list before the upload |
| ImageGallery.UploadThenDeleteRestores | src/widgets/ImageGallery/index.tsx:37-61 | when the name was new, upload then delete restores the list |
| ImageGallery.Gallery.constructor | src/widgets/ImageGallery/index.tsx:18-21 | nothing uploading, nothing selected, dialog closed |
| ImageGallery.Gallery.FileChange | src/widgets/ImageGallery/index.tsx:29-49 | no file, nothing happens; otherwise one upload is sent and settled; on success the list plus the new image is reported with a success toast, on failure an error toast |
| ImageGallery.Gallery.DeleteClick | src/widgets/ImageGallery/index.tsx:51-54 | the image is selected and the dialog opens |
| ImageGallery.Gallery.DeleteConfirm | src/widgets/ImageGallery/index.tsx:56-71 | nothing selected, nothing happens (selection, dialog, API and toasts unchanged); otherwise one delete is sent and settled, on success the list without that name is reported, and either way the selection is cleared and the dialog closes |
| ContactDetails.Diff | src/widgets/ContactDetails/index.tsx:48-64 | a field is in the diff iff its form value differs, with the form value; id and timestamps never; the diff is empty iff the form agrees with the contact |
| ContactDetails.SavedContact | src/widgets/ContactDetails/index.tsx:76-79 | the merged contact carries the form's four values and the old id and timestamps |
| ContactDetails.Merge | src/widgets/ContactDetails/index.tsx:76-79 | `{ ...contact, ...changedFields }`; its properties are stated by SavedContact and SaveConverges |
| ContactDetails.SaveConverges | src/widgets/ContactDetails/index.tsx:48-79 | saving again right after a successful save finds nothing to send |
| ContactDetails.CancelLeavesNothingToSave | src/widgets/ContactDetails/index.tsx:95-103 | a cancelled form has nothing to save |
| ContactDetails.InitialForm | src/widgets/ContactDetails/index.tsx:20-25 | the form filled from the contact; its empty diff is stated by CancelLeavesNothingToSave |
| ContactDetails.InputChangeKeepsFields | src/widgets/ContactDetails/index.tsx:39-42 | typing keeps the four fields present |
| ContactDetails.ContactDetailsWidget.constructor | src/widgets/ContactDetails/index.tsx:19-26 | the form holds the contact's values; not editing, not loading |
| ContactDetails.ContactDetailsWidget.InputChange | src/widgets/ContactDetails/index.tsx:39-42 | only the named key changes |
| ContactDetails.ContactDetailsWidget.PropChanged | src/widgets/ContactDetails/index.tsx:29-37 | a new contact refills the form |
| ContactDetails.ContactDetailsWidget.Cancel | src/widgets/ContactDetails/index.tsx:95-103 | the form is refilled from the contact and editing ends |
| ContactDetails.ContactDetailsWidget.ChangedFields | src/widgets/ContactDetails/index.tsx:48-64 | the chain of assignments computes `Diff` |
| ContactDetails.ContactDetailsWidget.Save | src/widgets/ContactDetails/index.tsx:44-93 | an empty diff shows "No changes to save", ends editing and sends nothing; otherwise the diff is PATCHed; on success the merged contact is reported with a success toast and editing ends, on failure an error toast and editing goes on |
| CompanyDetails.ChangePlain | src/widgets/CompanyDetails/index.tsx:61-62 | a plain name sets that key and no other |
| CompanyDetails.ChangedForm | src/widgets/CompanyDetails/index.tsx:47-64 | the dotted-name update of `handleInputChange`; its effect is stated by ChangePlain and ChangeNested |
| CompanyDetails.ChangeNested | src/widgets/CompanyDetails/index.tsx:49-60 | `parent.child` sets that child, keeps its siblings and every other key |
| CompanyDetails.InitialFormWellShaped | src/widgets/CompanyDetails/index.tsx:21-30 | the initial form has string fields and a contract object |
| CompanyDetails.InitialForm | src/widgets/CompanyDetails/index.tsx:21-30 | the form filled from the company; its shape is stated by InitialFormWellShaped and its empty diff by CancelLeavesNothingToSave |
| CompanyDetails.InputChangeKeepsShape | src/widgets/CompanyDetails/index.tsx:47-64 | typing into the form's own inputs keeps that shape |
| CompanyDetails.Diff | src/widgets/CompanyDetails/index.tsx:70-93 | a text field is in the diff iff it differs; the contract iff present and `no` or `issue_date` differs, sent with the old value wherever the form's is empty; never `type` or other keys; empty iff the form agrees |
| CompanyDetails.SavedCompany | src/widgets/CompanyDetails/index.tsx:105-109 | the merged company has the form's text values, the sent contract if it changed, everything else as before |
| CompanyDetails.Merge | src/widgets/CompanyDetails/index.tsx:105-109 | the optimistic merge with the key-wise contract spread; its properties are stated by SavedCompany and SaveConverges |
| CompanyDetails.SaveConverges | src/widgets/CompanyDetails/index.tsx:70-109 | with both contract values filled in, saving again after a successful save finds nothing to send |
| CompanyDetails.ClearedContractNumberIsResent | src/widgets/CompanyDetails/index.tsx:84-91 | a cleared contract number counts as a change but sends the old number, so the merge changes nothing; while the form keeps the cleared number (after a failed save, say) every save sends the same PATCH |
| CompanyDetails.ClearedNumberAfterSuccessfulSave | src/widgets/CompanyDetails/index.tsx:33-109 | with the contract number cleared, the first save sends the old contract; after that save succeeds, the new prop refills the form and nothing is left to save |
| CompanyDetails.CancelLeavesNothingToSave | src/widgets/CompanyDetails/index.tsx:127-139 | a cancelled form has nothing to save |
| CompanyDetails.CompanyDetailsWidget.constructor | src/widgets/CompanyDetails/index.tsx:19-31 | the form holds the company's values; not editing, not loading |
| CompanyDetails.CompanyDetailsWidget.InputChange | src/widgets/CompanyDetails/index.tsx:47-64 | the form becomes `ChangedForm` of the name and value |
| CompanyDetails.CompanyDetailsWidget.PropChanged | src/widgets/CompanyDetails/index.tsx:33-45 | a new company refills the form |
| CompanyDetails.CompanyDetailsWidget.Cancel | src/widgets/CompanyDetails/index.tsx:127-139 | the form is refilled from the company and editing ends |
| CompanyDetails.CompanyDetailsWidget.ChangedFields | src/widgets/CompanyDetails/index.tsx:70-93 | the chain of assignments computes `Diff` |
| CompanyDetails.CompanyDetailsWidget.Save | src/widgets/CompanyDetails/index.tsx:66-125 | an empty diff shows "No changes to save" and sends nothing; otherwise the diff is PATCHed; on success the merged company is reported with a success toast, on failure an error toast |
| CompanyPage.Page.constructor | src/pages/CompanyPage/index.tsx:19-25 | nothing loaded, loading, no error, one-shot down |
| CompanyPage.Page.FetchCompanyData | src/pages/CompanyPage/index.tsx:27-40 | no id, nothing happens; a pending local update (ref or flag) skips the fetch and clears the ref; otherwise loading starts, the error is cleared and the company read is sent (never rejected) |
| CompanyPage.Page.ReceiveCompany | src/pages/CompanyPage/index.tsx:40-60 | a company is shown; its contact is read when it has a contact id; a rejected contact read ends quietly; a failure sets "Failed to load company data" and shows an error toast |
| CompanyPage.Page.ReceiveContact | src/pages/CompanyPage/index.tsx:45-60 | the contact is shown, or the load error is set and shown; loading ends |
| CompanyPage.Page.HandleCompanyUpdate | src/pages/CompanyPage/index.tsx:67-73 | the company is replaced and the next fetch is skipped |
| CompanyPage.Page.HandleContactUpdate | src/pages/CompanyPage/index.tsx:75-81 | the contact is replaced and the next fetch is skipped |
| CompanyPage.Page.HandleImagesUpdate | src/pages/CompanyPage/index.tsx:83-97 | with a company shown only its photos are replaced and the next fetch is skipped; otherwise nothing |
| CompanyPage.Page.DeleteClick | src/pages/CompanyPage/index.tsx:99-101 | the dialog opens |
| CompanyPage.Page.DeleteConfirm | src/pages/CompanyPage/index.tsx:103-115 | no id, nothing happens; otherwise a DELETE is sent, success leaves the page with a success toast, failure shows an error toast, and the dialog closes |
| CompanyPage.Page.HandleRefreshClick | src/pages/CompanyPage/index.tsx:117-121 | the ref is cleared; with an id and the flag down, loading starts, the error is cleared and the GET of the company is sent; otherwise the API, loading and error are untouched; "Data refreshed" is shown |
| CompanyPage.EditSkipsOneFetch | src/pages/CompanyPage/index.tsx:27-73 | after an update callback exactly one fetch is skipped |
| CompanyPage.OpenedDuringLocalUpdateStaysLoading | src/pages/CompanyPage/index.tsx:21-34 | on a page opened while the flag is up, the first fetch sends nothing and leaves the page loading with no company; the loading view offers no refresh |
| CompanyPage.WriteDuringFetchDropsContact | src/pages/CompanyPage/index.tsx:44-53 | a write begun while the company read is out drops the contact read with no error |
| ContactPage.Page.constructor | src/pages/ContactPage/index.tsx:16-20 | nothing loaded, loading, no error, one-shot down |
| ContactPage.Page.FetchContactData | src/pages/ContactPage/index.tsx:22-32 | no id, nothing happens; a pending local update skips and clears the ref; otherwise loading starts and the contact read is sent (never rejected) |
| ContactPage.Page.ReceiveContact | src/pages/ContactPage/index.tsx:32-45 | the contact is shown, or "Failed to load contact data" is set and shown; loading ends |
| ContactPage.Page.HandleContactUpdate | src/pages/ContactPage/index.tsx:52-56 | the contact is replaced and the next fetch is skipped |
| ContactPage.Page.HandleRefreshClick | src/pages/ContactPage/index.tsx:58-62 | the ref is cleared; with an id and the flag down, loading starts and the GET of the contact is sent; otherwise the API and loading are untouched; the error is never cleared; "Data refreshed" is shown |
| ContactPage.ErrorOutlivesRefresh | src/pages/ContactPage/index.tsx:30-42 | a load error stays set after a later successful refresh, since this fetch never clears it |
| ContactPage.RefreshAfterResetReads | src/pages/ContactPage/index.tsx:22-62 | while the flag is up a refresh sends nothing; after the reset fires it reads again |

## Left out

- The network, `fetch`, JSON parsing, HTTP status checks, the host, and the cache-busting query parameters are not modelled. A request is recorded in `sent`, and the caller's result arrives as a `Response` input.
- Console logging is left out.
- Real time is left out. The 500 ms resets and the 5000 ms hides are events that the environment fires. The resets are pooled in a count, so the model does not say which reset timer fires first; the hides form a queue in scheduling order.
- React rendering and JSX are left out. So are `MainPage`, `App`, the header, the dialog, the selector, the button and input components, the build configuration, and date formatting.
- The widgets do not model the edit button that turns editing on, or the upload button that opens the file picker. Clearing the file input is also left out.
- Notifications.NotificationCenter.Show: each call is assumed to see the latest `nextId`. The source reads `nextId` through a memoised callback, so two calls from the same render would reuse an id.
- CompanyDetails.ChangedForm: a dotted name whose parent holds an array (only `type` does) starts from `{}`. JavaScript would copy the array's indices into the object. None of the form's inputs has such a name.
- Nothing interleaves inside a widget's write or the company page's delete: another event cannot happen between such a request and its continuation. Interleaving is modelled only around the page fetches and the API's reset timers.
- The server's reply to `updateCompany` is ignored, as in the source. The reason text in an update or delete error is left out; only success or failure is modelled.
- `auth` does not URL-encode the user name, and the model does the same. Which exception `auth` rethrows is reduced to an `AuthFailure` reason.
