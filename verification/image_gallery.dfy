/**
 * The photo gallery of src/widgets/ImageGallery/index.tsx: upload appends the image
 * the server returns, delete drops every image with the selected name, and either
 * result goes to the page through `onUpdate` (here: the returned list).
 */
module ImageGallery {
  import opened Wrappers
  import opened Types
  import opened Api
  import opened Notifications

  const UploadedMessage := "Image uploaded successfully"
  const UploadFailedMessage := "Failed to upload image"
  const DeletedMessage := "Image deleted successfully"
  const DeleteFailedMessage := "Failed to delete image"

  /** `images.filter(img => img.name !== name)`. */
  function WithoutName(images: seq<Image>, name: string): (r: seq<Image>)
    ensures forall img :: img in r <==> img in images && img.name != name
    ensures |r| <= |images|
  {
    if images == [] then []
    else if images[0].name == name then WithoutName(images[1..], name)
    else [images[0]] + WithoutName(images[1..], name)
  }

  /** Filtering works piece by piece, so the images that stay keep their relative order. */
  lemma {:induction false} WithoutNameConcat(a: seq<Image>, b: seq<Image>, name: string)
    ensures WithoutName(a + b, name) == WithoutName(a, name) + WithoutName(b, name)
    decreases |a|
  {
    if a == [] {
      assert a + b == b;
    } else {
      assert (a + b)[1..] == a[1..] + b;
      WithoutNameConcat(a[1..], b, name);
    }
  }

  /** When no image has the name, deleting it leaves the list as it was. */
  lemma {:induction false} WithoutAbsentName(images: seq<Image>, name: string)
    requires forall i :: 0 <= i < |images| ==> images[i].name != name
    ensures WithoutName(images, name) == images
    decreases |images|
  {
    if images != [] {
      WithoutAbsentName(images[1..], name);
      assert [images[0]] + images[1..] == images;
    }
  }

  /** Deleting the image just uploaded gives what deleting its name before the upload gave. */
  lemma UploadThenDelete(images: seq<Image>, image: Image)
    ensures WithoutName(images + [image], image.name) == WithoutName(images, image.name)
  {
    WithoutNameConcat(images, [image], image.name);
    assert WithoutName([image], image.name) == WithoutName([], image.name);
  }

  /** In particular, when the name was new, upload then delete restores the list. */
  lemma UploadThenDeleteRestores(images: seq<Image>, image: Image)
    requires forall i :: 0 <= i < |images| ==> images[i].name != image.name
    ensures WithoutName(images + [image], image.name) == images
  {
    UploadThenDelete(images, image);
    WithoutAbsentName(images, image.name);
  }

  class Gallery {
    const companyId: string
    /** The `images` prop. */
    var images: seq<Image>
    var isUploading: bool
    var selectedImage: Option<Image>
    var isDeleteDialogOpen: bool
    const api: ApiClient
    const notes: NotificationCenter

    constructor (companyId: string, images: seq<Image>, api: ApiClient, notes: NotificationCenter)
      ensures this.companyId == companyId && this.images == images
      ensures !isUploading && selectedImage == None && !isDeleteDialogOpen
      ensures this.api == api && this.notes == notes
    {
      this.companyId := companyId;
      this.images := images;
      isUploading := false;
      selectedImage := None;
      isDeleteDialogOpen := false;
      this.api := api;
      this.notes := notes;
    }

    /**
     * `handleFileChange` with the chosen file (None: the dialog was dismissed) and the
     * server's answer to the upload; returns what is passed to `onUpdate`, if anything.
     */
    method FileChange(file: Option<LocalFile>, response: Response<Image>) returns (update: Option<seq<Image>>)
      requires notes.Valid()
      modifies this`isUploading, api, notes
      ensures notes.Valid()
      ensures file.None? ==> update == None && isUploading == old(isUploading) && unchanged(api, notes)
      ensures file.Some? ==>
                && !isUploading
                && api.localUpdateInProgress
                && api.inFlight == old(api.inFlight)
                && api.pendingResets == old(api.pendingResets) + 1
                && api.storage == old(api.storage)
                && api.authToken == CachedToken(old(api.authToken), old(api.storage))
                && api.sent == old(api.sent) + [Request(Post, CompanyImagePath(companyId),
                                                        map[AuthorizationHeader := BearerPrefix + TemplateText(api.authToken)],
                                                        ImageFile(file.value))]
      ensures file.Some? && response.Delivered? ==>
                && update == Some(images + [response.value])
                && notes.Showed(UploadedMessage, Success)
      ensures file.Some? && response.Failed? ==>
                && update == None
                && notes.Showed(UploadFailedMessage, Error)
    {
      update := None;
      if file.None? {
        return;
      }
      isUploading := true;
      api.UploadCompanyImage(companyId, file.value);
      api.Settle();
      if response.Delivered? {
        update := Some(images + [response.value]);
        notes.Show(UploadedMessage, Success);
      } else {
        notes.Show(UploadFailedMessage, Error);
      }
      isUploading := false;
    }

    /** `handleDeleteClick(image)`: remember the image and open the confirmation dialog. */
    method DeleteClick(image: Image)
      modifies this`selectedImage, this`isDeleteDialogOpen
      ensures selectedImage == Some(image) && isDeleteDialogOpen
    {
      selectedImage := Some(image);
      isDeleteDialogOpen := true;
    }

    /**
     * `handleDeleteConfirm`, the delete request succeeding or not; returns what is
     * passed to `onUpdate`, if anything.
     */
    method DeleteConfirm(succeeded: bool) returns (update: Option<seq<Image>>)
      requires notes.Valid()
      modifies this`selectedImage, this`isDeleteDialogOpen, api, notes
      ensures notes.Valid()
      ensures old(selectedImage).None? ==>
                && update == None && selectedImage == old(selectedImage)
                && isDeleteDialogOpen == old(isDeleteDialogOpen) && unchanged(api, notes)
      ensures old(selectedImage).Some? ==>
                && selectedImage == None && !isDeleteDialogOpen
                && api.localUpdateInProgress
                && api.inFlight == old(api.inFlight)
                && api.pendingResets == old(api.pendingResets) + 1
                && api.storage == old(api.storage)
                && api.authToken == CachedToken(old(api.authToken), old(api.storage))
                && api.sent == old(api.sent) + [Request(Delete, CompanyImageNamePath(companyId, old(selectedImage).value.name),
                                                        HeadersFor(JsonContentType, api.authToken), NoBody)]
      ensures old(selectedImage).Some? && succeeded ==>
                && update == Some(WithoutName(images, old(selectedImage).value.name))
                && notes.Showed(DeletedMessage, Success)
      ensures old(selectedImage).Some? && !succeeded ==>
                && update == None
                && notes.Showed(DeleteFailedMessage, Error)
    {
      update := None;
      if selectedImage.None? {
        return;
      }
      var name := selectedImage.value.name;
      api.DeleteCompanyImage(companyId, name);
      api.Settle();
      if succeeded {
        update := Some(WithoutName(images, name));
        notes.Show(DeletedMessage, Success);
      } else {
        notes.Show(DeleteFailedMessage, Error);
      }
      selectedImage := None;
      isDeleteDialogOpen := false;
    }
  }
}
