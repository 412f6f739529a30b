/**
 * backend/src/controllers/imageController.js: the four image handlers,
 * mounted under a trip (`/trips/:tripId/images`) behind the gate. Upload
 * runs after the multipart parser has stored the file; the handler sees
 * only the stored file's name, or nothing when no file was sent. Every
 * handler first looks the trip up scoped by owner, then the image scoped
 * by that trip.
 */
module ImageController {
  import opened Wrappers
  import opened Models
  import opened Responses
  import opened ErrorHandler
  import opened Associations
  import opened Store
  import opened Query

  /** The sort key of `order: [['upload_date', 'DESC']]`. */
  function ImageUploadDate(i: Image): int {
    i.uploadDate
  }

  /** `Image.findOne({where: {id, trip_id: tripId}})` finds a row. */
  predicate ImageOfTrip(images: map<Id, Image>, tripId: Id, id: Id) {
    id in images && images[id].tripId == tripId
  }

  // ----- getAllImages -----

  /** `getAllImages`: the trip's images, latest upload first. */
  method GetAllImages(db: Database, caller: Id, tripId: Id) returns (r: Reply<seq<Image>>)
    ensures !OwnsTrip(db.trips, caller, tripId) ==> r == ErrorResponse(404, "Trip not found")
    ensures OwnsTrip(db.trips, caller, tripId) ==>
      && r.Success() && r.status == 200 && r.Message() == "Images retrieved successfully" && r.body.data.Some?
      && multiset(r.body.data.value) == multiset(ImagesOfTrip(db.images, tripId))
      && Ordered(r.body.data.value, ImageUploadDate, false)
  {
    if !OwnsTrip(db.trips, caller, tripId) {
      return ErrorResponse(404, "Trip not found");
    }
    var listing := SelectSorted(db.images.Values, ImageInTrip(tripId), ImageUploadDate, false);
    r := SuccessResponse(200, "Images retrieved successfully", Some(listing));
  }

  // ----- uploadImage -----

  const UploadPrefix := "/uploads/images/"

  /** The public path of a stored file: `/uploads/images/${req.file.filename}`. */
  function ImageUrl(filename: string): string {
    UploadPrefix + filename
  }

  /** The stored file's name can be read back from the path. */
  lemma ImageUrlNamesFile(filename: string)
    ensures |ImageUrl(filename)| == |UploadPrefix| + |filename|
    ensures ImageUrl(filename)[..|UploadPrefix|] == UploadPrefix
    ensures ImageUrl(filename)[|UploadPrefix|..] == filename
  {
  }

  /** `caption || null`: a caption left out or sent empty is stored as null. */
  function UploadCaption(caption: Option<string>): (r: Option<string>)
    ensures r.None? <==> caption.None? || caption.value == ""
    ensures r.Some? ==> r == caption
  {
    if caption.Some? && caption.value != "" then caption else None
  }

  /** The row `Image.create` stores: the trip from the path, the caller as uploader. */
  function NewImage(id: Id, tripId: Id, caller: Id, caption: Option<string>, filename: string, now: nat): (i: Image)
    ensures i.id == id && i.tripId == tripId && i.userId == caller && i.uploadDate == now
    ensures i.imageUrl == ImageUrl(filename) && i.caption == UploadCaption(caption)
    ensures ImageConstraints(i) <==> |ImageUrl(filename)| <= 255 && Fits(UploadCaption(caption), 255)
  {
    Image(id, tripId, caller, ImageUrl(filename), UploadCaption(caption), now)
  }

  /**
   * `uploadImage`; `file` is `req.file.filename` when the parser stored a
   * file. The trip check comes first, then the file check; a path or a
   * caption longer than its column is refused by the database, reported for
   * the first such column in attribute order.
   */
  method UploadImage(db: Database, caller: Id, tripId: Id, caption: Option<string>, file: Option<string>)
    returns (r: Reply<Image>)
    requires db.Valid()
    modifies db`images, db`nextImageId, db`clock
    ensures db.Valid()
    ensures !OwnsTrip(db.trips, caller, tripId) ==>
      r == ErrorResponse(404, "Trip not found") && unchanged(db)
    ensures OwnsTrip(db.trips, caller, tripId) && file.None? ==>
      r == ErrorResponse(400, "No image file provided") && unchanged(db)
    ensures OwnsTrip(db.trips, caller, tripId) && file.Some? && |ImageUrl(file.value)| > 255 ==>
      r == HandleError(DataTooLong("image_url")) && unchanged(db)
    ensures OwnsTrip(db.trips, caller, tripId) && file.Some? && |ImageUrl(file.value)| <= 255
            && !Fits(UploadCaption(caption), 255) ==>
      r == HandleError(DataTooLong("caption")) && unchanged(db)
    ensures OwnsTrip(db.trips, caller, tripId) && file.Some? && |ImageUrl(file.value)| <= 255
            && Fits(UploadCaption(caption), 255) ==>
      var i := NewImage(old(db.nextImageId), tripId, caller, caption, file.value, old(db.clock));
      && old(db.nextImageId) !in old(db.images)
      && db.images == old(db.images)[i.id := i]
      && db.nextImageId == old(db.nextImageId) + 1 && db.clock == old(db.clock) + 1
      && r == SuccessResponse(201, "Image uploaded successfully", Some(i))
  {
    if !OwnsTrip(db.trips, caller, tripId) {
      return ErrorResponse(404, "Trip not found");
    }
    if file.None? {
      return ErrorResponse(400, "No image file provided");
    }
    if |ImageUrl(file.value)| > 255 {
      return HandleError(DataTooLong("image_url"));
    }
    if !Fits(UploadCaption(caption), 255) {
      return HandleError(DataTooLong("caption"));
    }
    assert caller in db.users by {
      assert db.trips[tripId].userId in db.users;
    }
    var i := NewImage(db.nextImageId, tripId, caller, caption, file.value, db.clock);
    db.InsertImage(i);
    r := SuccessResponse(201, "Image uploaded successfully", Some(i));
  }

  // ----- updateImage -----

  /**
   * `image.update({caption})`: a caption left out changes nothing, `null`
   * clears it, any string (the empty one too) replaces it.
   */
  function PatchCaption(i: Image, caption: Field<string>): (i': Image)
    ensures i'.id == i.id && i'.tripId == i.tripId && i'.userId == i.userId
    ensures i'.imageUrl == i.imageUrl && i'.uploadDate == i.uploadDate
    ensures caption.Absent? ==> i' == i
    ensures caption.Null? ==> i'.caption == None
    ensures caption.Given? ==> i'.caption == Some(caption.value)
  {
    match caption
    case Absent => i
    case Null => i.(caption := None)
    case Given(s) => i.(caption := Some(s))
  }

  /** A patched caption keeps the row within Image.js's columns exactly when it fits STRING(255). */
  lemma PatchCaptionConstraints(i: Image, caption: Field<string>)
    requires ImageConstraints(i)
    ensures ImageConstraints(PatchCaption(i, caption)) <==> (caption.Given? ==> |caption.value| <= 255)
  {
  }

  /** Patching twice with the same caption is patching once. */
  lemma PatchCaptionIdempotent(i: Image, caption: Field<string>)
    ensures PatchCaption(PatchCaption(i, caption), caption) == PatchCaption(i, caption)
  {
  }

  /** `updateImage`: the reply carries the row as saved. */
  method UpdateImage(db: Database, caller: Id, tripId: Id, id: Id, caption: Field<string>) returns (r: Reply<Image>)
    requires db.Valid()
    modifies db`images
    ensures db.Valid()
    ensures !OwnsTrip(db.trips, caller, tripId) ==>
      r == ErrorResponse(404, "Trip not found") && db.images == old(db.images)
    ensures OwnsTrip(db.trips, caller, tripId) && !ImageOfTrip(old(db.images), tripId, id) ==>
      r == ErrorResponse(404, "Image not found") && db.images == old(db.images)
    ensures OwnsTrip(db.trips, caller, tripId) && ImageOfTrip(old(db.images), tripId, id)
            && caption.Given? && |caption.value| > 255 ==>
      r == HandleError(DataTooLong("caption")) && db.images == old(db.images)
    ensures OwnsTrip(db.trips, caller, tripId) && ImageOfTrip(old(db.images), tripId, id)
            && (caption.Given? ==> |caption.value| <= 255) ==>
      var i' := PatchCaption(old(db.images)[id], caption);
      && db.images == old(db.images)[id := i']
      && r == SuccessResponse(200, "Image updated successfully", Some(i'))
  {
    if !OwnsTrip(db.trips, caller, tripId) {
      return ErrorResponse(404, "Trip not found");
    }
    if !ImageOfTrip(db.images, tripId, id) {
      return ErrorResponse(404, "Image not found");
    }
    if caption.Given? && |caption.value| > 255 {
      return HandleError(DataTooLong("caption"));
    }
    var i' := PatchCaption(db.images[id], caption);
    assert ImageConstraints(db.images[id]);
    PatchCaptionConstraints(db.images[id], caption);
    db.ReplaceImage(i');
    r := SuccessResponse(200, "Image updated successfully", Some(i'));
  }

  // ----- deleteImage -----

  /** `deleteImage`: the row goes, and with it the comments on it (Image hasMany Comment, CASCADE). */
  method DeleteImage(db: Database, caller: Id, tripId: Id, id: Id) returns (r: Reply<Image>)
    requires db.Valid()
    modifies db`images, db`comments
    ensures db.Valid()
    ensures !OwnsTrip(db.trips, caller, tripId) ==>
      r == ErrorResponse(404, "Trip not found") && unchanged(db)
    ensures OwnsTrip(db.trips, caller, tripId) && !ImageOfTrip(old(db.images), tripId, id) ==>
      r == ErrorResponse(404, "Image not found") && unchanged(db)
    ensures OwnsTrip(db.trips, caller, tripId) && ImageOfTrip(old(db.images), tripId, id) ==>
      && r == SuccessResponse(200, "Image deleted successfully")
      && db.images == old(db.images) - {id}
      && (forall k :: k in db.comments <==> k in old(db.comments) && old(db.comments)[k].imageId != Some(id))
      && (forall k :: k in db.comments ==> db.comments[k] == old(db.comments)[k])
  {
    if !OwnsTrip(db.trips, caller, tripId) {
      return ErrorResponse(404, "Trip not found");
    }
    if !ImageOfTrip(db.images, tripId, id) {
      return ErrorResponse(404, "Image not found");
    }
    ghost var s := db.Snapshot();
    DeleteImageCascadeCoherent(s, id);
    db.DestroyImage(id);
    r := SuccessResponse(200, "Image deleted successfully");
  }
}
