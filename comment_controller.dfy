/**
 * backend/src/controllers/commentController.js: the six comment handlers.
 * The two listings are public; adding, editing and deleting go behind the
 * gate (the caller's id is `caller`). Comments are not scoped by trip
 * owner: any signed-in user may comment on any trip or image, and only a
 * comment's author may edit or delete it.
 */
module CommentController {
  import opened Wrappers
  import opened Models
  import opened Responses
  import opened ErrorHandler
  import opened Associations
  import opened Store
  import opened Query

  /** The author as the listings include it: `attributes: ['id', 'username', 'profile_image']`. */
  datatype UserBrief = UserBrief(id: Id, username: string, profileImage: Option<string>)

  function BriefOf(u: User): (b: UserBrief)
    ensures b.id == u.id && b.username == u.username && b.profileImage == u.profileImage
  {
    UserBrief(u.id, u.username, u.profileImage)
  }

  /** A comment row with its `user` include. */
  datatype CommentWithUser = CommentWithUser(comment: Comment, user: UserBrief)

  /** The sort key of `order: [['created_at', 'DESC']]`. */
  function CommentCreatedAt(c: Comment): int {
    c.createdAt
  }

  /** `where: {trip_id: tripId, image_id: null}`: the trip's own comments, not those on its images. */
  function TripComment(tripId: Id): Comment -> bool {
    (c: Comment) => c.tripId == tripId && c.imageId.None?
  }

  /** `where: {image_id: imageId}`. */
  function ImageComment(imageId: Id): Comment -> bool {
    (c: Comment) => c.imageId == Some(imageId)
  }

  function CommentsOf(items: seq<CommentWithUser>): (r: seq<Comment>)
    ensures |r| == |items| && forall i :: 0 <= i < |items| ==> r[i] == items[i].comment
  {
    seq(|items|, i requires 0 <= i < |items| => items[i].comment)
  }

  /** Each item carries its comment's author, as stored. */
  predicate WithAuthors(items: seq<CommentWithUser>, users: map<Id, User>) {
    forall i :: 0 <= i < |items| ==>
      items[i].comment.userId in users && items[i].user == BriefOf(users[items[i].comment.userId])
  }

  /** A listing: every comment `keep` selects once, newest first, each with its author. */
  predicate ListsComments(items: seq<CommentWithUser>, comments: map<Id, Comment>, users: map<Id, User>, keep: Comment -> bool) {
    && multiset(CommentsOf(items)) == multiset(Where(comments.Values, keep))
    && Ordered(CommentsOf(items), CommentCreatedAt, false)
    && WithAuthors(items, users)
  }

  /** In a coherent database every stored comment's author exists (Comment belongsTo User). */
  lemma AuthorExists(t: Tables, c: Comment)
    requires Coherent(t) && c in t.comments.Values
    ensures c.userId in t.users
  {
    var k :| k in t.comments && t.comments[k] == c;
  }

  /** The `include` of the author, one comment at a time. */
  method IncludeAuthors(db: Database, cs: seq<Comment>, keep: Comment -> bool) returns (items: seq<CommentWithUser>)
    requires db.Valid()
    requires multiset(cs) == multiset(Where(db.comments.Values, keep))
    ensures CommentsOf(items) == cs && WithAuthors(items, db.users)
  {
    ListingExact(cs, db.comments.Values, keep);
    items := [];
    for i := 0 to |cs|
      invariant CommentsOf(items) == cs[..i]
      invariant WithAuthors(items, db.users)
    {
      assert cs[i] in cs;
      AuthorExists(db.Snapshot(), cs[i]);
      items := items + [CommentWithUser(cs[i], BriefOf(db.users[cs[i].userId]))];
    }
    assert cs[..|cs|] == cs;
  }

  // ----- getTripComments -----

  /** `getTripComments`: public; a trip that does not exist simply has no comments. */
  method GetTripComments(db: Database, tripId: Id) returns (r: Reply<seq<CommentWithUser>>)
    requires db.Valid()
    ensures r.Success() && r.status == 200 && r.Message() == "Comments retrieved successfully"
    ensures r.body.data.Some? && ListsComments(r.body.data.value, db.comments, db.users, TripComment(tripId))
  {
    var cs := SelectSorted(db.comments.Values, TripComment(tripId), CommentCreatedAt, false);
    var items := IncludeAuthors(db, cs, TripComment(tripId));
    r := SuccessResponse(200, "Comments retrieved successfully", Some(items));
  }

  // ----- getImageComments -----

  /** `getImageComments`: public; an image that does not exist simply has no comments. */
  method GetImageComments(db: Database, imageId: Id) returns (r: Reply<seq<CommentWithUser>>)
    requires db.Valid()
    ensures r.Success() && r.status == 200 && r.Message() == "Image comments retrieved successfully"
    ensures r.body.data.Some? && ListsComments(r.body.data.value, db.comments, db.users, ImageComment(imageId))
  {
    var cs := SelectSorted(db.comments.Values, ImageComment(imageId), CommentCreatedAt, false);
    var items := IncludeAuthors(db, cs, ImageComment(imageId));
    r := SuccessResponse(200, "Image comments retrieved successfully", Some(items));
  }

  /** The two listings never share a comment: a comment is on the trip itself or on one of its images. */
  lemma ListingsDisjoint(comments: map<Id, Comment>, tripId: Id, imageId: Id)
    ensures Where(comments.Values, TripComment(tripId)) * Where(comments.Values, ImageComment(imageId)) == {}
  {
    forall c | c in Where(comments.Values, TripComment(tripId)) ensures c !in Where(comments.Values, ImageComment(imageId)) {
      assert c.imageId.None?;
    }
  }

  // ----- addTripComment / addImageComment -----

  /** The row `Comment.create` stores, before Sequelize's validators see `comment_text`. */
  function NewComment(id: Id, tripId: Id, caller: Id, imageId: Option<Id>, text: string, now: nat): (c: Comment)
    ensures c.id == id && c.tripId == tripId && c.userId == caller && c.imageId == imageId
    ensures c.commentText == text && c.createdAt == now
    ensures CommentConstraints(c) <==> !Blank(text)
  {
    Comment(id, tripId, caller, imageId, text, now)
  }

  /**
   * `addTripComment`: `Trip.findByPk`, so any existing trip, then
   * `Comment.create`; a `comment_text` left out, `null`, empty or only white space is refused
   * by Comment.js's validators. The reply re-reads the row with its author.
   */
  method AddTripComment(db: Database, caller: Id, tripId: Id, text: Option<string>) returns (r: Reply<CommentWithUser>)
    requires db.Valid() && caller in db.users
    modifies db`comments, db`nextCommentId, db`clock
    ensures db.Valid()
    ensures tripId !in db.trips ==> r == ErrorResponse(404, "Trip not found") && unchanged(db)
    ensures tripId in db.trips && CommentTextViolations(text) != [] ==>
      r == HandleError(ValidationError(CommentTextViolations(text))) && unchanged(db)
    ensures tripId in db.trips && CommentTextViolations(text) == [] ==>
      var c := NewComment(old(db.nextCommentId), tripId, caller, None, text.value, old(db.clock));
      && old(db.nextCommentId) !in old(db.comments)
      && db.comments == old(db.comments)[c.id := c]
      && db.nextCommentId == old(db.nextCommentId) + 1 && db.clock == old(db.clock) + 1
      && r == SuccessResponse(201, "Comment added successfully", Some(CommentWithUser(c, BriefOf(db.users[caller]))))
  {
    if tripId !in db.trips {
      return ErrorResponse(404, "Trip not found");
    }
    var items := CommentTextViolations(text);
    if items != [] {
      return HandleError(ValidationError(items));
    }
    var c := NewComment(db.nextCommentId, tripId, caller, None, text.value, db.clock);
    db.InsertComment(c);
    r := SuccessResponse(201, "Comment added successfully", Some(CommentWithUser(c, BriefOf(db.users[caller]))));
  }

  /**
   * `addImageComment`: `Image.findByPk`, so any existing image; the comment
   * takes the image's trip_id.
   */
  method AddImageComment(db: Database, caller: Id, imageId: Id, text: Option<string>) returns (r: Reply<CommentWithUser>)
    requires db.Valid() && caller in db.users
    modifies db`comments, db`nextCommentId, db`clock
    ensures db.Valid()
    ensures imageId !in db.images ==> r == ErrorResponse(404, "Image not found") && unchanged(db)
    ensures imageId in db.images && CommentTextViolations(text) != [] ==>
      r == HandleError(ValidationError(CommentTextViolations(text))) && unchanged(db)
    ensures imageId in db.images && CommentTextViolations(text) == [] ==>
      var c := NewComment(old(db.nextCommentId), db.images[imageId].tripId, caller, Some(imageId), text.value, old(db.clock));
      && old(db.nextCommentId) !in old(db.comments)
      && db.comments == old(db.comments)[c.id := c]
      && db.nextCommentId == old(db.nextCommentId) + 1 && db.clock == old(db.clock) + 1
      && r == SuccessResponse(201, "Comment added successfully", Some(CommentWithUser(c, BriefOf(db.users[caller]))))
  {
    if imageId !in db.images {
      return ErrorResponse(404, "Image not found");
    }
    var items := CommentTextViolations(text);
    if items != [] {
      return HandleError(ValidationError(items));
    }
    assert db.images[imageId].tripId in db.trips;
    var c := NewComment(db.nextCommentId, db.images[imageId].tripId, caller, Some(imageId), text.value, db.clock);
    db.InsertComment(c);
    r := SuccessResponse(201, "Comment added successfully", Some(CommentWithUser(c, BriefOf(db.users[caller]))));
  }

  /**
   * A comment stored under a fresh id joins exactly the listing its filter
   * selects: an image comment shows under its image and not under the trip.
   */
  lemma AddedCommentListed(comments: map<Id, Comment>, c: Comment, keep: Comment -> bool)
    requires c.id !in comments
    ensures keep(c) ==> Where(comments[c.id := c].Values, keep) == Where(comments.Values, keep) + {c}
    ensures !keep(c) ==> Where(comments[c.id := c].Values, keep) == Where(comments.Values, keep)
  {
    var m := comments[c.id := c];
    forall x ensures x in m.Values <==> x in comments.Values || x == c {
      if x in comments.Values {
        var k :| k in comments && comments[k] == x;
        assert m[k] == x;
      }
      if x in m.Values && x != c {
        var k :| k in m && m[k] == x;
        assert k in comments;
      }
      if x == c {
        assert m[c.id] == c;
      }
    }
  }

  /** Deleting an image leaves its comment listing empty (Image hasMany Comment, CASCADE). */
  lemma DeletedImageHasNoComments(t: Tables, imageId: Id)
    ensures Where(DeleteImageCascade(t, imageId).comments.Values, ImageComment(imageId)) == {}
  {
    var m := DeleteImageCascade(t, imageId).comments;
    assert m == DropWhere(t.comments, CommentOnImages({imageId}));
    forall c | c in m.Values ensures c.imageId != Some(imageId) {
      var k :| k in m && m[k] == c;
      assert !CommentOnImages({imageId})(t.comments[k]);
    }
  }

  // ----- updateComment -----

  /**
   * The items Sequelize reports for `comment.update({comment_text})`: none
   * when the key is left out (nothing changes), otherwise those of the value.
   */
  function EditViolations(text: Field<string>): (r: seq<ErrorItem>)
    ensures r == [] <==> text.Absent? || (text.Given? && !Blank(text.value))
  {
    match text
    case Absent => []
    case Null => CommentTextViolations(None)
    case Given(s) => CommentTextViolations(Some(s))
  }

  /** The comment after an accepted edit: the text replaced, or the row as it was. */
  function EditComment(c: Comment, text: Field<string>): (c': Comment)
    ensures c'.id == c.id && c'.tripId == c.tripId && c'.userId == c.userId
    ensures c'.imageId == c.imageId && c'.createdAt == c.createdAt
    ensures c'.commentText == (if text.Given? then text.value else c.commentText)
    ensures CommentConstraints(c) && EditViolations(text) == [] ==> CommentConstraints(c')
  {
    if text.Given? then c.(commentText := text.value) else c
  }

  /** `updateComment`: existence, then authorship, then Comment.js's validators. */
  method UpdateComment(db: Database, caller: Id, id: Id, text: Field<string>) returns (r: Reply<Comment>)
    requires db.Valid()
    modifies db`comments
    ensures db.Valid()
    ensures id !in old(db.comments) ==>
      r == ErrorResponse(404, "Comment not found") && db.comments == old(db.comments)
    ensures id in old(db.comments) && old(db.comments)[id].userId != caller ==>
      r == ErrorResponse(403, "You can only edit your own comments") && db.comments == old(db.comments)
    ensures id in old(db.comments) && old(db.comments)[id].userId == caller && EditViolations(text) != [] ==>
      r == HandleError(ValidationError(EditViolations(text))) && db.comments == old(db.comments)
    ensures id in old(db.comments) && old(db.comments)[id].userId == caller && EditViolations(text) == [] ==>
      var c' := EditComment(old(db.comments)[id], text);
      && db.comments == old(db.comments)[id := c']
      && r == SuccessResponse(200, "Comment updated successfully", Some(c'))
  {
    if id !in db.comments {
      return ErrorResponse(404, "Comment not found");
    }
    if db.comments[id].userId != caller {
      return ErrorResponse(403, "You can only edit your own comments");
    }
    var items := EditViolations(text);
    if items != [] {
      return HandleError(ValidationError(items));
    }
    assert db.comments[id].id == id && CommentConstraints(db.comments[id]);
    var c' := EditComment(db.comments[id], text);
    db.ReplaceComment(c');
    r := SuccessResponse(200, "Comment updated successfully", Some(c'));
  }

  // ----- deleteComment -----

  /** `deleteComment`: existence, then authorship; only the comment's row goes. */
  method DeleteComment(db: Database, caller: Id, id: Id) returns (r: Reply<Comment>)
    requires db.Valid()
    modifies db`comments
    ensures db.Valid()
    ensures id !in old(db.comments) ==>
      r == ErrorResponse(404, "Comment not found") && db.comments == old(db.comments)
    ensures id in old(db.comments) && old(db.comments)[id].userId != caller ==>
      r == ErrorResponse(403, "You can only delete your own comments") && db.comments == old(db.comments)
    ensures id in old(db.comments) && old(db.comments)[id].userId == caller ==>
      r == SuccessResponse(200, "Comment deleted successfully") && db.comments == old(db.comments) - {id}
  {
    if id !in db.comments {
      return ErrorResponse(404, "Comment not found");
    }
    if db.comments[id].userId != caller {
      return ErrorResponse(403, "You can only delete your own comments");
    }
    db.RemoveComment(id);
    r := SuccessResponse(200, "Comment deleted successfully");
  }
}
