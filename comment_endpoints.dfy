/** The write handlers of `CommentEndPoints`: create, update and delete a
    comment on a dish, behind the ForumUser role gate; update and delete also
    require the caller to be an admin or the comment's owner. The read
    handlers are `Data.ListComments` and `Data.GetComment`. */
module CommentEndPoints {
  import opened Http
  import opened Data
  import opened Validators

  /** The admin-or-owner rule: the caller has the Admin role, or the caller's
      `sub` equals the comment's `UserId`. Equality is C# string equality:
      exact and case-sensitive, and two missing values are equal. */
  predicate MayModify(caller: Caller, comment: Comment) {
    IsInRole(caller, Admin) || SubOf(caller) == comment.userId
  }

  /** For every caller and comment: an admin may always modify it; an
      authenticated caller without the Admin role may exactly when its `sub`
      is the stored owner. */
  lemma AdminOrOwner(sub: Option<string>, roles: set<string>, comment: Comment)
    ensures Admin in roles ==> MayModify(Authenticated(sub, roles), comment)
    ensures Admin !in roles ==> (MayModify(Authenticated(sub, roles), comment) <==> sub == comment.userId)
  {
  }

  /** Ownership is compared exactly: an id that differs only in letter case
      does not make the caller the owner. */
  lemma OwnershipIsCaseSensitive(comment: Comment)
    requires comment.userId == Some("U1")
    ensures !MayModify(Authenticated(Some("u1"), {ForumUser}), comment)
    ensures MayModify(Authenticated(Some("U1"), {ForumUser}), comment)
  {
    assert "u1"[0] != "U1"[0];
  }

  /** A caller whose token has no `sub` counts as the owner of a comment
      stored without an owner, because a missing claim equals a missing id. */
  lemma MissingSubMatchesMissingOwner(comment: Comment)
    requires comment.userId.None?
    ensures MayModify(Authenticated(None, {ForumUser}), comment)
  {
  }

  /** `POST .../dishes/{dishId}/comments`: refused when the dish is not in
      that menu; otherwise adds one comment on that dish, owned by the
      caller's `sub`. */
  method CreateComment(db: ForumDb, caller: Caller, meniuId: int, dishId: int, dto: CreateCommentDto,
                       now: int, newId: int)
    returns (r: Response<CommentDto>)
    requires db.Valid() && newId !in db.comments
    modifies db
    ensures db.Valid()
    ensures var gate := Admit(caller, ForumUser, ValidCreateComment(dto));
      gate.Some? ==> r == Failure(gate.value, None) && db.Snapshot() == old(db.Snapshot())
    ensures Admit(caller, ForumUser, ValidCreateComment(dto)).None? && !DishInMeniu(old(db.Snapshot()), meniuId, dishId) ==>
      r == Failure(NotFound, Some(DishNotFound)) && db.Snapshot() == old(db.Snapshot())
    ensures Admit(caller, ForumUser, ValidCreateComment(dto)).None? && DishInMeniu(old(db.Snapshot()), meniuId, dishId) ==>
      && db.comments == old(db.comments)[newId := Comment(dto.content, dto.rating, now, dishId, SubOf(caller))]
      && db.menius == old(db.menius) && db.dishes == old(db.dishes)
      && r == Success(Created, CommentDto(newId, dto.content, dto.rating, dishId))
  {
    var gate := Admit(caller, ForumUser, ValidCreateComment(dto));
    if gate.Some? {
      return Failure(gate.value, None);
    }
    if !DishInMeniu(db.Snapshot(), meniuId, dishId) {
      return Failure(NotFound, Some(DishNotFound));
    }
    var comment := Comment(dto.content, dto.rating, now, dishId, SubOf(caller));
    db.comments := db.comments[newId := comment];
    r := Success(Created, CommentToDto(newId, comment));
  }

  /** `PUT .../comments/{commentId}`: existence is checked before ownership,
      so a missing comment is not found even for a stranger; a stranger is
      forbidden and nothing changes; otherwise only the content and rating
      are replaced. */
  method UpdateComment(db: ForumDb, caller: Caller, meniuId: int, dishId: int, commentId: int, dto: UpdateCommentDto)
    returns (r: Response<CommentDto>)
    requires db.Valid()
    modifies db
    ensures db.Valid()
    ensures var gate := Admit(caller, ForumUser, ValidUpdateComment(dto));
      gate.Some? ==> r == Failure(gate.value, None) && db.Snapshot() == old(db.Snapshot())
    ensures Admit(caller, ForumUser, ValidUpdateComment(dto)).None? && !CommentInDish(old(db.Snapshot()), meniuId, dishId, commentId) ==>
      r == Failure(NotFound, Some(CommentNotFound)) && db.Snapshot() == old(db.Snapshot())
    ensures Admit(caller, ForumUser, ValidUpdateComment(dto)).None? && CommentInDish(old(db.Snapshot()), meniuId, dishId, commentId)
            && !MayModify(caller, old(db.comments[commentId])) ==>
      r == Failure(Forbid, None) && db.Snapshot() == old(db.Snapshot())
    ensures Admit(caller, ForumUser, ValidUpdateComment(dto)).None? && CommentInDish(old(db.Snapshot()), meniuId, dishId, commentId)
            && MayModify(caller, old(db.comments[commentId])) ==>
      var c' := old(db.comments[commentId]).(content := dto.content, rating := dto.rating);
      && db.comments == old(db.comments)[commentId := c']
      && db.menius == old(db.menius) && db.dishes == old(db.dishes)
      && r == Success(Ok, CommentDto(commentId, dto.content, dto.rating, dishId))
  {
    var gate := Admit(caller, ForumUser, ValidUpdateComment(dto));
    if gate.Some? {
      return Failure(gate.value, None);
    }
    if !CommentInDish(db.Snapshot(), meniuId, dishId, commentId) {
      return Failure(NotFound, Some(CommentNotFound));
    }
    var comment := db.comments[commentId];
    if !MayModify(caller, comment) {
      return Failure(Forbid, None);
    }
    comment := comment.(content := dto.content);
    comment := comment.(rating := dto.rating);
    db.comments := db.comments[commentId := comment];
    r := Success(Ok, CommentToDto(commentId, comment));
  }

  /** `DELETE .../comments/{commentId}`: not found before forbidden, as for
      update; otherwise exactly that comment is removed. */
  method DeleteComment(db: ForumDb, caller: Caller, meniuId: int, dishId: int, commentId: int)
    returns (r: Response<()>)
    requires db.Valid()
    modifies db
    ensures db.Valid()
    ensures var gate := RoleGate(caller, ForumUser);
      gate.Some? ==> r == Failure(gate.value, None) && db.Snapshot() == old(db.Snapshot())
    ensures RoleGate(caller, ForumUser).None? && !CommentInDish(old(db.Snapshot()), meniuId, dishId, commentId) ==>
      r == Failure(NotFound, None) && db.Snapshot() == old(db.Snapshot())
    ensures RoleGate(caller, ForumUser).None? && CommentInDish(old(db.Snapshot()), meniuId, dishId, commentId)
            && !MayModify(caller, old(db.comments[commentId])) ==>
      r == Failure(Forbid, None) && db.Snapshot() == old(db.Snapshot())
    ensures RoleGate(caller, ForumUser).None? && CommentInDish(old(db.Snapshot()), meniuId, dishId, commentId)
            && MayModify(caller, old(db.comments[commentId])) ==>
      && r == Success(NoContent, ())
      && db.comments == old(db.comments) - {commentId}
      && db.menius == old(db.menius) && db.dishes == old(db.dishes)
  {
    var gate := RoleGate(caller, ForumUser);
    if gate.Some? {
      return Failure(gate.value, None);
    }
    if !CommentInDish(db.Snapshot(), meniuId, dishId, commentId) {
      return Failure(NotFound, None);
    }
    if !MayModify(caller, db.comments[commentId]) {
      return Failure(Forbid, None);
    }
    db.DeleteComment(commentId);
    r := Success(NoContent, ());
  }
}
