/** The earlier revision of the API, declared at the top level of the program:
    the same routes and validators as the current handlers, but no role gate,
    no owner recorded on new rows and no ownership check on comment changes.
    Only the validation filter stands in front of a write handler. Its read
    handlers behave as `Data.ListMenius`, `Data.GetMeniu`, `Data.ListDishes`,
    `Data.GetDish`, `Data.ListComments` and `Data.GetComment`. */
module LegacyEndPoints {
  import opened Http
  import opened Data
  import opened Validators

  /** The validation filter alone: a body that fails its validator is
      answered with a validation problem before the handler runs. */
  function Screen(valid: bool): (r: Option<Status>)
    ensures r.None? <==> valid
    ensures r.Some? ==> r.value == ValidationProblem
  {
    if valid then None else Some(ValidationProblem)
  }

  /** For a caller holding the role, the current revision's gate answers
      exactly as this revision's filter does. */
  lemma GateMatchesScreenForRoleHolder(caller: Caller, role: string, valid: bool)
    requires IsInRole(caller, role)
    ensures Admit(caller, role, valid) == Screen(valid)
  {
  }

  /** Creates a menu with no owner. */
  method CreateMeniu(db: ForumDb, dto: CreateMeniuDto, now: int, newId: int) returns (r: Response<MeniuDto>)
    requires db.Valid() && newId !in db.menius
    modifies db
    ensures db.Valid()
    ensures !ValidCreateMeniu(dto) ==>
      r == Failure(ValidationProblem, None) && db.Snapshot() == old(db.Snapshot())
    ensures ValidCreateMeniu(dto) ==>
      && db.menius == old(db.menius)[newId := Meniu(dto.name, dto.description, now, None)]
      && db.dishes == old(db.dishes) && db.comments == old(db.comments)
      && r == Success(Created, MeniuDto(newId, dto.name, dto.description))
  {
    var screen := Screen(ValidCreateMeniu(dto));
    if screen.Some? {
      return Failure(screen.value, None);
    }
    var meniu := Meniu(dto.name, dto.description, now, None);
    db.menius := db.menius[newId := meniu];
    r := Success(Created, MeniuToDto(newId, meniu));
  }

  /** Changes the description of an existing menu and nothing else. */
  method UpdateMeniu(db: ForumDb, meniuId: int, dto: UpdateMeniuDto) returns (r: Response<MeniuDto>)
    requires db.Valid()
    modifies db
    ensures db.Valid()
    ensures !ValidUpdateMeniu(dto) ==>
      r == Failure(ValidationProblem, None) && db.Snapshot() == old(db.Snapshot())
    ensures ValidUpdateMeniu(dto) && meniuId !in old(db.menius) ==>
      r == Failure(NotFound, None) && db.Snapshot() == old(db.Snapshot())
    ensures ValidUpdateMeniu(dto) && meniuId in old(db.menius) ==>
      var m := old(db.menius[meniuId]);
      && db.menius == old(db.menius)[meniuId := m.(description := dto.description)]
      && db.dishes == old(db.dishes) && db.comments == old(db.comments)
      && r == Success(Ok, MeniuDto(meniuId, m.name, dto.description))
  {
    var screen := Screen(ValidUpdateMeniu(dto));
    if screen.Some? {
      return Failure(screen.value, None);
    }
    if meniuId !in db.menius {
      return Failure(NotFound, None);
    }
    var meniu := db.menius[meniuId];
    meniu := meniu.(description := dto.description);
    db.menius := db.menius[meniuId := meniu];
    r := Success(Ok, MeniuToDto(meniuId, meniu));
  }

  /** Removes a menu with its dishes and their comments, for anybody. */
  method DeleteMeniu(db: ForumDb, meniuId: int) returns (r: Response<()>)
    requires db.Valid()
    modifies db
    ensures db.Valid()
    ensures meniuId !in old(db.menius) ==>
      r == Failure(NotFound, None) && db.Snapshot() == old(db.Snapshot())
    ensures meniuId in old(db.menius) ==>
      r == Success(NoContent, ()) && db.Snapshot() == RemoveMeniu(old(db.Snapshot()), meniuId)
  {
    if meniuId !in db.menius {
      return Failure(NotFound, None);
    }
    db.DeleteMeniu(meniuId);
    r := Success(NoContent, ());
  }

  /** Creates a dish with no owner in an existing menu. */
  method CreateDish(db: ForumDb, meniuId: int, dto: CreateDishDto, now: int, newId: int)
    returns (r: Response<DishDto>)
    requires db.Valid() && newId !in db.dishes
    modifies db
    ensures db.Valid()
    ensures !ValidCreateDish(dto) ==>
      r == Failure(ValidationProblem, None) && db.Snapshot() == old(db.Snapshot())
    ensures ValidCreateDish(dto) && meniuId !in old(db.menius) ==>
      r == Failure(NotFound, Some(MeniuNotFound)) && db.Snapshot() == old(db.Snapshot())
    ensures ValidCreateDish(dto) && meniuId in old(db.menius) ==>
      var dish := Dish(dto.name, dto.description, now, dto.price, dto.ingredients, dto.isAvailable, meniuId, None);
      && db.dishes == old(db.dishes)[newId := dish]
      && db.menius == old(db.menius) && db.comments == old(db.comments)
      && r == Success(Created, DishDto(newId, dto.name, dto.description, dto.price, dto.ingredients, dto.isAvailable))
  {
    var screen := Screen(ValidCreateDish(dto));
    if screen.Some? {
      return Failure(screen.value, None);
    }
    if meniuId !in db.menius {
      return Failure(NotFound, Some(MeniuNotFound));
    }
    var dish := Dish(dto.name, dto.description, now, dto.price, dto.ingredients, dto.isAvailable, meniuId, None);
    db.dishes := db.dishes[newId := dish];
    r := Success(Created, DishToDto(newId, dish));
  }

  /** Replaces the description, price, ingredients and availability of a
      dish of that menu. */
  method UpdateDish(db: ForumDb, meniuId: int, dishId: int, dto: UpdateDishDto) returns (r: Response<DishDto>)
    requires db.Valid()
    modifies db
    ensures db.Valid()
    ensures !ValidUpdateDish(dto) ==>
      r == Failure(ValidationProblem, None) && db.Snapshot() == old(db.Snapshot())
    ensures ValidUpdateDish(dto) && !DishInMeniu(old(db.Snapshot()), meniuId, dishId) ==>
      r == Failure(NotFound, None) && db.Snapshot() == old(db.Snapshot())
    ensures ValidUpdateDish(dto) && DishInMeniu(old(db.Snapshot()), meniuId, dishId) ==>
      var d' := old(db.dishes[dishId]).(description := dto.description, price := dto.price,
                                         ingredients := dto.ingredients, isAvailable := dto.isAvailable);
      && db.dishes == old(db.dishes)[dishId := d']
      && db.menius == old(db.menius) && db.comments == old(db.comments)
      && r == Success(Ok, DishToDto(dishId, d'))
  {
    var screen := Screen(ValidUpdateDish(dto));
    if screen.Some? {
      return Failure(screen.value, None);
    }
    if !DishInMeniu(db.Snapshot(), meniuId, dishId) {
      return Failure(NotFound, None);
    }
    var dish := db.dishes[dishId];
    dish := dish.(description := dto.description);
    dish := dish.(price := dto.price);
    dish := dish.(ingredients := dto.ingredients);
    dish := dish.(isAvailable := dto.isAvailable);
    db.dishes := db.dishes[dishId := dish];
    r := Success(Ok, DishToDto(dishId, dish));
  }

  /** Removes a dish of that menu with its comments, for anybody. */
  method DeleteDish(db: ForumDb, meniuId: int, dishId: int) returns (r: Response<()>)
    requires db.Valid()
    modifies db
    ensures db.Valid()
    ensures !DishInMeniu(old(db.Snapshot()), meniuId, dishId) ==>
      r == Failure(NotFound, None) && db.Snapshot() == old(db.Snapshot())
    ensures DishInMeniu(old(db.Snapshot()), meniuId, dishId) ==>
      r == Success(NoContent, ()) && db.Snapshot() == RemoveDish(old(db.Snapshot()), dishId)
  {
    if !DishInMeniu(db.Snapshot(), meniuId, dishId) {
      return Failure(NotFound, None);
    }
    db.DeleteDish(dishId);
    r := Success(NoContent, ());
  }

  /** Creates a comment with no owner on a dish of that menu. */
  method CreateComment(db: ForumDb, meniuId: int, dishId: int, dto: CreateCommentDto, now: int, newId: int)
    returns (r: Response<CommentDto>)
    requires db.Valid() && newId !in db.comments
    modifies db
    ensures db.Valid()
    ensures !ValidCreateComment(dto) ==>
      r == Failure(ValidationProblem, None) && db.Snapshot() == old(db.Snapshot())
    ensures ValidCreateComment(dto) && !DishInMeniu(old(db.Snapshot()), meniuId, dishId) ==>
      r == Failure(NotFound, Some(DishNotFound)) && db.Snapshot() == old(db.Snapshot())
    ensures ValidCreateComment(dto) && DishInMeniu(old(db.Snapshot()), meniuId, dishId) ==>
      && db.comments == old(db.comments)[newId := Comment(dto.content, dto.rating, now, dishId, None)]
      && db.menius == old(db.menius) && db.dishes == old(db.dishes)
      && r == Success(Created, CommentDto(newId, dto.content, dto.rating, dishId))
  {
    var screen := Screen(ValidCreateComment(dto));
    if screen.Some? {
      return Failure(screen.value, None);
    }
    if !DishInMeniu(db.Snapshot(), meniuId, dishId) {
      return Failure(NotFound, Some(DishNotFound));
    }
    var comment := Comment(dto.content, dto.rating, now, dishId, None);
    db.comments := db.comments[newId := comment];
    r := Success(Created, CommentToDto(newId, comment));
  }

  /** Replaces the content and rating of any comment on that dish: there is
      no ownership check. */
  method UpdateComment(db: ForumDb, meniuId: int, dishId: int, commentId: int, dto: UpdateCommentDto)
    returns (r: Response<CommentDto>)
    requires db.Valid()
    modifies db
    ensures db.Valid()
    ensures !ValidUpdateComment(dto) ==>
      r == Failure(ValidationProblem, None) && db.Snapshot() == old(db.Snapshot())
    ensures ValidUpdateComment(dto) && !CommentInDish(old(db.Snapshot()), meniuId, dishId, commentId) ==>
      r == Failure(NotFound, Some(CommentNotFound)) && db.Snapshot() == old(db.Snapshot())
    ensures ValidUpdateComment(dto) && CommentInDish(old(db.Snapshot()), meniuId, dishId, commentId) ==>
      var c' := old(db.comments[commentId]).(content := dto.content, rating := dto.rating);
      && db.comments == old(db.comments)[commentId := c']
      && db.menius == old(db.menius) && db.dishes == old(db.dishes)
      && r == Success(Ok, CommentDto(commentId, dto.content, dto.rating, dishId))
  {
    var screen := Screen(ValidUpdateComment(dto));
    if screen.Some? {
      return Failure(screen.value, None);
    }
    if !CommentInDish(db.Snapshot(), meniuId, dishId, commentId) {
      return Failure(NotFound, Some(CommentNotFound));
    }
    var comment := db.comments[commentId];
    comment := comment.(content := dto.content);
    comment := comment.(rating := dto.rating);
    db.comments := db.comments[commentId := comment];
    r := Success(Ok, CommentToDto(commentId, comment));
  }

  /** Removes any comment on that dish, for anybody. */
  method DeleteComment(db: ForumDb, meniuId: int, dishId: int, commentId: int) returns (r: Response<()>)
    requires db.Valid()
    modifies db
    ensures db.Valid()
    ensures !CommentInDish(old(db.Snapshot()), meniuId, dishId, commentId) ==>
      r == Failure(NotFound, None) && db.Snapshot() == old(db.Snapshot())
    ensures CommentInDish(old(db.Snapshot()), meniuId, dishId, commentId) ==>
      && r == Success(NoContent, ())
      && db.comments == old(db.comments) - {commentId}
      && db.menius == old(db.menius) && db.dishes == old(db.dishes)
  {
    if !CommentInDish(db.Snapshot(), meniuId, dishId, commentId) {
      return Failure(NotFound, None);
    }
    db.DeleteComment(commentId);
    r := Success(NoContent, ());
  }
}
