/** The forum's tables: menus, the dishes of a menu and the comments on a
    dish, each keyed by its database id; the scoped lookups and list queries
    that the read handlers run; and the row removals a delete causes. */
module Data {
  import opened Http

  /** `Meniu`. `userId` is the `sub` of its creator, absent when none was known. */
  datatype Meniu = Meniu(name: string, description: string, creationDate: int, userId: Option<string>)

  /** `Dish`; `meniuId` is its required `Meniu` navigation. */
  datatype Dish = Dish(name: string, description: string, creationDate: int, price: real,
                       ingredients: string, isAvailable: bool, meniuId: int, userId: Option<string>)

  /** `Comment`; `dishId` is its required `Dish` navigation. */
  datatype Comment = Comment(content: string, rating: int, creationDate: int, dishId: int, userId: Option<string>)

  datatype MeniuDto = MeniuDto(id: int, name: string, description: string)
  datatype DishDto = DishDto(id: int, name: string, description: string, price: real, ingredients: string, isAvailable: bool)
  datatype CommentDto = CommentDto(id: int, content: string, rating: int, dishId: int)

  datatype CreateMeniuDto = CreateMeniuDto(name: string, description: string)
  datatype UpdateMeniuDto = UpdateMeniuDto(description: string)
  datatype CreateDishDto = CreateDishDto(name: string, description: string, price: real, ingredients: string, isAvailable: bool)
  datatype UpdateDishDto = UpdateDishDto(description: string, price: real, ingredients: string, isAvailable: bool)
  datatype CreateCommentDto = CreateCommentDto(content: string, rating: int)
  datatype UpdateCommentDto = UpdateCommentDto(content: string, rating: int)

  function MeniuToDto(id: int, m: Meniu): MeniuDto {
    MeniuDto(id, m.name, m.description)
  }

  function DishToDto(id: int, d: Dish): DishDto {
    DishDto(id, d.name, d.description, d.price, d.ingredients, d.isAvailable)
  }

  function CommentToDto(id: int, c: Comment): CommentDto {
    CommentDto(id, c.content, c.rating, c.dishId)
  }

  /** The contents of the three tables. */
  datatype Tables = Tables(menius: map<int, Meniu>, dishes: map<int, Dish>, comments: map<int, Comment>)

  /** Referential integrity, which the database's foreign keys keep: every
      dish belongs to a stored menu and every comment to a stored dish. */
  ghost predicate Linked(t: Tables) {
    && (forall id :: id in t.dishes ==> t.dishes[id].meniuId in t.menius)
    && (forall id :: id in t.comments ==> t.comments[id].dishId in t.dishes)
  }

  /** The filter `d.Id == dishId && d.Meniu.Id == meniuId`. */
  predicate DishInMeniu(t: Tables, meniuId: int, dishId: int) {
    dishId in t.dishes && t.dishes[dishId].meniuId == meniuId
  }

  /** The filter `c.Id == commentId && c.Dish.Id == dishId && c.Dish.Meniu.Id == meniuId`:
      the comment, its dish and that dish's menu must all match the route. */
  predicate CommentInDish(t: Tables, meniuId: int, dishId: int, commentId: int) {
    && commentId in t.comments
    && t.comments[commentId].dishId == dishId
    && DishInMeniu(t, meniuId, dishId)
  }

  /** A comment is reachable under one route only: its own dish and that
      dish's own menu. */
  lemma CommentRouteIsUnique(t: Tables, meniuId: int, dishId: int, meniuId': int, dishId': int, commentId: int)
    requires CommentInDish(t, meniuId, dishId, commentId) && CommentInDish(t, meniuId', dishId', commentId)
    ensures meniuId == meniuId' && dishId == dishId'
  {
  }

  /** Every stored comment is reachable under its dish's route. */
  lemma StoredCommentIsReachable(t: Tables, commentId: int)
    requires Linked(t) && commentId in t.comments
    ensures var dishId := t.comments[commentId].dishId;
            CommentInDish(t, t.dishes[dishId].meniuId, dishId, commentId)
  {
  }

  /** The menu list (`GET api/menius`): one DTO per stored menu. */
  function ListMenius(t: Tables): (r: set<MeniuDto>)
    ensures forall id :: id in t.menius ==> MeniuToDto(id, t.menius[id]) in r
    ensures forall x :: x in r ==> x.id in t.menius && x == MeniuToDto(x.id, t.menius[x.id])
    ensures |r| == |t.menius|
  {
    MeniuListSize(t.menius);
    set id | id in t.menius :: MeniuToDto(id, t.menius[id])
  }

  /** The DTOs of distinct menus are distinct, so the list has as many
      entries as there are menus. */
  lemma {:induction false} MeniuListSize(m: map<int, Meniu>)
    ensures |set id | id in m :: MeniuToDto(id, m[id])| == |m|
    decreases |m|
  {
    if |m| != 0 {
      if forall j :: j !in m.Keys { assert false; }
      var k :| k in m.Keys;
      var m' := m - {k};
      assert m'.Keys == m.Keys - {k};
      MeniuListSize(m');
      var all := set id | id in m :: MeniuToDto(id, m[id]);
      var rest := set id | id in m' :: MeniuToDto(id, m'[id]);
      forall x | x in all ensures x in rest + {MeniuToDto(k, m[k])} {
        var id :| id in m && x == MeniuToDto(id, m[id]);
        if id != k { assert id in m' && x == MeniuToDto(id, m'[id]); }
      }
      assert all == rest + {MeniuToDto(k, m[k])};
      assert MeniuToDto(k, m[k]) !in rest;
    }
  }

  /** `GET api/menius/{meniuId}`. */
  function GetMeniu(t: Tables, meniuId: int): (r: Response<MeniuDto>)
    ensures r.Success? <==> meniuId in t.menius
    ensures r.Success? ==> r == Success(Ok, MeniuToDto(meniuId, t.menius[meniuId]))
    ensures r.Failure? ==> r == Failure(NotFound, None)
  {
    if meniuId in t.menius then Success(Ok, MeniuToDto(meniuId, t.menius[meniuId]))
    else Failure(NotFound, None)
  }

  /** `GET api/menius/{meniuId}/dishes`: not found for a missing menu, else
      exactly the dishes of that menu. */
  function ListDishes(t: Tables, meniuId: int): (r: Response<set<DishDto>>)
    ensures r.Failure? <==> meniuId !in t.menius
    ensures r.Failure? ==> r == Failure(NotFound, None)
    ensures r.Success? ==> r.status == Ok
    ensures r.Success? ==> forall x :: x in r.body <==> DishInMeniu(t, meniuId, x.id) && x == DishToDto(x.id, t.dishes[x.id])
  {
    if meniuId !in t.menius then Failure(NotFound, None)
    else Success(Ok, set id | id in t.dishes && t.dishes[id].meniuId == meniuId :: DishToDto(id, t.dishes[id]))
  }

  const DishNotInMeniu: string := "Dish not found in this meniu"
  const MeniuNotFound: string := "Meniu not found"
  const CommentNotFound: string := "Comment not found"
  const DishNotFound: string := "Dish not found"

  /** `GET api/menius/{meniuId}/dishes/{dishId}`. */
  function GetDish(t: Tables, meniuId: int, dishId: int): (r: Response<DishDto>)
    ensures r.Success? <==> DishInMeniu(t, meniuId, dishId)
    ensures r.Success? ==> r == Success(Ok, DishToDto(dishId, t.dishes[dishId]))
    ensures r.Failure? ==> r == Failure(NotFound, Some(DishNotInMeniu))
  {
    if DishInMeniu(t, meniuId, dishId) then Success(Ok, DishToDto(dishId, t.dishes[dishId]))
    else Failure(NotFound, Some(DishNotInMeniu))
  }

  /** The dish list and the single-dish lookup agree: a DTO is listed under a
      menu exactly when looking its id up under that menu finds it. */
  lemma ListedDishIsFound(t: Tables, meniuId: int, x: DishDto)
    requires meniuId in t.menius
    ensures x in ListDishes(t, meniuId).body <==> GetDish(t, meniuId, x.id) == Success(Ok, x)
  {
  }

  /** `GET .../dishes/{dishId}/comments`: the menu is checked first, then the
      dish within it, and then exactly that dish's comments are listed. */
  function ListComments(t: Tables, meniuId: int, dishId: int): (r: Response<set<CommentDto>>)
    ensures meniuId !in t.menius ==> r == Failure(NotFound, Some(MeniuNotFound))
    ensures meniuId in t.menius && !DishInMeniu(t, meniuId, dishId) ==> r == Failure(NotFound, Some(DishNotInMeniu))
    ensures r.Success? <==> meniuId in t.menius && DishInMeniu(t, meniuId, dishId)
    ensures r.Success? ==> r.status == Ok
    ensures r.Success? ==> forall x :: x in r.body <==>
      CommentInDish(t, meniuId, dishId, x.id) && x == CommentToDto(x.id, t.comments[x.id])
  {
    if meniuId !in t.menius then Failure(NotFound, Some(MeniuNotFound))
    else if !DishInMeniu(t, meniuId, dishId) then Failure(NotFound, Some(DishNotInMeniu))
    else Success(Ok, set id | id in t.comments && CommentInDish(t, meniuId, dishId, id) :: CommentToDto(id, t.comments[id]))
  }

  /** `GET .../dishes/{dishId}/comments/{commentId}`. */
  function GetComment(t: Tables, meniuId: int, dishId: int, commentId: int): (r: Response<CommentDto>)
    ensures r.Success? <==> CommentInDish(t, meniuId, dishId, commentId)
    ensures r.Success? ==> r == Success(Ok, CommentToDto(commentId, t.comments[commentId]))
    ensures r.Failure? ==> r == Failure(NotFound, Some(CommentNotFound))
  {
    if CommentInDish(t, meniuId, dishId, commentId) then Success(Ok, CommentToDto(commentId, t.comments[commentId]))
    else Failure(NotFound, Some(CommentNotFound))
  }

  /** The comment list and the single-comment lookup agree. */
  lemma ListedCommentIsFound(t: Tables, meniuId: int, dishId: int, x: CommentDto)
    requires meniuId in t.menius && DishInMeniu(t, meniuId, dishId)
    ensures x in ListComments(t, meniuId, dishId).body <==> GetComment(t, meniuId, dishId, x.id) == Success(Ok, x)
  {
  }

  /** Deleting a menu: its row goes, and the database's cascade removes the
      menu's dishes and their comments; every other row stays as it was. */
  function RemoveMeniu(t: Tables, meniuId: int): (t': Tables)
    requires Linked(t)
    ensures Linked(t')
    ensures t'.menius == t.menius - {meniuId}
    ensures forall id :: id in t'.dishes <==> id in t.dishes && t.dishes[id].meniuId != meniuId
    ensures forall id :: id in t'.comments <==> id in t.comments && t.dishes[t.comments[id].dishId].meniuId != meniuId
    ensures forall id :: id in t'.dishes ==> t'.dishes[id] == t.dishes[id]
    ensures forall id :: id in t'.comments ==> t'.comments[id] == t.comments[id]
  {
    var dishes := map id | id in t.dishes && t.dishes[id].meniuId != meniuId :: t.dishes[id];
    var comments := map id | id in t.comments && t.comments[id].dishId in dishes :: t.comments[id];
    Tables(t.menius - {meniuId}, dishes, comments)
  }

  /** Deleting a dish: its row goes and the cascade removes its comments;
      every other row stays as it was. */
  function RemoveDish(t: Tables, dishId: int): (t': Tables)
    requires Linked(t)
    ensures Linked(t')
    ensures t'.menius == t.menius && t'.dishes == t.dishes - {dishId}
    ensures forall id :: id in t'.comments <==> id in t.comments && t.comments[id].dishId != dishId
    ensures forall id :: id in t'.comments ==> t'.comments[id] == t.comments[id]
  {
    var comments := map id | id in t.comments && t.comments[id].dishId != dishId :: t.comments[id];
    Tables(t.menius, t.dishes - {dishId}, comments)
  }

  /** The database context: the three tables, changed in place by the write
      handlers and saved as one step. */
  class ForumDb {
    var menius: map<int, Meniu>
    var dishes: map<int, Dish>
    var comments: map<int, Comment>

    function Snapshot(): Tables
      reads this
    {
      Tables(menius, dishes, comments)
    }

    ghost predicate Valid()
      reads this
    {
      Linked(Snapshot())
    }

    constructor ()
      ensures Valid() && menius == map[] && dishes == map[] && comments == map[]
    {
      menius, dishes, comments := map[], map[], map[];
    }

    /** `dbContext.Remove(meniu)` and `SaveChangesAsync`. */
    method DeleteMeniu(meniuId: int)
      requires Valid()
      modifies this
      ensures Valid() && Snapshot() == RemoveMeniu(old(Snapshot()), meniuId)
    {
      menius := menius - {meniuId};
      dishes := map id | id in dishes && dishes[id].meniuId != meniuId :: dishes[id];
      comments := map id | id in comments && comments[id].dishId in dishes :: comments[id];
    }

    /** `dbContext.Remove(dish)` and `SaveChangesAsync`. */
    method DeleteDish(dishId: int)
      requires Valid()
      modifies this
      ensures Valid() && Snapshot() == RemoveDish(old(Snapshot()), dishId)
    {
      dishes := dishes - {dishId};
      comments := map id | id in comments && comments[id].dishId != dishId :: comments[id];
    }

    /** `dbContext.Remove(comment)` and `SaveChangesAsync`. */
    method DeleteComment(commentId: int)
      requires Valid()
      modifies this
      ensures Valid()
      ensures menius == old(menius) && dishes == old(dishes) && comments == old(comments) - {commentId}
    {
      comments := comments - {commentId};
    }
  }
}
