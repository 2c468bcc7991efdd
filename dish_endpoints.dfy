/** The write handlers of `DishEndPoints`: create, update and delete a dish
    of a menu, each behind the Admin role gate alone (no ownership check). The
    read handlers are `Data.ListDishes` and `Data.GetDish`. */
module DishEndPoints {
  import opened Http
  import opened Data
  import opened Validators

  /** `POST api/menius/{meniuId}/dishes`: refused when the menu is missing;
      otherwise adds one dish of that menu, owned by the caller's `sub`. */
  method CreateDish(db: ForumDb, caller: Caller, meniuId: int, dto: CreateDishDto, now: int, newId: int)
    returns (r: Response<DishDto>)
    requires db.Valid() && newId !in db.dishes
    modifies db
    ensures db.Valid()
    ensures var gate := Admit(caller, Admin, ValidCreateDish(dto));
      gate.Some? ==> r == Failure(gate.value, None) && db.Snapshot() == old(db.Snapshot())
    ensures Admit(caller, Admin, ValidCreateDish(dto)).None? && meniuId !in old(db.menius) ==>
      r == Failure(NotFound, Some(MeniuNotFound)) && db.Snapshot() == old(db.Snapshot())
    ensures Admit(caller, Admin, ValidCreateDish(dto)).None? && meniuId in old(db.menius) ==>
      var dish := Dish(dto.name, dto.description, now, dto.price, dto.ingredients, dto.isAvailable, meniuId, SubOf(caller));
      && db.dishes == old(db.dishes)[newId := dish]
      && db.menius == old(db.menius) && db.comments == old(db.comments)
      && r == Success(Created, DishDto(newId, dto.name, dto.description, dto.price, dto.ingredients, dto.isAvailable))
  {
    var gate := Admit(caller, Admin, ValidCreateDish(dto));
    if gate.Some? {
      return Failure(gate.value, None);
    }
    if meniuId !in db.menius {
      return Failure(NotFound, Some(MeniuNotFound));
    }
    var dish := Dish(dto.name, dto.description, now, dto.price, dto.ingredients, dto.isAvailable, meniuId, SubOf(caller));
    db.dishes := db.dishes[newId := dish];
    r := Success(Created, DishToDto(newId, dish));
  }

  /** `PUT api/menius/{meniuId}/dishes/{dishId}`: a dish outside that menu is
      not found; otherwise its description, price, ingredients and
      availability are replaced, and its name, menu, date and owner kept. */
  method UpdateDish(db: ForumDb, caller: Caller, meniuId: int, dishId: int, dto: UpdateDishDto)
    returns (r: Response<DishDto>)
    requires db.Valid()
    modifies db
    ensures db.Valid()
    ensures var gate := Admit(caller, Admin, ValidUpdateDish(dto));
      gate.Some? ==> r == Failure(gate.value, None) && db.Snapshot() == old(db.Snapshot())
    ensures Admit(caller, Admin, ValidUpdateDish(dto)).None? && !DishInMeniu(old(db.Snapshot()), meniuId, dishId) ==>
      r == Failure(NotFound, None) && db.Snapshot() == old(db.Snapshot())
    ensures Admit(caller, Admin, ValidUpdateDish(dto)).None? && DishInMeniu(old(db.Snapshot()), meniuId, dishId) ==>
      var d := old(db.dishes[dishId]);
      var d' := d.(description := dto.description, price := dto.price, ingredients := dto.ingredients,
                   isAvailable := dto.isAvailable);
      && db.dishes == old(db.dishes)[dishId := d']
      && db.menius == old(db.menius) && db.comments == old(db.comments)
      && r == Success(Ok, DishToDto(dishId, d'))
  {
    var gate := Admit(caller, Admin, ValidUpdateDish(dto));
    if gate.Some? {
      return Failure(gate.value, None);
    }
    if !DishInMeniu(db.Snapshot(), meniuId, dishId) {
      return Failure(NotFound, None);
    }
    var dish := db.dishes[dishId];
    dish := dish.(description := dto.description);
    dish := dish.(price := dto.price);
    dish := dish.(ingredients := dto.ingredients);
    dish := dish.(isAvailable := dto.isAvailable);
    db.dishes := db.dishes[dishId := dish];
    r := Success(Ok, DishToDto(dishId, dish));
  }

  /** `DELETE api/menius/{meniuId}/dishes/{dishId}`: a dish outside that menu
      is not found; otherwise it is removed with (by cascade) its comments. */
  method DeleteDish(db: ForumDb, caller: Caller, meniuId: int, dishId: int) returns (r: Response<()>)
    requires db.Valid()
    modifies db
    ensures db.Valid()
    ensures var gate := RoleGate(caller, Admin);
      gate.Some? ==> r == Failure(gate.value, None) && db.Snapshot() == old(db.Snapshot())
    ensures RoleGate(caller, Admin).None? && !DishInMeniu(old(db.Snapshot()), meniuId, dishId) ==>
      r == Failure(NotFound, None) && db.Snapshot() == old(db.Snapshot())
    ensures RoleGate(caller, Admin).None? && DishInMeniu(old(db.Snapshot()), meniuId, dishId) ==>
      r == Success(NoContent, ()) && db.Snapshot() == RemoveDish(old(db.Snapshot()), dishId)
  {
    var gate := RoleGate(caller, Admin);
    if gate.Some? {
      return Failure(gate.value, None);
    }
    if !DishInMeniu(db.Snapshot(), meniuId, dishId) {
      return Failure(NotFound, None);
    }
    db.DeleteDish(dishId);
    r := Success(NoContent, ());
  }
}
