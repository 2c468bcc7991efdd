/** The write handlers of `MeniuEndPoints`: create, update and delete a menu,
    each behind the Admin role gate. The read handlers are `Data.ListMenius`
    and `Data.GetMeniu`. */
module MeniuEndPoints {
  import opened Http
  import opened Data
  import opened Validators

  /** `POST api/menius`: adds one menu owned by the caller's `sub`, dated
      `now`, under the id the database assigns. `Meniu.UserId` is a required
      foreign key into the identity store, whose account ids are `accounts`:
      when the caller has no `sub`, or one that names no account, saving
      throws, nothing is stored and the host answers 500. */
  method CreateMeniu(db: ForumDb, caller: Caller, dto: CreateMeniuDto, accounts: set<string>, now: int, newId: int)
    returns (r: Response<MeniuDto>)
    requires db.Valid() && newId !in db.menius
    modifies db
    ensures db.Valid()
    ensures var gate := Admit(caller, Admin, ValidCreateMeniu(dto));
      gate.Some? ==> r == Failure(gate.value, None) && db.Snapshot() == old(db.Snapshot())
    ensures Admit(caller, Admin, ValidCreateMeniu(dto)).None? && !(SubOf(caller).Some? && SubOf(caller).value in accounts) ==>
      r == Failure(InternalServerError, None) && db.Snapshot() == old(db.Snapshot())
    ensures Admit(caller, Admin, ValidCreateMeniu(dto)).None? && SubOf(caller).Some? && SubOf(caller).value in accounts ==>
      && db.menius == old(db.menius)[newId := Meniu(dto.name, dto.description, now, SubOf(caller))]
      && db.dishes == old(db.dishes) && db.comments == old(db.comments)
      && r == Success(Created, MeniuDto(newId, dto.name, dto.description))
  {
    var gate := Admit(caller, Admin, ValidCreateMeniu(dto));
    if gate.Some? {
      return Failure(gate.value, None);
    }
    var owner := SubOf(caller);
    if owner.None? || owner.value !in accounts {
      return Failure(InternalServerError, None);
    }
    var meniu := Meniu(dto.name, dto.description, now, owner);
    db.menius := db.menius[newId := meniu];
    r := Success(Created, MeniuToDto(newId, meniu));
  }

  /** `PUT api/menius/{meniuId}`: changes the description of the menu and
      nothing else. */
  method UpdateMeniu(db: ForumDb, caller: Caller, meniuId: int, dto: UpdateMeniuDto)
    returns (r: Response<MeniuDto>)
    requires db.Valid()
    modifies db
    ensures db.Valid()
    ensures var gate := Admit(caller, Admin, ValidUpdateMeniu(dto));
      gate.Some? ==> r == Failure(gate.value, None) && db.Snapshot() == old(db.Snapshot())
    ensures Admit(caller, Admin, ValidUpdateMeniu(dto)).None? && meniuId !in old(db.menius) ==>
      r == Failure(NotFound, None) && db.Snapshot() == old(db.Snapshot())
    ensures Admit(caller, Admin, ValidUpdateMeniu(dto)).None? && meniuId in old(db.menius) ==>
      var m := old(db.menius[meniuId]);
      && db.menius == old(db.menius)[meniuId := m.(description := dto.description)]
      && db.dishes == old(db.dishes) && db.comments == old(db.comments)
      && r == Success(Ok, MeniuDto(meniuId, m.name, dto.description))
  {
    var gate := Admit(caller, Admin, ValidUpdateMeniu(dto));
    if gate.Some? {
      return Failure(gate.value, None);
    }
    if meniuId !in db.menius {
      return Failure(NotFound, None);
    }
    var meniu := db.menius[meniuId];
    meniu := meniu.(description := dto.description);
    db.menius := db.menius[meniuId := meniu];
    r := Success(Ok, MeniuToDto(meniuId, meniu));
  }

  /** `DELETE api/menius/{meniuId}`: removes that menu, and with it (by the
      database's cascade) its dishes and their comments. */
  method DeleteMeniu(db: ForumDb, caller: Caller, meniuId: int) returns (r: Response<()>)
    requires db.Valid()
    modifies db
    ensures db.Valid()
    ensures var gate := RoleGate(caller, Admin);
      gate.Some? ==> r == Failure(gate.value, None) && db.Snapshot() == old(db.Snapshot())
    ensures RoleGate(caller, Admin).None? && meniuId !in old(db.menius) ==>
      r == Failure(NotFound, None) && db.Snapshot() == old(db.Snapshot())
    ensures RoleGate(caller, Admin).None? && meniuId in old(db.menius) ==>
      r == Success(NoContent, ()) && db.Snapshot() == RemoveMeniu(old(db.Snapshot()), meniuId)
  {
    var gate := RoleGate(caller, Admin);
    if gate.Some? {
      return Failure(gate.value, None);
    }
    if meniuId !in db.menius {
      return Failure(NotFound, None);
    }
    db.DeleteMeniu(meniuId);
    r := Success(NoContent, ());
  }
}
