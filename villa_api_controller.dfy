/**
 * `VillaAPIController`: CRUD over the Villas table. Each action is a chain of
 * guards followed by at most one write; the reads are functions of the table,
 * the writes methods on the shared `Database`. No exception is caught here: a
 * null dereference or a failed write leaves the action as an
 * `UnhandledException`.
 */
module VillaAPI {
  import opened Wrappers
  import opened Http
  import opened Models
  import opened Tables
  import opened Data

  /** What the Villa actions put in a response body. */
  datatype VillaContent = AllVillas(villas: seq<Villa>) | OneVilla(villa: Villa) | SubmittedDto(dto: VillaDTO)

  type VillaResult = ActionResult<VillaContent>

  /** `JsonPatchDocument<VillaDTO>.ApplyTo(dto, ModelState)`: the patched DTO and the errors it adds to ModelState. */
  datatype PatchOutcome = PatchOutcome(dto: VillaDTO, errors: seq<ModelError>)
  datatype JsonPatchDocument = JsonPatchDocument(applyTo: VillaDTO -> PatchOutcome)

  const DuplicateName := ModelError("CustomError", "Villa already exists!")

  /** Some stored Villa has this name, ignoring case. */
  predicate NameTaken(villas: map<int, Villa>, name: string)
  {
    exists k :: k in villas && SameIgnoringCase(villas[k].name, name)
  }

  /** Whether a name is taken does not depend on the case it is written in. */
  lemma NameTakenIgnoresCase(villas: map<int, Villa>, a: string, b: string)
    requires SameIgnoringCase(a, b)
    ensures NameTaken(villas, a) <==> NameTaken(villas, b)
  {
  }

  /**
   * `vs` lists the table `m`: one Villa per row, each stored under its own
   * Id, every stored Villa present, Id ascending.
   */
  predicate ListsVillaTable(vs: seq<Villa>, m: map<int, Villa>)
  {
    |vs| == |m| &&
    (forall i :: 0 <= i < |vs| ==> vs[i].id in m && m[vs[i].id] == vs[i]) &&
    (forall k :: k in m ==> m[k] in vs) &&
    (forall i, j :: 0 <= i < j < |vs| ==> vs[i].id < vs[j].id)
  }

  /** The listing of a table keyed by Id lists that table. */
  lemma {:induction false} VillaListingListsTable(m: map<int, Villa>)
    requires KeyedById(m)
    ensures ListsVillaTable(Listing(m), m)
  {
    var ks := SortedKeys(m.Keys);
    var vs := Listing(m);
    forall i | 0 <= i < |vs|
      ensures vs[i].id == ks[i] && vs[i].id in m && m[vs[i].id] == vs[i]
    {
    }
    forall i, j | 0 <= i < j < |vs|
      ensures vs[i].id < vs[j].id
    {
      assert vs[i].id == ks[i] && vs[j].id == ks[j];
    }
    forall k | k in m
      ensures m[k] in vs
    {
      StoredRowIsListed(m, k);
    }
  }

  class VillaAPIController {
    const db: Database

    constructor (db: Database)
      ensures this.db == db
    {
      this.db := db;
    }

    /** GET: always 200 with every stored Villa, each once, in ascending Id order. */
    function GetVillas(): (r: VillaResult)
      requires db.Valid()
      reads db
      ensures r.OkObjectResult? && r.value.AllVillas?
      ensures ListsVillaTable(r.value.villas, db.villas)
    {
      var villas := Listing(db.villas);
      assert KeyedById(db.villas);
      VillaListingListsTable(db.villas);
      OkObjectResult(AllVillas(villas))
    }

    /** GET {id}: 400 for id 0, else the Villa whose Id is id with 200, or 404 when there is none. */
    function GetVilla(id: int): (r: VillaResult)
      requires db.Valid()
      reads db
      ensures id == 0 ==> r == BadRequestResult
      ensures id != 0 ==> (r.OkObjectResult? <==> exists k :: k in db.villas && db.villas[k].id == id)
      ensures id != 0 && !r.OkObjectResult? ==> r == NotFoundResult
      ensures r.OkObjectResult? ==>
        r.value.OneVilla? && r.value.villa.id == id && exists k :: k in db.villas && db.villas[k] == r.value.villa
    {
      if id == 0 then BadRequestResult
      else if id in db.villas then OkObjectResult(OneVilla(db.villas[id]))
      else NotFoundResult
    }

    /**
     * POST. The name check dereferences the payload before the null check, so
     * a null payload throws and the NotFound branch is dead; a duplicate name
     * wins over a client-chosen id; the location uses the client's id, which
     * names no row for id 0 (the row gets the generated key) and names the
     * stored row for a negative id.
     */
    method CreateVilla(dto: Option<VillaDTO>, generatedId: int) returns (r: VillaResult)
      requires db.Valid() && generatedId > 0 && generatedId !in db.villas
      modifies db`villas
      ensures db.Valid()
      ensures dto.None? ==> r == UnhandledException(NullReferenceException) && db.villas == old(db.villas)
      ensures dto.Some? && NameTaken(old(db.villas), dto.value.name) ==>
        r == BadRequestModelState([DuplicateName]) && db.villas == old(db.villas)
      ensures dto.Some? && !NameTaken(old(db.villas), dto.value.name) && dto.value.id > 0 ==>
        r == StatusCodeResult(InternalServerError) && db.villas == old(db.villas)
      ensures dto.Some? && !NameTaken(old(db.villas), dto.value.name) && dto.value.id == 0 ==>
        r == CreatedAtRouteResult(0, SubmittedDto(dto.value)) &&
        db.villas == old(db.villas)[generatedId := FromDTO(dto.value).(id := generatedId)]
      ensures dto.Some? && !NameTaken(old(db.villas), dto.value.name) && dto.value.id < 0 && dto.value.id in old(db.villas) ==>
        r == UnhandledException(DbUpdateException) && db.villas == old(db.villas)
      ensures dto.Some? && !NameTaken(old(db.villas), dto.value.name) && dto.value.id < 0 && dto.value.id !in old(db.villas) ==>
        r == CreatedAtRouteResult(dto.value.id, SubmittedDto(dto.value)) &&
        db.villas == old(db.villas)[dto.value.id := FromDTO(dto.value)]
      ensures !r.NotFoundResult? && !r.NotFoundObjectResult?
      ensures r.Status().Code() in {201, 400, 500}
      ensures r.CreatedAtRouteResult? ==> r.routeId <= 0 && r.routeId != generatedId
      ensures r.CreatedAtRouteResult? && r.routeId != 0 ==> r.routeId in db.villas
    {
      if dto.None? {
        return UnhandledException(NullReferenceException);
      }
      var d := dto.value;
      var isVillaNameFound := exists k | k in db.villas :: ToLower(db.villas[k].name) == ToLower(d.name);
      if isVillaNameFound {
        return BadRequestModelState([DuplicateName]);
      }
      if d.id > 0 {
        return StatusCodeResult(InternalServerError);
      }
      var failed := db.AddVilla(FromDTO(d), generatedId);
      if failed {
        return UnhandledException(DbUpdateException);
      }
      return CreatedAtRouteResult(d.id, SubmittedDto(d));
    }

    /** DELETE {id}: 404 when no Villa has that Id, else that row alone is removed and 204. */
    method DeleteVilla(id: int) returns (r: VillaResult)
      requires db.Valid()
      modifies db`villas
      ensures db.Valid()
      ensures id !in old(db.villas) ==> r == NotFoundResult && db.villas == old(db.villas)
      ensures id in old(db.villas) ==> r == NoContentResult && db.villas == old(db.villas) - {id}
      ensures forall k :: k in old(db.villas) && k != id ==> k in db.villas && db.villas[k] == old(db.villas)[k]
    {
      if id !in db.villas {
        return NotFoundResult;
      }
      db.villas := db.villas - {id};
      return NoContentResult;
    }

    /**
     * PUT: 400 for a null payload or a path id other than the payload's; else
     * the row built from the payload is written with `Update`. No name check.
     */
    method UpdateVilla(id: int, dto: Option<VillaDTO>, generatedId: int) returns (r: VillaResult)
      requires db.Valid() && generatedId > 0 && generatedId !in db.villas
      modifies db`villas
      ensures db.Valid()
      ensures (dto.None? || id != dto.value.id) ==> r == BadRequestResult && db.villas == old(db.villas)
      ensures dto.Some? && id == dto.value.id ==>
        db.villas == VillaTableAfterUpdate(old(db.villas), FromDTO(dto.value), generatedId) &&
        r == (if VillaUpdateFails(old(db.villas), FromDTO(dto.value)) then UnhandledException(DbUpdateConcurrencyException)
              else NoContentResult)
      ensures dto.Some? && id == dto.value.id && id in old(db.villas) ==>
        r == NoContentResult && db.villas == old(db.villas)[id := FromDTO(dto.value)]
    {
      if dto.None? || id != dto.value.id {
        return BadRequestResult;
      }
      var failed := db.UpdateVilla(FromDTO(dto.value), generatedId);
      if failed {
        return UnhandledException(DbUpdateConcurrencyException);
      }
      return NoContentResult;
    }

    /**
     * PATCH: 400 for id 0, a null patch or a missing Villa (never 404). The
     * stored row is copied to a DTO, patched, copied back and written with
     * `Update` before ModelState is consulted, so an invalid patch still
     * changes the table even though 400 is returned.
     */
    method UpdatePartialVilla(id: int, patch: Option<JsonPatchDocument>, generatedId: int) returns (r: VillaResult)
      requires db.Valid() && generatedId > 0 && generatedId !in db.villas
      modifies db`villas
      ensures db.Valid()
      ensures (id == 0 || patch.None? || id !in old(db.villas)) ==> r == BadRequestResult && db.villas == old(db.villas)
      ensures id != 0 && patch.Some? && id in old(db.villas) ==>
        var patched := patch.value.applyTo(ToDTO(old(db.villas)[id]));
        var model := FromDTO(patched.dto);
        db.villas == VillaTableAfterUpdate(old(db.villas), model, generatedId) &&
        r == (if VillaUpdateFails(old(db.villas), model) then UnhandledException(DbUpdateConcurrencyException)
              else if patched.errors != [] then BadRequestModelState(patched.errors)
              else NoContentResult)
    {
      if id == 0 || patch.None? {
        return BadRequestResult;
      }
      if id !in db.villas {
        return BadRequestResult;
      }
      var villaDTO := ToDTO(db.villas[id]);
      var patched := patch.value.applyTo(villaDTO);
      var failed := db.UpdateVilla(FromDTO(patched.dto), generatedId);
      if failed {
        return UnhandledException(DbUpdateConcurrencyException);
      }
      if patched.errors != [] {
        return BadRequestModelState(patched.errors);
      }
      return NoContentResult;
    }
  }
}
