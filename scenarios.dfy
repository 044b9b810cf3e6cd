/**
 * Request sequences against the two controllers, proved from the actions'
 * contracts alone: what a client observes over several calls.
 */
module Scenarios {
  import opened Wrappers
  import opened Http
  import opened Models
  import opened Data
  import VillaAPI
  import VillaNumberAPI

  /** Deleting the same Villa twice: the second attempt is always 404. */
  method DeleteVillaTwice(api: VillaAPI.VillaAPIController, id: int) returns (first: VillaAPI.VillaResult, second: VillaAPI.VillaResult)
    requires api.db.Valid()
    modifies api.db`villas
    ensures first == (if id in old(api.db.villas) then NoContentResult else NotFoundResult)
    ensures second == NotFoundResult
    ensures api.db.villas == old(api.db.villas) - {id}
  {
    first := api.DeleteVilla(id);
    second := api.DeleteVilla(id);
  }

  /** GET after a successful DELETE of the same id is 404. */
  method GetVillaAfterDelete(api: VillaAPI.VillaAPIController, id: int) returns (deleted: VillaAPI.VillaResult, got: VillaAPI.VillaResult)
    requires api.db.Valid()
    modifies api.db`villas
    ensures deleted == NoContentResult ==> got == NotFoundResult
  {
    deleted := api.DeleteVilla(id);
    got := api.GetVilla(id);
  }

  /** An empty patch writes back exactly the row it read: entity to DTO to entity changes nothing. */
  method EmptyPatchKeepsVilla(api: VillaAPI.VillaAPIController, id: int, generatedId: int) returns (r: VillaAPI.VillaResult)
    requires api.db.Valid() && generatedId > 0 && generatedId !in api.db.villas
    requires id != 0 && id in api.db.villas
    modifies api.db`villas
    ensures r == NoContentResult
    ensures api.db.villas == old(api.db.villas)
  {
    var empty := VillaAPI.JsonPatchDocument(d => VillaAPI.PatchOutcome(d, []));
    r := api.UpdatePartialVilla(id, Some(empty), generatedId);
  }

  /** Deleting the same VillaNumber twice: the second attempt is always 404. */
  method DeleteVillaNumberTwice(api: VillaNumberAPI.VillaNumberController, id: int)
    returns (first: VillaNumberAPI.NumberResult, second: VillaNumberAPI.NumberResult)
    requires api.db.Valid()
    modifies api.db`villaNumbers, api.response
    ensures id in old(api.db.villaNumbers) ==> first == OkObjectResult(api.response)
    ensures id !in old(api.db.villaNumbers) ==> first == NotFoundResult
    ensures second == NotFoundResult
    ensures api.db.villaNumbers == old(api.db.villaNumbers) - {id}
  {
    first := api.DeleteVillaNumber(id);
    second := api.DeleteVillaNumber(id);
  }

  /** A new Villa as a client submits it: id left at 0. */
  function NewVilla(name: string, occupancy: int, rate: Double): VillaDTO
  {
    VillaDTO(0, name, "", occupancy, "", 0, rate, "")
  }

  /**
   * Create "Seaside", create "seaside", read the first, delete it, read it
   * again. The location of the 201 is the client's id 0, not the stored key 1.
   */
  method SeasideRoundTrip(rate: Double)
    returns (created: VillaAPI.VillaResult, duplicate: VillaAPI.VillaResult, found: VillaAPI.VillaResult,
             deleted: VillaAPI.VillaResult, gone: VillaAPI.VillaResult)
    ensures created == CreatedAtRouteResult(0, VillaAPI.SubmittedDto(NewVilla("Seaside", 4, rate)))
    ensures duplicate == BadRequestModelState([VillaAPI.DuplicateName])
    ensures found == OkObjectResult(VillaAPI.OneVilla(Villa(1, "Seaside", "", 4, "", 0, rate, "")))
    ensures deleted == NoContentResult
    ensures gone == NotFoundResult
  {
    var db := new Database();
    var api := new VillaAPI.VillaAPIController(db);
    var seaside := NewVilla("Seaside", 4, rate);
    created := api.CreateVilla(Some(seaside), 1);
    assert db.villas[1].name == "Seaside";
    CaseVariantsClash("Seaside", "seaside");
    duplicate := api.CreateVilla(Some(NewVilla("seaside", 2, rate)), 2);
    found := api.GetVilla(1);
    deleted := api.DeleteVilla(1);
    gone := api.GetVilla(1);
  }

  /**
   * A negative client id passes the id check and is inserted as given, so the
   * 201 location names the stored row; a second create with that id clashes
   * on the primary key and the exception escapes.
   */
  method NegativeIdIsKept(rate: Double)
    returns (created: VillaAPI.VillaResult, found: VillaAPI.VillaResult, clash: VillaAPI.VillaResult)
    ensures created == CreatedAtRouteResult(-1, VillaAPI.SubmittedDto(NewVilla("Cove", 2, rate).(id := -1)))
    ensures found == OkObjectResult(VillaAPI.OneVilla(Villa(-1, "Cove", "", 2, "", 0, rate, "")))
    ensures clash == UnhandledException(DbUpdateException)
  {
    var db := new Database();
    var api := new VillaAPI.VillaAPIController(db);
    created := api.CreateVilla(Some(NewVilla("Cove", 2, rate).(id := -1)), 1);
    found := api.GetVilla(-1);
    assert db.villas[-1].name == "Cove";
    assert !SameIgnoringCase("Cove", "Bay") by {
      assert ToLower("Cove")[0] != ToLower("Bay")[0];
    }
    clash := api.CreateVilla(Some(NewVilla("Bay", 3, rate).(id := -1)), 2);
  }

  /** A VillaNumber that names a Villa nobody stored is refused and nothing is added. */
  method UnknownVillaId() returns (r: VillaNumberAPI.NumberResult, numbers: map<int, VillaNumber>)
    ensures r == BadRequestModelState([VillaNumberAPI.InvalidVillaId])
    ensures numbers == map[]
  {
    var db := new Database();
    var api := new VillaNumberAPI.VillaNumberController(db);
    r := api.CreateVillaNumber(Some(VillaNumberCreateDTO(101, 999, "")));
    numbers := db.villaNumbers;
  }

  /** A VillaNo already taken is reported even when the VillaID is unknown too: that check runs first. */
  method DuplicateNumberReportedFirst(rate: Double)
    returns (first: VillaNumberAPI.NumberResult, second: VillaNumberAPI.NumberResult, numbers: map<int, VillaNumber>)
    ensures first.CreatedAtRouteResult? && first.routeId == 101
    ensures second == BadRequestModelState([VillaNumberAPI.NumberExists])
    ensures numbers == map[101 := VillaNumber(101, 1, "sea view")]
  {
    var db := new Database();
    var villas := new VillaAPI.VillaAPIController(db);
    var _ := villas.CreateVilla(Some(NewVilla("Seaside", 4, rate)), 1);
    var api := new VillaNumberAPI.VillaNumberController(db);
    first := api.CreateVillaNumber(Some(VillaNumberCreateDTO(101, 1, "sea view")));
    second := api.CreateVillaNumber(Some(VillaNumberCreateDTO(101, 999, "")));
    numbers := db.villaNumbers;
  }

  /** Deleting a Villa leaves the VillaNumbers that refer to it in place, pointing at nothing. */
  method OrphanedVillaNumber(rate: Double) returns (villas: map<int, Villa>, numbers: map<int, VillaNumber>)
    ensures 101 in numbers && numbers[101].villaId !in villas
  {
    var db := new Database();
    var villaApi := new VillaAPI.VillaAPIController(db);
    var numberApi := new VillaNumberAPI.VillaNumberController(db);
    var _ := villaApi.CreateVilla(Some(NewVilla("Seaside", 4, rate)), 1);
    var _ := numberApi.CreateVillaNumber(Some(VillaNumberCreateDTO(101, 1, "")));
    var _ := villaApi.DeleteVilla(1);
    villas, numbers := db.villas, db.villaNumbers;
  }

  /** PUT does not repeat the name check: two Villas can end up with the same name ignoring case. */
  method UpdateSkipsNameCheck(rate: Double) returns (r: VillaAPI.VillaResult, villas: map<int, Villa>)
    ensures r == NoContentResult
    ensures 1 in villas && 2 in villas && SameIgnoringCase(villas[1].name, villas[2].name)
  {
    var db := new Database();
    var api := new VillaAPI.VillaAPIController(db);
    var _ := api.CreateVilla(Some(NewVilla("Alpha", 2, rate)), 1);
    assert !SameIgnoringCase("Alpha", "Beta") by {
      assert ToLower("Alpha")[0] != ToLower("Beta")[0];
    }
    var _ := api.CreateVilla(Some(NewVilla("Beta", 2, rate)), 2);
    r := api.UpdateVilla(2, Some(NewVilla("ALPHA", 2, rate).(id := 2)), 3);
    villas := db.villas;
    CaseVariantsClash(villas[1].name, villas[2].name);
  }

  /** PUT with id 0 and a payload id of 0 inserts a new Villa under the generated key. */
  method PutWithUnsetIdInserts(rate: Double) returns (r: VillaAPI.VillaResult, villas: map<int, Villa>)
    ensures r == NoContentResult
    ensures villas == map[7 := Villa(7, "Seaside", "", 4, "", 0, rate, "")]
  {
    var db := new Database();
    var api := new VillaAPI.VillaAPIController(db);
    r := api.UpdateVilla(0, Some(NewVilla("Seaside", 4, rate)), 7);
    villas := db.villas;
  }

  /** A patch that ModelState rejects is answered with 400, yet its result has already been stored. */
  method InvalidPatchIsStored(rate: Double, e: ModelError) returns (r: VillaAPI.VillaResult, villas: map<int, Villa>)
    ensures r == BadRequestModelState([e])
    ensures villas == map[1 := Villa(1, "Seaside", "", 9, "", 0, rate, "")]
  {
    var db := new Database();
    var api := new VillaAPI.VillaAPIController(db);
    var _ := api.CreateVilla(Some(NewVilla("Seaside", 4, rate)), 1);
    var patch := VillaAPI.JsonPatchDocument((d: VillaDTO) => VillaAPI.PatchOutcome(d.(occupancy := 9), [e]));
    r := api.UpdatePartialVilla(1, Some(patch), 2);
    villas := db.villas;
  }

  /** A patch that replaces the id writes the patched row over another stored Villa; the one patched stays. */
  method PatchedIdOverwritesOtherVilla(rate: Double) returns (r: VillaAPI.VillaResult, villas: map<int, Villa>)
    ensures r == NoContentResult
    ensures villas == map[1 := Villa(1, "Alpha", "", 2, "", 0, rate, ""), 2 := Villa(2, "Alpha", "", 2, "", 0, rate, "")]
  {
    var db := new Database();
    var api := new VillaAPI.VillaAPIController(db);
    var _ := api.CreateVilla(Some(NewVilla("Alpha", 2, rate)), 1);
    assert !SameIgnoringCase("Alpha", "Beta") by {
      assert ToLower("Alpha")[0] != ToLower("Beta")[0];
    }
    var _ := api.CreateVilla(Some(NewVilla("Beta", 2, rate)), 2);
    var patch := VillaAPI.JsonPatchDocument((d: VillaDTO) => VillaAPI.PatchOutcome(d.(id := 2), []));
    r := api.UpdatePartialVilla(1, Some(patch), 3);
    villas := db.villas;
  }
}
