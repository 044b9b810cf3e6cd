/**
 * `VillaNumberController`: CRUD over the VillaNumber table, checking each
 * write's VillaID against the Villas table. Every action fills fields of one
 * shared response envelope; a failure inside the try block is caught and
 * recorded in the envelope, which is then returned as it is.
 */
module VillaNumberAPI {
  import opened Wrappers
  import opened Http
  import opened Models
  import opened Tables
  import opened Data

  /** What `APIResponse.Result` holds. */
  datatype Payload = NoResult | OneNumber(dto: VillaNumberDTO) | AllNumbers(dtos: seq<VillaNumberDTO>)

  /** The response envelope `APIResponse`. */
  class APIResponse {
    var statusCode: HttpStatusCode
    var isSuccess: bool
    var errorMessages: seq<string>
    var result: Payload

    /** A new envelope: every field at its C# default. */
    constructor ()
      ensures statusCode == Unset && !isSuccess && errorMessages == [] && result == NoResult
    {
      statusCode := Unset;
      isSuccess := false;
      errorMessages := [];
      result := NoResult;
    }
  }

  type NumberResult = ActionResult<APIResponse>

  const NumberExists := ModelError("CustomError", "Villa Number already exists!")
  const InvalidVillaId := ModelError("CustomError", "Villa ID is invalid")

  /** The i-th DTO listed is the DTO of the row under the i-th key. */
  lemma {:induction false} ListedNumberIsKey(m: map<int, VillaNumber>, i: int)
    requires KeyedByVillaNo(m)
    requires 0 <= i < |m|
    ensures |NumbersToDTOs(Listing(m))| == |m|
    ensures SortedKeys(m.Keys)[i] in m
    ensures NumbersToDTOs(Listing(m))[i] == NumberToDTO(m[SortedKeys(m.Keys)[i]])
    ensures NumbersToDTOs(Listing(m))[i].villaNo == SortedKeys(m.Keys)[i]
  {
    var rows := Listing(m);
    assert rows[i] == m[SortedKeys(m.Keys)[i]];
  }

  /** Each listed DTO is the DTO of the row stored under its VillaNo. */
  lemma {:induction false} ListedNumbersAreStored(m: map<int, VillaNumber>)
    requires KeyedByVillaNo(m)
    ensures |NumbersToDTOs(Listing(m))| == |m|
    ensures forall i :: 0 <= i < |NumbersToDTOs(Listing(m))| ==>
      NumbersToDTOs(Listing(m))[i].villaNo in m &&
      NumberToDTO(m[NumbersToDTOs(Listing(m))[i].villaNo]) == NumbersToDTOs(Listing(m))[i]
  {
    var dtos := NumbersToDTOs(Listing(m));
    forall i | 0 <= i < |dtos|
      ensures dtos[i].villaNo in m && NumberToDTO(m[dtos[i].villaNo]) == dtos[i]
    {
      ListedNumberIsKey(m, i);
    }
  }

  /** The listed DTOs come in strictly ascending VillaNo order. */
  lemma {:induction false} ListedNumbersAscend(m: map<int, VillaNumber>)
    requires KeyedByVillaNo(m)
    ensures forall i, j :: 0 <= i < j < |NumbersToDTOs(Listing(m))| ==>
      NumbersToDTOs(Listing(m))[i].villaNo < NumbersToDTOs(Listing(m))[j].villaNo
  {
    var dtos := NumbersToDTOs(Listing(m));
    forall i, j | 0 <= i < j < |dtos|
      ensures dtos[i].villaNo < dtos[j].villaNo
    {
      ListedNumberIsKey(m, i);
      ListedNumberIsKey(m, j);
    }
  }

  /** The DTO of every stored row is listed. */
  lemma {:induction false} StoredNumbersAreListed(m: map<int, VillaNumber>)
    requires KeyedByVillaNo(m)
    ensures forall k :: k in m ==> NumberToDTO(m[k]) in NumbersToDTOs(Listing(m))
  {
    var ks := SortedKeys(m.Keys);
    forall k | k in m
      ensures NumberToDTO(m[k]) in NumbersToDTOs(Listing(m))
    {
      assert k in ks;
      var i :| 0 <= i < |ks| && ks[i] == k;
      ListedNumberIsKey(m, i);
    }
  }

  /**
   * `dtos` lists the table `m`: one DTO per row, each the DTO of the row
   * stored under its VillaNo, every row's DTO present, VillaNo ascending.
   */
  predicate ListsNumberTable(dtos: seq<VillaNumberDTO>, m: map<int, VillaNumber>)
  {
    |dtos| == |m| &&
    (forall i :: 0 <= i < |dtos| ==> dtos[i].villaNo in m && NumberToDTO(m[dtos[i].villaNo]) == dtos[i]) &&
    (forall k :: k in m ==> NumberToDTO(m[k]) in dtos) &&
    (forall i, j :: 0 <= i < j < |dtos| ==> dtos[i].villaNo < dtos[j].villaNo)
  }

  /** The DTO listing of a table keyed by VillaNo lists that table. */
  lemma NumberListingListsTable(m: map<int, VillaNumber>)
    requires KeyedByVillaNo(m)
    ensures ListsNumberTable(NumbersToDTOs(Listing(m)), m)
  {
    ListedNumbersAreStored(m);
    ListedNumbersAscend(m);
    StoredNumbersAreListed(m);
  }

  class VillaNumberController {
    const db: Database
    const response: APIResponse

    constructor (db: Database)
      ensures this.db == db && fresh(response)
      ensures response.statusCode == Unset && !response.isSuccess
      ensures response.errorMessages == [] && response.result == NoResult
    {
      this.db := db;
      response := new APIResponse();
    }

    /** The catch block: the envelope is marked failed with one message; status code and result stay. */
    method Fail(ex: Exception) returns (r: NumberResult)
      modifies response
      ensures r == ObjectResult(response)
      ensures !response.isSuccess && response.errorMessages == [Describe(ex)]
      ensures response.statusCode == old(response.statusCode) && response.result == old(response.result)
    {
      response.isSuccess := false;
      response.errorMessages := [Describe(ex)];
      return ObjectResult(response);
    }

    /** GET: 200 with every VillaNumber, each mapped to its DTO, in the envelope. */
    method GetVillaNumbers() returns (r: NumberResult)
      requires db.Valid()
      modifies response
      ensures r == OkObjectResult(response)
      ensures response.statusCode == OK && response.result.AllNumbers?
      ensures ListsNumberTable(response.result.dtos, db.villaNumbers)
      ensures response.isSuccess == old(response.isSuccess) && response.errorMessages == old(response.errorMessages)
    {
      var table := db.villaNumbers;
      var villaNumberList := Listing(table);
      var dtos := NumbersToDTOs(villaNumberList);
      assert KeyedByVillaNo(table);
      NumberListingListsTable(table);
      assert ListsNumberTable(dtos, table);
      response.result := AllNumbers(dtos);
      response.statusCode := OK;
      return OkObjectResult(response);
    }

    /** GET {id}: 400 for id 0, 404 when no VillaNumber has that VillaNo, else 200 with its DTO; the table is only read. */
    method GetVillaNumber(id: int) returns (r: NumberResult)
      requires db.Valid()
      modifies response
      ensures id == 0 ==>
        r == BadRequestObjectResult(response) && response.statusCode == BadRequest && response.result == old(response.result)
      ensures id != 0 && !(exists k :: k in db.villaNumbers && db.villaNumbers[k].villaNo == id) ==>
        r == NotFoundObjectResult(response) && response.statusCode == NotFound && response.result == old(response.result)
      ensures id != 0 && (exists k :: k in db.villaNumbers && db.villaNumbers[k].villaNo == id) ==>
        r == OkObjectResult(response) && response.statusCode == OK &&
        response.result.OneNumber? && response.result.dto.villaNo == id &&
        exists k :: k in db.villaNumbers && NumberToDTO(db.villaNumbers[k]) == response.result.dto
      ensures response.isSuccess == old(response.isSuccess) && response.errorMessages == old(response.errorMessages)
    {
      if id == 0 {
        response.statusCode := BadRequest;
        return BadRequestObjectResult(response);
      }
      if id !in db.villaNumbers {
        response.statusCode := NotFound;
        return NotFoundObjectResult(response);
      }
      response.result := OneNumber(NumberToDTO(db.villaNumbers[id]));
      response.statusCode := OK;
      return OkObjectResult(response);
    }

    /**
     * POST. The duplicate check dereferences the payload, so a null payload
     * lands in the catch block and the NotFound branch is dead; a duplicate
     * VillaNo wins over an unknown VillaID.
     */
    method CreateVillaNumber(dto: Option<VillaNumberCreateDTO>) returns (r: NumberResult)
      requires db.Valid()
      modifies db`villaNumbers, response
      ensures db.Valid()
      ensures old(db.ReferencesResolve()) ==> db.ReferencesResolve()
      ensures dto.None? ==>
        r == ObjectResult(response) && db.villaNumbers == old(db.villaNumbers) &&
        !response.isSuccess && |response.errorMessages| == 1 &&
        response.statusCode == old(response.statusCode) && response.result == old(response.result)
      ensures dto.Some? && dto.value.villaNo in old(db.villaNumbers) ==>
        r == BadRequestModelState([NumberExists]) && db.villaNumbers == old(db.villaNumbers) && unchanged(response)
      ensures dto.Some? && dto.value.villaNo !in old(db.villaNumbers) && dto.value.villaId !in db.villas ==>
        r == BadRequestModelState([InvalidVillaId]) && db.villaNumbers == old(db.villaNumbers) && unchanged(response)
      ensures dto.Some? && dto.value.villaNo !in old(db.villaNumbers) && dto.value.villaId in db.villas ==>
        r == CreatedAtRouteResult(dto.value.villaNo, response) &&
        db.villaNumbers == old(db.villaNumbers)[dto.value.villaNo := NumberFromCreateDTO(dto.value)] &&
        response.statusCode == Created && response.result == OneNumber(NumberToDTO(NumberFromCreateDTO(dto.value))) &&
        response.isSuccess == old(response.isSuccess) && response.errorMessages == old(response.errorMessages)
      ensures !r.NotFoundResult? && !r.NotFoundObjectResult?
    {
      if dto.None? {
        r := Fail(NullReferenceException);
        return;
      }
      var createDTO := dto.value;
      if createDTO.villaNo in db.villaNumbers {
        return BadRequestModelState([NumberExists]);
      }
      if createDTO.villaId !in db.villas {
        return BadRequestModelState([InvalidVillaId]);
      }
      var villaNumber := NumberFromCreateDTO(createDTO);
      db.villaNumbers := db.villaNumbers[villaNumber.villaNo := villaNumber];
      response.result := OneNumber(NumberToDTO(villaNumber));
      response.statusCode := Created;
      return CreatedAtRouteResult(villaNumber.villaNo, response);
    }

    /**
     * DELETE {id}: 404 (no body) when no VillaNumber has that VillaNo; else it
     * is removed and the envelope says NoContent and success while the
     * response itself is 200.
     */
    method DeleteVillaNumber(id: int) returns (r: NumberResult)
      requires db.Valid()
      modifies db`villaNumbers, response
      ensures db.Valid()
      ensures old(db.ReferencesResolve()) ==> db.ReferencesResolve()
      ensures id !in old(db.villaNumbers) ==>
        r == NotFoundResult && db.villaNumbers == old(db.villaNumbers) && unchanged(response)
      ensures id in old(db.villaNumbers) ==>
        r == OkObjectResult(response) && db.villaNumbers == old(db.villaNumbers) - {id} &&
        response.statusCode == NoContent && response.isSuccess &&
        response.result == old(response.result) && response.errorMessages == old(response.errorMessages)
      ensures r.OkObjectResult? ==> r.Status().Code() == 200 && response.statusCode.Code() == 204
    {
      if id !in db.villaNumbers {
        return NotFoundResult;
      }
      db.villaNumbers := db.villaNumbers - {id};
      response.statusCode := NoContent;
      response.isSuccess := true;
      return OkObjectResult(response);
    }

    /**
     * PUT {id}: 400 (no body) for a null payload or a path id other than its
     * VillaNo, 400 "Villa ID is invalid" for an unknown VillaID; else the row
     * is replaced. `Update` of a VillaNo no row has updates no row and throws,
     * which the catch block records.
     */
    method UpdateVillaNumber(id: int, dto: Option<VillaNumberUpdateDTO>) returns (r: NumberResult)
      requires db.Valid()
      modifies db`villaNumbers, response
      ensures db.Valid()
      ensures old(db.ReferencesResolve()) ==> db.ReferencesResolve()
      ensures (dto.None? || id != dto.value.villaNo) ==>
        r == BadRequestResult && db.villaNumbers == old(db.villaNumbers) && unchanged(response)
      ensures dto.Some? && id == dto.value.villaNo && dto.value.villaId !in db.villas ==>
        r == BadRequestModelState([InvalidVillaId]) && db.villaNumbers == old(db.villaNumbers) && unchanged(response)
      ensures dto.Some? && id == dto.value.villaNo && dto.value.villaId in db.villas && id !in old(db.villaNumbers) ==>
        r == ObjectResult(response) && db.villaNumbers == old(db.villaNumbers) &&
        !response.isSuccess && |response.errorMessages| == 1 &&
        response.statusCode == old(response.statusCode) && response.result == old(response.result)
      ensures dto.Some? && id == dto.value.villaNo && dto.value.villaId in db.villas && id in old(db.villaNumbers) ==>
        r == OkObjectResult(response) && db.villaNumbers == old(db.villaNumbers)[id := NumberFromUpdateDTO(dto.value)] &&
        response.statusCode == NoContent && response.isSuccess &&
        response.result == old(response.result) && response.errorMessages == old(response.errorMessages)
      ensures r.OkObjectResult? ==> r.Status().Code() == 200 && response.statusCode.Code() == 204
    {
      if dto.None? || id != dto.value.villaNo {
        return BadRequestResult;
      }
      var updateDTO := dto.value;
      if updateDTO.villaId !in db.villas {
        return BadRequestModelState([InvalidVillaId]);
      }
      var model := NumberFromUpdateDTO(updateDTO);
      if model.villaNo !in db.villaNumbers {
        r := Fail(DbUpdateConcurrencyException);
        return;
      }
      db.villaNumbers := db.villaNumbers[model.villaNo := model];
      response.statusCode := NoContent;
      response.isSuccess := true;
      return OkObjectResult(response);
    }
  }
}
