/**
 * The store behind both controllers: the `Villas` table of the
 * `ApplicationDbContext` and the VillaNumber table behind
 * `IVillaNumberRepository`, each a map from primary key to row. Each write
 * stands for one atomic `SaveChanges`.
 */
module Data {
  import opened Models

  /**
   * The table `Add(v)` followed by `SaveChanges` leaves, for a Villa whose key
   * the database generates: key 0 (unset) is replaced by the generated key
   * `generatedId`; a key that was set is inserted as given, and fails when a
   * row already has it.
   */
  function VillaTableAfterAdd(villas: map<int, Villa>, v: Villa, generatedId: int): map<int, Villa>
  {
    if v.id == 0 then villas[generatedId := v.(id := generatedId)]
    else if v.id in villas then villas
    else villas[v.id := v]
  }

  /** `Add` of a row whose set key is already stored violates the primary key and throws. */
  predicate VillaAddFails(villas: map<int, Villa>, v: Villa)
  {
    v.id != 0 && v.id in villas
  }

  /** The key `Add(v)` stores the row under. */
  function AddedKey(v: Villa, generatedId: int): int
  {
    if v.id == 0 then generatedId else v.id
  }

  /**
   * An `Add` that does not fail stores exactly one new row, under a key no row
   * had, carrying that key as its Id and the other fields of `v`; every row
   * already stored stays. A failing `Add` changes nothing.
   */
  lemma {:induction false} AddInsertsOneRow(villas: map<int, Villa>, v: Villa, generatedId: int)
    requires generatedId !in villas
    ensures VillaAddFails(villas, v) ==> VillaTableAfterAdd(villas, v, generatedId) == villas
    ensures !VillaAddFails(villas, v) ==>
      var r := VillaTableAfterAdd(villas, v, generatedId);
      var k := AddedKey(v, generatedId);
      k !in villas && r.Keys == villas.Keys + {k} && |r| == |villas| + 1 &&
      r[k] == v.(id := k) &&
      forall j :: j in villas ==> r[j] == villas[j]
  {
    if !VillaAddFails(villas, v) {
      var r := VillaTableAfterAdd(villas, v, generatedId);
      var k := AddedKey(v, generatedId);
      assert r == villas[k := v.(id := k)];
      assert r.Keys == villas.Keys + {k};
    }
  }

  /** The row `Update(v)` followed by `SaveChanges` leaves, for a Villa whose key the database generates. */
  function VillaTableAfterUpdate(villas: map<int, Villa>, v: Villa, generatedId: int): map<int, Villa>
  {
    if v.id == 0 then villas[generatedId := v.(id := generatedId)]
    else if v.id in villas then villas[v.id := v]
    else villas
  }

  /** `Update` of a row whose key is set but matches no stored row affects no row and throws. */
  predicate VillaUpdateFails(villas: map<int, Villa>, v: Villa)
  {
    v.id != 0 && v.id !in villas
  }

  /** A Villa table keyed by Id. */
  predicate KeyedById(m: map<int, Villa>)
  {
    forall k :: k in m ==> m[k].id == k
  }

  /** A VillaNumber table keyed by VillaNo. */
  predicate KeyedByVillaNo(m: map<int, VillaNumber>)
  {
    forall k :: k in m ==> m[k].villaNo == k
  }

  class Database {
    var villas: map<int, Villa>
    var villaNumbers: map<int, VillaNumber>

    /** Every row is stored under its own primary key; no Villa has the unset key 0. */
    ghost predicate Valid()
      reads this
    {
      0 !in villas && KeyedById(villas) && KeyedByVillaNo(villaNumbers)
    }

    /** Every VillaNumber refers to a stored Villa (checked at write time only, never enforced). */
    ghost predicate ReferencesResolve()
      reads this
    {
      forall k :: k in villaNumbers ==> villaNumbers[k].villaId in villas
    }

    constructor ()
      ensures Valid() && ReferencesResolve()
      ensures villas == map[] && villaNumbers == map[]
    {
      villas := map[];
      villaNumbers := map[];
    }

    /**
     * `Villas.Add(v)` then `SaveChanges`: for key 0 the database generates the
     * key `generatedId`, a positive key no stored row has; a set key is
     * inserted as given, and one already stored fails.
     */
    method AddVilla(v: Villa, generatedId: int) returns (failed: bool)
      requires Valid() && generatedId > 0 && generatedId !in villas
      modifies this`villas
      ensures Valid()
      ensures failed == VillaAddFails(old(villas), v)
      ensures villas == VillaTableAfterAdd(old(villas), v, generatedId)
      ensures failed ==> villas == old(villas)
    {
      failed := VillaAddFails(villas, v);
      villas := VillaTableAfterAdd(villas, v, generatedId);
    }

    /**
     * `Villas.Update(v)` then `SaveChanges` on a row the context does not track:
     * a key of 0 (unset) makes it an insert under the generated key `generatedId`, a
     * stored key overwrites that row, any other key updates no row and throws.
     */
    method UpdateVilla(v: Villa, generatedId: int) returns (failed: bool)
      requires Valid() && generatedId > 0 && generatedId !in villas
      modifies this`villas
      ensures Valid()
      ensures failed == VillaUpdateFails(old(villas), v)
      ensures villas == VillaTableAfterUpdate(old(villas), v, generatedId)
      ensures failed ==> villas == old(villas)
    {
      failed := VillaUpdateFails(villas, v);
      villas := VillaTableAfterUpdate(villas, v, generatedId);
    }
  }
}
