/**
 * The entities and transfer objects the controllers move between the store
 * and the client, the field-by-field copies between them (the work AutoMapper
 * and the hand-written object initialisers do), and the case fold the Villa
 * name check uses.
 */
module Models {

  /** A C# `double`, kept as its IEEE-754 bit pattern: it is only ever copied. */
  datatype Double = Double(bits: bv64)

  /** The stored Villa row; `id` is its primary key. */
  datatype Villa = Villa(
    id: int,
    name: string,
    details: string,
    occupancy: int,
    imageUrl: string,
    sqft: int,
    rate: Double,
    amenity: string)

  /** `VillaDTO`: the same eight fields as seen by the client. */
  datatype VillaDTO = VillaDTO(
    id: int,
    name: string,
    details: string,
    occupancy: int,
    imageUrl: string,
    sqft: int,
    rate: Double,
    amenity: string)

  /** Entity to DTO, as UpdatePartialVilla builds it from the stored row. */
  function ToDTO(v: Villa): (d: VillaDTO)
    ensures FromDTO(d) == v
  {
    VillaDTO(v.id, v.name, v.details, v.occupancy, v.imageUrl, v.sqft, v.rate, v.amenity)
  }

  /** DTO to entity, as CreateVilla, UpdateVilla and UpdatePartialVilla build the row they write. */
  function FromDTO(d: VillaDTO): Villa
  {
    Villa(d.id, d.name, d.details, d.occupancy, d.imageUrl, d.sqft, d.rate, d.amenity)
  }

  /** DTO to entity to DTO gives back the DTO: no field is lost either way. */
  lemma DtoRoundTrip(d: VillaDTO)
    ensures ToDTO(FromDTO(d)) == d
  {
  }

  /** The stored VillaNumber row; `villaNo` is its primary key, `villaId` refers to a Villa. */
  datatype VillaNumber = VillaNumber(villaNo: int, villaId: int, specialDetails: string)

  datatype VillaNumberDTO = VillaNumberDTO(villaNo: int, villaId: int, specialDetails: string)
  datatype VillaNumberCreateDTO = VillaNumberCreateDTO(villaNo: int, villaId: int, specialDetails: string)
  datatype VillaNumberUpdateDTO = VillaNumberUpdateDTO(villaNo: int, villaId: int, specialDetails: string)

  /** The AutoMapper maps between VillaNumber and its DTOs: same-named fields are copied. */
  function NumberToDTO(n: VillaNumber): VillaNumberDTO
  {
    VillaNumberDTO(n.villaNo, n.villaId, n.specialDetails)
  }

  function NumberFromCreateDTO(d: VillaNumberCreateDTO): VillaNumber
  {
    VillaNumber(d.villaNo, d.villaId, d.specialDetails)
  }

  function NumberFromUpdateDTO(d: VillaNumberUpdateDTO): VillaNumber
  {
    VillaNumber(d.villaNo, d.villaId, d.specialDetails)
  }

  /** `Map<List<VillaNumberDTO>>`: every element mapped, order kept. */
  function NumbersToDTOs(ns: seq<VillaNumber>): (ds: seq<VillaNumberDTO>)
    ensures |ds| == |ns|
    ensures forall i :: 0 <= i < |ns| ==> ds[i] == NumberToDTO(ns[i])
  {
    if ns == [] then [] else [NumberToDTO(ns[0])] + NumbersToDTOs(ns[1..])
  }

  predicate IsUpper(c: char)
  {
    'A' <= c <= 'Z'
  }

  /** `char.ToLower` restricted to ASCII. */
  function LowerChar(c: char): char
  {
    if IsUpper(c) then (c as int - 'A' as int + 'a' as int) as char else c
  }

  /** `string.ToLower` on ASCII: upper-case letters become lower-case, nothing else moves. */
  function ToLower(s: string): (r: string)
    ensures |r| == |s|
    ensures forall i :: 0 <= i < |s| ==> !IsUpper(r[i])
    ensures forall i :: 0 <= i < |s| && !IsUpper(s[i]) ==> r[i] == s[i]
    ensures forall i :: 0 <= i < |s| && IsUpper(s[i]) ==> r[i] as int == s[i] as int + 32
  {
    seq(|s|, i requires 0 <= i < |s| => LowerChar(s[i]))
  }

  /** `a.ToLower() == b.ToLower()`. */
  predicate SameIgnoringCase(a: string, b: string)
  {
    ToLower(a) == ToLower(b)
  }

  /** Folding twice gives nothing new. */
  lemma ToLowerIdempotent(s: string)
    ensures ToLower(ToLower(s)) == ToLower(s)
  {
  }

  /** Two names clash only when they have the same length and agree letter by letter after folding. */
  lemma {:induction false} ClashMeansCaseVariants(a: string, b: string)
    requires SameIgnoringCase(a, b)
    ensures |a| == |b|
    ensures forall i :: 0 <= i < |a| ==> LowerChar(a[i]) == LowerChar(b[i])
  {
    forall i | 0 <= i < |a|
      ensures LowerChar(a[i]) == LowerChar(b[i])
    {
      assert ToLower(a)[i] == ToLower(b)[i];
    }
  }

  /** Two names that differ in length never clash, whatever their letters. */
  lemma DifferentLengthsNeverClash(a: string, b: string)
    requires |a| != |b|
    ensures !SameIgnoringCase(a, b)
  {
  }

  /** A name clashes with every spelling of it that differs only in the case of its letters. */
  lemma {:induction false} CaseVariantsClash(a: string, b: string)
    requires |a| == |b|
    requires forall i :: 0 <= i < |a| ==> LowerChar(a[i]) == LowerChar(b[i])
    ensures SameIgnoringCase(a, b)
  {
    assert forall i :: 0 <= i < |a| ==> ToLower(a)[i] == ToLower(b)[i];
  }
}
