/** Reading pets and essences out of the game's JSON answers:
    `get_user_self`, `get_pets_not_level_10` and `get_first_essence`. Each
    takes the decoded body of the request it makes (`None` when the request
    gave nothing or the body was not JSON). */
module Pets {
  import opened PyValues
  import opened Collect

  /** The part of one `user.regions` entry that `get_user_self` keeps: its
      `pet`, when that is truthy and holds `_id`. */
  function RegionPet(region: Json): (r: Result<Option<Json>>)
    ensures r.Ok? && r.value.Some? ==> Truthy(r.value.value) && Contains(r.value.value, "_id") == Ok(true)
    ensures r.Ok? <==> region.JObj? && (var pet := Get(region, "pet", JNull).value;
                                        !Truthy(pet) || Contains(pet, "_id").Ok?)
  {
    var pet :- Get(region, "pet", JNull);
    if !Truthy(pet) then Ok(None)
    else
      var hasId :- Contains(pet, "_id");
      Ok(if hasId then Some(pet) else None)
  }

  /** `data.get("user", {}).get("regions", [])`, iterated. */
  function Regions(data: Json): Result<seq<Json>> {
    var user :- Get(data, "user", JObj(map[]));
    var regions :- Get(user, "regions", JArr([]));
    LoopItems(regions)
  }

  /** What `get_user_self` returns. */
  function SelfPets(body: Option<Json>): (r: Result<seq<Json>>)
    ensures body.None? ==> r == Ok([])
  {
    match body
    case None => Ok([])
    case Some(data) =>
      var regions :- Regions(data);
      FilterMap(regions, RegionPet)
  }

  /** `get_user_self`, with its append loop. */
  method GetUserSelf(body: Option<Json>) returns (r: Result<seq<Json>>)
    ensures r == SelfPets(body)
  {
    if body.None? {
      return Ok([]);
    }
    var regionsOrRaised := Regions(body.value);
    if regionsOrRaised.Raised? {
      return Raised;
    }
    var regions := regionsOrRaised.value;
    var pets: seq<Json> := [];
    for i := 0 to |regions|
      invariant FilterMap(regions[..i], RegionPet) == Ok(pets)
    {
      var kept := RegionPet(regions[i]);
      if kept.Raised? {
        FilterMapRaised(regions, RegionPet);
        return Raised;
      }
      FilterMapSnoc(regions[..i], regions[i], RegionPet);
      assert regions[..i + 1] == regions[..i] + [regions[i]];
      if kept.value.Some? {
        pets := pets + [kept.value.value];
      } else {
        assert pets + [] == pets;
      }
    }
    assert regions[..|regions|] == regions;
    r := Ok(pets);
  }

  /** Each pet kept by `get_user_self` is the pet of one of the regions, is
      truthy and holds `_id`, and every region whose pet is like that is kept. */
  lemma UserSelfKeepsPetsWithId(data: Json, regions: seq<Json>, pets: seq<Json>)
    requires Regions(data) == Ok(regions)
    requires SelfPets(Some(data)) == Ok(pets)
    ensures forall p :: p in pets ==> Truthy(p) && Contains(p, "_id") == Ok(true)
    ensures forall p :: p in pets ==>
              exists k :: 0 <= k < |regions| && regions[k].JObj? && "pet" in regions[k].fields
                          && regions[k].fields["pet"] == p
    ensures forall k :: 0 <= k < |regions| ==> RegionPet(regions[k]).Ok?
    ensures forall k :: 0 <= k < |regions| && regions[k].JObj? && "pet" in regions[k].fields
                        && Contains(regions[k].fields["pet"], "_id") == Ok(true)
                        ==> regions[k].fields["pet"] in pets
  {
    FilterMapSound(regions, RegionPet, pets);
    FilterMapComplete(regions, RegionPet, pets);
    forall k | 0 <= k < |regions| && regions[k].JObj? && "pet" in regions[k].fields
                && Contains(regions[k].fields["pet"], "_id") == Ok(true)
      ensures regions[k].fields["pet"] in pets
    {
      var pet := regions[k].fields["pet"];
      assert Truthy(pet) by {
        match pet
        case JObj(fields) => assert "_id" in fields;
        case JArr(items) => assert JStr("_id") in items;
        case JStr(s) => assert IsSubstring("_id", s);
        case _ =>
      }
      assert RegionPet(regions[k]) == Ok(Some(pet));
    }
  }

  /** One entry of `get_pets_not_level_10`: `{"id": p["_id"], "level": p.get("level", 0)}`. */
  datatype PetRef = PetRef(id: Json, level: Json)

  /** The missing level counts as 0. */
  function LevelOf(pet: map<string, Json>): Json {
    if "level" in pet then pet["level"] else JInt(0)
  }

  /** What the comprehension of `get_pets_not_level_10` makes of one pet. */
  function LowLevelPet(pet: Json): Result<Option<PetRef>> {
    var level :- Get(pet, "level", JInt(0));
    var below :- LessThan(level, 10);
    if !below then Ok(None)
    else
      var id :- Subscript(pet, "_id");
      Ok(Some(PetRef(id, level)))
  }

  /** What `get_pets_not_level_10` returns. */
  function PetsBelowLevel10(body: Option<Json>): (r: Result<seq<PetRef>>)
    ensures body.None? ==> r == Ok([])
  {
    var pets :- SelfPets(body);
    FilterMap(pets, LowLevelPet)
  }

  /** Region `region` holds a dict pet with `_id` whose level (0 when missing)
      is below 10, and `ref` is the entry made for it. */
  predicate BelowLevel10In(region: Json, ref: PetRef) {
    && region.JObj? && "pet" in region.fields && region.fields["pet"].JObj?
    && var pet := region.fields["pet"].fields;
    && "_id" in pet
    && ref == PetRef(pet["_id"], LevelOf(pet))
    && LessThan(LevelOf(pet), 10) == Ok(true)
  }

  /** A region pet below level 10 passes both steps of `get_pets_not_level_10`. */
  lemma BelowLevel10Passes(region: Json, ref: PetRef)
    requires BelowLevel10In(region, ref)
    ensures RegionPet(region) == Ok(Some(region.fields["pet"]))
    ensures LowLevelPet(region.fields["pet"]) == Ok(Some(ref))
  {
  }

  /** An entry that passes both steps comes from a region pet below level 10. */
  lemma PassesIsBelowLevel10(region: Json, pet: Json, ref: PetRef)
    requires RegionPet(region) == Ok(Some(pet))
    requires LowLevelPet(pet) == Ok(Some(ref))
    ensures BelowLevel10In(region, ref)
  {
  }

  /** `get_pets_not_level_10` returns exactly the entries of the region pets
      that are present, hold `_id` and have a level below 10. */
  lemma PetsBelowLevel10Exactly(data: Json, regions: seq<Json>, refs: seq<PetRef>)
    requires Regions(data) == Ok(regions)
    requires PetsBelowLevel10(Some(data)) == Ok(refs)
    ensures forall ref :: ref in refs <==> exists k :: 0 <= k < |regions| && BelowLevel10In(regions[k], ref)
  {
    var pets := SelfPets(Some(data)).value;
    assert FilterMap(regions, RegionPet) == Ok(pets);
    assert FilterMap(pets, LowLevelPet) == Ok(refs);
    forall ref | ref in refs
      ensures exists k :: 0 <= k < |regions| && BelowLevel10In(regions[k], ref)
    {
      FilterMapSound(pets, LowLevelPet, refs);
      var j :| 0 <= j < |pets| && LowLevelPet(pets[j]) == Ok(Some(ref));
      FilterMapSound(regions, RegionPet, pets);
      var k :| 0 <= k < |regions| && RegionPet(regions[k]) == Ok(Some(pets[j]));
      PassesIsBelowLevel10(regions[k], pets[j], ref);
    }
    forall ref, k | 0 <= k < |regions| && BelowLevel10In(regions[k], ref)
      ensures ref in refs
    {
      BelowLevel10Passes(regions[k], ref);
      var pet := regions[k].fields["pet"];
      FilterMapComplete(regions, RegionPet, pets);
      assert pet in pets;
      var j :| 0 <= j < |pets| && pets[j] == pet;
      FilterMapComplete(pets, LowLevelPet, refs);
      assert LowLevelPet(pets[j]) == Ok(Some(ref));
    }
  }

  /** `get_pets_not_level_10` keeps region order: the entries for regions
      `a + b` are those for `a` followed by those for `b`. */
  lemma PetsBelowLevel10KeepsOrder(data: Json, a: seq<Json>, b: seq<Json>)
    requires Regions(data) == Ok(a + b)
    ensures PetsBelowLevel10(Some(data))
            == Concat(RegionsBelowLevel10(a), RegionsBelowLevel10(b))
  {
    FilterMapConcat(a, b, RegionPet);
    var pa, pb := FilterMap(a, RegionPet), FilterMap(b, RegionPet);
    if pa.Ok? && pb.Ok? {
      FilterMapConcat(pa.value, pb.value, LowLevelPet);
    }
  }

  /** The entries `get_pets_not_level_10` makes for a run of regions. */
  function RegionsBelowLevel10(regions: seq<Json>): Result<seq<PetRef>> {
    var pets :- FilterMap(regions, RegionPet);
    FilterMap(pets, LowLevelPet)
  }

  /** `get_first_essence`: the head of the essence listing, which may come
      wrapped as `{"data": [...]}`. Every exception is caught and gives `None`. */
  function FirstEssence(body: Option<Json>): (r: Option<Json>)
    ensures body.None? ==> r == None
    ensures body.Some? && body.value.JArr? ==>
              r == if body.value.items == [] then None else Some(body.value.items[0])
    ensures body.Some? && body.value.JObj? && "data" in body.value.fields && body.value.fields["data"].JArr? ==>
              var items := body.value.fields["data"].items;
              r == if items == [] then None else Some(items[0])
    ensures body.Some? && body.value.JObj? && !("data" in body.value.fields && body.value.fields["data"].JArr?) ==>
              r == None
    ensures r.Some? ==> body.Some? && !body.value.JInt? && !body.value.JBool? && !body.value.JNull?
  {
    match body
    case None => None
    case Some(arr) =>
      var listing :=
        if arr.JObj? && "data" in arr.fields && arr.fields["data"].JArr? then arr.fields["data"] else arr;
      if !Truthy(listing) then None
      else
        match listing
        case JArr(items) => Some(items[0])
        case JStr(s) => Some(JStr([s[0]]))
        case _ => None  // `arr[0]` raises KeyError on a dict and TypeError on a number
  }
}
