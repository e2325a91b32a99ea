/** The region catalogue (`RegionServiceImpl`): keyed by id, soft-deleted, and
    every read skips deleted rows. */
module RegionService {
  import opened Common
  import opened Records
  import opened Store

  /** What the service hands back for a region (`RegionDto`). */
  datatype RegionDto = RegionDto(id: Id, name: string, country: string)

  function ToRegionDto(id: Id, region: Region): (dto: RegionDto)
    ensures dto.id == id && dto.name == region.name && dto.country == region.country
  {
    RegionDto(id, region.name, region.country)
  }

  /** `findRegionById` / `findById`: a live region, or not-found. */
  function FindById(regions: map<Id, Region>, regionId: Id): (r: Result<RegionDto>)
    ensures r.Ok? <==> regionId in regions && !regions[regionId].deleted
    ensures r.Ok? ==> r.value == ToRegionDto(regionId, regions[regionId])
    ensures r.Err? ==> r.failure == Failure(EntityNotFound, "Can't find region by id: " + IdToString(regionId))
  {
    if regionId in regions && !regions[regionId].deleted then Ok(ToRegionDto(regionId, regions[regionId]))
    else Err(Failure(EntityNotFound, "Can't find region by id: " + IdToString(regionId)))
  }

  /** `findAll`: every live region, keyed by id. */
  function FindAll(regions: map<Id, Region>): (r: map<Id, RegionDto>)
    ensures forall id :: id in r <==> id in regions && !regions[id].deleted
    ensures forall id :: id in r ==> r[id] == ToRegionDto(id, regions[id])
  {
    map id | id in regions && !regions[id].deleted :: ToRegionDto(id, regions[id])
  }

  /** `save`: a live region built from the request's name and country, stored
      under the next generated key. */
  method Save(db: Database, name: string, country: string) returns (dto: RegionDto)
    requires db.Valid()
    modifies db`regions, db`nextRegionId
    ensures db.Valid()
    ensures dto.id == old(db.nextRegionId) && dto.id !in old(db.regions)
    ensures db.regions == old(db.regions)[dto.id := Region(name, country, false)]
    ensures dto == RegionDto(dto.id, name, country)
  {
    var id := db.nextRegionId;
    db.regions := db.regions[id := Region(name, country, false)];
    db.nextRegionId := id + 1;
    dto := ToRegionDto(id, db.regions[id]);
  }

  /** `updateById`: a live region gets the request's name and country and
      keeps its id; a missing one is not-found. */
  method UpdateById(db: Database, regionId: Id, name: string, country: string) returns (r: Result<RegionDto>)
    requires db.Valid()
    modifies db`regions
    ensures db.Valid()
    ensures r.Ok? <==> FindById(old(db.regions), regionId).Ok?
    ensures r.Err? ==> r.failure == FindById(old(db.regions), regionId).failure && db.regions == old(db.regions)
    ensures r.Ok? ==>
      && db.regions == old(db.regions)[regionId := Region(name, country, false)]
      && r.value == RegionDto(regionId, name, country)
  {
    var found := FindById(db.regions, regionId);
    if found.Err? {
      return Err(found.failure);
    }
    db.regions := db.regions[regionId := db.regions[regionId].(name := name, country := country)];
    r := Ok(ToRegionDto(regionId, db.regions[regionId]));
  }

  /** `deleteById`: the row is flagged deleted and stays in the table; an id
      with no live row is ignored. */
  method DeleteById(db: Database, regionId: Id)
    requires db.Valid()
    modifies db`regions
    ensures db.Valid()
    ensures regionId in old(db.regions) ==> db.regions == old(db.regions)[regionId := old(db.regions)[regionId].(deleted := true)]
    ensures regionId !in old(db.regions) ==> db.regions == old(db.regions)
    ensures FindById(db.regions, regionId).Err?
    ensures regionId !in FindAll(db.regions)
  {
    if regionId in db.regions && !db.regions[regionId].deleted {
      db.regions := db.regions[regionId := db.regions[regionId].(deleted := true)];
    }
  }

  /** A saved region is found under its key with the saved fields. */
  lemma SaveThenFind(regions: map<Id, Region>, id: Id, name: string, country: string)
    ensures FindById(regions[id := Region(name, country, false)], id) == Ok(RegionDto(id, name, country))
  {
  }

  /** Soft delete touches nothing but the deleted region's visibility. */
  lemma DeleteHidesOnlyThatRegion(regions: map<Id, Region>, regionId: Id, other: Id)
    requires regionId in regions && other != regionId
    ensures FindById(regions[regionId := regions[regionId].(deleted := true)], other) == FindById(regions, other)
    ensures FindById(regions[regionId := regions[regionId].(deleted := true)], regionId).Err?
  {
  }
}
