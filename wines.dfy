/** The wine catalogue (`WineServiceImpl`): saving and updating a wine checks
    that its region is a live row, deletion is soft, and every read, search
    included, skips deleted wines. */
module WineService {
  import opened Common
  import opened Records
  import opened Store
  import opened WineSearch
  import RegionService

  /** The request a wine is created or updated from (`CreateWineRequestDto`). */
  datatype WineRequest = WineRequest(name: string, price: Money, grapeVariety: string, regionId: Id)

  /** What the service hands back for a wine (`WineDto`); the region id is
      read off the wine's region (`setRegionId`). */
  datatype WineDto = WineDto(id: Id, name: string, price: Money, grapeVariety: string, regionId: Id)

  /** The listing shape without the region (`WineDtoWithoutRegion`). */
  datatype WineDtoWithoutRegion = WineDtoWithoutRegion(name: string, price: Money, grapeVariety: string)

  function ToWineDto(id: Id, wine: Wine): (dto: WineDto)
    ensures dto.id == id && dto.name == wine.name && dto.price == wine.price
    ensures dto.grapeVariety == wine.grapeVariety && dto.regionId == wine.regionId
  {
    WineDto(id, wine.name, wine.price, wine.grapeVariety, wine.regionId)
  }

  /** `findWineById` / `findById`: a live wine, or not-found. */
  function FindById(wines: map<Id, Wine>, wineId: Id): (r: Result<WineDto>)
    ensures r.Ok? <==> wineId in wines && !wines[wineId].deleted
    ensures r.Ok? ==> r.value == ToWineDto(wineId, wines[wineId])
    ensures r.Err? ==> r.failure == Failure(EntityNotFound, "Can't find wine by id: " + IdToString(wineId))
  {
    if wineId in wines && !wines[wineId].deleted then Ok(ToWineDto(wineId, wines[wineId]))
    else Err(Failure(EntityNotFound, "Can't find wine by id: " + IdToString(wineId)))
  }

  /** `findAll`: every live wine, keyed by id. */
  function FindAll(wines: map<Id, Wine>): (r: map<Id, WineDto>)
    ensures forall id :: id in r <==> id in wines && !wines[id].deleted
    ensures forall id :: id in r ==> r[id] == ToWineDto(id, wines[id])
  {
    map id | id in wines && !wines[id].deleted :: ToWineDto(id, wines[id])
  }

  /** `findAllByRegionId`: the live wines of the region, without their region. */
  function FindAllByRegionId(wines: map<Id, Wine>, regionId: Id): (r: map<Id, WineDtoWithoutRegion>)
    ensures forall id :: id in r <==> id in wines && !wines[id].deleted && wines[id].regionId == regionId
    ensures forall id :: id in r ==>
      r[id] == WineDtoWithoutRegion(wines[id].name, wines[id].price, wines[id].grapeVariety)
  {
    map id | id in wines && !wines[id].deleted && wines[id].regionId == regionId
      :: WineDtoWithoutRegion(wines[id].name, wines[id].price, wines[id].grapeVariety)
  }

  /** `searchByParameters`: the live wines the built specification accepts;
      a present group whose key has no provider fails the search. */
  function SearchByParameters(wines: map<Id, Wine>, params: SearchParameters, providers: seq<Provider>)
    : (r: Result<map<Id, WineDto>>)
    ensures r.Ok? <==> Build(params, providers).Ok?
    ensures r.Err? ==> r.failure == Build(params, providers).failure
    ensures r.Ok? ==> forall id :: id in r.value <==>
      id in wines && !wines[id].deleted && Build(params, providers).value(wines[id])
    ensures r.Ok? ==> forall id :: id in r.value ==> r.value[id] == ToWineDto(id, wines[id])
  {
    match Build(params, providers)
    case Err(f) => Err(f)
    case Ok(spec) =>
      Ok(map id | id in wines && !wines[id].deleted && spec(wines[id]) :: ToWineDto(id, wines[id]))
  }

  /** `save`: the request's region must be live (`getRegionsFromDto`, the
      region service's own lookup and message); the wine is stored under the
      next generated key, pointing at that region. */
  method Save(db: Database, req: WineRequest) returns (r: Result<WineDto>)
    requires db.Valid()
    modifies db`wines, db`nextWineId
    ensures db.Valid()
    ensures r.Ok? <==> RegionService.FindById(db.regions, req.regionId).Ok?
    ensures r.Err? ==> r.failure == RegionService.FindById(db.regions, req.regionId).failure && unchanged(db)
    ensures r.Ok? ==>
      && r.value.id == old(db.nextWineId) && r.value.id !in old(db.wines)
      && db.wines == old(db.wines)[r.value.id := Wine(req.name, req.price, req.grapeVariety, req.regionId, false)]
      && r.value == WineDto(r.value.id, req.name, req.price, req.grapeVariety, req.regionId)
  {
    var region := RegionService.FindById(db.regions, req.regionId);
    if region.Err? {
      return Err(region.failure);
    }
    var id := db.nextWineId;
    var wine := Wine(req.name, req.price, req.grapeVariety, req.regionId, false);
    db.wines := db.wines[id := wine];
    db.nextWineId := id + 1;
    r := Ok(ToWineDto(id, wine));
  }

  /** `updateById`: the wine is looked up first, then the request's region;
      either missing is not-found.  The live wine then takes the request's
      fields and region and keeps its key. */
  method UpdateById(db: Database, wineId: Id, req: WineRequest) returns (r: Result<WineDto>)
    requires db.Valid()
    modifies db`wines
    ensures db.Valid()
    ensures r.Ok? <==> FindById(old(db.wines), wineId).Ok? && RegionService.FindById(db.regions, req.regionId).Ok?
    ensures FindById(old(db.wines), wineId).Err? ==> r.Err? && r.failure == FindById(old(db.wines), wineId).failure
    ensures FindById(old(db.wines), wineId).Ok? && RegionService.FindById(db.regions, req.regionId).Err? ==>
      r.Err? && r.failure == RegionService.FindById(db.regions, req.regionId).failure
    ensures r.Err? ==> db.wines == old(db.wines)
    ensures r.Ok? ==>
      && db.wines == old(db.wines)[wineId := Wine(req.name, req.price, req.grapeVariety, req.regionId, false)]
      && r.value == WineDto(wineId, req.name, req.price, req.grapeVariety, req.regionId)
  {
    var found := FindById(db.wines, wineId);
    if found.Err? {
      return Err(found.failure);
    }
    var region := RegionService.FindById(db.regions, req.regionId);
    if region.Err? {
      return Err(region.failure);
    }
    var wine := db.wines[wineId].(regionId := req.regionId);
    wine := wine.(name := req.name, price := req.price, grapeVariety := req.grapeVariety);
    db.wines := db.wines[wineId := wine];
    r := Ok(ToWineDto(wineId, wine));
  }

  /** `deleteById`: a live wine's row is flagged deleted and stays in the
      table (so cart lines that point at it stay sound), while its reviews are
      removed with it; an id with no live row is ignored. */
  method DeleteById(db: Database, wineId: Id)
    requires db.Valid()
    modifies db`wines, db`reviews
    ensures db.Valid()
    ensures wineId in old(db.wines) ==> db.wines == old(db.wines)[wineId := old(db.wines)[wineId].(deleted := true)]
    ensures wineId !in old(db.wines) ==> db.wines == old(db.wines)
    ensures wineId in old(db.wines) && !old(db.wines)[wineId].deleted ==>
      db.reviews == ReviewsWithoutWine(old(db.reviews), wineId)
    ensures !(wineId in old(db.wines) && !old(db.wines)[wineId].deleted) ==> db.reviews == old(db.reviews)
    ensures FindById(db.wines, wineId).Err?
    ensures wineId !in FindAll(db.wines)
  {
    if wineId in db.wines && !db.wines[wineId].deleted {
      var kept := ReviewsWithoutWine(db.reviews, wineId);
      assert forall i :: 0 <= i < |kept| ==> kept[i] in db.reviews;
      db.wines := db.wines[wineId := db.wines[wineId].(deleted := true)];
      db.reviews := kept;
    }
  }

  /** A saved wine is found under its key with the saved fields, and is listed
      under its region. */
  lemma SaveThenFind(wines: map<Id, Wine>, id: Id, req: WineRequest)
    ensures var stored := wines[id := Wine(req.name, req.price, req.grapeVariety, req.regionId, false)];
      && FindById(stored, id) == Ok(WineDto(id, req.name, req.price, req.grapeVariety, req.regionId))
      && id in FindAllByRegionId(stored, req.regionId)
  {
  }

  /** The region listing only ever holds wines of that region, and together
      the region listings cover every live wine. */
  lemma RegionListingsPartition(wines: map<Id, Wine>, id: Id)
    requires id in wines && !wines[id].deleted
    ensures id in FindAllByRegionId(wines, wines[id].regionId)
    ensures forall r :: r != wines[id].regionId ==> id !in FindAllByRegionId(wines, r)
  {
  }

  /** A search never returns a wine the full listing does not, and a search
      with no groups returns the full listing. */
  lemma SearchWithinListing(wines: map<Id, Wine>, params: SearchParameters, providers: seq<Provider>)
    ensures SearchByParameters(wines, params, providers).Ok? ==>
      SearchByParameters(wines, params, providers).value.Keys <= FindAll(wines).Keys
    ensures !Present(params.names) && !Present(params.grapeVarieties) && !Present(params.regionNames) ==>
      SearchByParameters(wines, params, providers) == Ok(FindAll(wines))
  {
    if !Present(params.names) && !Present(params.grapeVarieties) && !Present(params.regionNames) {
      NoGroupsMatchAll(params, providers);
      var found := SearchByParameters(wines, params, providers).value;
      assert forall id :: id in found <==> id in FindAll(wines);
      assert found == FindAll(wines);
    }
  }
}
