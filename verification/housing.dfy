/**
 * The plugin's location service: which territories are housing districts,
 * and the location record it assembles for the player's current territory.
 * Everything the game client is asked for (the local player, the current
 * territory, the territory data sheet) is a parameter.
 */
module Housing {
  import opened Wrappers

  /** A territory id as the client reports it: a 32-bit unsigned integer. */
  type TerritoryId = x: int | 0 <= x < 0x1_0000_0000

  /** The five housing district names the table uses. */
  const Mist := "Mist"
  const LavenderBeds := "Lavender Beds"
  const Goblet := "Goblet"
  const Shirogane := "Shirogane"
  const Empyreum := "Empyreum"

  /** The plugin's fixed table from territory id to housing district. */
  const HousingDistricts: map<TerritoryId, string> := map[
    339 := Mist, 340 := Mist, 341 := Mist,
    342 := LavenderBeds, 343 := LavenderBeds, 344 := LavenderBeds,
    345 := Goblet, 346 := Goblet, 347 := Goblet,
    649 := Shirogane, 650 := Shirogane, 651 := Shirogane,
    979 := Empyreum, 980 := Empyreum, 981 := Empyreum
  ]

  /**
   * The district of each territory stated by ranges, independently of the
   * table: three consecutive ids per district.
   */
  function DistrictByRange(id: TerritoryId): Option<string> {
    if 339 <= id <= 341 then Some(Mist)
    else if 342 <= id <= 344 then Some(LavenderBeds)
    else if 345 <= id <= 347 then Some(Goblet)
    else if 649 <= id <= 651 then Some(Shirogane)
    else if 979 <= id <= 981 then Some(Empyreum)
    else None
  }

  /** The table entry for a territory, agreeing with the range statement for every id. */
  function DistrictOf(id: TerritoryId): (d: Option<string>)
    ensures d == DistrictByRange(id)
    ensures d.Some? <==> id in HousingDistricts
  {
    if id in HousingDistricts then Some(HousingDistricts[id]) else None
  }

  /** Every district the table names is one of the five. */
  lemma DistrictNames(id: TerritoryId)
    requires id in HousingDistricts
    ensures HousingDistricts[id] in {Mist, LavenderBeds, Goblet, Shirogane, Empyreum}
  {
  }

  /**
   * The location the plugin shares (the model's `VenueLocation`, without its
   * wall-clock timestamp).
   */
  datatype VenueLocation = VenueLocation(
    server: string,
    district: string,
    ward: int,
    plot: int,
    territoryName: string,
    territoryId: TerritoryId)

  /** The local player, reduced to the name of the world they are on. */
  datatype Player = Player(worldName: string)

  /**
   * What the game client shows at the moment of the query: the local player
   * (absent while loading), the current territory, the territory data sheet
   * as a map from id to place name, and whether the world or sheet lookup
   * made while building a location throws (caught by `GetCurrentLocation`).
   */
  datatype ClientState = ClientState(
    player: Option<Player>,
    territory: TerritoryId,
    territorySheet: map<TerritoryId, string>,
    faults: bool)

  /** The ward placeholder: the plugin has no ward detection and reports ward 1. */
  function CurrentWard(): int {
    1
  }

  /** The plot placeholder: the plugin has no plot detection and reports plot 1. */
  function CurrentPlot(): int {
    1
  }

  /**
   * `GetCurrentLocation`: no location without a local player, for a territory
   * missing from the data sheet, or for a territory that is not a housing
   * district; a fault in any read is caught and also gives no location.
   */
  function CurrentLocation(cs: ClientState): (r: Option<VenueLocation>)
    ensures r.Some? <==>
      && cs.player.Some?
      && cs.territory in cs.territorySheet
      && cs.territory in HousingDistricts
      && !cs.faults
    ensures r.Some? ==>
      && r.value.territoryId == cs.territory
      && r.value.district == HousingDistricts[cs.territory]
      && r.value.server == cs.player.value.worldName
      && r.value.territoryName == cs.territorySheet[cs.territory]
      && r.value.ward == 1
      && r.value.plot == 1
  {
    if cs.faults then None
    else if cs.player.None? then None
    else if cs.territory !in cs.territorySheet then None
    else match DistrictOf(cs.territory)
      case None => None
      case Some(district) =>
        Some(VenueLocation(
          server := cs.player.value.worldName,
          district := district,
          ward := CurrentWard(),
          plot := CurrentPlot(),
          territoryName := cs.territorySheet[cs.territory],
          territoryId := cs.territory))
  }

  /** `IsInHousingDistrict`: membership of the current territory in the table. */
  function IsInHousingDistrict(cs: ClientState): (b: bool)
    ensures b <==> DistrictByRange(cs.territory).Some?
  {
    cs.territory in HousingDistricts
  }

  /**
   * Whether the player stands in a housing district depends on the territory
   * alone: not on the player being loaded, the data sheet, or faults.
   */
  lemma HousingCheckIgnoresPlayerAndSheet(cs: ClientState, cs': ClientState)
    requires cs.territory == cs'.territory
    ensures IsInHousingDistrict(cs) == IsInHousingDistrict(cs')
  {
  }

  /** A resolved location implies the housing-district check holds. */
  lemma LocationImpliesHousingDistrict(cs: ClientState)
    requires CurrentLocation(cs).Some?
    ensures IsInHousingDistrict(cs)
  {
  }

  /**
   * A territory missing from the data sheet gives no location even when it is
   * a housing district: the sheet is consulted before the table.
   */
  lemma SheetCheckedBeforeTable(cs: ClientState)
    requires cs.territory in HousingDistricts
    requires cs.territory !in cs.territorySheet
    ensures CurrentLocation(cs).None?
  {
  }

  /** Every location the service returns has ward and plot at least 1. */
  lemma WardAndPlotPositive(cs: ClientState)
    requires CurrentLocation(cs).Some?
    ensures CurrentLocation(cs).value.ward >= 1 && CurrentLocation(cs).value.plot >= 1
  {
  }

  /**
   * Two queries that differ only in the player's world give locations that
   * differ only in the server name.
   */
  lemma LocationDependsOnWorldOnlyThroughServer(cs: ClientState, world: string)
    requires cs.player.Some?
    ensures var cs' := cs.(player := Some(Player(world)));
      && CurrentLocation(cs).Some? == CurrentLocation(cs').Some?
      && (CurrentLocation(cs).Some? ==>
            CurrentLocation(cs') == Some(CurrentLocation(cs).value.(server := world)))
  {
  }
}
