/** The inspector-authored catalog of playable maps. */
module MapCatalog {
  import opened Common

  datatype MapEntry = MapEntry(
    displayName: string,
    sceneName: string,
    defaultMatchSeconds: int,
    startZoneName: string)

  /** A freshly added entry carries the field initialisers' values. */
  function NewMapEntry(): (e: MapEntry)
    ensures e.displayName == "Surf Intro"
    ensures e.sceneName == "Surf_Intro"
    ensures e.defaultMatchSeconds == 180
    ensures e.startZoneName == "StartZone"
  {
    MapEntry("Surf Intro", "Surf_Intro", 180, "StartZone")
  }

  /** `Maps` is a plain array reference that nobody fills automatically: it
      may be null (`None`) as well as empty. */
  datatype Catalog = Catalog(maps: Option<seq<MapEntry>>)
}
