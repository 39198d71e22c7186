/** A map together with the name it is known by. */
module NamedMaps {
  import opened Common
  import opened Graphs

  const EmptyNameMessage: string := "Map name is empty"

  /** Both parts are fixed once built. */
  datatype NamedMap = NamedMap(name: string, gameMap: GameMap)

  /** Builds a named map; an empty name is refused. */
  function NewNamedMap(name: string, gameMap: GameMap): (r: Result<NamedMap, string>)
    ensures r.Ok? <==> name != ""
    ensures r.Ok? ==> r.value.name == name && r.value.gameMap == gameMap
    ensures r.Err? ==> r.error == EmptyNameMessage
  {
    if name == "" then Err(EmptyNameMessage) else Ok(NamedMap(name, gameMap))
  }
}
