/**
 * The generated game data list: one record per game, built from the master
 * list entry and the game's board game database data.
 */
module GameData {
  import opened Wrappers

  datatype GameDataExpansion = GameDataExpansion(bggId: int, name: string, year: string)

  /**
   * A game of the data list. The year and publisher are optional here because
   * a version overlay may leave them out (see `BggLookup.MergeVersionInfo`).
   */
  datatype GameDataGame = GameDataGame(
    bggId: int,
    name: string,
    version: Option<int>,
    versionName: Option<string>,
    image: string,
    thumbnail: string,
    minPlayers: int,
    maxPlayers: int,
    playingTime: int,
    year: Option<string>,
    designers: seq<string>,
    publisher: Option<string>,
    categories: seq<string>,
    mechanics: seq<string>,
    expansions: seq<GameDataExpansion>,
    rating: real,
    weight: real,
    description: string,
    favorite: Option<bool>,
    wifeFavorite: Option<bool>,
    isNew: Option<bool>)
}
