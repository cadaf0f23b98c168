/** Shared enumerations and records of the game (src/type.ts). */
module GameTypes {

  /** `undefined`/`null` versus a present value. */
  datatype Option<+T> = None | Some(value: T)

  /** GRID_PER_ISLAND_SIDE: an island is a 3 x 3 block of plots. */
  const GRID_PER_ISLAND_SIDE: int := 3

  /** ICoord: an integer pair used both for island and for local (in-island) coordinates. */
  datatype Coord = Coord(x: int, y: int)

  /** The four soil states of a plot; Deprecated is terminal. */
  datatype SoilState = Virgin | Plowed | Watered | Deprecated

  /** Only carrots exist. */
  datatype PlantType = Carrot

  datatype ActionType = Plow | Sow | Water | Reap

  datatype BeatType = Small | Big

  /** IBeat: one entry of the rhythm template; `action` is optional. */
  datatype Beat = Beat(beatType: BeatType, action: Option<ActionType>)
}
