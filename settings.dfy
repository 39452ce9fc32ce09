/** The generator's configuration record (the `config` struct). */
module Settings {

  /** One field per member of the struct, in its order. `octaves` is a float
      even though it bounds an integer loop; `width`, `height` and
      `subdivisions` are integers. `renderType` is the struct's `type`. */
  datatype Config = Config(
    seed: int,
    octaves: real,
    frequency: real,
    lacunarity: real,
    gain: real,
    ridgeOffset: real,
    width: int,
    height: int,
    subdivisions: int,
    dotSize: int,
    renderType: int)

  /** The defaults the struct declares. */
  const DefaultConfig: Config :=
    Config(1, 6.0, 2.0, 3.0, 0.1, 1.0, 100, 100, 100, 5, 0)

  /** What the grid stage needs to avoid dividing by zero: at least one
      subdivision, and a non-degenerate world extent in each direction. */
  predicate ValidGrid(cfg: Config) {
    cfg.subdivisions >= 1 && cfg.width != 0 && cfg.height != 0
  }
}
