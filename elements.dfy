/** Terrain feature labels. The game names every feature by a string; the
    model keeps the closed palette of names that occur in the game as an
    enumeration and maps each member back to the game's own string. */
module Elements {

  datatype Option<+T> = None | Some(value: T)

  /** Every feature label the terrain generators can return, plus the
      collision-only name `tree_tall_fall` that no generator produces. */
  datatype Feature =
    | TreeThin
    | TreeThinFall
    | TreeFatFall
    | TreeOakFall
    | TreeBlocksFall
    | TreeDefaultFall
    | TreeTallFall
    | StoneTall
    | StoneLarge
    | Log
    | LogLarge
    | BushSmall

  /** The string the game uses for a feature. */
  function Name(f: Feature): string
  {
    match f
    case TreeThin => "tree_thin"
    case TreeThinFall => "tree_thin_fall"
    case TreeFatFall => "tree_fat_fall"
    case TreeOakFall => "tree_oak_fall"
    case TreeBlocksFall => "tree_blocks_fall"
    case TreeDefaultFall => "tree_default_fall"
    case TreeTallFall => "tree_tall_fall"
    case StoneTall => "stone_tall"
    case StoneLarge => "stone_large"
    case Log => "log"
    case LogLarge => "log_large"
    case BushSmall => "bush_small"
  }
}
