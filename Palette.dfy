/**
 * The traffic-light colours the panels paint their ratings with. The source
 * writes them as Tailwind classes (`text-green-400`, `bg-orange-500`, ...);
 * only the hue carries meaning, ranked from worst to best.
 */
module Palette {

  datatype Hue = Red | Orange | Yellow | Green

  /** Worst (0) to best (3). */
  function HueRank(h: Hue): nat
  {
    match h
    case Red => 0
    case Orange => 1
    case Yellow => 2
    case Green => 3
  }
}
