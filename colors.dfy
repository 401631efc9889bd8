/**
 * Colour keys used by the status and calibration screens (assets/styles.js).
 * Each key is an opaque token; Hex gives the string the style table holds for it.
 */
module Colors {

  datatype Color =
    | Red                     // globalColors.red
    | Orange                  // globalColors.orange
    | Green                   // globalColors.green
    | GreenAlpha              // globalColors.greenAlpha
    | PrimaryKey              // the bare colour key "primary"
    | TextPrimary(dark: bool) // darkTheme.textPrimary / lightTheme.textPrimary
    | ButtonFill(dark: bool)  // darkTheme.buttonFill / lightTheme.buttonFill

  /** The theme's primary text colour, chosen by the dark-mode flag. */
  function ThemeTextPrimary(dark: bool): Color {
    TextPrimary(dark)
  }

  /** The string each key stands for in the style tables. */
  function Hex(c: Color): string {
    match c
    case Red => "#FD3C4A"
    case Orange => "#FF9922"
    case Green => "#22C55E"
    case GreenAlpha => "rgba(34, 197, 94, 0.2)"
    case PrimaryKey => "primary"
    case TextPrimary(dark) => if dark then "#FCFCFC" else "#0A1930"
    case ButtonFill(dark) => if dark then "#22242E" else "#EEF0F3"
  }

  /**
   * Distinct tokens stand for distinct strings, so comparing tokens is the same
   * as the source's `===` on colour strings. In particular green differs from
   * both theme text colours.
   */
  lemma HexInjective(a: Color, b: Color)
    requires Hex(a) == Hex(b)
    ensures a == b
  {
    assert Hex(a)[1] == Hex(b)[1] && Hex(a)[2] == Hex(b)[2];
  }

  lemma GreenIsNotTextPrimary(dark: bool)
    ensures Hex(Green) != Hex(ThemeTextPrimary(dark))
  {
    if Hex(Green) == Hex(ThemeTextPrimary(dark)) {
      HexInjective(Green, ThemeTextPrimary(dark));
    }
  }
}
