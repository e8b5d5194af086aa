// The value side of the RView configuration file: the tokens `Write` prints
// after `=` for each enumerated setting, the `strcmp` chains `Read` matches them
// with, and the facts that no value `Write` prints contains a key name.
module ConfigValues {
  import opened Types
  import opened Text
  import opened ConfigKeys

  /** The token `Write` prints for a screen layout. */
  function ConfigToken(m: ConfigMode): string
  {
    match m
    case XY => "View_XY"
    case XZ => "View_XZ"
    case YZ => "View_YZ"
    case XY_XZ_v => "View_XY_XZ_v"
    case XY_YZ_v => "View_XY_YZ_v"
    case XZ_YZ_v => "View_XZ_YZ_v"
    case XY_XZ_h => "View_XY_XZ_h"
    case XY_YZ_h => "View_XY_YZ_h"
    case XZ_YZ_h => "View_XZ_YZ_h"
    case XY_XZ_YZ => "View_XY_XZ_YZ"
    case AB_XY_v => "View_AB_XY_v"
    case AB_XZ_v => "View_AB_XZ_v"
    case AB_YZ_v => "View_AB_YZ_v"
    case AB_XY_XZ_v => "View_AB_XY_XZ_v"
    case AB_XY_h => "View_AB_XY_h"
    case AB_XZ_h => "View_AB_XZ_h"
    case AB_YZ_h => "View_AB_YZ_h"
    case AB_XY_XZ_h => "View_AB_XY_XZ_h"
  }

  /** The layout `Read` stores for a layout token: the side-by-side `_h` layouts come back as `_v`. */
  function StoredConfigMode(m: ConfigMode): (r: ConfigMode)
    ensures r !in {AB_XY_h, AB_XZ_h, AB_YZ_h, AB_XY_XZ_h}
    ensures m !in {AB_XY_h, AB_XZ_h, AB_YZ_h, AB_XY_XZ_h} ==> r == m
  {
    match m
    case AB_XY_h => AB_XY_v
    case AB_XZ_h => AB_XZ_v
    case AB_YZ_h => AB_YZ_v
    case AB_XY_XZ_h => AB_XY_XZ_v
    case _ => m
  }

  /** `Read`'s `strcmp` chain for the `configMode` value; `None` leaves the layout unchanged. */
  function ParseConfigMode(v: string): Option<ConfigMode>
  {
    if v == "View_XY" then Some(XY)
    else if v == "View_XZ" then Some(XZ)
    else if v == "View_YZ" then Some(YZ)
    else if v == "View_XY_XZ_v" then Some(XY_XZ_v)
    else if v == "View_XY_YZ_v" then Some(XY_YZ_v)
    else if v == "View_XZ_YZ_v" then Some(XZ_YZ_v)
    else if v == "View_XY_XZ_h" then Some(XY_XZ_h)
    else if v == "View_XY_YZ_h" then Some(XY_YZ_h)
    else if v == "View_XZ_YZ_h" then Some(XZ_YZ_h)
    else if v == "View_XY_XZ_YZ" then Some(XY_XZ_YZ)
    else if v == "View_AB_XY_v" then Some(AB_XY_v)
    else if v == "View_AB_XZ_v" then Some(AB_XZ_v)
    else if v == "View_AB_YZ_v" then Some(AB_YZ_v)
    else if v == "View_AB_XY_XZ_v" then Some(AB_XY_XZ_v)
    else if v == "View_AB_XY_h" then Some(AB_XY_v)
    else if v == "View_AB_XZ_h" then Some(AB_XZ_v)
    else if v == "View_AB_YZ_h" then Some(AB_YZ_v)
    else if v == "View_AB_XY_XZ_h" then Some(AB_XY_XZ_v)
    else None
  }

  /** Reading a printed layout token gives the stored layout. */
  lemma ParseConfigToken(m: ConfigMode)
    ensures ParseConfigMode(ConfigToken(m)) == Some(StoredConfigMode(m))
  {
  }

  /** The token `Write` prints for an interpolation mode. */
  function InterpolationToken(m: InterpolationMode): string
  {
    match m
    case NN => "mirtk::Interpolation_NN"
    case Linear => "mirtk::Interpolation_Linear"
    case CSpline => "Interpolation_C1Spline"
    case BSpline => "mirtk::Interpolation_BSpline"
    case Sinc => "mirtk::Interpolation_Sinc"
  }

  /** `Read`'s `strcmp` chain for an interpolation value; `None` is the fatal "Unknown interpolation". */
  function ParseInterpolation(v: string): Option<InterpolationMode>
  {
    if v == "mirtk::Interpolation_NN" then Some(NN)
    else if v == "mirtk::Interpolation_Linear" then Some(Linear)
    else if v == "Interpolation_C1Spline" then Some(CSpline)
    else if v == "mirtk::Interpolation_BSpline" then Some(BSpline)
    else if v == "mirtk::Interpolation_Sinc" then Some(Sinc)
    else None
  }

  /** Reading a printed interpolation token gives the mode back. */
  lemma ParseInterpolationToken(m: InterpolationMode)
    ensures ParseInterpolation(InterpolationToken(m)) == Some(m)
  {
  }

  /** The token `Write` prints for a view mode; the two overlay modes are not printed. */
  function ViewToken(m: ViewMode): Option<string>
  {
    match m
    case ViewA => Some("View_A")
    case ViewB => Some("View_B")
    case Checkerboard => Some("View_Checkerboard")
    case Subtraction => Some("View_Subtraction")
    case HShutter => Some("View_HShutter")
    case VShutter => Some("View_VShutter")
    case AoverB => None
    case BoverA => None
  }

  /** `Read`'s `strcmp` chain for the `viewMode` value; `None` leaves the view mode unchanged. */
  function ParseViewMode(v: string): Option<ViewMode>
  {
    if v == "View_A" then Some(ViewA)
    else if v == "View_B" then Some(ViewB)
    else if v == "View_Checkerboard" then Some(Checkerboard)
    else if v == "View_Subtraction" then Some(Subtraction)
    else if v == "View_HShutter" then Some(HShutter)
    else if v == "View_VShutter" then Some(VShutter)
    else None
  }

  /** Reading a printed view token gives the mode back; exactly the overlay modes print nothing. */
  lemma ParseViewToken(m: ViewMode)
    ensures ViewToken(m).None? <==> m in {AoverB, BoverA}
    ensures ViewToken(m).Some? ==> ParseViewMode(ViewToken(m).value) == Some(m)
  {
  }

  /** The token `Write` prints for a cursor shape. */
  function CursorToken(m: CursorMode): string
  {
    match m
    case CrossHair => "CrossHair"
    case CursorX => "CursorX"
    case CursorV => "CursorV"
    case CursorBar => "CursorBar"
  }

  /** `Read`'s `strcmp` chain for the `CursorMode` value; `None` leaves the cursor unchanged. */
  function ParseCursorMode(v: string): Option<CursorMode>
  {
    if v == "CrossHair" then Some(CrossHair)
    else if v == "CursorX" then Some(CursorX)
    else if v == "CursorV" then Some(CursorV)
    else if v == "CursorBar" then Some(CursorBar)
    else None
  }

  /** Reading a printed cursor token gives the cursor shape back. */
  lemma ParseCursorToken(m: CursorMode)
    ensures ParseCursorMode(CursorToken(m)) == Some(m)
  {
  }

  /** The token `Write` prints for a lookup table's colour mode. */
  function ColorToken(m: ColorMode): string
  {
    match m
    case Red => "ColorMode_Red"
    case Green => "ColorMode_Green"
    case Blue => "ColorMode_Blue"
    case Luminance => "ColorMode_Luminance"
    case Rainbow => "ColorMode_Rainbow"
  }

  /** `Read`'s `strcmp` chain for a lookup-table mode; `None` leaves the colour mode unchanged. */
  function ParseColorMode(v: string): Option<ColorMode>
  {
    if v == "ColorMode_Red" then Some(Red)
    else if v == "ColorMode_Green" then Some(Green)
    else if v == "ColorMode_Blue" then Some(Blue)
    else if v == "ColorMode_Luminance" then Some(Luminance)
    else if v == "ColorMode_Rainbow" then Some(Rainbow)
    else None
  }

  /** Reading a printed colour-mode token gives the colour mode back. */
  lemma ParseColorToken(m: ColorMode)
    ensures ParseColorMode(ColorToken(m)) == Some(m)
  {
  }

  /** `s` does not start with a blank, so `read_line` hands it over whole. */
  predicate NoLeadingBlank(s: string)
  {
    |s| == 0 || !IsBlank(s[0])
  }

  /** No layout token has an `r`, an `M` or a `D`. */
  lemma ConfigTokenLacks(m: ConfigMode)
    ensures 'r' !in ConfigToken(m) && 'M' !in ConfigToken(m) && 'D' !in ConfigToken(m)
    ensures NoLeadingBlank(ConfigToken(m))
  {
    if m.AB_XY_v? || m.AB_XZ_v? || m.AB_YZ_v? || m.AB_XY_XZ_v? || m.AB_XY_h? || m.AB_XZ_h? || m.AB_YZ_h? || m.AB_XY_XZ_h? {
      PairedTokenLacks(m);
    } else {
      PlaneTokenLacks(m);
    }
  }

  /** The tokens of the single-image layouts. */
  lemma PlaneTokenLacks(m: ConfigMode)
    requires m == XY || m == XZ || m == YZ || m == XY_XZ_v || m == XY_YZ_v || m == XZ_YZ_v || m == XY_XZ_h ||
             m == XY_YZ_h || m == XZ_YZ_h || m == XY_XZ_YZ
    ensures 'r' !in ConfigToken(m) && 'M' !in ConfigToken(m) && 'D' !in ConfigToken(m)
    ensures NoLeadingBlank(ConfigToken(m))
  {
    match m
    case XY => assert forall i | 0 <= i < |ConfigToken(m)| :: ConfigToken(m)[i] in {'V', 'X', 'Y', '_', 'e', 'i', 'w'};
    case XZ => assert forall i | 0 <= i < |ConfigToken(m)| :: ConfigToken(m)[i] in {'V', 'X', 'Z', '_', 'e', 'i', 'w'};
    case YZ => assert forall i | 0 <= i < |ConfigToken(m)| :: ConfigToken(m)[i] in {'V', 'Y', 'Z', '_', 'e', 'i', 'w'};
    case XY_XZ_v => assert forall i | 0 <= i < |ConfigToken(m)| :: ConfigToken(m)[i] in {'V', 'X', 'Y', 'Z', '_', 'e', 'i', 'v', 'w'};
    case XY_YZ_v => assert forall i | 0 <= i < |ConfigToken(m)| :: ConfigToken(m)[i] in {'V', 'X', 'Y', 'Z', '_', 'e', 'i', 'v', 'w'};
    case XZ_YZ_v => assert forall i | 0 <= i < |ConfigToken(m)| :: ConfigToken(m)[i] in {'V', 'X', 'Y', 'Z', '_', 'e', 'i', 'v', 'w'};
    case XY_XZ_h => assert forall i | 0 <= i < |ConfigToken(m)| :: ConfigToken(m)[i] in {'V', 'X', 'Y', 'Z', '_', 'e', 'h', 'i', 'w'};
    case XY_YZ_h => assert forall i | 0 <= i < |ConfigToken(m)| :: ConfigToken(m)[i] in {'V', 'X', 'Y', 'Z', '_', 'e', 'h', 'i', 'w'};
    case XZ_YZ_h => assert forall i | 0 <= i < |ConfigToken(m)| :: ConfigToken(m)[i] in {'V', 'X', 'Y', 'Z', '_', 'e', 'h', 'i', 'w'};
    case XY_XZ_YZ => assert forall i | 0 <= i < |ConfigToken(m)| :: ConfigToken(m)[i] in {'V', 'X', 'Y', 'Z', '_', 'e', 'i', 'w'};
    case _ => assert false;
  }

  /** The tokens of the layouts that show both images. */
  lemma PairedTokenLacks(m: ConfigMode)
    requires m == AB_XY_v || m == AB_XZ_v || m == AB_YZ_v || m == AB_XY_XZ_v || m == AB_XY_h || m == AB_XZ_h ||
             m == AB_YZ_h || m == AB_XY_XZ_h
    ensures 'r' !in ConfigToken(m) && 'M' !in ConfigToken(m) && 'D' !in ConfigToken(m)
    ensures NoLeadingBlank(ConfigToken(m))
  {
    match m
    case AB_XY_v => assert forall i | 0 <= i < |ConfigToken(m)| :: ConfigToken(m)[i] in {'A', 'B', 'V', 'X', 'Y', '_', 'e', 'i', 'v', 'w'};
    case AB_XZ_v => assert forall i | 0 <= i < |ConfigToken(m)| :: ConfigToken(m)[i] in {'A', 'B', 'V', 'X', 'Z', '_', 'e', 'i', 'v', 'w'};
    case AB_YZ_v => assert forall i | 0 <= i < |ConfigToken(m)| :: ConfigToken(m)[i] in {'A', 'B', 'V', 'Y', 'Z', '_', 'e', 'i', 'v', 'w'};
    case AB_XY_XZ_v => assert forall i | 0 <= i < |ConfigToken(m)| :: ConfigToken(m)[i] in {'A', 'B', 'V', 'X', 'Y', 'Z', '_', 'e', 'i', 'v', 'w'};
    case AB_XY_h => assert forall i | 0 <= i < |ConfigToken(m)| :: ConfigToken(m)[i] in {'A', 'B', 'V', 'X', 'Y', '_', 'e', 'h', 'i', 'w'};
    case AB_XZ_h => assert forall i | 0 <= i < |ConfigToken(m)| :: ConfigToken(m)[i] in {'A', 'B', 'V', 'X', 'Z', '_', 'e', 'h', 'i', 'w'};
    case AB_YZ_h => assert forall i | 0 <= i < |ConfigToken(m)| :: ConfigToken(m)[i] in {'A', 'B', 'V', 'Y', 'Z', '_', 'e', 'h', 'i', 'w'};
    case AB_XY_XZ_h => assert forall i | 0 <= i < |ConfigToken(m)| :: ConfigToken(m)[i] in {'A', 'B', 'V', 'X', 'Y', 'Z', '_', 'e', 'h', 'i', 'w'};
    case _ => assert false;
  }


  /** No interpolation token has an `s`, a `g` or an `M`. */
  lemma InterpolationTokenLacks(m: InterpolationMode)
    ensures 's' !in InterpolationToken(m) && 'g' !in InterpolationToken(m) && 'M' !in InterpolationToken(m)
    ensures NoLeadingBlank(InterpolationToken(m))
  {
    match m
    case NN => assert forall i | 0 <= i < |InterpolationToken(m)| :: InterpolationToken(m)[i] !in {'s', 'g', 'M'};
    case Linear => assert forall i | 0 <= i < |InterpolationToken(m)| :: InterpolationToken(m)[i] !in {'s', 'g', 'M'};
    case CSpline => assert forall i | 0 <= i < |InterpolationToken(m)| :: InterpolationToken(m)[i] !in {'s', 'g', 'M'};
    case BSpline => assert forall i | 0 <= i < |InterpolationToken(m)| :: InterpolationToken(m)[i] !in {'s', 'g', 'M'};
    case Sinc => assert forall i | 0 <= i < |InterpolationToken(m)| :: InterpolationToken(m)[i] !in {'s', 'g', 'M'};
  }

  /** No view token has an `l`, an `M`, a `g` or an `s`. */
  lemma ViewTokenLacks(m: ViewMode)
    requires ViewToken(m).Some?
    ensures var t := ViewToken(m).value; 'l' !in t && 'M' !in t && 'g' !in t && 's' !in t
    ensures NoLeadingBlank(ViewToken(m).value)
  {
    match m
    case ViewA => assert forall i | 0 <= i < |ViewToken(m).value| :: ViewToken(m).value[i] !in {'l', 'M', 'g', 's'};
    case ViewB => assert forall i | 0 <= i < |ViewToken(m).value| :: ViewToken(m).value[i] !in {'l', 'M', 'g', 's'};
    case Checkerboard => assert forall i | 0 <= i < |ViewToken(m).value| :: ViewToken(m).value[i] !in {'l', 'M', 'g', 's'};
    case Subtraction => assert forall i | 0 <= i < |ViewToken(m).value| :: ViewToken(m).value[i] !in {'l', 'M', 'g', 's'};
    case HShutter => assert forall i | 0 <= i < |ViewToken(m).value| :: ViewToken(m).value[i] !in {'l', 'M', 'g', 's'};
    case VShutter => assert forall i | 0 <= i < |ViewToken(m).value| :: ViewToken(m).value[i] !in {'l', 'M', 'g', 's'};
    case _ => assert false;
  }

  /** No cursor token has an `e`, an `n` or a `D`. */
  lemma CursorTokenLacks(m: CursorMode)
    ensures 'e' !in CursorToken(m) && 'n' !in CursorToken(m) && 'D' !in CursorToken(m)
    ensures NoLeadingBlank(CursorToken(m))
  {
    match m
    case CrossHair => assert forall i | 0 <= i < |CursorToken(m)| :: CursorToken(m)[i] !in {'e', 'n', 'D'};
    case CursorX => assert forall i | 0 <= i < |CursorToken(m)| :: CursorToken(m)[i] !in {'e', 'n', 'D'};
    case CursorV => assert forall i | 0 <= i < |CursorToken(m)| :: CursorToken(m)[i] !in {'e', 'n', 'D'};
    case CursorBar => assert forall i | 0 <= i < |CursorToken(m)| :: CursorToken(m)[i] !in {'e', 'n', 'D'};
  }

  /** No colour-mode token has a `p`, a `g`, an `s` or a `v`. */
  lemma ColorTokenLacks(m: ColorMode)
    ensures 'p' !in ColorToken(m) && 'g' !in ColorToken(m) && 's' !in ColorToken(m) && 'v' !in ColorToken(m)
    ensures NoLeadingBlank(ColorToken(m))
  {
    match m
    case Red => assert forall i | 0 <= i < |ColorToken(m)| :: ColorToken(m)[i] !in {'p', 'g', 's', 'v'};
    case Green => assert forall i | 0 <= i < |ColorToken(m)| :: ColorToken(m)[i] !in {'p', 'g', 's', 'v'};
    case Blue => assert forall i | 0 <= i < |ColorToken(m)| :: ColorToken(m)[i] !in {'p', 'g', 's', 'v'};
    case Luminance => assert forall i | 0 <= i < |ColorToken(m)| :: ColorToken(m)[i] !in {'p', 'g', 's', 'v'};
    case Rainbow => assert forall i | 0 <= i < |ColorToken(m)| :: ColorToken(m)[i] !in {'p', 'g', 's', 'v'};
  }

  /** A character a printed number can hold: digits, signs, the point, an exponent, `inf` and `nan`. */
  predicate IsNumberChar(c: char)
  {
    IsDigit(c) || c == '+' || c == '-' || c == '.' || c == 'e' || c == 'i' || c == 'n' || c == 'f' || c == 'a'
  }

  /** How an output stream prints a number: number characters only. */
  predicate IsNumberText(s: string)
  {
    forall i :: 0 <= i < |s| ==> IsNumberChar(s[i])
  }

  /** A printed number has no `r`, `M` or `D` and does not start with a blank. */
  lemma NumberTextLacks(s: string)
    requires IsNumberText(s)
    ensures 'r' !in s && 'M' !in s && 'D' !in s
    ensures NoLeadingBlank(s)
  {
  }

  /** Printed integers and flags are number texts. */
  lemma IntTextIsNumber(n: int)
    ensures IsNumberText(IntText(n)) && IsNumberText(BoolText(n != 0))
  {
    var d := if n < 0 then Decimal(-n) else Decimal(n);
    assert forall i :: 0 <= i < |d| ==> IsNumberChar(d[i]);
    if n < 0 {
      assert forall i :: 1 <= i < |IntText(n)| ==> IntText(n)[i] == d[i - 1];
    }
  }

  /** `s` contains none of the keys `Read` searches for. */
  predicate KeyFree(s: string)
  {
    forall k: Key :: !Contains(s, KeyText(k))
  }

  /** A text without `r`, `M` and `D` contains no key. */
  lemma KeyFreeWithoutRMD(s: string)
    requires 'r' !in s && 'M' !in s && 'D' !in s
    ensures KeyFree(s)
  {
    forall k: Key
      ensures !Contains(s, KeyText(k))
    {
      KeyHasRMD(k);
      if 'r' in KeyText(k) {
        MissingChar(s, KeyText(k), 'r');
      } else if 'M' in KeyText(k) {
        MissingChar(s, KeyText(k), 'M');
      } else {
        MissingChar(s, KeyText(k), 'D');
      }
    }
  }

  /** A text without `s`, `g` and `M` contains no key. */
  lemma KeyFreeWithoutSGM(s: string)
    requires 's' !in s && 'g' !in s && 'M' !in s
    ensures KeyFree(s)
  {
    forall k: Key
      ensures !Contains(s, KeyText(k))
    {
      KeyHasSGM(k);
      if 's' in KeyText(k) {
        MissingChar(s, KeyText(k), 's');
      } else if 'g' in KeyText(k) {
        MissingChar(s, KeyText(k), 'g');
      } else {
        MissingChar(s, KeyText(k), 'M');
      }
    }
  }

  /** A text without `l`, `M`, `g` and `s` contains no key. */
  lemma KeyFreeWithoutLMGS(s: string)
    requires 'l' !in s && 'M' !in s && 'g' !in s && 's' !in s
    ensures KeyFree(s)
  {
    forall k: Key
      ensures !Contains(s, KeyText(k))
    {
      KeyHasLMGS(k);
      if 'l' in KeyText(k) {
        MissingChar(s, KeyText(k), 'l');
      } else if 'M' in KeyText(k) {
        MissingChar(s, KeyText(k), 'M');
      } else if 'g' in KeyText(k) {
        MissingChar(s, KeyText(k), 'g');
      } else {
        MissingChar(s, KeyText(k), 's');
      }
    }
  }

  /** A text without `e`, `n` and `D` contains no key. */
  lemma KeyFreeWithoutEND(s: string)
    requires 'e' !in s && 'n' !in s && 'D' !in s
    ensures KeyFree(s)
  {
    forall k: Key
      ensures !Contains(s, KeyText(k))
    {
      KeyHasEND(k);
      if 'e' in KeyText(k) {
        MissingChar(s, KeyText(k), 'e');
      } else if 'n' in KeyText(k) {
        MissingChar(s, KeyText(k), 'n');
      } else {
        MissingChar(s, KeyText(k), 'D');
      }
    }
  }

  /** A text without `p`, `g`, `s` and `v` contains no key. */
  lemma KeyFreeWithoutPGSV(s: string)
    requires 'p' !in s && 'g' !in s && 's' !in s && 'v' !in s
    ensures KeyFree(s)
  {
    forall k: Key
      ensures !Contains(s, KeyText(k))
    {
      KeyHasPGSV(k);
      if 'p' in KeyText(k) {
        MissingChar(s, KeyText(k), 'p');
      } else if 'g' in KeyText(k) {
        MissingChar(s, KeyText(k), 'g');
      } else if 's' in KeyText(k) {
        MissingChar(s, KeyText(k), 's');
      } else {
        MissingChar(s, KeyText(k), 'v');
      }
    }
  }
}
