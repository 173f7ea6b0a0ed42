/**
 * The base conversion and the digit gating of the React programmer keypad
 * (components/calculator-modes/programmer-mode.tsx): convertValue reads the display in the
 * selected base and writes it in another, and the keypad disables or hides the digit keys that
 * the selected base does not have.
 */
module ProgrammerMode {
  import opened Wrappers
  import opened JsNumber

  /** The bases the keypad offers. */
  datatype Base = HEX | DEC | OCT | BIN

  /** The name of a base, as the keypad passes it to convertValue. */
  function BaseName(b: Base): string
  {
    match b
    case HEX => "HEX"
    case DEC => "DEC"
    case OCT => "OCT"
    case BIN => "BIN"
  }

  /** The radix of a base name; any name other than HEX, OCT and BIN falls to the decimal default. */
  function RadixOf(name: string): Radix
  {
    if name == "HEX" then 16 else if name == "OCT" then 8 else if name == "BIN" then 2 else 10
  }

  /** decimal.toString(radix) for the target base, upper-cased for HEX. */
  function Render(decimal: int, toBase: string): string
  {
    if toBase == "HEX" then ToUpper(IntToRadix(decimal, 16)) else IntToRadix(decimal, RadixOf(toBase))
  }

  predicate NoLowerCase(s: string)
  {
    forall i :: 0 <= i < |s| ==> !('a' <= s[i] <= 'z')
  }

  /** A rendering reads back, in its base, as the number rendered; a HEX rendering has no lower-case letter. */
  lemma RenderReadsBack(decimal: int, toBase: string)
    ensures ParseInt(Render(decimal, toBase), RadixOf(toBase)) == Some(decimal)
    ensures toBase == "HEX" ==> NoLowerCase(Render(decimal, toBase))
  {
    if toBase == "HEX" {
      ParseIntToUpperRadix(decimal, 16);
    } else {
      ParseIntToRadix(decimal, RadixOf(toBase));
    }
  }

  /**
   * convertValue(value, fromBase, toBase): "0" when value does not parse in fromBase; otherwise
   * a text in toBase that reads back as the same number, upper-case when toBase is HEX.
   */
  function ConvertValue(value: string, fromBase: string, toBase: string): (r: string)
    ensures ParseInt(value, RadixOf(fromBase)).None? ==> r == "0"
    ensures ParseInt(value, RadixOf(fromBase)).Some? ==>
      ParseInt(r, RadixOf(toBase)) == ParseInt(value, RadixOf(fromBase))
    ensures toBase == "HEX" ==> NoLowerCase(r)
  {
    match ParseInt(value, RadixOf(fromBase))
    case None => "0"
    case Some(decimal) =>
      RenderReadsBack(decimal, toBase);
      Render(decimal, toBase)
  }

  /**
   * Round trip: the rendering of a number in one base converts to its rendering in any other,
   * and to itself in its own base.
   */
  lemma ConvertRoundTrip(n: int, fromBase: string, toBase: string)
    ensures ConvertValue(Render(n, fromBase), fromBase, toBase) == Render(n, toBase)
    ensures ConvertValue(Render(n, fromBase), fromBase, fromBase) == Render(n, fromBase)
  {
    RenderReadsBack(n, fromBase);
  }

  /** An unknown base name is read and written as decimal. */
  lemma UnknownBaseIsDecimal(value: string, fromBase: string, toBase: string)
    requires fromBase !in ["HEX", "DEC", "OCT", "BIN"]
    ensures ConvertValue(value, fromBase, toBase) == ConvertValue(value, "DEC", toBase)
    ensures ConvertValue(value, toBase, fromBase) == ConvertValue(value, toBase, "DEC")
  {
    assert fromBase != "HEX" && fromBase != "OCT" && fromBase != "BIN";
  }

  /** The row of the base panel for each base: convertValue(display, base, row). */
  function Panel(display: string, base: Base): (rows: seq<string>)
  {
    [ConvertValue(display, BaseName(base), "HEX"), ConvertValue(display, BaseName(base), "DEC"),
     ConvertValue(display, BaseName(base), "OCT"), ConvertValue(display, BaseName(base), "BIN")]
  }

  /** A display holding a number written in the selected base shows that number in every row of the panel. */
  lemma PanelShowsNumber(n: int, base: Base)
    ensures Panel(Render(n, BaseName(base)), base) == [Render(n, "HEX"), Render(n, "DEC"), Render(n, "OCT"), Render(n, "BIN")]
  {
    ConvertRoundTrip(n, BaseName(base), "HEX");
    ConvertRoundTrip(n, BaseName(base), "DEC");
    ConvertRoundTrip(n, BaseName(base), "OCT");
    ConvertRoundTrip(n, BaseName(base), "BIN");
  }

  /** The values of the main button grid, row by row. */
  const MainGrid: seq<string> := [
    "<<", ">>", "|", "^",
    "~", "&", "clear", "backspace",
    "7", "8", "9", "/",
    "4", "5", "6", "*",
    "1", "2", "3", "-",
    "(", ")", "0", "+"]

  /** The letter buttons. */
  const HexButtons: seq<string> := ["A", "B", "C", "D", "E", "F"]

  /** isDisabled of a grid button: 2-9 in BIN, 8 and 9 in OCT, nothing in DEC and HEX. */
  predicate IsDisabled(base: Base, value: string)
  {
    (base == BIN && value in ["2", "3", "4", "5", "6", "7", "8", "9"])
    || (base == OCT && value in ["8", "9"])
  }

  /** The letter buttons are rendered only in HEX. */
  function Keypad(base: Base): seq<string>
  {
    (if base == HEX then HexButtons else []) + MainGrid
  }

  /** A button the user can press: on the keypad and not disabled. */
  predicate Enabled(base: Base, value: string)
  {
    value in Keypad(base) && !IsDisabled(base, value)
  }

  /** A digit key of hexadecimal: 0-9 or A-F. */
  predicate IsDigitKey(value: string)
  {
    |value| == 1 && ('0' <= value[0] <= '9' || 'A' <= value[0] <= 'F')
  }

  lemma DigitKeysOnKeypad(base: Base, value: string)
    requires IsDigitKey(value)
    ensures '0' <= value[0] <= '9' ==> value in MainGrid
    ensures 'A' <= value[0] <= 'F' ==> value in HexButtons && value !in MainGrid
  {
    var c := value[0];
    assert value == [c];
    if '0' <= c <= '9' {
      assert c in "0123456789";
      if c == '0' { assert MainGrid[22] == value; }
      else if c == '1' { assert MainGrid[16] == value; }
      else if c == '2' { assert MainGrid[17] == value; }
      else if c == '3' { assert MainGrid[18] == value; }
      else if c == '4' { assert MainGrid[12] == value; }
      else if c == '5' { assert MainGrid[13] == value; }
      else if c == '6' { assert MainGrid[14] == value; }
      else if c == '7' { assert MainGrid[8] == value; }
      else if c == '8' { assert MainGrid[9] == value; }
      else { assert MainGrid[10] == value; }
    } else {
      if c == 'A' { assert HexButtons[0] == value; }
      else if c == 'B' { assert HexButtons[1] == value; }
      else if c == 'C' { assert HexButtons[2] == value; }
      else if c == 'D' { assert HexButtons[3] == value; }
      else if c == 'E' { assert HexButtons[4] == value; }
      else { assert HexButtons[5] == value; }
      assert forall j :: 0 <= j < |MainGrid| ==> MainGrid[j] != value;
    }
  }

  /**
   * Digit gating: a key 0-9 or A-F can be pressed exactly when it is a digit of the selected
   * base, so BIN offers 0 and 1, OCT 0-7, DEC 0-9 and HEX all sixteen.
   */
  lemma EnabledDigitsAreBaseDigits(base: Base, value: string)
    requires IsDigitKey(value)
    ensures Enabled(base, value) <==> DigitValue(value[0]) < RadixOf(BaseName(base))
  {
    DigitKeysOnKeypad(base, value);
    var c := value[0];
    assert value == [c];
  }

  /** Every other key of the grid is enabled in every base. */
  lemma OtherKeysEnabled(base: Base, value: string)
    requires value in MainGrid && !IsDigitKey(value)
    ensures Enabled(base, value)
  {
  }
}
