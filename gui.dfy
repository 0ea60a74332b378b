/**
 * The PM test GUI's serial protocol (pm_gui.cpp): slotDataRead appends
 * the bytes received to a buffer, cuts off every complete CRLF-terminated
 * reply, and applies each reply to the widgets by the first keyword it
 * contains; slotSetPower sends a setter command for the output widget
 * whose radio button was clicked.
 *
 * The widgets are a Display record. A widget is numbered by the position
 * of its keyword in the GUI's keyword list. Output widgets hold a checked
 * state, input widgets a lit state (the "True"/"False" colour), and text
 * boxes what they show. A number converted with toDouble() and formatted
 * with a fixed number of decimals is shown as the token it was read from
 * and the decimals.
 *
 * The GUI names the Main power output MMD_PWR_EN, but the PM firmware
 * calls it Main_PWR_EN. Variant selects the names as written or with
 * Main_PWR_EN in their place. A Widget is built for one of the two.
 */
module Gui {
  import opened Common
  import opened Text

  // ------------------------------------------------------------ Qt strings

  const Crlf := "\r\n"

  /** QByteArray::indexOf from position i: the first occurrence of p at or after i. */
  function IndexFrom(s: string, p: string, i: nat): (r: Option<nat>)
    ensures r.Some? ==> i <= r.value && OccursAt(s, p, r.value)
    ensures r.Some? ==> forall j :: i <= j < r.value ==> !OccursAt(s, p, j)
    ensures r.None? ==> forall j: nat :: i <= j ==> !OccursAt(s, p, j)
    decreases |s| - i
  {
    if i + |p| > |s| then None
    else if s[i..i + |p|] == p then Some(i)
    else IndexFrom(s, p, i + 1)
  }

  /** QByteArray::indexOf: the first occurrence of p, or -1 (None) when there is none. */
  function IndexOf(s: string, p: string): (r: Option<nat>)
    ensures r.Some? ==> OccursAt(s, p, r.value) && forall j :: 0 <= j < r.value ==> !OccursAt(s, p, j)
    ensures r.None? ==> forall j: nat :: !OccursAt(s, p, j)
  {
    IndexFrom(s, p, 0)
  }

  /** indexOf finds nothing exactly when strstr finds nothing. */
  lemma IndexOfNone(s: string, p: string)
    ensures IndexOf(s, p).None? <==> !Contains(s, p)
  {
    ContainsIff(s, p);
  }

  /** QString::split(" "): the parts between single spaces, empty parts kept. */
  function Split(s: string): (r: seq<string>)
    ensures |r| >= 1
    ensures forall t :: t in r ==> ' ' !in t
    ensures |r| > 1 <==> ' ' in s
    decreases |s|
  {
    var k := RunLength(s);
    if k == |s| then
      assert s[..k] == s;
      [s]
    else
      assert s[k] == ' ';
      [s[..k]] + Split(s[k + 1..])
  }

  /** The parts put back together with a space between each two. */
  function Unsplit(parts: seq<string>): string
    requires |parts| >= 1
    decreases |parts|
  {
    if |parts| == 1 then parts[0] else parts[0] + " " + Unsplit(parts[1..])
  }

  /**
   * QString::toInt(): the whole token must be an optional sign followed by
   * decimal digits giving a value that fits an int; anything else reads 0.
   */
  function ToInt(t: string): int
  {
    var body := if t != [] && (t[0] == '-' || t[0] == '+') then t[1..] else t;
    if body == [] || !AllDigits(body) then 0
    else
      var v := if t[0] == '-' then 0 - DigitsValue(body) else DigitsValue(body);
      if -0x8000_0000 <= v < 0x8000_0000 then v else 0
  }

  // --------------------------------------------------------------- widgets

  /** How a text box shows a value: toDouble() with fixed decimals, toDouble() as it is, toInt(), or the token. */
  datatype Shown = Rounded(token: string, places: nat) | AsNumber(token: string) | AsInt(n: int) | AsText(text: string)

  /** The widgets' states, keyed by widget number: outputs checked, inputs lit, text boxes shown. */
  datatype Display = Display(checked: map<nat, bool>, lit: map<nat, bool>, shown: map<nat, Shown>)

  /**
   * The keywords slotDataRead tests, in order: 0 to 8 are the output
   * widgets, 9 to 14 the input widgets, 15 to 21 the LTC2944, leak and
   * tilt text boxes, 22 to 28 the MS5637 coefficients, 29 and 30 its raw
   * conversions, 31 and 32 its pressure and temperature.
   */
  const Keywords: seq<string> := [
    "+3V3VA_EN", "BATT_SEL", "DRIVER_EN", "MMD_PWR_EN", "VBS_PWR_EN", "VBS_SER_PWR_EN",
    "WCM_DIAG_EN", "WCM_PWR_EN", "WCM_RLY",
    "/ACCEL_INT", "EXT_GPIO1", "EXT_GPIO2", "LT8618_PG", "/LTC2944_ALCC", "/WCM_FAULT",
    "LEAK", "VOLTAGE", "CURRENT", "LTC2944 TEMPERATURE", "CHARGE", "STATUS", "ACCEL TILT ANGLE",
    "CRC", "C1", "C2 ", "C3", "C4", "C5", "C6", "D1", "D2", "PRESSURE", "TEMPERATURE"]

  const KeywordCount: nat := 33

  /** The widget number of the Main power output and of the WCM relay output. */
  const MainOutput: nat := 3
  const RelayOutput: nat := 8
  const LastOutput: nat := 8
  const LastInput: nat := 14
  const StatusBox: nat := 20
  const FirstCoefficient: nat := 22
  const Pressure: nat := 31

  const MainName := "Main_PWR_EN"
  const Unchanged := "unchanged"

  /** The keyword list as written, or with the PM's name for Main power. */
  function GuiKeys(v: Variant): (r: seq<string>)
    ensures |r| == KeywordCount
  {
    if v == AsWritten then Keywords else Keywords[MainOutput := MainName]
  }

  /** The token a text box reads: the temperature and tilt replies have words before the value. */
  function TokenIndex(k: nat): nat
  {
    if k == 18 then 2 else if k == 21 then 3 else 1
  }

  /** The decimals a text box shows: three for leak, voltage and current, two for the others. */
  function Places(k: nat): nat
  {
    if k == 15 || k == 16 || k == 17 then 3 else 2
  }

  /**
   * The branch for widget k of a reply split into parts (at least two).
   * A token index past the end is undefined in Qt (QList::at); the model
   * leaves the display as it was.
   */
  function Update(d: Display, k: nat, parts: seq<string>): Display
    requires k < KeywordCount && |parts| > 1
  {
    var t := parts[1];
    if k <= LastOutput then
      if (k == MainOutput || k == RelayOutput) && t == Unchanged then d
      else d.(checked := d.checked[k := ToInt(t) == 1])
    else if k <= LastInput then d.(lit := d.lit[k := ToInt(t) == 1])
    else if k == StatusBox then d.(shown := d.shown[k := AsText(t)])
    else if k < FirstCoefficient || k == KeywordCount - 1 then
      var i := TokenIndex(k);
      if i < |parts| then d.(shown := d.shown[k := Rounded(parts[i], Places(k))]) else d
    else if k < Pressure then d.(shown := d.shown[k := AsInt(ToInt(t))])
    else d.(shown := d.shown[k := AsNumber(t)])
  }

  /** One reply: a reply without a space, or without a keyword, changes nothing. */
  function ApplyLine(v: Variant, d: Display, line: string): Display
  {
    var parts := Split(line);
    if |parts| <= 1 then d
    else
      match FirstMatch(GuiKeys(v), line)
      case None => d
      case Some(k) => Update(d, k, parts)
  }

  /** The replies applied in order. */
  function ApplyAll(v: Variant, d: Display, lines: seq<string>): Display
    decreases |lines|
  {
    if lines == [] then d else ApplyLine(v, ApplyAll(v, d, lines[..|lines| - 1]), lines[|lines| - 1])
  }

  // --------------------------------------------------------------- framing

  /** The replies cut from a buffer, and what is left. */
  datatype Framed = Framed(lines: seq<string>, rest: string)

  /** Reference definition of slotDataRead's loop: cut at the first CRLF until there is none. */
  function Frames(buf: string): Framed
    decreases |buf|
  {
    match IndexOf(buf, Crlf)
    case None => Framed([], buf)
    case Some(i) =>
      var f := Frames(buf[i + 2..]);
      Framed([buf[..i]] + f.lines, f.rest)
  }

  /** A buffer with a CRLF: the first reply, then the replies of what follows it. */
  lemma FramesCut(buf: string, i: nat)
    requires IndexOf(buf, Crlf) == Some(i)
    ensures i + 2 <= |buf|
    ensures Frames(buf) == Framed([buf[..i]] + Frames(buf[i + 2..]).lines, Frames(buf[i + 2..]).rest)
  {
    assert OccursAt(buf, Crlf, i) && |Crlf| == 2;
  }

  /** A buffer without a CRLF: no reply, and the buffer stays. */
  lemma FramesDone(buf: string)
    requires IndexOf(buf, Crlf).None?
    ensures Frames(buf) == Framed([], buf)
  {
  }

  /** Applying one more reply. */
  lemma ApplyAllSnoc(v: Variant, d: Display, lines: seq<string>, line: string)
    ensures ApplyAll(v, d, lines + [line]) == ApplyLine(v, ApplyAll(v, d, lines), line)
  {
    assert (lines + [line])[..|lines|] == lines;
  }

  /** The replies each followed by CRLF. */
  function Joined(lines: seq<string>): string
    decreases |lines|
  {
    if lines == [] then [] else lines[0] + Crlf + Joined(lines[1..])
  }

  // ---------------------------------------------------------- slotSetPower

  /** The command slotSetPower sends for output widget k, at the level its radio button reports. */
  function PowerCommand(v: Variant, k: nat, level: int): string
    requires k <= LastOutput
  {
    GuiKeys(v)[k] + " " + IntToString(level) + Crlf
  }

  /** slotSetPower: output widgets send their command; any other sender sends nothing. */
  function SetPower(v: Variant, sender: Option<nat>, level: int): (r: Option<string>)
    ensures r.Some? <==> sender.Some? && sender.value <= LastOutput
  {
    if sender.Some? && sender.value <= LastOutput then Some(PowerCommand(v, sender.value, level)) else None
  }

  // ---------------------------------------------------------------- widget

  /**
   * The main window's serial state: the keyword names it was built with,
   * the partial reply, the widgets, and what was written to the port.
   */
  class Widget {
    const variant: Variant
    var serialData: string
    var display: Display
    var written: seq<string>

    /** slotConnected clears the buffer; the widgets start at their defaults. */
    constructor(v: Variant, d: Display)
      ensures variant == v && serialData == [] && display == d && written == []
    {
      variant := v;
      serialData, display, written := [], d, [];
    }

    /** slotDataRead: every complete reply is applied and removed; the partial one stays. */
    method DataRead(data: string)
      modifies this
      ensures serialData == Frames(old(serialData) + data).rest
      ensures display == ApplyAll(variant, old(display), Frames(old(serialData) + data).lines)
      ensures written == old(written)
    {
      serialData := serialData + data;
      ghost var all := Frames(serialData);
      ghost var start := display;
      ghost var done: seq<string> := [];
      while true
        invariant all.lines == done + Frames(serialData).lines && all.rest == Frames(serialData).rest
        invariant display == ApplyAll(variant, start, done)
        invariant written == old(written)
        decreases |serialData|
      {
        var index := IndexOf(serialData, Crlf);
        if index.None? {
          FramesDone(serialData);
          assert done + [] == done;
          break;
        }
        FramesCut(serialData, index.value);
        var response := serialData[..index.value];
        serialData := serialData[index.value + 2..];
        ApplyAllSnoc(variant, start, done, response);
        display := ApplyLine(variant, display, response);
        Assoc(done, [response], Frames(serialData).lines);
        done := done + [response];
      }
    }

    /** slotSetPower with the sender's widget number, if it is a widget at all. */
    method SetPowerClicked(sender: Option<nat>, level: int)
      modifies this
      ensures written == old(written) + match SetPower(variant, sender, level) { case None => [] case Some(c) => [c] }
      ensures serialData == old(serialData) && display == old(display)
    {
      if sender.Some? && sender.value <= LastOutput {
        written := written + [PowerCommand(variant, sender.value, level)];
      }
    }
  }
}
