/**
 * Properties of the GUI's serial protocol: the framing of replies, the
 * split into words, what a reply does to the widgets, and how the GUI's
 * names line up with the PM firmware's console commands.
 */
module GuiFacts {
  import opened Common
  import opened Text
  import opened Gui
  import Pm
  import PmFacts

  // ------------------------------------------------------------ framing

  /** The first CRLF of a buffer is still the first after more bytes arrive. */
  lemma IndexOfExtended(a: string, b: string, i: nat)
    requires IndexOf(a, Crlf) == Some(i)
    ensures IndexOf(a + b, Crlf) == Some(i)
  {
    assert (a + b)[i..i + 2] == a[i..i + 2];
    assert OccursAt(a + b, Crlf, i);
    var j := IndexOf(a + b, Crlf).value;
    if j < i {
      assert (a + b)[j..j + 2] == a[j..j + 2];
      assert OccursAt(a, Crlf, j);
    }
  }

  lemma JoinedCons(line: string, lines: seq<string>)
    ensures Joined([line] + lines) == line + Crlf + Joined(lines)
  {
    assert ([line] + lines)[1..] == lines;
  }

  /** A buffer is its text before a CRLF, the CRLF, and its text after. */
  lemma CutJoin(buf: string, i: nat)
    requires OccursAt(buf, Crlf, i)
    ensures buf[..i] + Crlf + buf[i + 2..] == buf
  {
    assert buf[..i] + buf[i..i + 2] == buf[..i + 2];
  }

  /** The replies cut from a buffer, each with its CRLF, followed by the partial reply, are the buffer. */
  lemma {:induction false} FramesLossless(buf: string)
    ensures Joined(Frames(buf).lines) + Frames(buf).rest == buf
    decreases |buf|
  {
    match IndexOf(buf, Crlf)
    case None =>
    case Some(i) =>
      FramesCut(buf, i);
      var tail := buf[i + 2..];
      var f := Frames(tail);
      FramesLossless(tail);
      JoinedCons(buf[..i], f.lines);
      CutJoin(buf, i);
      Assoc(buf[..i] + Crlf, Joined(f.lines), f.rest);
  }

  /** A reply taken before the first CRLF holds no CRLF. */
  lemma PrefixClean(buf: string, i: nat)
    requires IndexOf(buf, Crlf) == Some(i)
    ensures i <= |buf| && !Contains(buf[..i], Crlf)
  {
    ContainsIff(buf[..i], Crlf);
    forall k: nat
      ensures !OccursAt(buf[..i], Crlf, k)
    {
      if k + 2 <= i {
        assert buf[..i][k..k + 2] == buf[k..k + 2];
        assert !OccursAt(buf, Crlf, k);
      }
    }
  }

  /** No reply handed to the widgets holds a CRLF, and neither does what is kept. */
  lemma {:induction false} FramesClean(buf: string)
    ensures forall line :: line in Frames(buf).lines ==> !Contains(line, Crlf)
    ensures !Contains(Frames(buf).rest, Crlf)
    decreases |buf|
  {
    match IndexOf(buf, Crlf)
    case None =>
      IndexOfNone(buf, Crlf);
    case Some(i) =>
      FramesCut(buf, i);
      PrefixClean(buf, i);
      FramesClean(buf[i + 2..]);
  }

  /**
   * Bytes may arrive in any pieces: cutting the replies of a, then of the
   * partial reply followed by b, gives the replies of a + b.
   */
  lemma {:induction false} FramesSplit(a: string, b: string)
    ensures Frames(a).lines + Frames(Frames(a).rest + b).lines == Frames(a + b).lines
    ensures Frames(Frames(a).rest + b).rest == Frames(a + b).rest
    decreases |a|
  {
    match IndexOf(a, Crlf)
    case None =>
      FramesDone(a);
    case Some(i) =>
      FramesCut(a, i);
      IndexOfExtended(a, b, i);
      FramesCut(a + b, i);
      var tail := a[i + 2..];
      CutAppend(a, b, i);
      FramesSplit(tail, b);
      Assoc([a[..i]], Frames(tail).lines, Frames(Frames(tail).rest + b).lines);
  }

  /** Cutting a + b around a CRLF at i that lies inside a. */
  lemma CutAppend(a: string, b: string, i: nat)
    requires i + 2 <= |a|
    ensures (a + b)[i + 2..] == a[i + 2..] + b && (a + b)[..i] == a[..i]
  {
  }

  /** Replies applied in two runs are the concatenation applied in one. */
  lemma {:induction false} ApplyAllAppend(v: Variant, d: Display, xs: seq<string>, ys: seq<string>)
    ensures ApplyAll(v, ApplyAll(v, d, xs), ys) == ApplyAll(v, d, xs + ys)
    decreases |ys|
  {
    if ys == [] {
      assert xs + ys == xs;
    } else {
      var init := ys[..|ys| - 1];
      ApplyAllAppend(v, d, xs, init);
      assert (xs + ys)[..|xs + ys| - 1] == xs + init;
    }
  }

  /** Two slotDataRead calls leave the widgets and the buffer as one call with both pieces would. */
  lemma TwoReads(v: Variant, d: Display, buf: string, a: string, b: string)
    ensures var d1 := ApplyAll(v, d, Frames(buf + a).lines);
      ApplyAll(v, d1, Frames(Frames(buf + a).rest + b).lines) == ApplyAll(v, d, Frames(buf + a + b).lines)
      && Frames(Frames(buf + a).rest + b).rest == Frames(buf + a + b).rest
  {
    FramesSplit(buf + a, b);
    ApplyAllAppend(v, d, Frames(buf + a).lines, Frames(Frames(buf + a).rest + b).lines);
  }

  // ---------------------------------------------------------- splitting

  /** A word without spaces splits into itself. */
  lemma SplitWord(w: string)
    requires ' ' !in w
    ensures Split(w) == [w]
  {
    RunLengthOfWord(w, []);
    assert w + [] == w;
    assert w[..|w|] == w;
  }

  /** A word and a space come off the front as the first part. */
  lemma SplitOfWord(w: string, rest: string)
    requires ' ' !in w
    ensures Split(w + " " + rest) == [w] + Split(rest)
  {
    var s := w + " " + rest;
    RunLengthOfWord(w, " " + rest);
    assert s == w + (" " + rest);
    assert s[..|w|] == w;
    assert s[|w| + 1..] == rest;
  }

  /** Joining a word in front of at least one part. */
  lemma UnsplitCons(w: string, parts: seq<string>)
    requires |parts| >= 1
    ensures Unsplit([w] + parts) == w + " " + Unsplit(parts)
  {
    assert ([w] + parts)[1..] == parts;
  }

  /** Putting the parts back together with single spaces gives the reply. */
  lemma {:induction false} SplitUnsplit(s: string)
    ensures Unsplit(Split(s)) == s
    decreases |s|
  {
    var k := RunLength(s);
    if k < |s| {
      var w, tail := s[..k], s[k + 1..];
      assert s == w + " " + tail;
      SplitOfWord(w, tail);
      SplitUnsplit(tail);
      UnsplitCons(w, Split(tail));
    } else {
      SplitWord(s);
    }
  }

  /** Parts without spaces are what splitting their join gives back. */
  lemma {:induction false} UnsplitSplit(parts: seq<string>)
    requires |parts| >= 1 && forall t :: t in parts ==> ' ' !in t
    ensures Split(Unsplit(parts)) == parts
    decreases |parts|
  {
    if |parts| == 1 {
      SplitWord(parts[0]);
    } else {
      assert parts[0] in parts;
      assert forall t :: t in parts[1..] ==> t in parts;
      UnsplitSplit(parts[1..]);
      SplitOfWord(parts[0], Unsplit(parts[1..]));
      assert parts == [parts[0]] + parts[1..];
    }
  }

  // ------------------------------------------------------------ toInt

  /** toInt reads back what "%d" writes, for every value of an int. */
  lemma ToIntOfIntToString(i: int)
    requires -0x8000_0000 <= i < 0x8000_0000
    ensures ToInt(IntToString(i)) == i
  {
    var n := NatToString(if i < 0 then -i else i);
    DigitsValueOfNatToString(if i < 0 then -i else i);
    var s := IntToString(i);
    if i < 0 {
      assert s[1..] == n;
    } else {
      assert IsDigit(s[0]);
    }
  }

  // ------------------------------------------------------------ replies

  /** A reply without a space changes no widget, whatever keyword it holds. */
  lemma ShortReplyIgnored(v: Variant, d: Display, line: string)
    requires ' ' !in line
    ensures ApplyLine(v, d, line) == d
  {
  }

  /** The widgets other than widget j are those of d, in each of the three maps. */
  predicate SameAt(d: Display, e: Display, j: nat)
  {
    && (j in d.checked <==> j in e.checked) && (j in d.checked ==> d.checked[j] == e.checked[j])
    && (j in d.lit <==> j in e.lit) && (j in d.lit ==> d.lit[j] == e.lit[j])
    && (j in d.shown <==> j in e.shown) && (j in d.shown ==> d.shown[j] == e.shown[j])
  }

  /** The branch for widget k changes no other widget. */
  lemma UpdateOnlyItsWidget(d: Display, k: nat, parts: seq<string>, j: nat)
    requires k < KeywordCount && |parts| > 1 && k != j
    ensures SameAt(d, Update(d, k, parts), j)
  {
  }

  /** A reply changes at most the widget of the first keyword it holds. */
  lemma OnlyMatchedWidget(v: Variant, d: Display, line: string, j: nat)
    requires FirstMatch(GuiKeys(v), line) != Some(j)
    ensures SameAt(d, ApplyLine(v, d, line), j)
  {
    var parts := Split(line);
    if |parts| > 1 && FirstMatch(GuiKeys(v), line).Some? {
      UpdateOnlyItsWidget(d, FirstMatch(GuiKeys(v), line).value, parts, j);
    }
  }

  /** The parts of a line "NAME value". */
  lemma ReplyParts(name: string, value: string)
    requires ' ' !in name && ' ' !in value
    ensures Split(name + " " + value) == [name, value]
  {
    SplitOfWord(name, value);
    SplitWord(value);
  }

  /**
   * A pin reply "NAME 0" or "NAME 1" whose first keyword is output widget k
   * checks that widget exactly when the pin is high.
   */
  lemma BitReplyShown(v: Variant, d: Display, k: nat, b: bool)
    requires k <= LastOutput
    requires FirstMatch(GuiKeys(v), GuiKeys(v)[k] + " " + IntToString(Flag(b))) == Some(k)
    requires ' ' !in GuiKeys(v)[k]
    ensures var e := ApplyLine(v, d, GuiKeys(v)[k] + " " + IntToString(Flag(b)));
      k in e.checked && e.checked[k] == b
  {
    var t := IntToString(Flag(b));
    ReplyParts(GuiKeys(v)[k], t);
    ToIntOfIntToString(Flag(b));
  }

  /** The "unchanged" answer of the two guarded outputs leaves every widget as it was. */
  lemma UnchangedKept(v: Variant, d: Display, line: string, k: nat)
    requires FirstMatch(GuiKeys(v), line) == Some(k) && (k == MainOutput || k == RelayOutput)
    requires exists name :: ' ' !in name && line == name + " " + Unchanged
    ensures ApplyLine(v, d, line) == d
  {
    var name :| ' ' !in name && line == name + " " + Unchanged;
    ReplyParts(name, Unchanged);
  }

  // ------------------------------------------------ absent keywords

  /** A keyword with a character the text lacks does not occur in it. */
  lemma CharAbsent(s: string, p: string, c: char)
    requires c in p && c !in s
    ensures !Contains(s, p)
  {
    ContainsIff(s, p);
    var j :| 0 <= j < |p| && p[j] == c;
    forall k: nat | k + |p| <= |s|
      ensures !OccursAt(s, p, k)
    {
      assert s[k..k + |p|][j] == s[k + j];
    }
  }

  /** A character outside the given set, and neither a space, a minus sign nor a digit. */
  predicate Foreign(c: char, chars: set<char>)
  {
    c !in chars && c != ' ' && c != '-' && !IsDigit(c)
  }

  /** A line "NAME value" as the firmware prints it and as the GUI sends it. */
  function Reply(name: string, i: int): string
  {
    name + " " + IntToString(i)
  }

  /** "NAME value" holds no character foreign to the name's characters. */
  lemma ForeignToReply(name: string, chars: set<char>, i: int)
    requires forall c :: c in name ==> c in chars
    ensures forall c :: Foreign(c, chars) ==> c !in Reply(name, i)
  {
    var n := NatToString(if i < 0 then -i else i);
    assert forall c :: c in n ==> IsDigit(c);
    var s := Reply(name, i);
    assert forall k :: 0 <= k < |s| ==> s[k] in name || s[k] == ' ' || s[k] == '-' || s[k] in n;
  }

  /** Each of the first k keywords holds the character w gives for it, a character foreign to the set. */
  predicate Witnessed(keys: seq<string>, w: string, chars: set<char>, k: nat)
  {
    k <= |keys| && k <= |w| && forall j :: 0 <= j < k ==> w[j] in keys[j] && Foreign(w[j], chars)
  }

  /** No witnessed keyword occurs in a text without foreign characters. */
  lemma NoneBefore(keys: seq<string>, w: string, chars: set<char>, s: string, k: nat)
    requires Witnessed(keys, w, chars, k)
    requires forall c :: Foreign(c, chars) ==> c !in s
    ensures forall j :: 0 <= j < k ==> !Contains(s, keys[j])
  {
    forall j | 0 <= j < k
      ensures !Contains(s, keys[j])
    {
      CharAbsent(s, keys[j], w[j]);
    }
  }

  /** The first keyword that occurs is k when every keyword before it is witnessed absent. */
  lemma FirstFound(keys: seq<string>, w: string, chars: set<char>, s: string, k: nat)
    requires k < |keys| && Contains(s, keys[k])
    requires Witnessed(keys, w, chars, k)
    requires forall c :: Foreign(c, chars) ==> c !in s
    ensures FirstMatch(keys, s) == Some(k)
  {
    NoneBefore(keys, w, chars, s, k);
  }

  /** No keyword occurs when every one is witnessed absent. */
  lemma NoneFound(keys: seq<string>, w: string, chars: set<char>, s: string)
    requires Witnessed(keys, w, chars, |keys|)
    requires forall c :: Foreign(c, chars) ==> c !in s
    ensures FirstMatch(keys, s).None?
  {
    NoneBefore(keys, w, chars, s, |keys|);
  }

  /** A text contains what it starts with. */
  lemma ContainsStart(s: string, p: string, rest: string)
    requires s == p + rest
    ensures Contains(s, p)
  {
    ContainsIff(s, p);
    assert s[0..|p|] == p;
    assert OccursAt(s, p, 0);
  }

  // ------------------------------------------------ MMD_PWR_EN and Main_PWR_EN

  const MmdName := "MMD_PWR_EN"
  const MainChars: set<char> := {'M', 'a', 'i', 'n', '_', 'P', 'W', 'R', 'E', 'N'}
  const MmdChars: set<char> := {'M', 'D', '_', 'P', 'W', 'R', 'E', 'N'}

  /** For each GUI keyword, a character of it foreign to Main_PWR_EN. */
  const GuiWitness := "+BDDVVCCC/XXL//LVCLCSACCCCCCCDDST"
  const GuiOdd: set<char> := {'+', 'B', 'C', 'D', 'V', '/', 'X', 'L', 'S', 'A', 'T'}

  /** For each PM console keyword, a character of it foreign to MMD_PWR_EN (and, up to Main_PWR_EN, to that too). */
  const PmWitness := "rprrrczrrr+BBCIaVVCCC"
  const PmOddMain: set<char> := {'r', 'p', 'c', 'z', '+', 'B', 'C', 'I'}
  const PmOddMmd: set<char> := {'r', 'p', 'c', 'z', '+', 'B', 'C', 'I', 'a', 'V'}

  lemma NamesCovered()
    ensures forall c :: c in MainName ==> c in MainChars
    ensures forall c :: c in MmdName ==> c in MmdChars
  {
  }

  lemma GuiWitnessOccurs()
    ensures |GuiWitness| == |Keywords|
    ensures forall j :: 0 <= j < |Keywords| ==> GuiWitness[j] in Keywords[j]
  {
  }

  lemma GuiWitnessForeign()
    ensures forall j :: 0 <= j < |GuiWitness| ==> GuiWitness[j] in GuiOdd
    ensures forall c :: c in GuiOdd ==> Foreign(c, MainChars)
  {
  }

  lemma GuiWitnessed()
    ensures Witnessed(Keywords, GuiWitness, MainChars, |Keywords|)
  {
    GuiWitnessOccurs();
    GuiWitnessForeign();
  }

  lemma PmWitnessOccurs()
    ensures |PmWitness| == |Pm.UartKeys|
    ensures forall j :: 0 <= j < |Pm.UartKeys| ==> PmWitness[j] in Pm.UartKeys[j]
  {
  }

  lemma PmWitnessForeign()
    ensures forall j :: 0 <= j < Pm.MainSetter ==> PmWitness[j] in PmOddMain
    ensures forall j :: 0 <= j < |PmWitness| ==> PmWitness[j] in PmOddMmd
    ensures forall c :: c in PmOddMain ==> Foreign(c, MainChars)
    ensures forall c :: c in PmOddMmd ==> Foreign(c, MmdChars)
  {
  }

  lemma PmWitnessed()
    ensures Witnessed(Pm.UartKeys, PmWitness, MainChars, Pm.MainSetter)
    ensures Witnessed(Pm.UartKeys, PmWitness, MmdChars, |Pm.UartKeys|)
  {
    PmWitnessOccurs();
    PmWitnessForeign();
  }

  /** As written: the PM's "Main_PWR_EN value" reply holds none of the GUI's keywords and changes no widget. */
  lemma MainReplyIgnored(d: Display, i: int)
    ensures FirstMatch(GuiKeys(AsWritten), Reply(MainName, i)).None?
    ensures ApplyLine(AsWritten, d, Reply(MainName, i)) == d
  {
    GuiWitnessed();
    NamesCovered();
    ForeignToReply(MainName, MainChars, i);
    NoneFound(Keywords, GuiWitness, MainChars, Reply(MainName, i));
  }

  /**
   * The PM's read_power_bits lines come in the order of the GUI's output
   * widgets, each under that widget's corrected keyword; as written, the
   * Main power line's name is not the GUI's.
   */
  lemma PowerLinesInWidgetOrder(rails: map<Pm.Rail, bool>)
    ensures |Pm.PowerLines(rails)| == LastOutput + 1
    ensures forall j :: 0 <= j <= LastOutput ==> Pm.PowerLines(rails)[j].key == GuiKeys(Fixed)[j]
    ensures Pm.PowerLines(rails)[MainOutput].key != GuiKeys(AsWritten)[MainOutput]
  {
    var ms := Pm.PowerLines(rails);
    forall j | 0 <= j <= LastOutput
      ensures ms[j].key == GuiKeys(Fixed)[j]
    {
      assert ms[j].key == Pm.UartKeys[Pm.ReportedSetters[j]];
    }
    assert ms[MainOutput].key == MainName;
    assert GuiKeys(AsWritten)[MainOutput] == MmdName;
  }

  /** The command slotSetPower sends for the Main power widget, under either name. */
  lemma MainPowerCommand(level: int)
    ensures PowerCommand(AsWritten, MainOutput, level) == Reply(MmdName, level) + Crlf
    ensures PowerCommand(Fixed, MainOutput, level) == Reply(MainName, level) + Crlf
  {
    assert GuiKeys(AsWritten)[MainOutput] == MmdName;
  }

  /** No PM console keyword occurs in "MMD_PWR_EN level". */
  lemma MmdNoKeyword(level: int)
    ensures FirstMatch(Pm.UartKeys, Reply(MmdName, level)).None?
  {
    PmWitnessed();
    NamesCovered();
    ForeignToReply(MmdName, MmdChars, level);
    NoneFound(Pm.UartKeys, PmWitness, MmdChars, Reply(MmdName, level));
  }

  /** The first PM console keyword in "Main_PWR_EN level" is the Main power setter's. */
  lemma MainKeyword(level: int)
    ensures FirstMatch(Pm.UartKeys, Reply(MainName, level)) == Some(Pm.MainSetter)
  {
    var line := Reply(MainName, level);
    PmWitnessed();
    NamesCovered();
    ForeignToReply(MainName, MainChars, level);
    ContainsStart(line, MainName, " " + IntToString(level));
    FirstFound(Pm.UartKeys, PmWitness, MainChars, line, Pm.MainSetter);
  }

  /**
   * As written: the GUI's "MMD_PWR_EN level" command (MainPowerCommand)
   * holds none of the PM's keywords, so the PM answers INVALID and changes
   * nothing.
   */
  lemma MmdCommandRejected(st: Pm.State, level: int, s: Pm.Sensors)
    requires |s.coefficients| == 7
    ensures Pm.UartParses(st.rails, Reply(MmdName, level))
    ensures Pm.UartCommand(st, Reply(MmdName, level), s) == Pm.Handled(st, false, Reply(MmdName, level))
  {
    MmdNoKeyword(level);
  }

  /** Corrected: the PM's Main power reply checks the Main power widget exactly when the pin is high. */
  lemma MainReplyShown(d: Display, b: bool)
    ensures FirstMatch(GuiKeys(Fixed), Reply(MainName, Flag(b))) == Some(MainOutput)
    ensures var e := ApplyLine(Fixed, d, Reply(MainName, Flag(b)));
      MainOutput in e.checked && e.checked[MainOutput] == b
  {
    var line := Reply(MainName, Flag(b));
    GuiWitnessed();
    assert Witnessed(GuiKeys(Fixed), GuiWitness, MainChars, MainOutput);
    NamesCovered();
    ForeignToReply(MainName, MainChars, Flag(b));
    ContainsStart(line, MainName, " " + IntToString(Flag(b)));
    FirstFound(GuiKeys(Fixed), GuiWitness, MainChars, line, MainOutput);
    BitReplyShown(Fixed, d, MainOutput, b);
  }

  /** The PM reads the level back from "Main_PWR_EN level". */
  lemma MainArgument(level: int)
    ensures HasArgument(Reply(MainName, level)) && Pm.ArgumentValue(Reply(MainName, level)) == level
  {
    TokensOfCommand(MainName, IntToString(level));
    AtoiIntToString(level);
  }

  /**
   * Corrected: the GUI's "Main_PWR_EN level" command (MainPowerCommand)
   * reaches the PM's Main power setter; with the driver enabled it switches
   * Main power to the level and the PM echoes the command as it was sent.
   */
  lemma MainCommandAccepted(st: Pm.State, level: int, s: Pm.Sensors)
    requires |s.coefficients| == 7 && !Pm.Pin(st.rails, Pm.DriverEn)
    ensures Pm.UartParses(st.rails, Reply(MainName, level))
    ensures var h := Pm.UartCommand(st, Reply(MainName, level), s);
      h.valid && Pm.Pin(h.state.rails, Pm.MainPwr) == (level != 0) && h.echo == Reply(MainName, level)
  {
    MainKeyword(level);
    MainArgument(level);
    PmFacts.MainPowerSwitched(st, Reply(MainName, level), s);
    PmFacts.MainSwitchedLevels(st, level);
  }

  /** Corrected, driver disabled: the command is still accepted and only the Main power level is reported. */
  lemma MainCommandHeld(st: Pm.State, level: int, s: Pm.Sensors)
    requires |s.coefficients| == 7 && Pm.Pin(st.rails, Pm.DriverEn)
    ensures Pm.UartParses(st.rails, Reply(MainName, level))
    ensures var h := Pm.UartCommand(st, Reply(MainName, level), s);
      h.valid && h.state.rails == st.rails && h.echo == Pm.MainUnchanged
  {
    MainKeyword(level);
    PmFacts.MainPowerHeld(st, Reply(MainName, level), s);
  }
}
