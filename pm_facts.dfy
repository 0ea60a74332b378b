/**
 * What the PM's dispatchers promise: invalid commands change nothing, the
 * setters drive one rail and echo a command that parses back to the same
 * value, the driver gate and polarity rules of the console and the SPI
 * paths, the RESP read-out order, and the run loop's echo and sleep.
 */
module PmFacts {
  import opened Common
  import opened Text
  import opened Pm

  // ------------------------------------------------------ console commands

  /** A command is invalid exactly when it contains no keyword, and then nothing but the echo happens. */
  lemma InvalidIffNoKeyword(st: State, command: string, s: Sensors)
    requires UartParses(st.rails, command) && |s.coefficients| == 7
    ensures var h := UartCommand(st, command, s);
      (!h.valid <==> forall j :: 0 <= j < |UartKeys| ==> !Contains(command, UartKeys[j]))
      && (!h.valid ==> h.state == st && h.echo == command)
  {
  }

  /** The setter keywords are single words, so a rewritten command splits into keyword and value. */
  lemma SetterKeysAreWords(k: nat)
    requires FirstSetter <= k < |UartKeys|
    ensures |UartKeys[k]| > 0 && ' ' !in UartKeys[k]
  {
    var w := UartKeys[k];
    assert w == "+3V3VA_EN" || w == "BATT_SEL" || w == "BATT_SER_PWR_EN" || w == "CTD_PWR_EN"
      || w == "DRIVER_EN" || w == "Main_PWR_EN" || w == "VBS_PWR_EN" || w == "VBS_SER_PWR_EN"
      || w == "WCM_DIAG_EN" || w == "WCM_PWR_EN" || w == "WCM_RLY";
  }

  /** The console dispatch hands a setter keyword to its setter. */
  lemma SetterDispatch(st: State, command: string, s: Sensors, k: nat)
    requires FirstMatch(UartKeys, command) == Some(k) && FirstSetter <= k
    requires !(Gated(k) && Pin(st.rails, DriverEn)) ==> HasArgument(command)
    requires |s.coefficients| == 7
    ensures UartParses(st.rails, command)
    ensures UartCommand(st, command, s) == UartSetter(st, k, command)
  {
  }

  /** Driving a rail sets its level, records the write, and leaves every other rail and field alone. */
  lemma DrivenLevels(st: State, r: Rail, level: bool)
    ensures var st1 := Driven(st, r, level);
      Pin(st1.rails, r) == level
      && (forall r' :: r' != r ==> Pin(st1.rails, r') == Pin(st.rails, r'))
      && st1.drives == st.drives + [PinWrite(r, level)]
      && st1 == st.(rails := st1.rails, drives := st1.drives)
  {
  }

  /** The rewritten command "NAME value" splits into the keyword and the value, which atoi reads back. */
  lemma SetterEcho(k: nat, i: int)
    requires FirstSetter <= k < |UartKeys|
    ensures var echo := Rewrite(UartKeys[k], i);
      Tokens(echo) == [UartKeys[k], IntToString(i)] && Atoi(Tokens(echo)[1]) == i
  {
    SetterKeysAreWords(k);
    TokensOfCommand(UartKeys[k], IntToString(i));
    AtoiIntToString(i);
  }

  /** Of the ungated setters only DRIVER_EN drives the driver's disable pin. */
  lemma SetterRailDriver(k: nat)
    requires FirstSetter <= k < |UartKeys|
    ensures SetterRail(k) == DriverEn <==> k == 14
  {
    assert SetterRails[k - FirstSetter] == DriverEn <==> k - FirstSetter == 4;
  }

  /** An ungated setter drives its rail, DRIVER_EN to high (driver disabled) on 1 only and the others on any value but 0. */
  lemma PlainSetLevels(st: State, command: string, k: nat)
    requires FirstSetter <= k < |UartKeys| && HasArgument(command)
    ensures var i := ArgumentValue(command);
      PlainSet(st, k, command)
        == Handled(Driven(st, SetterRail(k), if SetterRail(k) == DriverEn then i == 1 else i != 0), true, Rewrite(UartKeys[k], i))
  {
    SetterRailDriver(k);
  }

  /** An ungated setter keyword reaches its setter; the echo is "NAME value" (see SetterEcho). */
  lemma PlainSetter(st: State, command: string, s: Sensors, k: nat)
    requires FirstMatch(UartKeys, command) == Some(k) && FirstSetter <= k && !Gated(k)
    requires HasArgument(command) && |s.coefficients| == 7
    ensures UartParses(st.rails, command)
    ensures var i := ArgumentValue(command);
      UartCommand(st, command, s)
        == Handled(Driven(st, SetterRail(k), if SetterRail(k) == DriverEn then i == 1 else i != 0), true, Rewrite(UartKeys[k], i))
  {
    SetterDispatch(st, command, s, k);
    PlainSetLevels(st, command, k);
  }

  /** Main_PWR_EN while the driver is disabled (its pin high) only reports the Main power level. */
  lemma MainPowerHeld(st: State, command: string, s: Sensors)
    requires FirstMatch(UartKeys, command) == Some(MainSetter) && Pin(st.rails, DriverEn)
    requires |s.coefficients| == 7
    ensures UartParses(st.rails, command)
    ensures UartCommand(st, command, s)
      == Handled(st.(log := st.log + [Field(MainName, Bit(Pin(st.rails, MainPwr)))]), true, MainUnchanged)
  {
    SetterDispatch(st, command, s, MainSetter);
  }

  /** Main_PWR_EN while the driver is enabled switches Main power and echoes the value it read. */
  lemma MainPowerSwitched(st: State, command: string, s: Sensors)
    requires FirstMatch(UartKeys, command) == Some(MainSetter) && !Pin(st.rails, DriverEn)
    requires HasArgument(command) && |s.coefficients| == 7
    ensures UartParses(st.rails, command)
    ensures var i := ArgumentValue(command);
      UartCommand(st, command, s) == Handled(MainSwitched(st, i), true, Rewrite(MainName, i))
  {
    SetterDispatch(st, command, s, MainSetter);
  }

  /** Switching Main power off also ends the SPI session; either way the switch is logged and no other rail moves. */
  lemma MainSwitchedLevels(st: State, i: int)
    ensures var st1 := MainSwitched(st, i);
      Pin(st1.rails, MainPwr) == (i != 0)
      && (forall r :: r != MainPwr ==> Pin(st1.rails, r) == Pin(st.rails, r))
      && st1.drives == st.drives + [PinWrite(MainPwr, i != 0)]
      && st1.spiInitialized == (st.spiInitialized && i != 0)
      && st1.log == st.log + [Text(if i == 0 then MainOff else MainOn)]
  {
  }

  /** WCM_RLY while the driver is disabled only reports the relay level. */
  lemma RelayHeld(st: State, command: string, s: Sensors)
    requires FirstMatch(UartKeys, command) == Some(RelaySetter) && Pin(st.rails, DriverEn)
    requires |s.coefficients| == 7
    ensures UartParses(st.rails, command)
    ensures UartCommand(st, command, s)
      == Handled(st.(log := st.log + [Field(RelayName, Bit(Pin(st.rails, WcmRly)))]), true, RelayUnchanged)
  {
    SetterDispatch(st, command, s, RelaySetter);
  }

  /** WCM_RLY while the driver is enabled runs the relay sequence, then reports the new WCM power level. */
  lemma RelaySwitched(st: State, command: string)
    requires !Pin(st.rails, DriverEn) && HasArgument(command)
    ensures var i := ArgumentValue(command);
      RelaySet(st, command)
        == Handled(Logged(Relayed(st, i != 0), [Field(WcmPowerName, Bit(i != 0))]), true, Rewrite(RelayName, i))
  {
    RelayedLevels(st, ArgumentValue(command) != 0);
  }

  /**
   * The relay sequence: off drops WCM power before opening the relay, on
   * closes the relay before powering the WCM; both end at the same level
   * and no other rail moves.
   */
  lemma RelayedLevels(st: State, on: bool)
    ensures var st1 := Relayed(st, on);
      Pin(st1.rails, WcmPwr) == on && Pin(st1.rails, WcmRly) == on
      && (forall r :: r != WcmPwr && r != WcmRly ==> Pin(st1.rails, r) == Pin(st.rails, r))
      && st1.drives == st.drives
           + (if on then [PinWrite(WcmRly, true), PinWrite(WcmPwr, true)]
              else [PinWrite(WcmPwr, false), PinWrite(WcmRly, false)])
      && st1 == st.(rails := st1.rails, drives := st1.drives)
  {
  }

  /**
   * read_power_bits reports a setter's rail, under the setter's keyword and
   * at the rail's level, exactly when the setter is neither BATT_SER_PWR_EN
   * nor CTD_PWR_EN.
   */
  lemma PowerLineOfSetter(rails: map<Rail, bool>, k: nat)
    requires FirstSetter <= k < |UartKeys|
    ensures Field(UartKeys[k], Bit(Pin(rails, SetterRail(k)))) in PowerLines(rails) <==> k != 12 && k != 13
  {
    var ms := PowerLines(rails);
    if k != 12 && k != 13 {
      var j := if k < 12 then k - FirstSetter else k - 12;
      assert ReportedSetters[j] == k;
      assert ms[j] == Field(UartKeys[k], Bit(Pin(rails, SetterRail(k))));
    } else {
      forall j | 0 <= j < |ms|
        ensures ms[j].key != UartKeys[k]
      {
        var r := ReportedSetters[j];
        assert ms[j].key == UartKeys[r];
        assert |UartKeys[r]| != |UartKeys[k]| || UartKeys[r][0] != UartKeys[k][0];
      }
    }
  }

  // ------------------------------------------------------------ SPI frames

  /** A frame without LEAK in it reaches its setter unchanged. */
  lemma SpiSetterDispatch(st: State, frame: string, s: Sensors, k: nat)
    requires FirstMatch(SpiKeys, frame) == Some(k) && FirstSpiSetter <= k && !Contains(frame, "LEAK")
    requires !(k == RelaySpiSetter && !Pin(st.rails, DriverEn)) ==> HasArgument(frame)
    ensures SpiParses(st.rails, frame)
    ensures SpiCommand(st, frame, s) == SpiSet(st, k, frame)
  {
  }

  /** A RESP frame (without LEAK in it) only continues the read-out. */
  lemma RespDispatch(st: State, frame: string, s: Sensors)
    requires FirstMatch(SpiKeys, frame) == Some(Resp) && !Contains(frame, "LEAK")
    ensures SpiParses(st.rails, frame)
    ensures SpiCommand(st, frame, s) == RespFrame(st)
  {
  }

  /** RESP changes only the answer buffer and the read-out count: no driver is called and last_command stays. */
  lemma RespOnlyReadsOut(st: State)
    ensures var st1 := RespFrame(st);
      st1 == st.(tx := st1.tx, session := st.session.(sent := st1.session.sent))
  {
    match FirstMatch(RespKeys, st.session.last)
    case None =>
    case Some(j) =>
      if j != 0 {
        var q := st.session;
        var w := if j == 1 then LtcNext(q)
          else if j == 2 then (if q.sent == 1 then Decimal(q.msTemperature, 2) else Dashes)
          else if j == 3 then PowerNext(q) else StatusNext(q);
        assert RespFrame(st) == Continued(st, w);
        ContinuedOnlyReadsOut(st, w);
      }
  }

  /** Continuing a read-out changes only the answer and the count. */
  lemma ContinuedOnlyReadsOut(st: State, w: Word)
    ensures var st1 := Continued(st, w);
      st1 == st.(tx := st1.tx, session := st.session.(sent := st1.session.sent))
  {
  }

  /**
   * The console's DRIVER_EN and the SPI DRIVER setters drive the driver's
   * disable pin with opposite polarity: "DRIVER_EN 1" disables the driver,
   * "DRIVER 1" enables it (PlainSetter and SpiSetterDispatch give the
   * dispatch to these setters).
   */
  lemma DriverPolarity(st: State, command: string, frame: string)
    requires HasArgument(command) && HasArgument(frame)
    ensures var i := ArgumentValue(command); var j := ArgumentValue(frame);
      Pin(PlainSet(st, 14, command).state.rails, DriverEn) == (i == 1)
      && Pin(SpiSet(st, 11, frame).rails, DriverEn) == (j == 0)
  {
    DriverEnLevel(st, command);
    DriverLevel(st, frame);
  }

  /** The console's DRIVER_EN: the disable pin goes high on 1 only. */
  lemma DriverEnLevel(st: State, command: string)
    requires HasArgument(command)
    ensures Pin(PlainSet(st, 14, command).state.rails, DriverEn) == (ArgumentValue(command) == 1)
  {
    SetterRailDriver(14);
    DrivenLevels(st, DriverEn, ArgumentValue(command) == 1);
  }

  /** The SPI DRIVER: the disable pin goes high on 0 only. */
  lemma DriverLevel(st: State, frame: string)
    requires HasArgument(frame)
    ensures Pin(SpiSet(st, 11, frame).rails, DriverEn) == (ArgumentValue(frame) == 0)
  {
    DrivenLevels(st, DriverEn, ArgumentValue(frame) == 0);
  }

  /**
   * The SPI WCM_EN command runs the relay sequence of WCM_RLY, but only
   * while the driver is disabled (its pin high), the opposite of the
   * console's gate; otherwise the frame changes nothing at all.
   */
  lemma SpiRelayGate(st: State, frame: string, s: Sensors)
    requires FirstMatch(SpiKeys, frame) == Some(RelaySpiSetter) && !Contains(frame, "LEAK")
    requires Pin(st.rails, DriverEn) ==> HasArgument(frame)
    ensures SpiParses(st.rails, frame)
    ensures !Pin(st.rails, DriverEn) ==> SpiCommand(st, frame, s) == st
    ensures Pin(st.rails, DriverEn) ==> SpiCommand(st, frame, s) == Relayed(st, ArgumentValue(frame) != 0)
  {
    SpiSetterDispatch(st, frame, s, RelaySpiSetter);
  }

  /**
   * A failed LTC2944, MS5637 or MC3416 read leaves the answer buffer and
   * the read-out count as they were, and logs one line; a successful one
   * answers with its first value and starts the read-out at 1.
   */
  lemma PrimaryReadAnswer(st: State, frame: string, s: Sensors, k: nat)
    requires FirstMatch(SpiKeys, frame) == Some(k) && 1 <= k <= 3 && !Contains(frame, "LEAK")
    ensures SpiParses(st.rails, frame)
    ensures var st1 := SpiCommand(st, frame, s);
      var status := if k == 1 then s.ltc else if k == 2 then s.ms else s.tilt;
      st1.session.last == frame
      && (status != Ok ==> st1.tx == st.tx && st1.session.sent == st.session.sent && |st1.log| == |st.log| + 1)
      && (status == Ok ==>
            st1.session.sent == 1 && st1.log == st.log
            && st1.tx == (if k == 1 then Decimal(s.values.voltage, 3) else if k == 2 then Decimal(s.reading.pressure, 2) else Decimal(s.angle, 2)))
  {
  }

  /**
   * The LEAK test stands apart from the chain, so a frame with LEAK and no
   * other keyword is answered with the leak voltage and then also logged as
   * an unknown command.
   */
  lemma LeakFrameAlsoUnknown(st: State, frame: string, s: Sensors)
    requires Contains(frame, "LEAK") && FirstMatch(SpiKeys, frame) == None
    ensures SpiParses(st.rails, frame)
    ensures var st1 := SpiCommand(st, frame, s);
      st1.session.last == frame
      && (s.leak == Ok ==> st1.tx == Decimal(s.volts, 2))
      && st1.log == st.log + Failure(s.leak, SpiLeakFailed) + [UnknownFrame]
  {
  }

  // ---------------------------------------------------------- RESP read-out

  /** The values RESP sends after the last primary frame, in order (the reference read-out table). */
  function Pending(q: Session): seq<Word>
  {
    match FirstMatch(RespKeys, q.last)
    case None => []
    case Some(j) => PendingFor(j, q)
  }

  /** The values RESP sends after a primary frame with RESP key j. */
  function PendingFor(j: nat, q: Session): seq<Word>
  {
    var g := q.gauge;
    var p := q.power;
    var b := q.status;
    if j == 0 then []
    else if j == 1 then [Decimal(g.current, 3), Decimal(g.temperature, 2), Decimal(g.charge, 2), Integer(g.statusValue)]
    else if j == 2 then [Decimal(q.msTemperature, 2)]
    else if j == 3 then
      [Integer(Flag(p.batt)), Integer(Flag(p.driver)), Integer(Flag(p.vbs)), Integer(Flag(p.vbsSerial)),
       Integer(Flag(p.wcmD)), Integer(Flag(p.wcmP)), Integer(Flag(p.wcmR))]
    else [Integer(Flag(b.gpio1)), Integer(Flag(b.gpio2)), Integer(Flag(b.pg)), Integer(Flag(b.alcc)), Integer(Flag(b.fault))]
  }

  /** The values of p not yet sent after `sent` words (the first went with the primary frame). */
  function Unsent(p: seq<Word>, sent: nat): seq<Word>
  {
    if sent == 0 || sent - 1 >= |p| then [] else p[sent - 1..]
  }

  /** The values still to be sent. */
  function Remaining(q: Session): seq<Word>
  {
    Unsent(Pending(q), q.sent)
  }

  /** The words n successive RESP frames load for the master to read. */
  function Drain(st: State, n: nat): seq<Word>
    decreases n
  {
    if n == 0 then [] else var st1 := RespFrame(st); [st1.tx] + Drain(st1, n - 1)
  }

  /** One RESP: the next remaining value with the count raised, or dashes with nothing else changed. */
  lemma RespStep(st: State)
    requires FirstMatch(RespKeys, st.session.last).Some?
    ensures var q := st.session; var st1 := RespFrame(st);
      (Remaining(q) != [] ==> st1 == st.(tx := Remaining(q)[0], session := q.(sent := q.sent + 1))
                              && Remaining(st1.session) == Remaining(q)[1..])
      && (Remaining(q) == [] ==> st1 == st.(tx := Dashes) && Remaining(st1.session) == [])
  {
    var q := st.session;
    var r := Remaining(q);
    RespWord(st);
    if r != [] {
      RemainingAdvance(q);
      assert RespFrame(st) == st.(tx := r[0], session := q.(sent := q.sent + 1));
    } else {
      assert RespFrame(st) == st.(tx := Dashes);
    }
  }

  /** Raising the count drops the first remaining value. */
  lemma RemainingAdvance(q: Session)
    requires Remaining(q) != []
    ensures Remaining(q.(sent := q.sent + 1)) == Remaining(q)[1..]
  {
    PendingSent(q, q.sent + 1);
    UnsentAdvance(Pending(q), q.sent);
  }

  /** The read-out table does not depend on how much of it was sent. */
  lemma PendingSent(q: Session, k: nat)
    ensures Pending(q.(sent := k)) == Pending(q)
  {
    var q1 := q.(sent := k);
    assert q1.last == q.last && q1.gauge == q.gauge && q1.power == q.power;
    assert q1.status == q.status && q1.msTemperature == q.msTemperature;
  }

  /** Sending one more value drops the first of those not yet sent. */
  lemma UnsentAdvance(p: seq<Word>, sent: nat)
    requires Unsent(p, sent) != []
    ensures Unsent(p, sent + 1) == Unsent(p, sent)[1..]
  {
  }

  /** A RESP frame loads the first remaining value, or dashes when none remains. */
  lemma RespWord(st: State)
    requires FirstMatch(RespKeys, st.session.last).Some?
    ensures var r := Remaining(st.session);
      RespFrame(st) == Continued(st, if r != [] then r[0] else Dashes) && (r != [] ==> r[0] != Dashes)
  {
    var q := st.session;
    var j := FirstMatch(RespKeys, q.last).value;
    if j == 0 {
    } else if j == 1 {
      HeadIs(q, j, LtcNext(q));
    } else if j == 2 {
      HeadIs(q, j, if q.sent == 1 then Decimal(q.msTemperature, 2) else Dashes);
    } else if j == 3 {
      HeadIs(q, j, PowerNext(q));
    } else {
      HeadIs(q, j, StatusNext(q));
    }
  }

  /** The word RESP key j loads is the first unsent value, or dashes when none remains. */
  lemma HeadIs(q: Session, j: nat, w: Word)
    requires 0 < j
    requires w == (if j == 1 then LtcNext(q)
      else if j == 2 then (if q.sent == 1 then Decimal(q.msTemperature, 2) else Dashes)
      else if j == 3 then PowerNext(q) else StatusNext(q))
    ensures var r := Unsent(PendingFor(j, q), q.sent); w == (if r != [] then r[0] else Dashes) && (r != [] ==> r[0] != Dashes)
  {
  }

  /** Successive RESP frames send the remaining values in order, then dashes for ever. */
  lemma {:induction false} ReadOut(st: State, n: nat)
    requires FirstMatch(RespKeys, st.session.last).Some?
    ensures Drain(st, n) == Padded(Remaining(st.session), n)
    decreases n
  {
    if n > 0 {
      var st1 := RespFrame(st);
      RespStep(st);
      ReadOut(st1, n - 1);
      PaddedStep(Remaining(st.session), n);
      assert Drain(st, n) == [st1.tx] + Drain(st1, n - 1);
    }
  }

  /**
   * After a POWER frame, successive RESP frames send the battery-select,
   * driver, VBS, VBS serial, WCM diagnostics, WCM power and relay levels
   * captured by that frame, then dashes.
   */
  lemma PowerReadOut(st: State, frame: string, s: Sensors, n: nat)
    requires FirstMatch(SpiKeys, frame) == Some(6) && !Contains(frame, "LEAK")
    ensures SpiParses(st.rails, frame)
    ensures var r := st.rails;
      Drain(SpiCommand(st, frame, s), n) == Padded(
        [Integer(Flag(Pin(r, BattSel))), Integer(Flag(Pin(r, DriverEn))), Integer(Flag(Pin(r, VbsPwr))),
         Integer(Flag(Pin(r, VbsSerPwr))), Integer(Flag(Pin(r, WcmDiag))), Integer(Flag(Pin(r, WcmPwr))),
         Integer(Flag(Pin(r, WcmRly)))], n)
  {
    var st1 := PowerFrame(st, frame, s);
    PowerDrain(st, st1, n);
  }

  /** A POWER frame records itself and the power levels, and counts its first value as sent. */
  lemma PowerFrame(st: State, frame: string, s: Sensors) returns (st1: State)
    requires FirstMatch(SpiKeys, frame) == Some(6) && !Contains(frame, "LEAK")
    ensures SpiParses(st.rails, frame)
    ensures st1 == SpiCommand(st, frame, s)
    ensures var r := st.rails;
      FirstMatch(RespKeys, st1.session.last) == Some(3) && st1.session.sent == 1
      && st1.session.power == PowerBits(Pin(r, BattSel), Pin(r, DriverEn), Pin(r, VbsPwr), Pin(r, VbsSerPwr),
                                        Pin(r, WcmDiag), Pin(r, WcmPwr), Pin(r, WcmRly))
  {
    st1 := SpiCommand(st, frame, s);
    assert SpiKeys[1] == RespKeys[1] && SpiKeys[2] == RespKeys[2] && SpiKeys[6] == RespKeys[3];
    assert FirstMatchFrom(RespKeys, frame, 3) == Some(3);
  }

  /** After a POWER frame the read-out is the captured levels in order. */
  lemma PowerDrain(st: State, st1: State, n: nat)
    requires var r := st.rails;
      FirstMatch(RespKeys, st1.session.last) == Some(3) && st1.session.sent == 1
      && st1.session.power == PowerBits(Pin(r, BattSel), Pin(r, DriverEn), Pin(r, VbsPwr), Pin(r, VbsSerPwr),
                                        Pin(r, WcmDiag), Pin(r, WcmPwr), Pin(r, WcmRly))
    ensures var r := st.rails;
      Drain(st1, n) == Padded(
        [Integer(Flag(Pin(r, BattSel))), Integer(Flag(Pin(r, DriverEn))), Integer(Flag(Pin(r, VbsPwr))),
         Integer(Flag(Pin(r, VbsSerPwr))), Integer(Flag(Pin(r, WcmDiag))), Integer(Flag(Pin(r, WcmPwr))),
         Integer(Flag(Pin(r, WcmRly)))], n)
  {
    ReadOut(st1, n);
    var q := st1.session;
    assert Remaining(q) == Unsent(PendingFor(3, q), q.sent);
  }

  // ----------------------------------------------------------------- pm_run

  /** pm_init leaves 3V3VA on, the driver enabled, Main power untouched and every other rail off. */
  lemma StartUpLevels(st: State, s: Sensors)
    ensures var r := Initialized(st, s).rails;
      Pin(r, V3v3va) && Pin(r, MainPwr) == Pin(st.rails, MainPwr)
      && !Pin(r, DriverEn) && !Pin(r, BattSel) && !Pin(r, BattSerPwr) && !Pin(r, LtcI2c) && !Pin(r, CtdPwr)
      && !Pin(r, VbsPwr) && !Pin(r, VbsSerPwr) && !Pin(r, WcmDiag) && !Pin(r, WcmPwr) && !Pin(r, WcmRly)
    ensures Initialized(st, s).drives == st.drives + InitWrites + [PinWrite(LtcI2c, true), PinWrite(LtcI2c, false)]
    ensures var st1 := Initialized(st, s);
      var ltc := Text(if s.ltcInit == Ok then LtcInitDone else LtcInitFailed);
      var ms := Text(if s.msInit == Ok then MsInitDone else MsInitFailed);
      var mc := Text(if s.mcInit == Ok then McInitDone else McInitFailed);
      st1.log == st.log + [ltc, ms, mc] && st1.vbs == st.vbs + [ltc, ms, mc]
      && st1.session == st.session && st1.tx == st.tx
      && st1.spiInitialized == st.spiInitialized && st1.timerElapsed == st.timerElapsed
  {
    var st0 := st.(rails := StartRails(st.rails), drives := st.drives + InitWrites);
    ReinitializedEffect(st0, s);
    var r := StartRails(st.rails)[LtcI2c := false];
    assert Pin(r, V3v3va) && Pin(r, MainPwr) == Pin(st.rails, MainPwr);
    Assoc(st.drives, InitWrites, [PinWrite(LtcI2c, true), PinWrite(LtcI2c, false)]);
  }

  /** initInternalHW: the LTC2944 I2C enable pulsed, and the three results sent to both ports, in order. */
  lemma ReinitializedEffect(st: State, s: Sensors)
    ensures var ltc := Text(if s.ltcInit == Ok then LtcInitDone else LtcInitFailed);
      var ms := Text(if s.msInit == Ok then MsInitDone else MsInitFailed);
      var mc := Text(if s.mcInit == Ok then McInitDone else McInitFailed);
      Reinitialized(st, s) == st.(rails := st.rails[LtcI2c := false],
                                  drives := st.drives + [PinWrite(LtcI2c, true), PinWrite(LtcI2c, false)],
                                  log := st.log + [ltc, ms, mc], vbs := st.vbs + [ltc, ms, mc])
  {
    assert st.rails[LtcI2c := true][LtcI2c := false] == st.rails[LtcI2c := false];
  }

  /**
   * A pass that receives "pm_ping" on the console, with no SPI activity,
   * logs the ping, echoes the command as valid, then sleeps and wakes with
   * the flag cleared.
   */
  lemma PingSleeps(st: State, ev: Event)
    requires Admissible(st, ev) && ev.line.Some? && FirstMatch(UartKeys, ev.line.value) == Some(1)
    requires !ev.complete && (st.spiInitialized || !ev.slaveSelect)
    ensures var st1 := Slept(Pass(st, ev));
      !st1.timerElapsed
      && st1.log == st.log + [Text(PingReceived), Text(ev.line.value), Text(" "), Text(ValidText),
                              Text(EnteringSleep), Text(ExitingSleep)]
  {
    assert SpiPass(st, ev) == st;
    PingHandled(st, ev);
  }

  /** The console part of a pass that receives "pm_ping": the ping logged and echoed as valid, the flag set. */
  lemma PingHandled(st: State, ev: Event)
    requires ConsoleAdmits(st, ev) && ev.line.Some? && FirstMatch(UartKeys, ev.line.value) == Some(1)
    ensures ConsolePass(st, ev) == st.(timerElapsed := true,
      log := st.log + [Text(PingReceived), Text(ev.line.value), Text(" "), Text(ValidText)])
  {
  }

  /** A received command with no keyword is only echoed, followed by INVALID. */
  lemma UnknownCommandEchoed(st: State, ev: Event)
    requires ConsoleAdmits(st, ev) && ev.line.Some? && FirstMatch(UartKeys, ev.line.value) == None
    ensures ConsolePass(st, ev) == st.(log := st.log + [Text(ev.line.value), Text(" "), Text(InvalidText)])
  {
  }

  // ------------------------------------------- gated setters without argument

  /** A Main_PWR_EN or WCM_RLY command without argument can be handled exactly while the driver is disabled. */
  lemma GatedParses(rails: map<Rail, bool>, command: string)
    requires FirstMatch(UartKeys, command) in {Some(MainSetter), Some(RelaySetter)} && !HasArgument(command)
    ensures UartParses(rails, command) <==> Pin(rails, DriverEn)
  {
  }

  /** A WCM_EN frame without argument can be served exactly while the driver is enabled. */
  lemma SpiGatedParses(rails: map<Rail, bool>, frame: string)
    requires FirstMatch(SpiKeys, frame) == Some(RelaySpiSetter) && !HasArgument(frame)
    ensures SpiParses(rails, frame) <==> !Pin(rails, DriverEn)
  {
  }

  /** For each keyword before the setter, a character of it that the bare setter name lacks. */
  const MainWitness := "rprrrczrrr+BBCD"
  const RelayWitness := "rprrrczrrr+BBTDaVVDP"
  const SpiRelayWitness := "pLSrczPSR+BDVVDP"

  /** The SPI relay keyword "WCM_EN" as a frame of its own. */
  const SpiRelayName := "WCM_EN"

  lemma MainWitnessed()
    ensures |MainWitness| == MainSetter
    ensures forall j :: 0 <= j < MainSetter ==> MainWitness[j] in UartKeys[j] && MainWitness[j] !in MainName
  {
  }

  lemma RelayWitnessed()
    ensures |RelayWitness| == RelaySetter
    ensures forall j :: 0 <= j < RelaySetter ==> RelayWitness[j] in UartKeys[j] && RelayWitness[j] !in RelayName
  {
  }

  lemma SpiRelayWitnessed()
    ensures |SpiRelayWitness| == RelaySpiSetter
    ensures forall j :: 0 <= j < RelaySpiSetter ==> SpiRelayWitness[j] in SpiKeys[j] && SpiRelayWitness[j] !in SpiRelayName
  {
  }

  /** "Main_PWR_EN" alone is dispatched to the Main setter. */
  lemma MainAlone()
    ensures FirstMatch(UartKeys, MainName) == Some(MainSetter)
  {
    MainWitnessed();
    FirstByWitness(UartKeys, MainWitness, MainName, MainSetter);
  }

  /** "WCM_RLY" alone is dispatched to the relay setter. */
  lemma RelayAlone()
    ensures FirstMatch(UartKeys, RelayName) == Some(RelaySetter)
  {
    RelayWitnessed();
    FirstByWitness(UartKeys, RelayWitness, RelayName, RelaySetter);
  }

  /** "WCM_EN" alone is dispatched to the SPI relay setter. */
  lemma SpiRelayAlone()
    ensures FirstMatch(SpiKeys, SpiRelayName) == Some(RelaySpiSetter)
  {
    SpiRelayWitnessed();
    FirstByWitness(SpiKeys, SpiRelayWitness, SpiRelayName, RelaySpiSetter);
  }

  /** "Main_PWR_EN" alone can be handled exactly while the driver is disabled: it then only reports (MainPowerHeld). */
  lemma MainWithoutArgument(rails: map<Rail, bool>)
    ensures UartParses(rails, MainName) <==> Pin(rails, DriverEn)
  {
    MainAlone();
    WordHasNoArgument(MainName);
    GatedParses(rails, MainName);
  }

  /** "WCM_RLY" alone can be handled exactly while the driver is disabled: it then only reports (RelayHeld). */
  lemma RelayWithoutArgument(rails: map<Rail, bool>)
    ensures UartParses(rails, RelayName) <==> Pin(rails, DriverEn)
  {
    RelayAlone();
    WordHasNoArgument(RelayName);
    GatedParses(rails, RelayName);
  }

  /** The frame "WCM_EN" alone can be served exactly while the driver is enabled: it then does nothing (SpiRelayGate). */
  lemma SpiRelayWithoutArgument(rails: map<Rail, bool>)
    ensures SpiParses(rails, SpiRelayName) <==> !Pin(rails, DriverEn)
  {
    SpiRelayAlone();
    WordHasNoArgument(SpiRelayName);
    SpiGatedParses(rails, SpiRelayName);
  }

  /** Without a completed transfer the SPI part of a pass only arms, and no pin moves. */
  lemma IdleSpi(st: State, ev: Event)
    requires !ev.complete
    ensures SpiAdmits(st, ev) && SpiPass(st, ev) == Arming(st, ev) && Arming(st, ev).rails == st.rails
  {
  }

  /**
   * A pass with no completed transfer that receives a WCM_RLY or
   * Main_PWR_EN command without argument (such as the bare name,
   * RelayWithoutArgument) is admissible exactly while the driver is
   * disabled.
   */
  lemma GatedQueryPass(st: State, ev: Event)
    requires !ev.complete && |ev.uartSensors.coefficients| == 7 && ev.line.Some?
    requires FirstMatch(UartKeys, ev.line.value) in {Some(MainSetter), Some(RelaySetter)} && !HasArgument(ev.line.value)
    ensures Admissible(st, ev) <==> Pin(st.rails, DriverEn)
  {
    IdleSpi(st, ev);
    GatedParses(st.rails, ev.line.value);
  }

  /**
   * A pass with SPI initialised and no command that serves a WCM_EN frame
   * without argument (such as the bare name, SpiRelayWithoutArgument) is
   * admissible exactly while the driver is enabled.
   */
  lemma SpiRelayQueryPass(st: State, ev: Event)
    requires st.spiInitialized && ev.complete && ev.line.None? && |ev.uartSensors.coefficients| == 7
    requires FirstMatch(SpiKeys, ev.frame) == Some(RelaySpiSetter) && !HasArgument(ev.frame)
    ensures Admissible(st, ev) <==> !Pin(st.rails, DriverEn)
  {
    NoCommandAdmits(st, ev);
    assert Arming(st, ev) == st;
    SpiGatedParses(st.rails, ev.frame);
  }

  /** A pass that receives no command is admissible exactly when its SPI part is. */
  lemma NoCommandAdmits(st: State, ev: Event)
    requires ev.line.None? && |ev.uartSensors.coefficients| == 7
    ensures Admissible(st, ev) <==> SpiAdmits(st, ev)
  {
    if SpiAdmits(st, ev) {
      var st1 := SpiPass(st, ev);
      assert ConsoleAdmits(st1, ev);
    }
  }
}
