/**
 * Persistence of the accelerometer offsets through the EEPROM emulator
 * (pm_eeprom.c): three 16-bit values stored little-endian at byte offsets
 * 0, 2 and 4 of a 6-byte block, passed through a static buffer.
 */
module Eeprom {
  import opened Common
  import opened Hal

  const DataLength: nat := 6

  /** The three values persisted: the x, y and z accelerometer offsets. */
  datatype Offsets = Offsets(x: u16, y: u16, z: u16)

  /** A 16-bit value from its low and high byte. */
  function Word(lo: u8, hi: u8): u16
  {
    lo as int + hi as int * 256
  }

  /** The 6-byte block: each value low byte first, at offsets 0, 2 and 4. */
  function Encode(o: Offsets): (b: seq<u8>)
    ensures |b| == DataLength
    ensures Word(b[0], b[1]) == o.x && Word(b[2], b[3]) == o.y && Word(b[4], b[5]) == o.z
  {
    [o.x % 256, o.x / 256, o.y % 256, o.y / 256, o.z % 256, o.z / 256]
  }

  /** The values read back from a block: each the low byte or-ed with the high byte shifted by 8. */
  function Decode(b: seq<u8>): Offsets
    requires |b| >= DataLength
  {
    Offsets(Word(b[0], b[1]), Word(b[2], b[3]), Word(b[4], b[5]))
  }

  /** What is written is what is read back. */
  lemma DecodeEncode(o: Offsets)
    ensures Decode(Encode(o)) == o
  {
  }

  /** Every 6-byte block is the encoding of the values it decodes to. */
  lemma EncodeDecode(b: seq<u8>)
    requires |b| == DataLength
    ensures Encode(Decode(b)) == b
  {
    var o := Decode(b);
    LowHigh(b[0], b[1]);
    LowHigh(b[2], b[3]);
    LowHigh(b[4], b[5]);
  }

  lemma LowHigh(lo: u8, hi: u8)
    ensures Word(lo, hi) % 256 == lo && Word(lo, hi) / 256 == hi
  {
  }

  const ReadBufferFailed := Text("eeprom_configure: STATUS_ERR_READ_EEPROM\r\n")
  const WriteBufferFailed := Text("eeprom_configure: STATUS_ERR_WRITE_EEPROM_BUFFER\r\n")
  const CommitFailed := Text("eeprom_configure: STATUS_ERR_WRITE_EEPROM_COMMIT\r\n")

  /** The console lines eeprom_write_settings leaves, given the write's and the commit's status. */
  function WriteLog(write: Status, commit: Status): seq<Msg>
  {
    (if write == Ok then [] else [WriteBufferFailed]) + (if commit == Ok then [] else [CommitFailed])
  }

  const ConfigureOk := Text("eeprom_configure: STATUS_OK\r\n")
  const HaveToRead := Text("eeprom_configure: Have to read settings\r\n")
  const NoMemory := Text("eeprom_configure: STATUS_ERR_NO_MEMORY\r\n")
  /** The lines eeprom_configure sends before erasing the memory. */
  const EraseLines: seq<Msg> := [
    Text("eeprom_configure: STATUS_ERR_BAD_FORMAT\r\n"), Text("eeprom_configure: or\r\n"),
    Text("eeprom_configure: STATUS_ERR_IO\r\n"), Text("eeprom_configure: Have to erase and initialize\r\n")]
  /** The lines it sends once the re-initialisation worked. */
  const RestoreLines: seq<Msg> := [
    Text("eeprom_configure: STATUS_OK 2\r\n"), Text("eeprom_configure: Have to write settings\r\n")]

  /**
   * What eeprom_configure does: the values it hands back, the emulator
   * calls it makes, the bytes stored afterwards, how many status answers
   * it consumes and the console lines it sends.
   */
  datatype Configured = Configured(offsets: Offsets, calls: seq<EepromCall>, store: seq<u8>, used: nat, log: seq<Msg>)

  /** eeprom_configure with the emulator answering statuses and holding store. */
  function ConfigureEffect(statuses: seq<Status>, store: seq<u8>, prior: Offsets): (c: Configured)
    requires |statuses| >= 4
    ensures c.used <= 4
  {
    var first := statuses[0];
    if first == Ok then
      var read := statuses[1];
      Configured(if read == Ok then Decode(Fit(store, DataLength)) else prior,
                 [InitCall, ReadCall(0, DataLength)], store, 2,
                 [ConfigureOk, HaveToRead] + (if read == Ok then [] else [ReadBufferFailed]))
    else if first == ErrNoMemory then Configured(prior, [InitCall], store, 1, [NoMemory])
    else if statuses[1] == Ok then
      Configured(prior, [InitCall, EraseCall, InitCall, WriteCall(0, Encode(prior)), CommitCall],
                 if statuses[2] == Ok then Encode(prior) else store, 4,
                 EraseLines + RestoreLines + WriteLog(statuses[2], statuses[3]))
    else Configured(prior, [InitCall, EraseCall, InitCall], store, 2, EraseLines)
  }

  class Settings {
    /** eeprom_data: the static buffer the block passes through. */
    const data: array<u8>

    constructor()
      ensures data.Length == DataLength && fresh(data)
    {
      data := new u8[DataLength](_ => 0);
    }

    /**
     * eeprom_read_settings: on a successful read the buffer holds the stored
     * block and the values are decoded from it; otherwise a message is
     * logged and the values are those the caller passed in.
     */
    method ReadSettings(emu: Emulator, con: Console, prior: Offsets) returns (o: Offsets)
      requires data.Length == DataLength
      requires |emu.statuses| >= 1
      modifies data, emu, con
      ensures emu.statuses == old(emu.statuses)[1..] && emu.store == old(emu.store)
      ensures emu.calls == old(emu.calls) + [ReadCall(0, DataLength)]
      ensures old(emu.statuses)[0] == Ok ==>
        data[..] == Fit(emu.store, DataLength) && o == Decode(data[..]) && con.log == old(con.log)
      ensures old(emu.statuses)[0] != Ok ==>
        o == prior && data[..] == old(data[..])
        && con.log == old(con.log) + [ReadBufferFailed]
    {
      var status, bytes := emu.ReadBuffer(DataLength);
      if status == Ok {
        forall i | 0 <= i < DataLength {
          data[i] := bytes[i];
        }
        o := Decode(data[..]);
      } else {
        con.Send(ReadBufferFailed);
        o := prior;
      }
    }

    /** The clearing loop of eeprom_write_settings: every byte of the buffer becomes 0. */
    method Clear()
      modifies data
      ensures forall k :: 0 <= k < data.Length ==> data[k] == 0
    {
      for i := 0 to data.Length
        invariant forall k :: 0 <= k < i ==> data[k] == 0
      {
        data[i] := 0;
      }
    }

    /**
     * eeprom_write_settings: the buffer is cleared, filled with the encoded
     * values, written and committed; each failure is logged, and the commit
     * is attempted whatever the write returned.
     */
    method WriteSettings(emu: Emulator, con: Console, o: Offsets)
      requires data.Length == DataLength
      requires |emu.statuses| >= 2
      modifies data, emu, con
      ensures data[..] == Encode(o)
      ensures emu.statuses == old(emu.statuses)[2..]
      ensures emu.calls == old(emu.calls) + [WriteCall(0, Encode(o)), CommitCall]
      ensures emu.store == if old(emu.statuses)[0] == Ok then Encode(o) else old(emu.store)
      ensures con.log == old(con.log) + WriteLog(old(emu.statuses)[0], old(emu.statuses)[1])
    {
      ghost var s0, c0, l0, st0 := emu.statuses, emu.calls, con.log, emu.store;
      Clear();
      data[0] := o.x % 256;
      data[1] := o.x / 256;
      data[2] := o.y % 256;
      data[3] := o.y / 256;
      data[4] := o.z % 256;
      data[5] := o.z / 256;
      assert data[..] == Encode(o);
      var status := emu.WriteBuffer(data[..]);
      if status != Ok {
        con.Send(WriteBufferFailed);
      }
      ghost var l1 := con.log;
      assert l1 == l0 + (if s0[0] == Ok then [] else [WriteBufferFailed]);
      assert emu.statuses == s0[1..];
      status := emu.Service(CommitCall);
      if status != Ok {
        con.Send(CommitFailed);
      }
      assert emu.statuses == s0[2..];
    }

    /**
     * The recovery path of eeprom_configure: the memory is erased and
     * re-initialised and, if that works, the caller's values are stored.
     */
    method Recover(emu: Emulator, con: Console, o: Offsets)
      requires data.Length == DataLength
      requires |emu.statuses| >= 3
      modifies data, emu, con
      ensures old(emu.statuses)[0] == Ok ==>
        emu.calls == old(emu.calls) + [EraseCall, InitCall, WriteCall(0, Encode(o)), CommitCall]
        && emu.store == (if old(emu.statuses)[1] == Ok then Encode(o) else old(emu.store))
        && emu.statuses == old(emu.statuses)[3..]
        && con.log == old(con.log) + EraseLines + RestoreLines + WriteLog(old(emu.statuses)[1], old(emu.statuses)[2])
      ensures old(emu.statuses)[0] != Ok ==>
        emu.calls == old(emu.calls) + [EraseCall, InitCall] && emu.store == old(emu.store)
        && emu.statuses == old(emu.statuses)[1..] && con.log == old(con.log) + EraseLines
    {
      ghost var log0 := con.log;
      con.Send(EraseLines[0]);
      con.Send(EraseLines[1]);
      con.Send(EraseLines[2]);
      con.Send(EraseLines[3]);
      assert con.log == log0 + EraseLines;
      emu.EraseMemory();
      var status := emu.Service(InitCall);
      if status == Ok {
        con.Send(RestoreLines[0]);
        con.Send(RestoreLines[1]);
        assert con.log == log0 + EraseLines + RestoreLines;
        WriteSettings(emu, con, o);
      }
    }

    /**
     * eeprom_configure: a working emulator yields the stored values; one out
     * of memory is only reported; any other answer erases the memory,
     * re-initialises it and, if that works, stores the caller's values.
     */
    method Configure(emu: Emulator, con: Console, prior: Offsets) returns (o: Offsets)
      requires data.Length == DataLength
      requires |emu.statuses| >= 4
      modifies data, emu, con
      ensures var first := old(emu.statuses)[0];
        (first == Ok ==>
          emu.calls == old(emu.calls) + [InitCall, ReadCall(0, DataLength)]
          && emu.store == old(emu.store)
          && o == (if old(emu.statuses)[1] == Ok then Decode(Fit(old(emu.store), DataLength)) else prior))
        && (first == ErrNoMemory ==>
          emu.calls == old(emu.calls) + [InitCall] && emu.store == old(emu.store) && o == prior
          && con.log == old(con.log) + [NoMemory])
        && (first != Ok && first != ErrNoMemory ==>
          o == prior
          && (old(emu.statuses)[1] == Ok ==>
              emu.calls == old(emu.calls) + [InitCall, EraseCall, InitCall, WriteCall(0, Encode(prior)), CommitCall]
              && emu.store == (if old(emu.statuses)[2] == Ok then Encode(prior) else old(emu.store)))
          && (old(emu.statuses)[1] != Ok ==>
              emu.calls == old(emu.calls) + [InitCall, EraseCall, InitCall] && emu.store == old(emu.store)))
      ensures var c := ConfigureEffect(old(emu.statuses), old(emu.store), prior);
        o == c.offsets && emu.calls == old(emu.calls) + c.calls && emu.store == c.store
        && emu.statuses == old(emu.statuses)[c.used..] && con.log == old(con.log) + c.log
    {
      var status := emu.Service(InitCall);
      if status == Ok {
        con.Send(ConfigureOk);
        con.Send(HaveToRead);
        o := ReadSettings(emu, con, prior);
      } else if status == ErrNoMemory {
        con.Send(NoMemory);
        o := prior;
      } else {
        Recover(emu, con, prior);
        o := prior;
      }
    }
  }
}
