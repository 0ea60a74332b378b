/**
 * The hardware the drivers talk to, as oracles: the vendor I2C master and
 * EEPROM-emulator services answer from scripts the model does not
 * compute, and every transfer, service call and console message is
 * recorded in order.
 */
module Hal {
  import opened Common

  /** One I2C transfer put on the bus: a write ending with or without a stop condition, or a read. */
  datatype Packet =
    | Write(address: u8, bytes: seq<u8>, stop: bool)
    | Read(address: u8, length: nat)

  /** How the bus answers one transfer: its status and, for a read, the bytes clocked in. */
  datatype Reply = Reply(status: Status, bytes: seq<u8>)

  /** One call of the EEPROM emulator service. */
  datatype EepromCall =
    | InitCall
    | EraseCall
    | ReadCall(offset: nat, length: nat)
    | WriteCall(offset: nat, bytes: seq<u8>)
    | CommitCall

  /** The first n supplied bytes, zero-extended when the script supplies fewer. */
  function Fit(bytes: seq<u8>, n: nat): (r: seq<u8>)
    ensures |r| == n
  {
    if n == 0 then []
    else Fit(bytes, n - 1) + [if n - 1 < |bytes| then bytes[n - 1] else 0]
  }

  /** The PC console (pm_usart_send_pc_message, wcm_usart_send_pc_message). */
  class Console {
    var log: seq<Msg>

    constructor()
      ensures log == []
    {
      log := [];
    }

    method Send(m: Msg)
      modifies this
      ensures log == old(log) + [m]
    {
      log := log + [m];
    }
  }

  /** The vendor I2C master: i2c_master_write_packet_wait, ..._wait_no_stop, i2c_master_read_packet_wait. */
  class Bus {
    /** The bus's answers still to come, consumed one per transfer. */
    var replies: seq<Reply>
    /** Every transfer, oldest first. */
    var trace: seq<Packet>

    constructor(script: seq<Reply>)
      ensures replies == script && trace == []
    {
      replies := script;
      trace := [];
    }

    method Transfer(p: Packet) returns (status: Status, bytes: seq<u8>)
      requires |replies| > 0
      modifies this
      ensures replies == old(replies)[1..] && trace == old(trace) + [p]
      ensures status == old(replies)[0].status
      ensures bytes == Fit(old(replies)[0].bytes, if p.Read? then p.length else 0)
    {
      status := replies[0].status;
      bytes := Fit(replies[0].bytes, if p.Read? then p.length else 0);
      replies := replies[1..];
      trace := trace + [p];
    }
  }

  /** One answer of usart_read_wait: its status and the 16-bit word received. */
  datatype Answer = Answer(status: Status, data: u16)

  /** A vendor USART port polled with usart_read_wait (the PC port, and the WCM's GPS and COM ports). */
  class SerialPort {
    /** The port's answers still to come, one per read. */
    var answers: seq<Answer>

    constructor(script: seq<Answer>)
      ensures answers == script
    {
      answers := script;
    }

    method ReadWait() returns (status: Status, data: u16)
      requires |answers| > 0
      modifies this
      ensures answers == old(answers)[1..]
      ensures status == old(answers)[0].status && data == old(answers)[0].data
    {
      status := answers[0].status;
      data := answers[0].data;
      answers := answers[1..];
    }
  }

  /** The vendor EEPROM emulator service. */
  class Emulator {
    /** The status answers still to come, one per call that returns a status. */
    var statuses: seq<Status>
    /** The bytes the emulated EEPROM holds from offset 0. */
    var store: seq<u8>
    /** Every service call, oldest first. */
    var calls: seq<EepromCall>

    constructor(script: seq<Status>, contents: seq<u8>)
      ensures statuses == script && store == contents && calls == []
    {
      statuses := script;
      store := contents;
      calls := [];
    }

    /** eeprom_emulator_init and eeprom_emulator_commit_page_buffer: a status, no stored byte changes. */
    method Service(c: EepromCall) returns (status: Status)
      requires |statuses| > 0
      requires c.InitCall? || c.CommitCall?
      modifies this
      ensures statuses == old(statuses)[1..] && status == old(statuses)[0]
      ensures calls == old(calls) + [c] && store == old(store)
    {
      status := statuses[0];
      statuses := statuses[1..];
      calls := calls + [c];
    }

    /** eeprom_emulator_erase_memory, which returns nothing. */
    method EraseMemory()
      modifies this
      ensures calls == old(calls) + [EraseCall]
      ensures statuses == old(statuses) && store == old(store)
    {
      calls := calls + [EraseCall];
    }

    /** eeprom_emulator_read_buffer(0, data, n): the stored bytes. */
    method ReadBuffer(n: nat) returns (status: Status, bytes: seq<u8>)
      requires |statuses| > 0
      modifies this
      ensures statuses == old(statuses)[1..] && status == old(statuses)[0]
      ensures bytes == Fit(store, n)
      ensures calls == old(calls) + [ReadCall(0, n)] && store == old(store)
    {
      status := statuses[0];
      statuses := statuses[1..];
      calls := calls + [ReadCall(0, n)];
      bytes := Fit(store, n);
    }

    /** eeprom_emulator_write_buffer(0, data, |data|): on success the bytes are stored. */
    method WriteBuffer(bytes: seq<u8>) returns (status: Status)
      requires |statuses| > 0
      modifies this
      ensures statuses == old(statuses)[1..] && status == old(statuses)[0]
      ensures store == (if status == Ok then bytes else old(store))
      ensures calls == old(calls) + [WriteCall(0, bytes)]
    {
      status := statuses[0];
      statuses := statuses[1..];
      calls := calls + [WriteCall(0, bytes)];
      if status == Ok {
        store := bytes;
      }
    }
  }
}
