/**
 * A stand-in for the parts of the libmodbus C library the benchmark calls.
 *
 * The framing, CRC and socket handling live in libmodbus and are not part of
 * this model. What is kept is what the benchmark can observe: each call either
 * reports success or returns -1, a read fills the caller's buffer, and every
 * request issued on a context is recorded in `log`, so that callers can state
 * exactly which library calls an operation made. The outcome of the k-th request
 * on a context is decided by the oracle `device(k)`.
 */
module Libmodbus {

  /** uint8_t, as used for coil values. */
  newtype u8 = x: int | 0 <= x < 0x100

  /** uint16_t, the width of a Modbus register. */
  newtype u16 = x: int | 0 <= x < 0x1_0000

  /** The endpoint a context was created for by modbus_new_rtu or modbus_new_tcp. */
  datatype Backend =
    | RtuBackend(device: string, baud: int, parity: char, dataBits: int, stopBits: int)
    | TcpBackend(ip: string, port: int)

  /** One libmodbus call issued on a context, with the arguments it was given. */
  datatype Request =
    | ConnectRequest                                              // modbus_connect
    | CloseRequest                                                // modbus_close
    | ReadBitsRequest(addr: int, nb: int)                         // modbus_read_bits
    | WriteBitRequest(addr: int, status: u8)                      // modbus_write_bit
    | ReadRegistersRequest(addr: int, nb: int)                    // modbus_read_registers
    | ReadInputRegistersRequest(addr: int, nb: int)               // modbus_read_input_registers
    | WriteRegisterRequest(addr: int, value: u16)                 // modbus_write_register
    | WriteRegistersRequest(addr: int, nb: int, values: seq<u16>) // modbus_write_registers

  /**
   * What the other end of the channel does with a request: nothing usable
   * (I/O error, timeout, exception response, refused connection), or an answer
   * carrying the register words of a read response.
   */
  datatype Reply = Failed | Answered(payload: seq<u16>)

  /**
   * Whether libmodbus reports success for `req` when the exchange ends in `reply`.
   * A read is accepted only when the answer holds exactly the requested number of
   * items; anything else is a malformed response and the call returns -1. A
   * multiple write with a negative count is refused (its return value would
   * otherwise be that count).
   */
  predicate Completes(req: Request, reply: Reply) {
    && reply.Answered?
    && match req
       case ReadBitsRequest(_, nb) => |reply.payload| == nb
       case ReadRegistersRequest(_, nb) => |reply.payload| == nb
       case ReadInputRegistersRequest(_, nb) => |reply.payload| == nb
       case WriteRegistersRequest(_, nb, _) => nb >= 0
       case _ => true
  }

  /** Coil states as libmodbus unpacks them: one byte per coil, 0 or 1. */
  function AsBits(words: seq<u16>): (bits: seq<u8>)
    ensures |bits| == |words|
    ensures forall k :: 0 <= k < |words| ==> (bits[k] == 1 <==> words[k] != 0) && bits[k] <= 1
  {
    seq(|words|, k requires 0 <= k < |words| => if words[k] == 0 then 0 else 1)
  }

  /** The number of buffer elements a call with count `nb` touches. */
  function Span(nb: int): nat {
    if nb < 0 then 0 else nb
  }

  /** modbus_t: the context libmodbus allocates for one endpoint. */
  class Context {
    const backend: Backend
    /** The reply the k-th request issued on this context receives. */
    const device: nat -> Reply
    /** The unit identifier set by modbus_set_slave. */
    var slave: int
    /** Every request issued on this context so far, oldest first. */
    var log: seq<Request>

    constructor (backend: Backend, device: nat -> Reply)
      ensures this.backend == backend && this.device == device
      ensures slave == 0 && log == []
    {
      this.backend := backend;
      this.device := device;
      slave := 0;
      log := [];
    }

    /** modbus_set_slave: records the unit identifier; issues nothing on the channel. */
    method SetSlave(slave: int)
      modifies this
      ensures this.slave == slave && log == old(log)
    {
      this.slave := slave;
    }

    /** modbus_connect: 0 on success, -1 on failure. */
    method Connect() returns (rc: int)
      modifies this
      ensures log == old(log) + [ConnectRequest] && slave == old(slave)
      ensures rc == (if Completes(ConnectRequest, device(|old(log)|)) then 0 else -1)
    {
      var reply := device(|log|);
      log := log + [ConnectRequest];
      rc := if Completes(ConnectRequest, reply) then 0 else -1;
    }

    /** modbus_close: closes the channel; it reports nothing. */
    method Close()
      modifies this
      ensures log == old(log) + [CloseRequest] && slave == old(slave)
    {
      log := log + [CloseRequest];
    }

    /** modbus_read_registers: fills dest[..nb] with holding registers and returns nb, or -1. */
    method ReadRegisters(addr: int, nb: int, dest: array<u16>) returns (rc: int)
      requires nb <= dest.Length
      modifies this, dest
      ensures log == old(log) + [ReadRegistersRequest(addr, nb)] && slave == old(slave)
      ensures var reply := device(|old(log)|);
        if Completes(ReadRegistersRequest(addr, nb), reply)
        then rc == nb && dest[..] == reply.payload + old(dest[nb..])
        else rc == -1 && dest[..] == old(dest[..])
    {
      var reply := device(|log|);
      log := log + [ReadRegistersRequest(addr, nb)];
      if Completes(ReadRegistersRequest(addr, nb), reply) {
        forall k | 0 <= k < nb {
          dest[k] := reply.payload[k];
        }
        rc := nb;
      } else {
        rc := -1;
      }
    }

    /** modbus_read_input_registers: as ReadRegisters, on the input-register bank. */
    method ReadInputRegisters(addr: int, nb: int, dest: array<u16>) returns (rc: int)
      requires nb <= dest.Length
      modifies this, dest
      ensures log == old(log) + [ReadInputRegistersRequest(addr, nb)] && slave == old(slave)
      ensures var reply := device(|old(log)|);
        if Completes(ReadInputRegistersRequest(addr, nb), reply)
        then rc == nb && dest[..] == reply.payload + old(dest[nb..])
        else rc == -1 && dest[..] == old(dest[..])
    {
      var reply := device(|log|);
      log := log + [ReadInputRegistersRequest(addr, nb)];
      if Completes(ReadInputRegistersRequest(addr, nb), reply) {
        forall k | 0 <= k < nb {
          dest[k] := reply.payload[k];
        }
        rc := nb;
      } else {
        rc := -1;
      }
    }

    /** modbus_read_bits: fills dest[..nb] with one byte (0 or 1) per coil and returns nb, or -1. */
    method ReadBits(addr: int, nb: int, dest: array<u8>) returns (rc: int)
      requires nb <= dest.Length
      modifies this, dest
      ensures log == old(log) + [ReadBitsRequest(addr, nb)] && slave == old(slave)
      ensures var reply := device(|old(log)|);
        if Completes(ReadBitsRequest(addr, nb), reply)
        then rc == nb && dest[..] == AsBits(reply.payload) + old(dest[nb..])
        else rc == -1 && dest[..] == old(dest[..])
    {
      var reply := device(|log|);
      log := log + [ReadBitsRequest(addr, nb)];
      if Completes(ReadBitsRequest(addr, nb), reply) {
        var bits := AsBits(reply.payload);
        forall k | 0 <= k < nb {
          dest[k] := bits[k];
        }
        rc := nb;
      } else {
        rc := -1;
      }
    }

    /** modbus_write_bit: 1 on success, -1 on failure. */
    method WriteBit(addr: int, value: u8) returns (rc: int)
      modifies this
      ensures log == old(log) + [WriteBitRequest(addr, value)] && slave == old(slave)
      ensures rc == (if Completes(WriteBitRequest(addr, value), device(|old(log)|)) then 1 else -1)
    {
      var reply := device(|log|);
      log := log + [WriteBitRequest(addr, value)];
      rc := if Completes(WriteBitRequest(addr, value), reply) then 1 else -1;
    }

    /** modbus_write_register: 1 on success, -1 on failure. */
    method WriteRegister(addr: int, value: u16) returns (rc: int)
      modifies this
      ensures log == old(log) + [WriteRegisterRequest(addr, value)] && slave == old(slave)
      ensures rc == (if Completes(WriteRegisterRequest(addr, value), device(|old(log)|)) then 1 else -1)
    {
      var reply := device(|log|);
      log := log + [WriteRegisterRequest(addr, value)];
      rc := if Completes(WriteRegisterRequest(addr, value), reply) then 1 else -1;
    }

    /**
     * modbus_write_registers: sends values[..nb] and returns nb, or -1. The
     * values are only read (a const pointer in C), so they are not in the frame.
     */
    method WriteRegisters(addr: int, nb: int, values: array<u16>) returns (rc: int)
      requires nb <= values.Length
      modifies this
      ensures log == old(log) + [WriteRegistersRequest(addr, nb, values[..Span(nb)])] && slave == old(slave)
      ensures var req := WriteRegistersRequest(addr, nb, values[..Span(nb)]);
        rc == (if Completes(req, device(|old(log)|)) then nb else -1)
    {
      var req := WriteRegistersRequest(addr, nb, values[..Span(nb)]);
      var reply := device(|log|);
      log := log + [req];
      rc := if Completes(req, reply) then nb else -1;
    }
  }
}
