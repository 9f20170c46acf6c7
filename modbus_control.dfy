/**
 * The ModbusControl class: a libmodbus context plus a `connected` flag, with
 * lazy reconnection inside every register/coil operation.
 *
 * The two std::function members connectFunc/disconnectFunc are represented by
 * the `transport` tag that selects them; the RTU and TCP callbacks have the same
 * effect on the object and differ only in the message they log. Every method is
 * proved to follow the pure state machine in session_spec.dfy.
 */
module Control {
  import opened Libmodbus
  import SessionSpec

  /** Which pair of connect/disconnect callbacks the object installed. */
  datatype Transport = RtuTransport | TcpTransport

  class ModbusControl {
    var ctx: Context?
    var connected: bool
    var transport: Transport

    /** Without a context the object can never have connected. */
    ghost predicate Valid()
      reads this
    {
      ctx == null ==> !connected
    }

    /** The object's state as the state machine sees it. */
    ghost function State(): SessionSpec.Session
      reads this, ctx
    {
      SessionSpec.Session(ctx != null, connected, if ctx == null then [] else ctx.log)
    }

    /** The replies the object's context receives (never consulted without a context). */
    ghost function Device(): nat -> Reply
      reads this
    {
      if ctx == null then (k: nat) => Failed else ctx.device
    }

    /**
     * The RTU constructor. `created` is whether modbus_new_rtu returned a
     * context; `replies` is how the serial line will answer requests on it.
     */
    constructor Rtu(device: string, baud: int, parity: char, dataBit: int, stopBit: int, slave: int,
                    created: bool, replies: nat -> Reply)
      ensures Valid() && !connected && transport == RtuTransport
      ensures ctx != null <==> created
      ensures ctx != null ==> fresh(ctx) && ctx.backend == RtuBackend(device, baud, parity, dataBit, stopBit)
      ensures ctx != null ==> ctx.device == replies && ctx.slave == slave && ctx.log == []
    {
      if created {
        ctx := new Context(RtuBackend(device, baud, parity, dataBit, stopBit), replies);
      } else {
        ctx := null;
      }
      connected := false;
      new;
      // modbus_set_slave on a null context fails without effect
      if ctx != null {
        ctx.SetSlave(slave);
      }
      SetupRtuFunctions();
    }

    /** The TCP constructor; `created` is whether modbus_new_tcp returned a context. */
    constructor Tcp(ip: string, port: int, slave: int, created: bool, replies: nat -> Reply)
      ensures Valid() && !connected && transport == TcpTransport
      ensures ctx != null <==> created
      ensures ctx != null ==> fresh(ctx) && ctx.backend == TcpBackend(ip, port)
      ensures ctx != null ==> ctx.device == replies && ctx.slave == slave && ctx.log == []
    {
      if created {
        ctx := new Context(TcpBackend(ip, port), replies);
      } else {
        ctx := null;
      }
      connected := false;
      new;
      if ctx != null {
        ctx.SetSlave(slave);
      }
      SetupTcpFunctions();
    }

    /** The destructor's observable part: it disconnects (modbus_free is not modelled). */
    method Destroy()
      requires Valid()
      modifies this, ctx
      ensures Valid() && ctx == old(ctx) && transport == old(transport)
      ensures ctx != null ==> ctx.slave == old(ctx.slave)
      ensures State() == SessionSpec.Disconnect(old(State()))
    {
      Disconnect();
    }

    method SetupRtuFunctions()
      modifies this
      ensures transport == RtuTransport && ctx == old(ctx) && connected == old(connected)
    {
      transport := RtuTransport;
    }

    method SetupTcpFunctions()
      modifies this
      ensures transport == TcpTransport && ctx == old(ctx) && connected == old(connected)
    {
      transport := TcpTransport;
    }

    /** handleError: clears `connected`; the message goes to the error log, not modelled. */
    method HandleError(context: string)
      modifies this
      ensures !connected && ctx == old(ctx) && transport == old(transport)
    {
      connected := false;
    }

    /** The installed connect callback: modbus_connect, then set or clear `connected`. */
    method ConnectFunc() returns (ok: bool)
      requires ctx != null
      modifies this, ctx
      ensures ctx == old(ctx) && transport == old(transport) && ctx.slave == old(ctx.slave)
      ensures SessionSpec.Step(ok, State()) == SessionSpec.Connect(old(State()), Device())
    {
      var rc := ctx.Connect();
      if rc == -1 {
        HandleError(if transport == RtuTransport then "RTU connection failed" else "TCP connection failed");
        return false;
      }
      connected := true;
      return true;
    }

    /** The installed disconnect callback: modbus_close, then clear `connected`. */
    method DisconnectFunc()
      requires ctx != null
      modifies this, ctx
      ensures ctx == old(ctx) && transport == old(transport) && ctx.slave == old(ctx.slave)
      ensures State() == SessionSpec.Disconnect(old(State()))
    {
      ctx.Close();
      connected := false;
    }

    method Connect() returns (ok: bool)
      requires Valid()
      modifies this, ctx
      ensures Valid() && ctx == old(ctx) && transport == old(transport)
      ensures ctx != null ==> ctx.slave == old(ctx.slave)
      ensures SessionSpec.Step(ok, State()) == SessionSpec.Connect(old(State()), Device())
    {
      if ctx == null {
        return false;
      }
      ok := ConnectFunc();
    }

    method Disconnect()
      requires Valid()
      modifies this, ctx
      ensures Valid() && ctx == old(ctx) && transport == old(transport)
      ensures ctx != null ==> ctx.slave == old(ctx.slave)
      ensures State() == SessionSpec.Disconnect(old(State()))
    {
      if ctx != null {
        DisconnectFunc();
      }
    }

    /** A const observer: no modifies clause, so it changes nothing. */
    method IsConnected() returns (r: bool)
      ensures r == connected
    {
      return connected;
    }

    method EnsureConnection() returns (ok: bool)
      requires Valid()
      modifies this, ctx
      ensures Valid() && ctx == old(ctx) && transport == old(transport)
      ensures ctx != null ==> ctx.slave == old(ctx.slave)
      ensures SessionSpec.Step(ok, State()) == SessionSpec.EnsureConnection(old(State()), Device())
    {
      if ctx == null {
        return false;
      }
      if !connected {
        ok := Connect();
        return;
      }
      return true;
    }

    method ReadHoldingRegisters(addr: int, nb: int, dest: array<u16>) returns (ok: bool)
      requires Valid() && nb <= dest.Length
      modifies this, ctx, dest
      ensures Valid() && ctx == old(ctx) && transport == old(transport)
      ensures ctx != null ==> ctx.slave == old(ctx.slave)
      ensures SessionSpec.Step(ok, State())
           == SessionSpec.Operation(old(State()), Device(), ReadRegistersRequest(addr, nb))
      ensures ok ==> ctx != null && |ctx.log| > 0 && dest[..] == ctx.device(|ctx.log| - 1).payload + old(dest[nb..])
      ensures !ok ==> dest[..] == old(dest[..])
    {
      ok := EnsureConnection();
      if !ok {
        return false;
      }
      var rc := ctx.ReadRegisters(addr, nb, dest);
      if rc == -1 {
        HandleError("Read holding registers failed");
        return false;
      }
      return true;
    }

    method ReadCoils(addr: int, nb: int, dest: array<u8>) returns (ok: bool)
      requires Valid() && nb <= dest.Length
      modifies this, ctx, dest
      ensures Valid() && ctx == old(ctx) && transport == old(transport)
      ensures ctx != null ==> ctx.slave == old(ctx.slave)
      ensures SessionSpec.Step(ok, State())
           == SessionSpec.Operation(old(State()), Device(), ReadBitsRequest(addr, nb))
      ensures ok ==> ctx != null && |ctx.log| > 0 && dest[..] == AsBits(ctx.device(|ctx.log| - 1).payload) + old(dest[nb..])
      ensures !ok ==> dest[..] == old(dest[..])
    {
      ok := EnsureConnection();
      if !ok {
        return false;
      }
      var rc := ctx.ReadBits(addr, nb, dest);
      if rc == -1 {
        HandleError("Read coils failed");
        return false;
      }
      return true;
    }

    method WriteCoil(addr: int, value: u8) returns (ok: bool)
      requires Valid()
      modifies this, ctx
      ensures Valid() && ctx == old(ctx) && transport == old(transport)
      ensures ctx != null ==> ctx.slave == old(ctx.slave)
      ensures SessionSpec.Step(ok, State())
           == SessionSpec.Operation(old(State()), Device(), WriteBitRequest(addr, value))
    {
      ok := EnsureConnection();
      if !ok {
        return false;
      }
      var rc := ctx.WriteBit(addr, value);
      if rc == -1 {
        HandleError("Write coil failed");
        return false;
      }
      return true;
    }

    method ReadInputRegisters(addr: int, nb: int, dest: array<u16>) returns (ok: bool)
      requires Valid() && nb <= dest.Length
      modifies this, ctx, dest
      ensures Valid() && ctx == old(ctx) && transport == old(transport)
      ensures ctx != null ==> ctx.slave == old(ctx.slave)
      ensures SessionSpec.Step(ok, State())
           == SessionSpec.Operation(old(State()), Device(), ReadInputRegistersRequest(addr, nb))
      ensures ok ==> ctx != null && |ctx.log| > 0 && dest[..] == ctx.device(|ctx.log| - 1).payload + old(dest[nb..])
      ensures !ok ==> dest[..] == old(dest[..])
    {
      ok := EnsureConnection();
      if !ok {
        return false;
      }
      var rc := ctx.ReadInputRegisters(addr, nb, dest);
      if rc == -1 {
        HandleError("Read input registers failed");
        return false;
      }
      return true;
    }

    method WriteRegister(addr: int, value: u16) returns (ok: bool)
      requires Valid()
      modifies this, ctx
      ensures Valid() && ctx == old(ctx) && transport == old(transport)
      ensures ctx != null ==> ctx.slave == old(ctx.slave)
      ensures SessionSpec.Step(ok, State())
           == SessionSpec.Operation(old(State()), Device(), WriteRegisterRequest(addr, value))
    {
      ok := EnsureConnection();
      if !ok {
        return false;
      }
      var rc := ctx.WriteRegister(addr, value);
      if rc == -1 {
        HandleError("Write register failed");
        return false;
      }
      return true;
    }

    /** The values are only read (a const pointer in C): they are not in the frame. */
    method WriteRegisters(addr: int, nb: int, values: array<u16>) returns (ok: bool)
      requires Valid() && nb <= values.Length
      modifies this, ctx
      ensures Valid() && ctx == old(ctx) && transport == old(transport)
      ensures ctx != null ==> ctx.slave == old(ctx.slave)
      ensures SessionSpec.Step(ok, State())
           == SessionSpec.Operation(old(State()), Device(), WriteRegistersRequest(addr, nb, values[..Span(nb)]))
    {
      ok := EnsureConnection();
      if !ok {
        return false;
      }
      var rc := ctx.WriteRegisters(addr, nb, values);
      if rc == -1 {
        HandleError("Write registers failed");
        return false;
      }
      return true;
    }
  }
}
