/**
 * The throughput benchmark: the write pattern, the counting loop, and the
 * program's sequence of parse, construct, connect, loop and disconnect.
 *
 * The steady-clock condition that ends the loop is replaced by a number of
 * iterations given from outside; the sleep between iterations and all console
 * output are not modelled. `Iterations` is the reference for the loop, and
 * `RunLoop` is proved to compute it.
 */
module Benchmark {
  import opened Libmodbus
  import SessionSpec
  import Control
  import Args

  /** The write buffer's contents: register i holds i + 1, stored into a uint16_t. */
  function Pattern(n: nat): seq<u16> {
    seq(n, i requires 0 <= i < n => ((i + 1) % 0x1_0000) as u16)
  }

  /**
   * The pattern is 1, 2, ..., n for every n below 65536, the largest register
   * count whose indices fit a register; beyond that the value wraps to 0.
   */
  lemma PatternValues(n: nat)
    ensures |Pattern(n)| == n
    ensures forall i :: 0 <= i < n && i < 0xFFFF ==> Pattern(n)[i] as int == i + 1
    ensures n > 0xFFFF ==> Pattern(n)[0xFFFF] == 0
  {
  }

  /** Fill the write buffer with the pattern, one element at a time. */
  method FillWriteBuffer(writeBuffer: array<u16>)
    modifies writeBuffer
    ensures writeBuffer[..] == Pattern(writeBuffer.Length)
  {
    var i := 0;
    while i < writeBuffer.Length
      invariant 0 <= i <= writeBuffer.Length
      invariant forall k :: 0 <= k < i ==> writeBuffer[k] == Pattern(writeBuffer.Length)[k]
    {
      writeBuffer[i] := ((i + 1) % 0x1_0000) as u16;
      i := i + 1;
    }
  }

  /** The counters the loop keeps. */
  datatype Stats = Stats(readOps: nat, writeOps: nat, failedOps: nat)

  /** Mode 0 and mode 2 read; mode 1 and mode 2 write. */
  predicate Reads(mode: int) { mode == 0 || mode == 2 }
  predicate Writes(mode: int) { mode == 1 || mode == 2 }

  /** How many operations one iteration attempts. */
  function Attempts(mode: int): nat {
    (if Reads(mode) then 1 else 0) + (if Writes(mode) then 1 else 0)
  }

  function Total(st: Stats): nat {
    st.readOps + st.writeOps + st.failedOps
  }

  /** What the loop body uses: mode, start register, register count, and the write buffer. */
  datatype Plan = Plan(mode: int, start: int, count: int, values: seq<u16>)

  function ReadRequest(plan: Plan): Request {
    ReadRegistersRequest(plan.start, plan.count)
  }

  function WriteRequest(plan: Plan): Request {
    WriteRegistersRequest(plan.start, plan.count, plan.values)
  }

  /** The counters and the session after some iterations. */
  datatype Progress = Progress(stats: Stats, session: SessionSpec.Session)

  /** The counters after an attempt: its own counter on success, failedOps on failure. */
  function Count(st: Stats, ok: bool, isRead: bool): Stats {
    if !ok then st.(failedOps := st.failedOps + 1)
    else if isRead then st.(readOps := st.readOps + 1)
    else st.(writeOps := st.writeOps + 1)
  }

  /** One attempt of the loop body: the operation, then the counter it increments. */
  function Attempt(p: Progress, device: nat -> Reply, req: Request, isRead: bool): Progress {
    var r := SessionSpec.Operation(p.session, device, req);
    Progress(Count(p.stats, r.ok, isRead), r.after)
  }

  /** One pass of the loop body: the read attempt, then the write attempt. */
  function Iteration(p: Progress, device: nat -> Reply, plan: Plan): Progress {
    var afterRead := if Reads(plan.mode) then Attempt(p, device, ReadRequest(plan), true) else p;
    if Writes(plan.mode) then Attempt(afterRead, device, WriteRequest(plan), false) else afterRead
  }

  /** n passes of the loop body. */
  function Iterations(p: Progress, device: nat -> Reply, plan: Plan, n: nat): Progress
    decreases n
  {
    if n == 0 then p else Iteration(Iterations(p, device, plan, n - 1), device, plan)
  }

  /** One iteration increments one counter per attempt. */
  lemma IterationCounts(p: Progress, device: nat -> Reply, plan: Plan)
    ensures var q := Iteration(p, device, plan).stats;
      && Total(q) == Total(p.stats) + Attempts(plan.mode)
      && p.stats.readOps <= q.readOps <= p.stats.readOps + (if Reads(plan.mode) then 1 else 0)
      && p.stats.writeOps <= q.writeOps <= p.stats.writeOps + (if Writes(plan.mode) then 1 else 0)
      && p.stats.failedOps <= q.failedOps
  {
  }

  /**
   * Every attempt increments exactly one counter: after n iterations the
   * counters have grown by n attempts per iteration in all, reads only in
   * modes 0 and 2, writes only in modes 1 and 2.
   */
  lemma {:induction false} EveryAttemptCounted(p: Progress, device: nat -> Reply, plan: Plan, n: nat)
    ensures var q := Iterations(p, device, plan, n).stats;
      && Total(q) == Total(p.stats) + n * Attempts(plan.mode)
      && p.stats.readOps <= q.readOps <= p.stats.readOps + (if Reads(plan.mode) then n else 0)
      && p.stats.writeOps <= q.writeOps <= p.stats.writeOps + (if Writes(plan.mode) then n else 0)
      && p.stats.failedOps <= q.failedOps
    decreases n
  {
    if n > 0 {
      EveryAttemptCounted(p, device, plan, n - 1);
      IterationCounts(Iterations(p, device, plan, n - 1), device, plan);
      assert n * Attempts(plan.mode) == (n - 1) * Attempts(plan.mode) + Attempts(plan.mode);
    }
  }

  /**
   * The loop issues nothing but reconnects, the configured read, and the
   * configured write carrying the write buffer; earlier requests stay as they were.
   */
  lemma {:induction false} OnlyConfiguredRequests(p: Progress, device: nat -> Reply, plan: Plan, n: nat)
    ensures Iterations(p, device, plan, n).session.hasContext == p.session.hasContext
    ensures var log := Iterations(p, device, plan, n).session.log;
      && |p.session.log| <= |log|
      && log[..|p.session.log|] == p.session.log
      && forall k :: |p.session.log| <= k < |log| ==>
           log[k] in {ConnectRequest, ReadRequest(plan), WriteRequest(plan)}
    decreases n
  {
    if n > 0 {
      OnlyConfiguredRequests(p, device, plan, n - 1);
      var mid := Iterations(p, device, plan, n - 1);
      SessionSpec.OperationRequests(mid.session, device, ReadRequest(plan));
      var r := if Reads(plan.mode) then SessionSpec.Operation(mid.session, device, ReadRequest(plan)).after
               else mid.session;
      SessionSpec.OperationRequests(r, device, WriteRequest(plan));
    }
  }

  /**
   * With a device that never answers, every attempt fails: the success
   * counters stay where they were and the failures grow by every attempt.
   */
  lemma {:induction false} SilentDeviceOnlyFails(p: Progress, device: nat -> Reply, plan: Plan, n: nat)
    requires forall k :: device(k) == Failed
    ensures var q := Iterations(p, device, plan, n);
      && q.stats.readOps == p.stats.readOps
      && q.stats.writeOps == p.stats.writeOps
      && q.stats.failedOps == p.stats.failedOps + n * Attempts(plan.mode)
    decreases n
  {
    if n > 0 {
      SilentDeviceOnlyFails(p, device, plan, n - 1);
      var mid := Iterations(p, device, plan, n - 1);
      SessionSpec.SilentDeviceFails(mid.session, device, ReadRequest(plan));
      var r := if Reads(plan.mode) then SessionSpec.Operation(mid.session, device, ReadRequest(plan)).after
               else mid.session;
      SessionSpec.SilentDeviceFails(r, device, WriteRequest(plan));
    }
  }

  /**
   * With a context and a device that answers every request with `count`
   * registers, nothing fails: reads and writes each grow by one per iteration
   * in the modes that make them, so in mode 2 they grow alike.
   */
  lemma {:induction false} AnsweringDeviceNeverFails(p: Progress, device: nat -> Reply, plan: Plan, n: nat)
    requires p.session.hasContext && plan.count >= 0
    requires forall k :: device(k).Answered? && |device(k).payload| == plan.count
    ensures var q := Iterations(p, device, plan, n);
      && q.session.hasContext
      && q.stats.failedOps == p.stats.failedOps
      && q.stats.readOps == p.stats.readOps + (if Reads(plan.mode) then n else 0)
      && q.stats.writeOps == p.stats.writeOps + (if Writes(plan.mode) then n else 0)
    decreases n
  {
    if n > 0 {
      AnsweringDeviceNeverFails(p, device, plan, n - 1);
      var mid := Iterations(p, device, plan, n - 1);
      SessionSpec.AnsweringDeviceCompletes(mid.session, device, ReadRequest(plan));
      var r := if Reads(plan.mode) then SessionSpec.Operation(mid.session, device, ReadRequest(plan)).after
               else mid.session;
      SessionSpec.AnsweringDeviceCompletes(r, device, WriteRequest(plan));
    }
  }

  /**
   * The measurement loop, run for `iterations` passes. The write buffer is
   * never changed, and the counters and the session follow Iterations.
   */
  method RunLoop(modbus: Control.ModbusControl, config: Args.TestConfig,
                 readBuffer: array<u16>, writeBuffer: array<u16>, iterations: nat)
    returns (readOps: nat, writeOps: nat, failedOps: nat)
    requires modbus.Valid()
    requires readBuffer.Length == config.registerCount && writeBuffer.Length == config.registerCount
    requires readBuffer != writeBuffer
    modifies modbus, modbus.ctx, readBuffer
    ensures modbus.Valid() && modbus.ctx == old(modbus.ctx) && modbus.transport == old(modbus.transport)
    ensures modbus.ctx != null ==> modbus.ctx.slave == old(modbus.ctx.slave)
    ensures writeBuffer[..] == old(writeBuffer[..])
    ensures Progress(Stats(readOps, writeOps, failedOps), modbus.State())
         == Iterations(Progress(Stats(0, 0, 0), old(modbus.State())), modbus.Device(),
                       Plan(config.testMode, config.startRegister, config.registerCount, writeBuffer[..]),
                       iterations)
  {
    ghost var plan := Plan(config.testMode, config.startRegister, config.registerCount, writeBuffer[..]);
    ghost var device := modbus.Device();
    assert writeBuffer[..Span(config.registerCount)] == writeBuffer[..];
    readOps, writeOps, failedOps := 0, 0, 0;
    var n := 0;
    while n < iterations
      invariant 0 <= n <= iterations
      invariant modbus.Valid() && modbus.ctx == old(modbus.ctx) && modbus.Device() == device
      invariant modbus.transport == old(modbus.transport)
      invariant modbus.ctx != null ==> modbus.ctx.slave == old(modbus.ctx.slave)
      invariant Progress(Stats(readOps, writeOps, failedOps), modbus.State())
             == Iterations(Progress(Stats(0, 0, 0), old(modbus.State())), device, plan, n)
    {
      if config.testMode == 0 || config.testMode == 2 {
        var ok := modbus.ReadHoldingRegisters(config.startRegister, config.registerCount, readBuffer);
        if ok {
          readOps := readOps + 1;
        } else {
          failedOps := failedOps + 1;
        }
      }
      if config.testMode == 1 || config.testMode == 2 {
        var ok := modbus.WriteRegisters(config.startRegister, config.registerCount, writeBuffer);
        if ok {
          writeOps := writeOps + 1;
        } else {
          failedOps := failedOps + 1;
        }
      }
      n := n + 1;
    }
  }

  /**
   * main()'s construction step: the RTU object when the configuration selects
   * RTU, the TCP object otherwise, built from the configured settings.
   */
  method Open(config: Args.TestConfig, created: bool, replies: nat -> Reply) returns (modbus: Control.ModbusControl)
    ensures fresh(modbus) && modbus.Valid() && !modbus.connected
    ensures modbus.transport == (if config.isRtu then Control.RtuTransport else Control.TcpTransport)
    ensures modbus.ctx != null <==> created
    ensures modbus.ctx != null ==>
      && fresh(modbus.ctx) && modbus.ctx.device == replies && modbus.ctx.log == [] && modbus.ctx.slave == config.slave
      && modbus.ctx.backend == (if config.isRtu
                                then RtuBackend(config.device, config.baudRate, config.parity, config.dataBits, config.stopBits)
                                else TcpBackend(config.ip, config.port))
  {
    if config.isRtu {
      modbus := new Control.ModbusControl.Rtu(config.device, config.baudRate, config.parity, config.dataBits,
                                              config.stopBits, config.slave, created, replies);
    } else {
      modbus := new Control.ModbusControl.Tcp(config.ip, config.port, config.slave, created, replies);
    }
  }

  /**
   * main() after a successful connect: allocate both buffers, fill the write
   * buffer with the pattern, run the loop, then disconnect() and delete the
   * object, whose destructor disconnects once more.
   */
  method Measure(modbus: Control.ModbusControl, config: Args.TestConfig, iterations: nat) returns (stats: Stats)
    requires modbus.Valid() && config.registerCount >= 0
    modifies modbus, modbus.ctx
    ensures modbus.Valid() && modbus.ctx == old(modbus.ctx) && modbus.transport == old(modbus.transport)
    ensures modbus.ctx != null ==> modbus.ctx.slave == old(modbus.ctx.slave)
    ensures var run := Iterations(Progress(Stats(0, 0, 0), old(modbus.State())), modbus.Device(),
                                  Plan(config.testMode, config.startRegister, config.registerCount,
                                       Pattern(config.registerCount)),
                                  iterations);
      && stats == run.stats
      && modbus.State() == SessionSpec.Disconnect(SessionSpec.Disconnect(run.session))
  {
    var readBuffer := new u16[config.registerCount];
    var writeBuffer := new u16[config.registerCount];
    FillWriteBuffer(writeBuffer);
    var readOps, writeOps, failedOps := RunLoop(modbus, config, readBuffer, writeBuffer, iterations);
    stats := Stats(readOps, writeOps, failedOps);
    modbus.Disconnect();
    modbus.Destroy();
  }

  /**
   * How the program ends: with an exit code, the counters it reached and every
   * request issued on its context; or terminated by the exception that
   * std::vector throws for a negative register count.
   */
  datatype Outcome =
    | Exited(code: int, stats: Stats, requests: seq<Request>)
    | Terminated(requests: seq<Request>)

  /** The requests issued on an object's context, none without one. */
  function Issued(modbus: Control.ModbusControl): seq<Request>
    reads modbus, modbus.ctx
  {
    if modbus.ctx == null then [] else modbus.ctx.log
  }

  /**
   * main(): parse the arguments, build the RTU or TCP object, connect, fill the
   * buffers, run the loop, disconnect and delete. `created` is whether
   * libmodbus allocated the context, `replies` how the device answers, and
   * `iterations` how many passes the clock allows.
   *
   * A parse failure or a failed connect ends with exit code 1 and no counts;
   * otherwise the program ends with code 0 after one connect, the loop's
   * requests, and two closes (disconnect(), then the destructor's).
   */
  method RunProgram(argv: seq<string>, toInt: string -> int, created: bool, replies: nat -> Reply, iterations: nat)
    returns (outcome: Outcome)
    ensures var parsed := Args.Scan(Args.Defaults, Args.Tail(argv), toInt);
      var config := parsed.config;
      var up := created && Completes(ConnectRequest, replies(0));
      && (parsed.verdict != Args.Accepted ==> outcome == Exited(1, Stats(0, 0, 0), []))
      && (parsed.verdict == Args.Accepted && !up ==>
            outcome == Exited(1, Stats(0, 0, 0), if created then [ConnectRequest, CloseRequest] else []))
      && (parsed.verdict == Args.Accepted && up && config.registerCount < 0 ==>
            outcome == Terminated([ConnectRequest]))
      && (parsed.verdict == Args.Accepted && up && config.registerCount >= 0 ==>
            var run := Iterations(Progress(Stats(0, 0, 0), SessionSpec.Session(true, true, [ConnectRequest])), replies,
                                  Plan(config.testMode, config.startRegister, config.registerCount,
                                       Pattern(config.registerCount)),
                                  iterations);
            outcome == Exited(0, run.stats, run.session.log + [CloseRequest, CloseRequest]))
  {
    var ok, config := Args.ParseArgs(argv, Args.Defaults, toInt);
    if !ok {
      return Exited(1, Stats(0, 0, 0), []);
    }
    var modbus := Open(config, created, replies);
    var connected := modbus.Connect();
    if !connected {
      modbus.Destroy();
      return Exited(1, Stats(0, 0, 0), Issued(modbus));
    }
    if config.registerCount < 0 {
      return Terminated(Issued(modbus));
    }
    assert modbus.State() == SessionSpec.Session(true, true, [ConnectRequest]);
    assert modbus.Device() == replies;
    var stats := Measure(modbus, config, iterations);
    assert modbus.Device() == replies;
    OnlyConfiguredRequests(Progress(Stats(0, 0, 0), SessionSpec.Session(true, true, [ConnectRequest])), replies,
                           Plan(config.testMode, config.startRegister, config.registerCount,
                                Pattern(config.registerCount)),
                           iterations);
    return Exited(0, stats, Issued(modbus));
  }
}
