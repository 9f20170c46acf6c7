# Modbus throughput benchmark: a Dafny model

This project models the core of a small Modbus RTU/TCP throughput benchmark
written in C++ on top of libmodbus. The core has three parts:

- **`ModbusControl`**: a wrapper around a libmodbus context (`ctx`) with a
  `connected` flag. A connect/disconnect callback pair is installed for RTU or
  for TCP. Six register/coil operations reconnect lazily through
  `ensureConnection`. A failed connect or protocol call goes through
  `handleError`; without a context, `connect` and the operations return false
  without calling it.
- **`parseArgs`**: fills a `TestConfig` record (with its defaults) from the
  command line. It scans left to right and rejects help, unknown options,
  missing values and out-of-range enumerated values.
- **The benchmark loop in `main`**: fills the write buffer with the pattern
  `i + 1`, then repeatedly makes a read attempt and/or a write attempt
  depending on the test mode. Each attempt increments exactly one of
  `readOps`, `writeOps` and `failedOps`.

Files:

- `libmodbus.dfy` (module `Libmodbus`) is a stand-in for the C library.
  - `Context` plays the role of `modbus_t`.
  - An oracle `device: nat -> Reply` decides the reply to the k-th request on
    the context.
  - Every call issued is appended to the context's `log`, so callers can state
    exactly which library calls an operation made.
  - A read succeeds only when the answer carries exactly the requested number
    of items. It then fills the caller's buffer.
- `session_spec.dfy` (module `SessionSpec`) is the connection-state machine as
  pure functions over `Session(hasContext, connected, log)`, with lemmas about
  it.
- `modbus_control.dfy` (module `Control`) is the class `ModbusControl` with the
  fields `ctx`, `connected` and `transport`.
  - The `transport` tag stands for the two `std::function` callbacks. The RTU
    and TCP callbacks have the same effect on the object.
  - Every method is proved to move `State()` exactly as the matching
    `SessionSpec` function does.
- `args.dfy` (module `Args`) holds `TestConfig`, the reference scan `Scan`,
  the imperative `ParseArgs` proved equal to it, and lemmas about the scan.
  - `std::stoi` is the parameter `toInt`, an arbitrary total function.
- `benchmark.dfy` (module `Benchmark`) holds the write pattern, the reference
  `Iterations` for the loop, the loop `RunLoop` proved equal to it, and
  `RunProgram`, which models `main` from argument parsing to the final
  `delete`.
  - The clock is replaced by an iteration count given from outside.

## Model

| member | source | states |
|---|---|---|
| SessionSpec.ConnectOutcome | modbus_control.cpp:28-31 | connect() succeeds exactly when a context exists and modbus_connect succeeds; with a context, `connected` equals the result and one modbus_connect is issued; without one nothing changes |
| SessionSpec.EnsureConnectionCases | modbus_control.cpp:138-144 | false without a context; true with no request issued when already connected; otherwise exactly the result and effect of one connect() |
| SessionSpec.ConnectedMirrorsOutcome | modbus_control.cpp:146-147 | after any operation, `connected` equals the operation's result: any failure clears it and a success leaves it set |
| SessionSpec.OperationRequests | modbus_control.cpp:44-51 | an operation issues only its protocol call when connected; connect then the call when a reconnect succeeds; connect alone when it fails; nothing without a context. The result is that of the protocol call |
| SessionSpec.DisconnectIdempotent | modbus_control.cpp:33-37 | disconnect() always leaves the session disconnected; a second call leaves ctx and connected as the first did and only adds one more modbus_close |
| SessionSpec.ConsistencyPreserved | modbus_control.h:36-40 | every transition keeps "no context implies not connected and nothing issued" |
| SessionSpec.SilentDeviceFails | modbus_control.cpp:94-102 | when the device never answers, every operation returns false |
| SessionSpec.AnsweringDeviceCompletes | modbus_control.cpp:138-144 | with a context and a device that answers the request, an operation succeeds (reconnecting if needed) and leaves the object connected |
| SessionSpec.RunReconnectsAtMostOncePerOperation | modbus_control.cpp:138-144 | over any sequence of operations, the log only grows, by at most two requests per operation and at most one modbus_connect per operation |
| Control.ModbusControl.Rtu | modbus_control.cpp:7-12 | the RTU object starts disconnected with the RTU callbacks; its context, when libmodbus allocates one, is for the given serial settings, has the given slave id and has issued nothing |
| Control.ModbusControl.Tcp | modbus_control.cpp:15-19 | the same for TCP, with a context for the given address and port |
| Control.ModbusControl.Destroy | modbus_control.cpp:21-26 | the destructor's effect is exactly one disconnect() |
| Control.ModbusControl.SetupRtuFunctions | modbus_control.cpp:104-119 | installs the RTU callbacks and changes nothing else |
| Control.ModbusControl.SetupTcpFunctions | modbus_control.cpp:121-136 | installs the TCP callbacks and changes nothing else |
| Control.ModbusControl.HandleError | modbus_control.cpp:146-150 | clears `connected` and changes nothing else |
| Control.ModbusControl.ConnectFunc | modbus_control.cpp:106-113 | issues modbus_connect; on -1 clears `connected` and returns false, otherwise sets it and returns true (the RTU and TCP callbacks alike) |
| Control.ModbusControl.DisconnectFunc | modbus_control.cpp:115-118 | issues modbus_close and clears `connected` |
| Control.ModbusControl.Connect | modbus_control.cpp:28-31 | follows SessionSpec.Connect: false and no change without a context, otherwise the connect callback |
| Control.ModbusControl.Disconnect | modbus_control.cpp:33-37 | follows SessionSpec.Disconnect: modbus_close and `connected` cleared when a context exists, nothing otherwise |
| Control.ModbusControl.IsConnected | modbus_control.cpp:39-41 | returns `connected`; it has no modifies clause, so it changes nothing |
| Control.ModbusControl.EnsureConnection | modbus_control.cpp:138-144 | follows SessionSpec.EnsureConnection |
| Control.ModbusControl.ReadHoldingRegisters | modbus_control.cpp:44-52 | follows SessionSpec.Operation with modbus_read_registers; on success the buffer holds the registers read, on failure it is unchanged |
| Control.ModbusControl.ReadCoils | modbus_control.cpp:54-61 | follows SessionSpec.Operation with modbus_read_bits; on success the buffer holds one 0/1 byte per coil, on failure it is unchanged |
| Control.ModbusControl.WriteCoil | modbus_control.cpp:63-70 | follows SessionSpec.Operation with modbus_write_bit |
| Control.ModbusControl.ReadInputRegisters | modbus_control.cpp:73-80 | follows SessionSpec.Operation with modbus_read_input_registers; buffer as for holding registers |
| Control.ModbusControl.WriteRegister | modbus_control.cpp:83-91 | follows SessionSpec.Operation with modbus_write_register |
| Control.ModbusControl.WriteRegisters | modbus_control.cpp:94-102 | follows SessionSpec.Operation with modbus_write_registers carrying the first nb values; the values array is outside the frame, so it is never written |
| Args.ParseArgs | main.cpp:60-195 | returns true exactly when the reference scan of argv[1..] accepts, and leaves the configuration as that scan does, also on failure; argv[0] is never examined |
| Args.AcceptedIffWellFormed | main.cpp:188-194 | the scan accepts exactly when every argument is --tcp, --rtu, or a recognised option followed by an acceptable value, whatever the starting configuration |
| Args.AssignThenCheck | main.cpp:103-183 | storing an option's value changes only its field; parity is accepted iff its first character is N, E or O; data bits 7 or 8; stop bits 1 or 2; mode 0 to 2; interval not negative; other values are stored unchecked |
| Args.ScanAppend | main.cpp:61-62 | the scan of a + b, after an accepted a, continues with b exactly where the scan of a stopped |
| Args.HelpStopsTheScan | main.cpp:64-66 | -h or --help in option position stops the scan with the help verdict, whatever follows |
| Args.MissingValueRejected | main.cpp:73-79 | a value-taking option as the last argument is rejected as missing its value |
| Args.ValueConsumed | main.cpp:80-86 | a present value is stored and the scan continues after both tokens; a value that fails the check stops the scan after being stored |
| Args.UnnamedFieldsKept | main.cpp:11-30 | a field that no option names (a value that follows its option names nothing) keeps its value, the default when starting from the defaults, whether the scan accepts or stops |
| Args.LastOccurrenceWins | main.cpp:138-165 | the last occurrence of an option in option position decides its field; later values spelled like the option do not count |
| Args.LastTransportWins | main.cpp:67-71 | the last of --tcp and --rtu in option position decides the transport |
| Benchmark.PatternValues | main.cpp:272-274 | the write pattern holds i + 1 at index i for every index below 65535; at index 65535 the uint16_t store wraps to 0 |
| Benchmark.FillWriteBuffer | main.cpp:272-274 | after the fill loop the write buffer is exactly the pattern |
| Benchmark.IterationCounts | main.cpp:286-303 | one iteration adds one count per attempt: a read only in modes 0 and 2, a write only in modes 1 and 2 |
| Benchmark.EveryAttemptCounted | main.cpp:286-309 | after n iterations the three counters have grown by n times the attempts per iteration in all; reads never grow in mode 1 and writes never in mode 0 |
| Benchmark.OnlyConfiguredRequests | main.cpp:288-303 | the loop keeps the context, never rewrites earlier requests, and issues only reconnects, the configured read and the configured write carrying the write buffer |
| Benchmark.SilentDeviceOnlyFails | main.cpp:288-303 | with a device that never answers, failures grow by every attempt and the success counters stay put; a failure never ends the loop |
| Benchmark.AnsweringDeviceNeverFails | main.cpp:288-303 | with a context and a device that answers every request in full, nothing fails and reads and writes each grow by one per iteration in the modes that make them |
| Benchmark.RunLoop | main.cpp:286-309 | the loop's counters and session equal Iterations for the configured mode, start, count and write buffer; the write buffer, the transport callbacks and the slave id are unchanged |
| Benchmark.Open | main.cpp:236-257 | builds the RTU object from the serial settings when RTU is selected and the TCP object from address and port otherwise, with the configured slave id, disconnected |
| Benchmark.Measure | main.cpp:268-316 | allocates the buffers, fills the pattern, runs the loop and ends with two disconnects (disconnect(), then the destructor's); the transport callbacks and the slave id are unchanged |
| Benchmark.RunProgram | main.cpp:224-316 | a parse failure exits 1 with nothing issued; a failed connect exits 1 after the destructor's close; a negative register count ends in the vector exception; otherwise the program exits 0 with the counters of Iterations over the pattern, after one connect, the loop's requests and two closes |

## Left out

- Console and error-stream output: `showHelp`, `printConfig`, the results
  report, and the `std::cerr` message and `modbus_strerror(errno)` in
  `handleError`. The message strings appear only as arguments.
- `std::chrono::steady_clock` and the duration check: the loop runs for an
  iteration count given from outside. So the model does not tie a
  non-positive `testDuration` to zero iterations.
- `std::this_thread::sleep_for` and the `interval` wait between iterations.
- The throughput arithmetic in `double` that follows the loop.
- `std::stoi` is an arbitrary total function, so its exceptions on
  non-numeric or out-of-range input are not modelled.
- The libmodbus internals: the RTU and TCP framing, CRC, timeouts and the
  protocol's limits on register counts are replaced by the reply oracle.
- Libmodbus.Context.SetSlave stores any slave id with no range check, so the
  constructors and Benchmark.Open promise `ctx.slave == slave` even for an id
  that modbus_set_slave would refuse and not store (such as 300, which the
  parser accepts unchecked). Whether `modbus_new_rtu`/`modbus_new_tcp` return a context is a
  parameter (`created`).
- `modbus_free`, `new` and `delete` as memory management: the destructor is
  modelled by its one observable effect, the disconnect.
- Benchmark.RunLoop: the counters are unbounded naturals; the 32-bit `int`
  overflow after about 2^31 attempts is not modelled.
- Args.ParseArgs: the chain of string comparisons is written as one
  classification of the token (`Classify`, in the same order) followed by a
  dispatch on it.
- The help text gives 9600 as the default baud rate, but the `TestConfig`
  initialiser sets 115200. The model follows the initialiser.
