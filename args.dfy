/**
 * The benchmark's command-line parser: a left-to-right scan over argv that
 * fills a TestConfig record.
 *
 * `Scan` is the reference definition, one token (or one option and its value)
 * at a time; `ParseArgs` is the parser's loop, proved to compute it. std::stoi
 * is the parameter `toInt`, an arbitrary total function from strings to ints.
 */
module Args {

  /** The test parameters, with the defaults below. */
  datatype TestConfig = TestConfig(
    isRtu: bool,
    ip: string,
    port: int,
    device: string,
    baudRate: int,
    parity: char,
    dataBits: int,
    stopBits: int,
    slave: int,
    startRegister: int,
    registerCount: int,
    testDuration: int,   // seconds
    testMode: int,       // 0: read, 1: write, 2: read and write
    interval: int)       // milliseconds between iterations, 0 for none

  const Defaults: TestConfig :=
    TestConfig(false, "127.0.0.1", 502, "/dev/ttyUSB0", 115200, 'N', 8, 1, 1, 0, 10, 10, 0, 0)

  /** The options that take a value, one per field they set. */
  datatype Setting =
    Ip | Port | Device | Baud | Parity | DataBits | StopBits | Slave | Register | Count | Duration | Mode | Interval

  /** A field of TestConfig: the transport flag, or the field of a setting. */
  datatype Field = TransportField | SettingField(setting: Setting)

  /** How the parser reads a token in option position. */
  datatype Kind = Help | SelectTransport(rtu: bool) | Takes(setting: Setting) | Unknown

  function Classify(arg: string): Kind {
    if arg == "-h" || arg == "--help" then Help
    else if arg == "--tcp" then SelectTransport(false)
    else if arg == "--rtu" then SelectTransport(true)
    else if arg == "-i" || arg == "--ip" then Takes(Ip)
    else if arg == "-p" || arg == "--port" then Takes(Port)
    else if arg == "-d" || arg == "--device" then Takes(Device)
    else if arg == "-b" || arg == "--baud" then Takes(Baud)
    else if arg == "--parity" then Takes(Parity)
    else if arg == "--data-bits" then Takes(DataBits)
    else if arg == "--stop-bits" then Takes(StopBits)
    else if arg == "-s" || arg == "--slave" then Takes(Slave)
    else if arg == "-r" || arg == "--register" then Takes(Register)
    else if arg == "-c" || arg == "--count" then Takes(Count)
    else if arg == "-t" || arg == "--duration" then Takes(Duration)
    else if arg == "-m" || arg == "--mode" then Takes(Mode)
    else if arg == "-v" || arg == "--interval" then Takes(Interval)
    else Unknown
  }

  /** `s[0]` of a C string: the terminating '\0' when the string is empty. */
  function FirstChar(s: string): char {
    if s == [] then '\0' else s[0]
  }

  /** Store the value of an option in its field, without any check. */
  function Assign(c: TestConfig, s: Setting, v: string, toInt: string -> int): TestConfig {
    match s
    case Ip => c.(ip := v)
    case Port => c.(port := toInt(v))
    case Device => c.(device := v)
    case Baud => c.(baudRate := toInt(v))
    case Parity => c.(parity := FirstChar(v))
    case DataBits => c.(dataBits := toInt(v))
    case StopBits => c.(stopBits := toInt(v))
    case Slave => c.(slave := toInt(v))
    case Register => c.(startRegister := toInt(v))
    case Count => c.(registerCount := toInt(v))
    case Duration => c.(testDuration := toInt(v))
    case Mode => c.(testMode := toInt(v))
    case Interval => c.(interval := toInt(v))
  }

  /** The check made on a field right after it was assigned. */
  predicate Admissible(c: TestConfig, s: Setting) {
    match s
    case Parity => c.parity == 'N' || c.parity == 'E' || c.parity == 'O'
    case DataBits => c.dataBits == 7 || c.dataBits == 8
    case StopBits => c.stopBits == 1 || c.stopBits == 2
    case Mode => !(c.testMode < 0 || c.testMode > 2)
    case Interval => !(c.interval < 0)
    case _ => true
  }

  /** Why the parser stopped, or Accepted. */
  datatype Verdict =
    | Accepted
    | HelpRequested
    | MissingValue(setting: Setting)
    | InvalidValue(setting: Setting)
    | UnknownOption(arg: string)

  /** The verdict, and the configuration as the parser left it (also on failure). */
  datatype ScanResult = ScanResult(verdict: Verdict, config: TestConfig)

  /** The reference scan over the arguments that follow the program name. */
  function Scan(c: TestConfig, args: seq<string>, toInt: string -> int): ScanResult
    decreases |args|
  {
    if args == [] then ScanResult(Accepted, c)
    else match Classify(args[0])
      case Help => ScanResult(HelpRequested, c)
      case SelectTransport(rtu) => Scan(c.(isRtu := rtu), args[1..], toInt)
      case Unknown => ScanResult(UnknownOption(args[0]), c)
      case Takes(s) =>
        if |args| < 2 then ScanResult(MissingValue(s), c)
        else
          var c' := Assign(c, s, args[1], toInt);
          if !Admissible(c', s) then ScanResult(InvalidValue(s), c')
          else Scan(c', args[2..], toInt)
  }

  /** argv without the program name. */
  function Tail(argv: seq<string>): seq<string> {
    if argv == [] then [] else argv[1..]
  }

  /**
   * parseArgs: returns true exactly when the reference scan of argv[1..]
   * accepts, and leaves `cfg` as that scan does, on success and on failure.
   * argv[0] is never examined.
   */
  method ParseArgs(argv: seq<string>, config: TestConfig, toInt: string -> int) returns (ok: bool, cfg: TestConfig)
    ensures ok <==> Scan(config, Tail(argv), toInt).verdict == Accepted
    ensures cfg == Scan(config, Tail(argv), toInt).config
  {
    cfg := config;
    var i := 1;
    while i < |argv|
      invariant 1 <= i
      invariant |argv| == 0 ==> cfg == config
      invariant |argv| > 0 ==> i <= |argv| && Scan(cfg, argv[i..], toInt) == Scan(config, argv[1..], toInt)
    {
      var arg := argv[i];
      ScanAt(cfg, argv, i, toInt);
      match Classify(arg) {
        case Help =>
          return false, cfg;
        case SelectTransport(rtu) =>
          cfg := cfg.(isRtu := rtu);
        case Takes(setting) =>
          if i + 1 < |argv| {
            i := i + 1;
            cfg := Assign(cfg, setting, argv[i], toInt);
            if !Admissible(cfg, setting) {
              return false, cfg;
            }
          } else {
            return false, cfg;
          }
        case Unknown =>
          return false, cfg;
      }
      i := i + 1;
    }
    assert |argv| > 0 ==> argv[i..] == [];
    return true, cfg;
  }

  /** One step of the scan, read off argv at position i. */
  lemma ScanAt(c: TestConfig, argv: seq<string>, i: nat, toInt: string -> int)
    requires i < |argv|
    ensures var k := Classify(argv[i]);
      && (k.Help? ==> Scan(c, argv[i..], toInt) == ScanResult(HelpRequested, c))
      && (k.Unknown? ==> Scan(c, argv[i..], toInt) == ScanResult(UnknownOption(argv[i]), c))
      && (k.SelectTransport? ==> Scan(c, argv[i..], toInt) == Scan(c.(isRtu := k.rtu), argv[i + 1..], toInt))
      && (k.Takes? && i + 1 >= |argv| ==> Scan(c, argv[i..], toInt) == ScanResult(MissingValue(k.setting), c))
      && (k.Takes? && i + 1 < |argv| ==>
            var c' := Assign(c, k.setting, argv[i + 1], toInt);
            Scan(c, argv[i..], toInt) ==
              if Admissible(c', k.setting) then Scan(c', argv[i + 2..], toInt)
              else ScanResult(InvalidValue(k.setting), c'))
  {
    assert argv[i..][1..] == argv[i + 1..];
    if i + 1 < |argv| {
      assert argv[i..][2..] == argv[i + 2..];
    }
  }

  /**
   * The fields named by the tokens the scan reads in option position: a value
   * that follows its option names nothing, and nothing after a token that stops
   * the scan (help, an unknown option, a missing value) is read at all.
   */
  function NamedFields(args: seq<string>): set<Field>
    decreases |args|
  {
    if args == [] then {}
    else match Classify(args[0])
      case SelectTransport(_) => {TransportField} + NamedFields(args[1..])
      case Takes(s) => {SettingField(s)} + (if |args| < 2 then {} else NamedFields(args[2..]))
      case _ => {}
  }

  /** Two configurations agree on field f. */
  predicate SameField(a: TestConfig, b: TestConfig, f: Field) {
    match f
    case TransportField => a.isRtu == b.isRtu
    case SettingField(s) =>
      match s
      case Ip => a.ip == b.ip
      case Port => a.port == b.port
      case Device => a.device == b.device
      case Baud => a.baudRate == b.baudRate
      case Parity => a.parity == b.parity
      case DataBits => a.dataBits == b.dataBits
      case StopBits => a.stopBits == b.stopBits
      case Slave => a.slave == b.slave
      case Register => a.startRegister == b.startRegister
      case Count => a.registerCount == b.registerCount
      case Duration => a.testDuration == b.testDuration
      case Mode => a.testMode == b.testMode
      case Interval => a.interval == b.interval
  }

  /** Whether a value is accepted for a setting, independently of any configuration. */
  predicate ValueOk(s: Setting, v: string, toInt: string -> int) {
    match s
    case Parity => FirstChar(v) in {'N', 'E', 'O'}
    case DataBits => toInt(v) in {7, 8}
    case StopBits => toInt(v) in {1, 2}
    case Mode => 0 <= toInt(v) <= 2
    case Interval => toInt(v) >= 0
    case _ => true
  }

  /**
   * An argument list the parser accepts, as a grammar: a sequence of --tcp,
   * --rtu, and value-taking options each followed by an acceptable value.
   */
  predicate WellFormed(args: seq<string>, toInt: string -> int)
    decreases |args|
  {
    args == [] ||
    match Classify(args[0])
    case SelectTransport(_) => WellFormed(args[1..], toInt)
    case Takes(s) => |args| >= 2 && ValueOk(s, args[1], toInt) && WellFormed(args[2..], toInt)
    case _ => false
  }

  /**
   * Assigning an option's value changes only that option's field, and the
   * check that follows is exactly ValueOk: parity by its first character
   * (N, E or O), data bits 7 or 8, stop bits 1 or 2, mode 0 to 2, interval not
   * negative; port, baud rate, slave, start register, count, duration, ip and
   * device are stored without any check.
   */
  lemma AssignThenCheck(c: TestConfig, s: Setting, v: string, toInt: string -> int)
    ensures forall f :: f != SettingField(s) ==> SameField(c, Assign(c, s, v, toInt), f)
    ensures Admissible(Assign(c, s, v, toInt), s) <==> ValueOk(s, v, toInt)
    ensures s == Parity ==> (ValueOk(s, v, toInt) <==> FirstChar(v) == 'N' || FirstChar(v) == 'E' || FirstChar(v) == 'O')
    ensures s == DataBits ==> (ValueOk(s, v, toInt) <==> toInt(v) == 7 || toInt(v) == 8)
    ensures s == StopBits ==> (ValueOk(s, v, toInt) <==> toInt(v) == 1 || toInt(v) == 2)
    ensures s == Mode ==> (ValueOk(s, v, toInt) <==> 0 <= toInt(v) <= 2)
    ensures s == Interval ==> (ValueOk(s, v, toInt) <==> toInt(v) >= 0)
    ensures s !in {Parity, DataBits, StopBits, Mode, Interval} ==> ValueOk(s, v, toInt)
  {
  }

  /**
   * Acceptance depends only on the arguments, not on the configuration the
   * scan starts from, and holds exactly when every argument is a recognised
   * option with its required, acceptable value.
   */
  lemma {:induction false} AcceptedIffWellFormed(c: TestConfig, args: seq<string>, toInt: string -> int)
    ensures Scan(c, args, toInt).verdict == Accepted <==> WellFormed(args, toInt)
    decreases |args|
  {
    if args != [] {
      match Classify(args[0])
      case SelectTransport(rtu) =>
        AcceptedIffWellFormed(c.(isRtu := rtu), args[1..], toInt);
      case Takes(s) =>
        if |args| >= 2 {
          AssignThenCheck(c, s, args[1], toInt);
          AcceptedIffWellFormed(Assign(c, s, args[1], toInt), args[2..], toInt);
        }
      case _ =>
    }
  }

  /**
   * A fully accepted prefix hands its configuration on: the scan of a + b
   * continues with b exactly where the scan of a stopped, so options and
   * their values stay paired across the boundary.
   */
  lemma {:induction false} ScanAppend(c: TestConfig, a: seq<string>, b: seq<string>, toInt: string -> int)
    requires Scan(c, a, toInt).verdict == Accepted
    ensures Scan(c, a + b, toInt) == Scan(Scan(c, a, toInt).config, b, toInt)
    decreases |a|
  {
    if a == [] {
      assert a + b == b;
    } else {
      assert (a + b)[0] == a[0];
      match Classify(a[0])
      case SelectTransport(rtu) =>
        assert (a + b)[1..] == a[1..] + b;
        ScanAppend(c.(isRtu := rtu), a[1..], b, toInt);
      case Takes(s) =>
        assert (a + b)[1] == a[1];
        assert (a + b)[2..] == a[2..] + b;
        ScanAppend(Assign(c, s, a[1], toInt), a[2..], b, toInt);
    }
  }

  /**
   * -h or --help in option position ends the scan with HelpRequested,
   * whatever follows.
   */
  lemma HelpStopsTheScan(c: TestConfig, a: seq<string>, h: string, rest: seq<string>, toInt: string -> int)
    requires Scan(c, a, toInt).verdict == Accepted
    requires h == "-h" || h == "--help"
    ensures Scan(c, a + [h] + rest, toInt) == ScanResult(HelpRequested, Scan(c, a, toInt).config)
  {
    assert a + [h] + rest == a + ([h] + rest);
    ScanAppend(c, a, [h] + rest, toInt);
  }

  /** A value-taking option as the last argument is rejected as missing its value. */
  lemma MissingValueRejected(c: TestConfig, a: seq<string>, opt: string, toInt: string -> int)
    requires Scan(c, a, toInt).verdict == Accepted
    requires Classify(opt).Takes?
    ensures Scan(c, a + [opt], toInt) == ScanResult(MissingValue(Classify(opt).setting), Scan(c, a, toInt).config)
  {
    ScanAppend(c, a, [opt], toInt);
  }

  /**
   * When the value is present, the scan stores it and continues after both
   * tokens: the value is never read as an option, even when it looks like one.
   * A value the check refuses stops the scan with InvalidValue, after it has
   * been stored.
   */
  lemma ValueConsumed(c: TestConfig, a: seq<string>, opt: string, v: string, rest: seq<string>, toInt: string -> int)
    requires Scan(c, a, toInt).verdict == Accepted
    requires Classify(opt).Takes?
    ensures var s := Classify(opt).setting;
      var c' := Assign(Scan(c, a, toInt).config, s, v, toInt);
      Scan(c, a + [opt, v] + rest, toInt) ==
        if ValueOk(s, v, toInt) then Scan(c', rest, toInt) else ScanResult(InvalidValue(s), c')
  {
    var s := Classify(opt).setting;
    AssignThenCheck(Scan(c, a, toInt).config, s, v, toInt);
    assert a + [opt, v] + rest == a + ([opt, v] + rest);
    ScanAppend(c, a, [opt, v] + rest, toInt);
    assert ([opt, v] + rest)[2..] == rest;
  }

  /**
   * A field that no option names keeps the value it had, whether the scan
   * accepts or stops early.
   */
  lemma {:induction false} UnnamedFieldsKept(c: TestConfig, args: seq<string>, f: Field, toInt: string -> int)
    requires f !in NamedFields(args)
    ensures SameField(c, Scan(c, args, toInt).config, f)
    decreases |args|
  {
    if args != [] {
      match Classify(args[0])
      case SelectTransport(rtu) =>
        UnnamedFieldsKept(c.(isRtu := rtu), args[1..], f, toInt);
        SameFieldTransitive(c, c.(isRtu := rtu), Scan(c, args, toInt).config, f);
      case Takes(s) =>
        if |args| >= 2 {
          var c' := Assign(c, s, args[1], toInt);
          AssignThenCheck(c, s, args[1], toInt);
          if Admissible(c', s) {
            UnnamedFieldsKept(c', args[2..], f, toInt);
            SameFieldTransitive(c, c', Scan(c, args, toInt).config, f);
          }
        }
      case _ =>
    }
  }

  lemma SameFieldTransitive(a: TestConfig, b: TestConfig, c: TestConfig, f: Field)
    requires SameField(a, b, f) && SameField(b, c, f)
    ensures SameField(a, c, f)
  {
  }

  /**
   * The last occurrence of an option wins: after an accepted prefix, an option
   * with its value, followed by arguments whose options do not name that field
   * (a value spelled like the option does not count), leaves the field as that
   * value set it.
   */
  lemma LastOccurrenceWins(c: TestConfig, a: seq<string>, opt: string, v: string, rest: seq<string>, toInt: string -> int)
    requires Scan(c, a, toInt).verdict == Accepted
    requires Classify(opt).Takes?
    requires SettingField(Classify(opt).setting) !in NamedFields(rest)
    ensures var s := Classify(opt).setting;
      SameField(Scan(c, a + [opt, v] + rest, toInt).config, Assign(c, s, v, toInt), SettingField(s))
  {
    var s := Classify(opt).setting;
    var c' := Assign(Scan(c, a, toInt).config, s, v, toInt);
    ValueConsumed(c, a, opt, v, rest, toInt);
    if ValueOk(s, v, toInt) {
      UnnamedFieldsKept(c', rest, SettingField(s), toInt);
    }
  }

  /** The same for --tcp and --rtu: the last of them decides the transport. */
  lemma LastTransportWins(c: TestConfig, a: seq<string>, t: string, rest: seq<string>, toInt: string -> int)
    requires Scan(c, a, toInt).verdict == Accepted
    requires t == "--tcp" || t == "--rtu"
    requires TransportField !in NamedFields(rest)
    ensures Scan(c, a + [t] + rest, toInt).config.isRtu == (t == "--rtu")
  {
    var c1 := Scan(c, a, toInt).config;
    assert a + [t] + rest == a + ([t] + rest);
    ScanAppend(c, a, [t] + rest, toInt);
    assert ([t] + rest)[1..] == rest;
    UnnamedFieldsKept(c1.(isRtu := t == "--rtu"), rest, TransportField, toInt);
  }
}
