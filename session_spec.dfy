/**
 * The connection-state machine of a ModbusControl object, as pure functions.
 *
 * A session is described by whether its libmodbus context exists (`ctx` is
 * not null), its `connected` flag, and the requests issued so far on the
 * context. The RTU and TCP variants install connect/disconnect callbacks with
 * the same effect on this state, so the functions below do not depend on the
 * transport. The class in modbus_control.dfy is proved to follow them.
 */
module SessionSpec {
  import opened Libmodbus

  datatype Session = Session(hasContext: bool, connected: bool, log: seq<Request>)

  /** The result of a call that reports success or failure, and the session after it. */
  datatype Step = Step(ok: bool, after: Session)

  /** A session without a context was never connected and has issued nothing. */
  ghost predicate Consistent(s: Session) {
    !s.hasContext ==> !s.connected && s.log == []
  }

  /** connect(): with a context, issue modbus_connect and set `connected` to its outcome. */
  function Connect(s: Session, device: nat -> Reply): Step {
    if !s.hasContext then Step(false, s)
    else if Completes(ConnectRequest, device(|s.log|)) then
      Step(true, s.(connected := true, log := s.log + [ConnectRequest]))
    else
      // handleError
      Step(false, s.(connected := false, log := s.log + [ConnectRequest]))
  }

  /** disconnect(): with a context, issue modbus_close and clear `connected`. */
  function Disconnect(s: Session): Session {
    if s.hasContext then s.(connected := false, log := s.log + [CloseRequest]) else s
  }

  /** ensureConnection(): reconnect only when a context exists and `connected` is false. */
  function EnsureConnection(s: Session, device: nat -> Reply): Step {
    if !s.hasContext then Step(false, s)
    else if !s.connected then Connect(s, device)
    else Step(true, s)
  }

  /**
   * One of the six register/coil operations issuing `req`: ensureConnection,
   * then the protocol call; a call that returns -1 goes through handleError.
   */
  function Operation(s: Session, device: nat -> Reply, req: Request): Step {
    var up := EnsureConnection(s, device);
    if !up.ok then Step(false, up.after)
    else if !Completes(req, device(|up.after.log|)) then
      Step(false, up.after.(connected := false, log := up.after.log + [req]))
    else
      Step(true, up.after.(log := up.after.log + [req]))
  }

  /** Every session state the functions above produce is consistent. */
  lemma ConsistencyPreserved(s: Session, device: nat -> Reply, req: Request)
    requires Consistent(s)
    ensures Consistent(Connect(s, device).after)
    ensures Consistent(Disconnect(s))
    ensures Consistent(EnsureConnection(s, device).after)
    ensures Consistent(Operation(s, device, req).after)
  {
  }

  /**
   * connect() succeeds exactly when a context exists and modbus_connect
   * succeeds; afterwards `connected` equals its result. Without a context it
   * changes nothing.
   */
  lemma ConnectOutcome(s: Session, device: nat -> Reply)
    ensures var r := Connect(s, device);
      && (r.ok <==> s.hasContext && Completes(ConnectRequest, device(|s.log|)))
      && (s.hasContext ==> r.after.connected == r.ok && r.after.log == s.log + [ConnectRequest])
      && (!s.hasContext ==> r.after == s)
  {
  }

  /**
   * ensureConnection(): false without a context; true without any request when
   * already connected; otherwise exactly one connect().
   */
  lemma EnsureConnectionCases(s: Session, device: nat -> Reply)
    ensures !s.hasContext ==> EnsureConnection(s, device) == Step(false, s)
    ensures s.hasContext && s.connected ==> EnsureConnection(s, device) == Step(true, s)
    ensures s.hasContext && !s.connected ==> EnsureConnection(s, device) == Connect(s, device)
  {
  }

  /**
   * After any operation on a consistent session, `connected` equals the
   * operation's result: a failure of any kind leaves the session disconnected
   * and a success leaves it connected.
   */
  lemma ConnectedMirrorsOutcome(s: Session, device: nat -> Reply, req: Request)
    requires Consistent(s)
    ensures Operation(s, device, req).after.connected == Operation(s, device, req).ok
  {
  }

  /**
   * The requests an operation issues: its protocol call alone when connected;
   * modbus_connect and then the protocol call when a reconnect succeeds;
   * modbus_connect alone when the reconnect fails; nothing without a context.
   * So an operation reconnects at most once and never issues its protocol call
   * over a failed reconnect.
   */
  lemma OperationRequests(s: Session, device: nat -> Reply, req: Request)
    ensures var r := Operation(s, device, req);
      && r.after.hasContext == s.hasContext
      && (!s.hasContext ==> r == Step(false, s))
      && (s.hasContext && s.connected ==>
            r.after.log == s.log + [req] && r.ok == Completes(req, device(|s.log|)))
      && (s.hasContext && !s.connected && !Completes(ConnectRequest, device(|s.log|)) ==>
            r == Step(false, s.(log := s.log + [ConnectRequest])))
      && (s.hasContext && !s.connected && Completes(ConnectRequest, device(|s.log|)) ==>
            r.after.log == s.log + [ConnectRequest, req] && r.ok == Completes(req, device(|s.log| + 1)))
  {
  }

  /**
   * disconnect() always leaves the session disconnected, and a second call
   * leaves `ctx` and `connected` as the first did; it only issues one more
   * modbus_close, which libmodbus accepts on a closed context.
   */
  lemma DisconnectIdempotent(s: Session)
    ensures !Disconnect(s).connected || !s.hasContext
    ensures var once, twice := Disconnect(s), Disconnect(Disconnect(s));
      && twice.hasContext == once.hasContext
      && twice.connected == once.connected
      && twice.log == once.log + (if s.hasContext then [CloseRequest] else [])
  {
  }

  /** Against a device that never answers, every operation fails. */
  lemma SilentDeviceFails(s: Session, device: nat -> Reply, req: Request)
    requires forall k :: device(k) == Failed
    ensures !Operation(s, device, req).ok
    ensures Operation(s, device, req).after.hasContext == s.hasContext
  {
  }

  /**
   * With a context, and a device whose every reply completes `req`, the
   * operation succeeds (reconnecting first if needed) and leaves the session
   * connected.
   */
  lemma AnsweringDeviceCompletes(s: Session, device: nat -> Reply, req: Request)
    requires s.hasContext
    requires forall k :: Completes(req, device(k))
    ensures Operation(s, device, req).ok
    ensures Operation(s, device, req).after.hasContext && Operation(s, device, req).after.connected
  {
    assert Completes(req, device(|s.log|));
  }

  /** A sequence of operations issued one after the other. */
  function Run(s: Session, device: nat -> Reply, reqs: seq<Request>): (r: Session)
    decreases |reqs|
  {
    if reqs == [] then s
    else Run(Operation(s, device, reqs[0]).after, device, reqs[1..])
  }

  /** The number of modbus_connect calls in a request log. */
  function Connects(log: seq<Request>): nat {
    if log == [] then 0
    else Connects(log[..|log| - 1]) + (if log[|log| - 1] == ConnectRequest then 1 else 0)
  }

  lemma ConnectsAppend(a: seq<Request>, b: seq<Request>)
    ensures Connects(a + b) == Connects(a) + Connects(b)
    decreases |b|
  {
    if b == [] {
      assert a + b == a;
    } else {
      assert (a + b)[..|a + b| - 1] == a + b[..|b| - 1];
      ConnectsAppend(a, b[..|b| - 1]);
    }
  }

  /**
   * Over any sequence of operations, the log only grows, by at most two
   * requests per operation, and at most one modbus_connect per operation
   * (none of the operations' own requests being a connect).
   */
  lemma {:induction false} RunReconnectsAtMostOncePerOperation(s: Session, device: nat -> Reply, reqs: seq<Request>)
    requires forall k :: 0 <= k < |reqs| ==> reqs[k] != ConnectRequest
    ensures var t := Run(s, device, reqs);
      && |s.log| <= |t.log| <= |s.log| + 2 * |reqs|
      && t.log[..|s.log|] == s.log
      && Connects(t.log) <= Connects(s.log) + |reqs|
    decreases |reqs|
  {
    if reqs != [] {
      var r := Operation(s, device, reqs[0]);
      OperationRequests(s, device, reqs[0]);
      var extra := r.after.log[|s.log|..];
      assert r.after.log == s.log + extra;
      assert Connects(extra) <= 1 by {
        if extra == [reqs[0]] {
          assert extra[..0] == [];
        } else if extra == [ConnectRequest, reqs[0]] {
          assert extra[..1] == [ConnectRequest];
          assert [ConnectRequest][..0] == [];
        } else if extra == [ConnectRequest] {
          assert extra[..0] == [];
        }
      }
      ConnectsAppend(s.log, extra);
      RunReconnectsAtMostOncePerOperation(r.after, device, reqs[1..]);
    }
  }
}
