/**
 The ICE agent layer: return-code decoding, the agent builder and the native
 configuration record it derives, agent creation through the native
 `juice_create` (an oracle here), and the text checks done before a remote
 description or candidate is handed to the engine.
 */
module IceAgent {
  import opened Base
  import opened Sys
  import opened Errors
  import Handlers

  // ---------------------------------------------------------------------------
  // Return codes

  /**
   `raw_retcode_to_result`: 0 is success, the three known error codes map to
   their errors; any other code is `unreachable!()`, hence the precondition.
   */
  function RetcodeToResult(abi: Abi, code: int): (r: Result<()>)
    requires abi.Valid() && abi.KnownRetcode(code)
    ensures r.Ok? <==> code == 0
    ensures r == Err(InvalidArgument) <==> code == abi.errInvalid
    ensures r == Err(Failed) <==> code == abi.errFailed
    ensures r == Err(NotAvailable) <==> code == abi.errNotAvail
  {
    if code == 0 then Ok(())
    else if code == abi.errInvalid then Err(InvalidArgument)
    else if code == abi.errFailed then Err(Failed)
    else Err(NotAvailable)
  }

  /** The native code each outcome comes from. */
  function RetcodeOf(abi: Abi, r: Result<()>): int {
    match r
    case Ok(_) => 0
    case Err(InvalidArgument) => abi.errInvalid
    case Err(Failed) => abi.errFailed
    case Err(NotAvailable) => abi.errNotAvail
  }

  /** Decoding is a bijection between the four known codes and the four outcomes. */
  lemma RetcodeRoundTrip(abi: Abi, code: int, r: Result<()>)
    requires abi.Valid()
    ensures abi.KnownRetcode(RetcodeOf(abi, r))
    ensures RetcodeToResult(abi, RetcodeOf(abi, r)) == r
    ensures abi.KnownRetcode(code) ==> RetcodeOf(abi, RetcodeToResult(abi, code)) == code
  {
    match r
    case Ok(u) => assert u == ();
    case Err(e) =>
  }

  // ---------------------------------------------------------------------------
  // Concurrency mode

  datatype ConcurrencyMode = Poll | Mux | Thread

  /** `From<ConcurrencyMode> for juice_concurrency_mode` */
  function NativeMode(abi: Abi, m: ConcurrencyMode): (r: int)
    ensures abi.Valid() ==>
      && (r == abi.modePoll <==> m == Poll)
      && (r == abi.modeMux <==> m == Mux)
      && (r == abi.modeThread <==> m == Thread)
  {
    match m
    case Poll => abi.modePoll
    case Mux => abi.modeMux
    case Thread => abi.modeThread
  }

  /** Distinct modes are passed to the engine as distinct tags. */
  lemma NativeModeInjective(abi: Abi, m1: ConcurrencyMode, m2: ConcurrencyMode)
    requires abi.Valid()
    ensures NativeMode(abi, m1) == NativeMode(abi, m2) <==> m1 == m2
  {
  }

  // ---------------------------------------------------------------------------
  // STUN and TURN servers

  datatype StunServer = StunServer(host: CText, port: uint16)

  const GoogleStunHost: Bytes := Ascii("stun.l.google.com")
  const GoogleStunPort: uint16 := 19302

  /** `StunServer::default()`: Google's public STUN server. */
  function DefaultStunServer(): (s: StunServer)
    ensures s.host == GoogleStunHost && s.port == 19302
  {
    assert forall i :: 0 <= i < |GoogleStunHost| ==> GoogleStunHost[i] != 0;
    StunServer(GoogleStunHost, GoogleStunPort)
  }

  /** `StunServer::new`: rejects a host with a terminator byte. */
  function NewStunServer(host: Bytes, port: uint16): (r: Result<StunServer>)
    ensures r.Err? <==> HasNul(host)
    ensures r.Err? ==> r.error == InvalidArgument
    ensures r.Ok? ==> r.value.host == host && r.value.port == port
  {
    match CStringNew(host)
    case None => Err(InvalidArgument)
    case Some(h) => Ok(StunServer(h, port))
  }

  datatype TurnServer = TurnServer(host: CText, username: CText, password: CText, port: uint16)

  // ---------------------------------------------------------------------------
  // Builder

  datatype Builder = Builder(
    stunServer: Option<StunServer>,
    portRange: Option<(uint16, uint16)>,
    bindAddress: Option<CText>,
    turnServers: seq<TurnServer>,
    handler: Handlers.Handler,
    concurrencyMode: ConcurrencyMode
  )

  /** `Builder::new` (also `Agent::builder`): nothing configured, polling mode. */
  function NewBuilder(h: Handlers.Handler): (b: Builder)
    ensures b.stunServer.None? && b.portRange.None? && b.bindAddress.None?
    ensures b.turnServers == []
    ensures b.handler == h
    ensures b.concurrencyMode == Poll
  {
    Builder(None, None, None, [], h, Poll)
  }

  /** `with_stun`: the host must be a valid C string, since `StunServer::new` is unwrapped. */
  function WithStun(b: Builder, host: Bytes, port: uint16): (r: Builder)
    requires !HasNul(host)
    ensures r.stunServer == Some(StunServer(host, port))
    ensures r == b.(stunServer := r.stunServer)
  {
    b.(stunServer := Some(NewStunServer(host, port).value))
  }

  /** `with_port_range` */
  function WithPortRange(b: Builder, begin: uint16, end: uint16): (r: Builder)
    ensures r.portRange == Some((begin, end))
    ensures r == b.(portRange := r.portRange)
  {
    b.(portRange := Some((begin, end)))
  }

  /**
   `with_bind_address`: the address is given by its textual form, which never
   contains a terminator byte, so the conversion cannot fail.
   */
  function WithBindAddress(b: Builder, addr: CText): (r: Builder)
    ensures r.bindAddress == Some(addr)
    ensures r == b.(bindAddress := r.bindAddress)
  {
    b.(bindAddress := Some(addr))
  }

  /** `concurrency` */
  function Concurrency(b: Builder, mode: ConcurrencyMode): (r: Builder)
    ensures r.concurrencyMode == mode
    ensures r == b.(concurrencyMode := mode)
  {
    b.(concurrencyMode := mode)
  }

  /**
   `add_turn_server`: each of host, user and password must be a valid C
   string; on success exactly one server is appended and nothing else changes.
   */
  function AddTurnServer(b: Builder, host: Bytes, port: uint16, user: Bytes, pass: Bytes): (r: Result<Builder>)
    ensures r.Err? <==> HasNul(host) || HasNul(user) || HasNul(pass)
    ensures r.Err? ==> r.error == InvalidArgument
    ensures r.Ok? ==> r.value == b.(turnServers := b.turnServers + [TurnServer(host, user, pass, port)])
  {
    match CStringNew(host)
    case None => Err(InvalidArgument)
    case Some(h) =>
      match CStringNew(user)
      case None => Err(InvalidArgument)
      case Some(u) =>
        match CStringNew(pass)
        case None => Err(InvalidArgument)
        case Some(p) => Ok(b.(turnServers := b.turnServers + [TurnServer(h, u, p, port)]))
  }

  /** Arguments of one `add_turn_server` call. */
  datatype TurnRequest = TurnRequest(host: Bytes, port: uint16, user: Bytes, pass: Bytes) {
    predicate Valid() {
      !HasNul(host) && !HasNul(user) && !HasNul(pass)
    }
  }

  /** A chain of `add_turn_server(..)?` calls: the first failure ends the chain. */
  function AddTurnServers(b: Builder, reqs: seq<TurnRequest>): Result<Builder>
    decreases |reqs|
  {
    if |reqs| == 0 then Ok(b)
    else
      var q := reqs[0];
      match AddTurnServer(b, q.host, q.port, q.user, q.pass)
      case Err(e) => Err(e)
      case Ok(b1) => AddTurnServers(b1, reqs[1..])
  }

  /**
   A chain of `add_turn_server` calls succeeds exactly when every request is
   valid, and then the builder's TURN list gains one entry per call, in call
   order and with every field preserved, while the other fields stay as they were.
   */
  lemma {:induction false} AddTurnServersAppends(b: Builder, reqs: seq<TurnRequest>)
    ensures AddTurnServers(b, reqs).Ok? <==> forall i :: 0 <= i < |reqs| ==> reqs[i].Valid()
    ensures AddTurnServers(b, reqs).Err? ==> AddTurnServers(b, reqs).error == InvalidArgument
    ensures AddTurnServers(b, reqs).Ok? ==>
      var r := AddTurnServers(b, reqs).value;
      && r == b.(turnServers := r.turnServers)
      && |r.turnServers| == |b.turnServers| + |reqs|
      && r.turnServers[..|b.turnServers|] == b.turnServers
      && forall i :: 0 <= i < |reqs| ==>
           var s := r.turnServers[|b.turnServers| + i];
           s.host == reqs[i].host && s.port == reqs[i].port
           && s.username == reqs[i].user && s.password == reqs[i].pass
    decreases |reqs|
  {
    if |reqs| > 0 {
      var q := reqs[0];
      var step := AddTurnServer(b, q.host, q.port, q.user, q.pass);
      if step.Ok? {
        var b1 := step.value;
        AddTurnServersAppends(b1, reqs[1..]);
        assert forall i :: 1 <= i < |reqs| ==> reqs[i] == reqs[1..][i - 1];
        if AddTurnServers(b, reqs).Ok? {
          var r := AddTurnServers(b, reqs).value;
          assert r == AddTurnServers(b1, reqs[1..]).value;
          assert r.turnServers[..|b1.turnServers|] == b1.turnServers;
          assert r.turnServers[..|b.turnServers|] == b1.turnServers[..|b.turnServers|];
          assert r.turnServers[|b.turnServers|] == b1.turnServers[|b.turnServers|];
        }
      } else {
        assert !reqs[0].Valid();
      }
    }
  }

  // ---------------------------------------------------------------------------
  // The native configuration record

  /** `juice_turn_server`: one TURN entry as the engine sees it. */
  datatype NativeTurnServer = NativeTurnServer(host: CText, port: uint16, username: CText, password: CText)

  /** The builder's TURN servers, entry by entry, as native records. */
  function MarshalTurnServers(servers: seq<TurnServer>): (r: seq<NativeTurnServer>)
    ensures |r| == |servers|
    ensures forall i :: 0 <= i < |r| ==>
      r[i] == NativeTurnServer(servers[i].host, servers[i].port, servers[i].username, servers[i].password)
    decreases |servers|
  {
    if |servers| == 0 then []
    else
      var s := servers[0];
      [NativeTurnServer(s.host, s.port, s.username, s.password)] + MarshalTurnServers(servers[1..])
  }

  /**
   `juice_config`. A null pointer is `None`. The four callback pointers and
   the opaque context pointer are not part of this record (see README).
   */
  datatype AgentConfig = AgentConfig(
    concurrencyMode: int,
    stunServerHost: CText,
    stunServerPort: uint16,
    turnServers: Option<seq<NativeTurnServer>>,
    turnServersCount: nat,
    bindAddress: Option<CText>,
    localPortRangeBegin: uint16,
    localPortRangeEnd: uint16
  )

  /** The configuration `build` hands to `juice_create`. */
  function ConfigOf(abi: Abi, b: Builder): (c: AgentConfig)
    ensures c.concurrencyMode == NativeMode(abi, b.concurrencyMode)
    ensures b.stunServer.None? ==> c.stunServerHost == GoogleStunHost && c.stunServerPort == 19302
    ensures b.stunServer.Some? ==>
      c.stunServerHost == b.stunServer.value.host && c.stunServerPort == b.stunServer.value.port
    ensures b.portRange.None? ==> c.localPortRangeBegin == 0 && c.localPortRangeEnd == 0
    ensures b.portRange.Some? ==>
      (c.localPortRangeBegin, c.localPortRangeEnd) == b.portRange.value
    ensures c.bindAddress == b.bindAddress
    ensures b.turnServers == [] <==> c.turnServers.None?
    ensures b.turnServers == [] ==> c.turnServersCount == 0
    ensures c.turnServers.Some? ==> c.turnServersCount == |c.turnServers.value| == |b.turnServers|
    ensures c.turnServers.Some? ==> c.turnServers.value == MarshalTurnServers(b.turnServers)
  {
    // [0..0] means no range
    var portRange := b.portRange.UnwrapOr((0, 0));
    var stun := b.stunServer.UnwrapOr(DefaultStunServer());
    var servers := MarshalTurnServers(b.turnServers);
    var turn := if |servers| == 0 then (None, 0) else (Some(servers), |servers|);
    AgentConfig(
      NativeMode(abi, b.concurrencyMode),
      stun.host,
      stun.port,
      turn.0,
      turn.1,
      b.bindAddress,
      portRange.0,
      portRange.1
    )
  }

  /** A fresh builder yields the engine defaults: Google STUN, no range, no TURN, polling. */
  lemma FreshBuilderConfig(abi: Abi, h: Handlers.Handler)
    ensures var c := ConfigOf(abi, NewBuilder(h));
      && c.stunServerHost == GoogleStunHost && c.stunServerPort == 19302
      && c.localPortRangeBegin == 0 && c.localPortRangeEnd == 0
      && c.turnServers.None? && c.turnServersCount == 0
      && c.bindAddress.None?
      && c.concurrencyMode == abi.modePoll
  {
  }

  /**
   After a successful chain of `add_turn_server` calls on a fresh builder, the
   configuration carries exactly those servers, in call order, with host,
   port, user and password preserved; no call means a null list and count 0.
   */
  lemma TurnServersReachConfig(abi: Abi, h: Handlers.Handler, reqs: seq<TurnRequest>)
    requires AddTurnServers(NewBuilder(h), reqs).Ok?
    ensures var c := ConfigOf(abi, AddTurnServers(NewBuilder(h), reqs).value);
      && (|reqs| == 0 <==> c.turnServers.None?)
      && c.turnServersCount == |reqs|
      && (c.turnServers.Some? ==>
            && |c.turnServers.value| == |reqs|
            && forall i :: 0 <= i < |reqs| ==>
                 var e := c.turnServers.value[i];
                 e.host == reqs[i].host && e.port == reqs[i].port
                 && e.username == reqs[i].user && e.password == reqs[i].pass)
  {
    var b := AddTurnServers(NewBuilder(h), reqs).value;
    AddTurnServersAppends(NewBuilder(h), reqs);
    assert |b.turnServers| == |reqs|;
    assert forall i :: 0 <= i < |reqs| ==> b.turnServers[i] == b.turnServers[0 + i];
  }

  // ---------------------------------------------------------------------------
  // Agent creation

  /** An agent: the non-null native handle and the handler its holder owns. */
  datatype Agent = Agent(handle: Ptr, handler: Handlers.Handler)

  /** `juice_create`, as seen from this layer: a configuration in, a pointer out. */
  type AgentCreate = AgentConfig -> Ptr

  /**
   `build`: hands the derived configuration to `juice_create`; a null handle is
   `Failed`, otherwise the agent owns exactly that handle and the builder's handler.
   */
  function Build(abi: Abi, b: Builder, create: AgentCreate): (r: Result<Agent>)
    ensures r.Err? <==> create(ConfigOf(abi, b)).Null?
    ensures r.Err? ==> r.error == Failed
    ensures r.Ok? ==> r.value.handle == create(ConfigOf(abi, b)) && r.value.handle != Null
    ensures r.Ok? ==> r.value.handler == b.handler
  {
    var ptr := create(ConfigOf(abi, b));
    if ptr.Null? then Err(Failed) else Ok(Agent(ptr, b.handler))
  }

  // ---------------------------------------------------------------------------
  // Remote description and candidates

  /** A call into the native engine that passes text. */
  datatype NativeCall =
    | SetRemoteDescriptionCall(agent: Ptr, sdp: CText)
    | AddRemoteCandidateCall(agent: Ptr, sdp: CText)

  /** The engine's answer to each call: a return code. */
  type Engine = NativeCall -> int

  /** The result of an operation together with the native calls it made, in order. */
  datatype Outcome = Outcome(result: Result<()>, calls: seq<NativeCall>)

  /**
   `set_remote_description`: text with a terminator byte is rejected with
   `InvalidArgument` and never reaches the engine; otherwise it is passed
   once, unchanged, and the engine's return code is decoded.
   */
  function SetRemoteDescription(abi: Abi, a: Agent, sdp: Bytes, engine: Engine): (r: Outcome)
    requires abi.Valid()
    requires !HasNul(sdp) ==> abi.KnownRetcode(engine(SetRemoteDescriptionCall(a.handle, sdp)))
    ensures HasNul(sdp) ==> r.result == Err(InvalidArgument) && r.calls == []
    ensures !HasNul(sdp) ==>
      && r.calls == [SetRemoteDescriptionCall(a.handle, sdp)]
      && r.result == RetcodeToResult(abi, engine(r.calls[0]))
  {
    match CStringNew(sdp)
    case None => Outcome(Err(InvalidArgument), [])
    case Some(s) =>
      var call := SetRemoteDescriptionCall(a.handle, s);
      Outcome(RetcodeToResult(abi, engine(call)), [call])
  }

  /** `add_remote_candidate`: the same check, then the candidate call. */
  function AddRemoteCandidate(abi: Abi, a: Agent, sdp: Bytes, engine: Engine): (r: Outcome)
    requires abi.Valid()
    requires !HasNul(sdp) ==> abi.KnownRetcode(engine(AddRemoteCandidateCall(a.handle, sdp)))
    ensures HasNul(sdp) ==> r.result == Err(InvalidArgument) && r.calls == []
    ensures !HasNul(sdp) ==>
      && r.calls == [AddRemoteCandidateCall(a.handle, sdp)]
      && r.result == RetcodeToResult(abi, engine(r.calls[0]))
  {
    match CStringNew(sdp)
    case None => Outcome(Err(InvalidArgument), [])
    case Some(s) =>
      var call := AddRemoteCandidateCall(a.handle, s);
      Outcome(RetcodeToResult(abi, engine(call)), [call])
  }

  /** A rejected text's outcome does not depend on what the engine would have answered. */
  lemma NulTextIndependentOfEngine(abi: Abi, a: Agent, sdp: Bytes, e1: Engine, e2: Engine)
    requires abi.Valid() && HasNul(sdp)
    ensures SetRemoteDescription(abi, a, sdp, e1) == SetRemoteDescription(abi, a, sdp, e2)
    ensures AddRemoteCandidate(abi, a, sdp, e1) == AddRemoteCandidate(abi, a, sdp, e2)
  {
  }
}
