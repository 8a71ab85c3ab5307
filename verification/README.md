# juice-rs safety layer, modelled in Dafny

juice-rs wraps the native libjuice ICE agent and its embedded TURN relay
server. Around each native call it has a small layer of pure logic: it
decodes native return codes and state codes, validates text before it
becomes a C string, collects builder options into the native configuration
record, and forwards engine events to an application handler. This project
models that layer and proves its properties. The native engine stays
outside the model. It appears as an oracle:
- `juice_create` and `juice_server_create` are function parameters that map
  a configuration record to a pointer, which may be null.
- The text-taking agent calls go through an `Engine` parameter that maps a
  native call to a return code.
- The libjuice constants (`JUICE_ERR_*`, `JUICE_STATE_*`,
  `JUICE_CONCURRENCY_MODE_*`) are not visible here. They are fields of an
  `Abi` record, and `Abi.Valid` assumes only that they are pairwise distinct
  within each group and that no error code is 0.

Modules, one per source component:
- `Base`: integer widths, byte strings, the `CString::new` check, `Option`
  and pointers.
- `Errors` (src/error.rs): the error set and its messages.
- `Sys`: the abstract ABI constants.
- `States`: `State` and its decoding from native codes (src/agent/mod.rs).
- `Handlers` (src/agent/hander.rs): the four callback slots.
- `IceAgent` (src/agent/mod.rs): return codes, concurrency mode, STUN and
  TURN servers, the builder, the native config, creation, and remote
  description and candidate checks.
- `RelayServer` (src/server.rs): credentials, the server builder, the native
  server config, and creation.

Closures are opaque identifiers. Running a closure is recorded by appending
`Invocation(slot, closure, argument)` to a trace. So "invoked once with the
argument" and "nothing happened" become equalities on traces. Text handed
to `CString::new` is a byte sequence. An IP address is taken as its textual
form, which never holds a zero byte.

Two behaviours of the code are modelled as written:
- The server limit setters store `max(limit, i32::MAX as u32) as i32`. That
  is `i32::MAX` for every limit up to `i32::MAX`. A larger limit wraps to a
  negative number. It is not a clamp.
- Server `build` rejects an empty credential list with `InvalidArgument`.
  tests/server.rs:8 builds a server with no credentials and expects success.
  The model follows the code (`RelayServer.DefaultBuilderIsRejected`).

## Model

| member | source | states |
|---|---|---|
| `Errors.Display` | src/error.rs:14-22 | Each error's message is "invalid argument", "failure" or "not available" respectively, and each message is produced by that error alone |
| `Errors.ExactlyThreeErrors` | src/error.rs:6-10 | The error set is closed: every error is one of exactly three variants |
| `Errors.DisplayInjective` | src/error.rs:17-19 | The three messages are pairwise distinct, so two errors display alike only if they are equal |
| `Base.CStringNew` | src/agent/mod.rs:78 | A byte string becomes a C string exactly when none of its bytes is zero, and then its bytes are kept unchanged |
| `States.TryFromNative` | src/agent/mod.rs:320-334 | A code that decodes to a state is that state's native code; a code that is no state's native code is rejected |
| `States.DecodeNativeCode` | src/agent/mod.rs:324-331 | With distinct native codes, decoding the code of any of the six states gives back that same state |
| `States.DecodeInjective` | src/agent/mod.rs:320-334 | On its domain, decoding is injective: two accepted codes decode alike exactly when they are equal |
| `States.DecodeSurjective` | src/agent/mod.rs:320-334 | Each state is the decoding of exactly one code, its own native code |
| `IceAgent.RetcodeToResult` | src/agent/mod.rs:20-29 | For a known code: Ok exactly for 0, and InvalidArgument, Failed or NotAvailable exactly for the matching native error code; any other code is excluded, as the Rust code marks it unreachable |
| `IceAgent.RetcodeRoundTrip` | src/agent/mod.rs:20-29 | Decoding is a bijection between the four known codes and the four outcomes; `RetcodeOf` is its inverse in both directions |
| `IceAgent.NativeMode` | src/agent/mod.rs:346-354 | With distinct native constants, Poll, Mux and Thread are sent as the Poll, Mux and Thread tags respectively, and each tag comes from that mode alone |
| `IceAgent.NativeModeInjective` | src/agent/mod.rs:346-354 | The three concurrency modes reach the engine as three distinct native tags |
| `IceAgent.DefaultStunServer` | src/agent/mod.rs:359-363 | The default STUN server is host "stun.l.google.com", port 19302 |
| `IceAgent.NewStunServer` | src/agent/mod.rs:365-373 | A host with a zero byte gives InvalidArgument; otherwise host and port are kept |
| `IceAgent.NewBuilder` | src/agent/mod.rs:43-52 | A fresh builder has no STUN server, no port range, no bind address and no TURN servers; it keeps the given handler and uses Poll |
| `IceAgent.WithStun` | src/agent/mod.rs:55-58 | Sets the STUN server to the given host and port and changes no other field; a host with a zero byte is excluded because the Rust code unwraps |
| `IceAgent.WithPortRange` | src/agent/mod.rs:61-64 | Sets the port range to (begin, end) and changes no other field |
| `IceAgent.WithBindAddress` | src/agent/mod.rs:67-70 | Sets the bind address to the address text and changes no other field |
| `IceAgent.Concurrency` | src/agent/mod.rs:88-91 | Sets the concurrency mode and changes no other field |
| `IceAgent.AddTurnServer` | src/agent/mod.rs:73-86 | Fails with InvalidArgument exactly when host, user or password has a zero byte; on success appends one server with all four values and changes no other field |
| `IceAgent.AddTurnServersAppends` | src/agent/mod.rs:73-86 | A chain of `add_turn_server(..)?` calls succeeds exactly when every call's text is valid; the TURN list then grows by one entry per call, in call order, with every field preserved, and nothing else changes |
| `IceAgent.MarshalTurnServers` | src/agent/mod.rs:113-122 | The native TURN list has one entry per server, in order, each with the same host, port, user name and password |
| `IceAgent.ConfigOf` | src/agent/mod.rs:103-138 | The config has the native tag of the chosen mode; the STUN server is the set one or Google's; the port range is the set one or (0,0); the bind address is copied; the TURN list is null with count 0 exactly when there are no servers, and otherwise is the marshalled server list with count equal to the number of servers |
| `IceAgent.FreshBuilderConfig` | src/agent/mod.rs:43-52 | A fresh builder's config is Google STUN, range (0,0), null TURN list with count 0, no bind address and the Poll tag |
| `IceAgent.TurnServersReachConfig` | src/agent/mod.rs:113-135 | After successful `add_turn_server` calls on a fresh builder, the config's TURN count equals the number of calls, the list is null exactly when there were none, and its entries follow call order with host, port, user and password preserved |
| `IceAgent.Build` | src/agent/mod.rs:146-152 | Build fails, with Failed, exactly when native create returns null for the derived config; otherwise the agent's handle is that non-null pointer and its handler is the builder's |
| `IceAgent.SetRemoteDescription` | src/agent/mod.rs:199-203 | Text with a zero byte gives InvalidArgument and makes no native call; otherwise exactly one native call passes the text unchanged, and its return code is decoded |
| `IceAgent.AddRemoteCandidate` | src/agent/mod.rs:206-210 | Text with a zero byte gives InvalidArgument and makes no native call; otherwise exactly one native call passes the text unchanged, and its return code is decoded |
| `IceAgent.NulTextIndependentOfEngine` | src/agent/mod.rs:199-210 | For rejected text, the outcome does not depend on the engine's answers |
| `Handlers.Default` | src/agent/hander.rs:15-25 | All four slots of a default handler are empty |
| `Handlers.StateHandler` | src/agent/hander.rs:29-36 | Fills the state slot with the closure and leaves the other three slots unchanged |
| `Handlers.CandidateHandler` | src/agent/hander.rs:39-46 | Fills the candidate slot with the closure and leaves the other three slots unchanged |
| `Handlers.GatheringFinishedHandler` | src/agent/hander.rs:49-56 | Fills the gathering-done slot with the closure and leaves the other three slots unchanged |
| `Handlers.RecvHandler` | src/agent/hander.rs:59-66 | Fills the receive slot with the closure and leaves the other three slots unchanged |
| `Handlers.SetTwiceKeepsLast` | src/agent/hander.rs:29-66 | Setting the same slot twice gives the same handler as setting only the last closure |
| `Handlers.SettersOfDistinctSlotsCommute` | src/agent/hander.rs:29-66 | Setters of different slots commute |
| `Handlers.OnStateChanged` | src/agent/hander.rs:68-72 | With an empty state slot the trace is unchanged; otherwise exactly one invocation of that slot's closure with the state is appended |
| `Handlers.OnCandidate` | src/agent/hander.rs:74-78 | With an empty candidate slot the trace is unchanged; otherwise exactly one invocation with the unchanged candidate string is appended |
| `Handlers.OnGatheringDone` | src/agent/hander.rs:80-84 | With an empty gathering slot the trace is unchanged; otherwise exactly one argument-less invocation of the gathering closure is appended |
| `Handlers.OnRecv` | src/agent/hander.rs:86-90 | With an empty receive slot the trace is unchanged; otherwise exactly one invocation with the unchanged packet bytes is appended |
| `Handlers.Deliver` | src/agent/mod.rs:289-307 | Forwarding one event invokes only the event's own slot, once, with the event's payload, or leaves the trace unchanged if that slot is empty |
| `Handlers.DeliverAllAppendsExpected` | src/agent/mod.rs:289-307 | Delivering a stream of events one at a time keeps the earlier trace and appends one invocation per event whose slot is set, in order, with unchanged payloads |
| `Handlers.ExpectedUsesInstalledClosures` | src/agent/hander.rs:68-90 | The appended invocations number the events with a set slot, and each names the closure installed in its own slot |
| `Handlers.DefaultHandlerIgnoresAll` | src/agent/hander.rs:15-25 | With a default handler, no stream of events changes the trace |
| `RelayServer.NewCredentials` | src/server.rs:21-27 | Fails with InvalidArgument exactly when the user name or password has a zero byte; otherwise keeps both strings and the quota unchanged |
| `RelayServer.U32AsI32` | src/server.rs:159 | `u32 as i32` keeps the value modulo 2^32 |
| `RelayServer.StoredLimit` | src/server.rs:158-166 | A limit up to i32::MAX is stored as i32::MAX; a larger one is stored as the negative number congruent to it modulo 2^32 |
| `RelayServer.StoredLimitIsNotAClamp` | src/server.rs:158-166 | The stored value equals the requested limit only for i32::MAX, and it is non-negative exactly for limits up to i32::MAX |
| `RelayServer.DefaultBuilder` | src/server.rs:31-41 | A default builder has no credentials, no addresses, port 0, both limits 0, and no relay range or realm |
| `RelayServer.WithCredentials` | src/server.rs:120-126 | The credential list becomes exactly the given items, in order, and nothing else changes |
| `RelayServer.AddCredentials` | src/server.rs:129-132 | The credential list gains the item at its end, the earlier items are kept, and nothing else changes |
| `RelayServer.AddAllCredentialsAppends` | src/server.rs:116-132 | Repeated `add_credentials` appends the items in order; on an empty list it equals `with_credentials` of the same items |
| `RelayServer.BindAddress` | src/server.rs:135-139 | Sets the bind IP text and sets the port to the socket address's port; nothing else changes |
| `RelayServer.WithExternalAddress` | src/server.rs:141-144 | Sets the external address text and nothing else |
| `RelayServer.WithPortRange` | src/server.rs:147-150 | Sets the relay port range to (begin, end) and nothing else |
| `RelayServer.WithRealm` | src/server.rs:153-156 | Fails with InvalidArgument exactly when the realm has a zero byte; otherwise sets the realm and nothing else |
| `RelayServer.WithAllocationsLimit` | src/server.rs:158-161 | Stores i32::MAX for any limit up to i32::MAX and the wrapped value above it; nothing else changes |
| `RelayServer.WithPeersLimit` | src/server.rs:163-166 | Stores i32::MAX for any limit up to i32::MAX and the wrapped value above it; nothing else changes |
| `RelayServer.MarshalCredentials` | src/server.rs:54-62 | One native entry per credential, in order, with the same user name and password, and the quota or 0 when none was given |
| `RelayServer.ConfigOf` | src/server.rs:70-101 | The credential count equals the number of credentials; the relay range is the set one or (0,0); addresses, realm, port and limits are copied |
| `RelayServer.Build` | src/server.rs:51-114 | An empty credential list gives InvalidArgument; otherwise build fails, with Failed, exactly when native create returns null, and on success the server owns that non-null pointer |
| `RelayServer.EmptyCredentialsNeverCreate` | src/server.rs:64-66 | With no credentials the result is InvalidArgument whatever native create would return |
| `RelayServer.DefaultBuilderIsRejected` | tests/server.rs:6-10 | A server built from the default builder is always InvalidArgument, contrary to what this test expects |
| `RelayServer.SingleCredentialConfig` | src/server.rs:54-101 | One added credential reaches the engine as a one-entry list with its user name and its quota or 0; port and relay range are 0 |

## Left out

- `IceAgent.WithStun`: its precondition (no zero byte in the host) stands for the panic of `StunServer::new(..).unwrap()` at src/agent/mod.rs:56. So `with_stun` panics on a zero byte, whereas `add_turn_server` returns `InvalidArgument`.
- `IceAgent.SetRemoteDescription`: the precondition that the engine answers with a known code stands for the `unreachable!()` arm of src/agent/mod.rs:27.
- `IceAgent.AddRemoteCandidate`: the same precondition, for the same `unreachable!()` arm.
- `Handlers.OnStateChanged`: src/agent/hander.rs:1 imports `AgentState` from `crate::agent::state`, which src/agent/mod.rs does not declare. The model reads it as the `State` enum of src/agent/mod.rs:311-318.
- The callback trampolines (`on_state_changed`, `on_candidate`, `on_gathering_done`, `on_recv` at src/agent/mod.rs:383-422) are left out. So is the conversion of native payloads: C string to lossy UTF-8, and pointer plus length to a slice. Only the handler dispatch they forward to is modelled. The unmappable-state drop in the bridge is not modelled.
- `Holder`, its `Drop`, the `Mutex`, pinning, and the `Send`/`Sync` impls are left out. They are about FFI lifetime and threading, not sequential behaviour. The lock's serialisation is reflected only by delivering events one after another (`DeliverAll`).
- The callback function pointers and the opaque context pointer in `juice_config` are left out of `AgentConfig`. They are constants plus a heap address.
- `ensure_logging` and src/log.rs are left out: a logging bridge with no effect on results.
- The native agent operations are left out: `get_state`, `get_local_description`, `gather_candidates`, `set_remote_gathering_done`, `send`, `get_selected_candidates` and `get_selected_addresses`. They are opaque foreign calls. Their fixed buffers and lossy UTF-8 decoding add nothing to verify here.
- `Server::get_port` and the destroy calls are left out. They are foreign calls.
- The formatting of `IpAddr` and `SocketAddr` as text is not modelled. The address is given as its text, which never contains a zero byte.
- `IceAgent.ConfigOf`: the TURN count is a `nat`. The source's `len() as c_int` cast is not modelled, because it could only wrap with more than 2^31 servers.
- `RelayServer.ConfigOf`: the credential count is a `nat`. The source's `len() as c_int` cast is not modelled, for the same reason.
- The superseded files that are not in the module tree are left out: src/agent.rs, src/agent_config.rs, src/agent/config.rs, src/agent_state.rs, src/agent_error.rs, src/stun_server.rs and src/ice_hander.rs. Also left out: libjuice-sys/build.rs, src/test_util.rs and the network tests.
