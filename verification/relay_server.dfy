/**
 The embedded TURN relay server: credentials, the server builder, the native
 server configuration it derives, and server creation through the native
 `juice_server_create` (an oracle here).
 */
module RelayServer {
  import opened Base
  import opened Errors

  // ---------------------------------------------------------------------------
  // Credentials

  datatype Credentials = Credentials(username: CText, password: CText, quota: Option<int32>)

  /** `Credentials::new`: both strings must be valid C strings; the quota is kept as given. */
  function NewCredentials(username: Bytes, password: Bytes, quota: Option<int32>): (r: Result<Credentials>)
    ensures r.Err? <==> HasNul(username) || HasNul(password)
    ensures r.Err? ==> r.error == InvalidArgument
    ensures r.Ok? ==> r.value.username == username && r.value.password == password && r.value.quota == quota
  {
    match CStringNew(username)
    case None => Err(InvalidArgument)
    case Some(u) =>
      match CStringNew(password)
      case None => Err(InvalidArgument)
      case Some(p) => Ok(Credentials(u, p, quota))
  }

  // ---------------------------------------------------------------------------
  // Limits

  /** Rust's `u32 as i32`: keeps the low 32 bits, reinterpreted as two's complement. */
  function U32AsI32(x: uint32): (r: int32)
    ensures r as int % 0x1_0000_0000 == x
  {
    if x <= I32Max then x else x - 0x1_0000_0000
  }

  /**
   The value the limit setters store: `max(limit, i32::MAX as u32) as i32`.
   Every limit up to `i32::MAX` is stored as `i32::MAX`; a larger one wraps to
   a negative number.
   */
  function StoredLimit(limit: uint32): (r: int32)
    ensures limit <= I32Max ==> r == I32Max
    ensures limit > I32Max ==> r < 0 && r + 0x1_0000_0000 == limit
  {
    U32AsI32(if limit >= I32Max then limit else I32Max)
  }

  /**
   The setters are not a clamp: the stored value equals the requested limit
   only for `i32::MAX` itself, and it is non-negative exactly for limits up to
   `i32::MAX`.
   */
  lemma StoredLimitIsNotAClamp(limit: uint32)
    ensures StoredLimit(limit) == limit <==> limit == I32Max
    ensures StoredLimit(limit) >= 0 <==> limit <= I32Max
    ensures StoredLimit(0) == I32Max && StoredLimit(0xffff_ffff) == -1
  {
  }

  // ---------------------------------------------------------------------------
  // Builder

  /** A socket address, its IP given by its textual form. */
  datatype SocketAddr = SocketAddr(ip: CText, port: uint16)

  datatype Builder = Builder(
    credentials: seq<Credentials>,
    bindAddress: Option<CText>,
    externalAddress: Option<CText>,
    port: uint16,
    maxAllocations: int32,
    maxPeers: int32,
    relayPortRange: Option<(uint16, uint16)>,
    realm: Option<CText>
  )

  /** `Builder::default()`, also `Server::builder()`. */
  function DefaultBuilder(): (b: Builder)
    ensures b.credentials == []
    ensures b.bindAddress.None? && b.externalAddress.None?
    ensures b.port == 0 && b.maxAllocations == 0 && b.maxPeers == 0
    ensures b.relayPortRange.None? && b.realm.None?
  {
    Builder([], None, None, 0, 0, 0, None, None)
  }

  /** `with_credentials`: the list is replaced by the given items, in order. */
  function WithCredentials(b: Builder, list: seq<Credentials>): (r: Builder)
    ensures r.credentials == list
    ensures r == b.(credentials := list)
  {
    b.(credentials := list)
  }

  /** `add_credentials`: one item appended at the end. */
  function AddCredentials(b: Builder, cred: Credentials): (r: Builder)
    ensures |r.credentials| == |b.credentials| + 1
    ensures r.credentials[..|b.credentials|] == b.credentials
    ensures r.credentials[|b.credentials|] == cred
    ensures r == b.(credentials := r.credentials)
  {
    b.(credentials := b.credentials + [cred])
  }

  /** `bind_address`: the IP text and the port both come from the socket address. */
  function BindAddress(b: Builder, addr: SocketAddr): (r: Builder)
    ensures r.bindAddress == Some(addr.ip) && r.port == addr.port
    ensures r == b.(bindAddress := r.bindAddress, port := r.port)
  {
    b.(bindAddress := Some(addr.ip), port := addr.port)
  }

  /** `with_external_address` */
  function WithExternalAddress(b: Builder, addr: CText): (r: Builder)
    ensures r.externalAddress == Some(addr)
    ensures r == b.(externalAddress := r.externalAddress)
  {
    b.(externalAddress := Some(addr))
  }

  /** `with_port_range` */
  function WithPortRange(b: Builder, begin: uint16, end: uint16): (r: Builder)
    ensures r.relayPortRange == Some((begin, end))
    ensures r == b.(relayPortRange := r.relayPortRange)
  {
    b.(relayPortRange := Some((begin, end)))
  }

  /** `with_realm`: a realm with a terminator byte is rejected. */
  function WithRealm(b: Builder, realm: Bytes): (r: Result<Builder>)
    ensures r.Err? <==> HasNul(realm)
    ensures r.Err? ==> r.error == InvalidArgument
    ensures r.Ok? ==> r.value == b.(realm := Some(realm))
  {
    match CStringNew(realm)
    case None => Err(InvalidArgument)
    case Some(t) => Ok(b.(realm := Some(t)))
  }

  /** `with_allocations_limit` */
  function WithAllocationsLimit(b: Builder, limit: uint32): (r: Builder)
    ensures limit <= I32Max ==> r.maxAllocations == I32Max
    ensures limit > I32Max ==> r.maxAllocations + 0x1_0000_0000 == limit
    ensures r == b.(maxAllocations := r.maxAllocations)
  {
    b.(maxAllocations := StoredLimit(limit))
  }

  /** `with_peers_limit` */
  function WithPeersLimit(b: Builder, limit: uint32): (r: Builder)
    ensures limit <= I32Max ==> r.maxPeers == I32Max
    ensures limit > I32Max ==> r.maxPeers + 0x1_0000_0000 == limit
    ensures r == b.(maxPeers := r.maxPeers)
  {
    b.(maxPeers := StoredLimit(limit))
  }

  /** A chain of `add_credentials` calls. */
  function AddAllCredentials(b: Builder, creds: seq<Credentials>): Builder
    decreases |creds|
  {
    if |creds| == 0 then b else AddAllCredentials(AddCredentials(b, creds[0]), creds[1..])
  }

  /**
   Adding credentials one by one amounts to appending the whole sequence, so
   on an empty list it is the same as `with_credentials` of that sequence.
   */
  lemma {:induction false} AddAllCredentialsAppends(b: Builder, creds: seq<Credentials>)
    ensures AddAllCredentials(b, creds) == b.(credentials := b.credentials + creds)
    ensures b.credentials == [] ==> AddAllCredentials(b, creds) == WithCredentials(b, creds)
    decreases |creds|
  {
    if |creds| == 0 {
      assert b.credentials + creds == b.credentials;
    } else {
      var b1 := AddCredentials(b, creds[0]);
      AddAllCredentialsAppends(b1, creds[1..]);
      assert b1.credentials + creds[1..] == b.credentials + creds;
    }
  }

  // ---------------------------------------------------------------------------
  // The native configuration record

  /** `juice_server_credentials` */
  datatype NativeCredentials = NativeCredentials(username: CText, password: CText, allocationsQuota: int32)

  /** Each credential as a native record; a missing quota becomes 0. */
  function MarshalCredentials(creds: seq<Credentials>): (r: seq<NativeCredentials>)
    ensures |r| == |creds|
    ensures forall i :: 0 <= i < |r| ==>
      && r[i].username == creds[i].username
      && r[i].password == creds[i].password
      && (creds[i].quota.Some? ==> r[i].allocationsQuota == creds[i].quota.value)
      && (creds[i].quota.None? ==> r[i].allocationsQuota == 0)
    decreases |creds|
  {
    if |creds| == 0 then []
    else
      var c := creds[0];
      [NativeCredentials(c.username, c.password, c.quota.UnwrapOr(0))] + MarshalCredentials(creds[1..])
  }

  /** `juice_server_config`; a null pointer is `None`. */
  datatype ServerConfig = ServerConfig(
    credentials: seq<NativeCredentials>,
    credentialsCount: nat,
    bindAddress: Option<CText>,
    externalAddress: Option<CText>,
    maxAllocations: int32,
    maxPeers: int32,
    port: uint16,
    relayPortRangeBegin: uint16,
    relayPortRangeEnd: uint16,
    realm: Option<CText>
  )

  /** The configuration `build` hands to `juice_server_create`. */
  function ConfigOf(b: Builder): (c: ServerConfig)
    ensures c.credentialsCount == |c.credentials| == |b.credentials|
    ensures c.credentials == MarshalCredentials(b.credentials)
    ensures b.relayPortRange.None? ==> c.relayPortRangeBegin == 0 && c.relayPortRangeEnd == 0
    ensures b.relayPortRange.Some? ==>
      (c.relayPortRangeBegin, c.relayPortRangeEnd) == b.relayPortRange.value
    ensures c.bindAddress == b.bindAddress && c.externalAddress == b.externalAddress
    ensures c.realm == b.realm && c.port == b.port
    ensures c.maxAllocations == b.maxAllocations && c.maxPeers == b.maxPeers
  {
    var portRange := b.relayPortRange.UnwrapOr((0, 0));
    ServerConfig(
      MarshalCredentials(b.credentials),
      |b.credentials|,
      b.bindAddress,
      b.externalAddress,
      b.maxAllocations,
      b.maxPeers,
      b.port,
      portRange.0,
      portRange.1,
      b.realm
    )
  }

  // ---------------------------------------------------------------------------
  // Server creation

  /** A relay server: the non-null native handle it owns. */
  datatype Server = Server(handle: Ptr)

  /** `juice_server_create`, as seen from this layer. */
  type ServerCreate = ServerConfig -> Ptr

  /**
   `build`: an empty credential list is `InvalidArgument` before anything is
   created; otherwise the configuration goes to `juice_server_create`, and a
   null handle is `Failed`.
   */
  function Build(b: Builder, create: ServerCreate): (r: Result<Server>)
    ensures b.credentials == [] ==> r == Err(InvalidArgument)
    ensures b.credentials != [] ==> (r.Err? <==> create(ConfigOf(b)).Null?)
    ensures b.credentials != [] && r.Err? ==> r.error == Failed
    ensures r.Ok? ==> r.value.handle == create(ConfigOf(b)) && r.value.handle != Null
  {
    if |b.credentials| == 0 then Err(InvalidArgument)
    else
      var ptr := create(ConfigOf(b));
      if ptr.Null? then Err(Failed) else Ok(Server(ptr))
  }

  /** With no credentials the outcome does not depend on the native engine at all. */
  lemma EmptyCredentialsNeverCreate(b: Builder, c1: ServerCreate, c2: ServerCreate)
    requires b.credentials == []
    ensures Build(b, c1) == Build(b, c2) == Err(InvalidArgument)
  {
  }

  /** A server built from defaults is always rejected, whatever the engine would do. */
  lemma DefaultBuilderIsRejected(create: ServerCreate)
    ensures Build(DefaultBuilder(), create) == Err(InvalidArgument)
  {
  }

  /**
   A builder with a single credential reaches the engine with a one-entry
   list whose quota is the given one, or 0 when none was given.
   */
  lemma SingleCredentialConfig(c: Credentials)
    ensures var cfg := ConfigOf(AddCredentials(DefaultBuilder(), c));
      && cfg.credentialsCount == 1
      && cfg.credentials[0].username == c.username
      && cfg.credentials[0].allocationsQuota == c.quota.UnwrapOr(0)
      && cfg.port == 0 && cfg.relayPortRangeBegin == 0 && cfg.relayPortRangeEnd == 0
  {
  }
}
