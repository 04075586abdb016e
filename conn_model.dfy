/**
 * The per-server connection record `InnerConn` as a value, and the two
 * transport transitions `init_grpc` and `close_grpc` as functions of it.
 * The class in `inner_conn.dfy` is specified by these functions.
 */
module ConnModel {
  import opened Wrappers
  import opened Handles
  import Uri

  datatype ConnState = ConnState(
    id: U32,
    weight: U64,
    hostInfo: HostInfo,
    breaker: Breaker,
    supportGrpc: bool,
    channel: Option<Channel>,
    manageAddr: Option<WeakManager>,
    grpcClientAddr: Option<ClientAddr>,
    configRequestClient: Option<ConfigClient>,
    namingRequestClient: Option<NamingClient>,
    clientInfo: ClientInfo)

  /** What a transition returns (`anyhow::Result<()>`) and the record after it. */
  datatype Step = Step(result: Result<(), Error>, after: ConnState)

  /** The record's invariant: the channel and the client actor come and go together. */
  predicate HandlesPaired(c: ConnState) {
    c.channel.Some? == c.grpcClientAddr.Some?
  }

  /** `c` and `d` agree on every field except the channel and the client actor address. */
  predicate SameButTransport(c: ConnState, d: ConnState) {
    d == c.(channel := d.channel, grpcClientAddr := d.grpcClientAddr)
  }

  /**
   * `init_grpc`: when the record supports gRPC, build a lazy channel to the
   * host's gRPC URI, build a client actor on a clone of it, then store both.
   * Either failing step returns its error before anything is stored.
   */
  function InitGrpc(c: ConnState, manageAddr: WeakManager, env: Transport): (s: Step)
    // the capability gate
    ensures !c.supportGrpc ==> s.result == Ok(()) && s.after == c
    // nothing but the two transport handles can change
    ensures SameButTransport(c, s.after)
    // an error leaves the whole record as it was
    ensures s.result.Err? ==> s.after == c
    // it fails exactly when one of the two fallible calls fails, with that call's error
    ensures s.result.Err? <==>
      c.supportGrpc &&
      (env.fromShared(Uri.GrpcUri(c.hostInfo)).Err? ||
       env.newByChannel(c.id, env.connectLazy(env.fromShared(Uri.GrpcUri(c.hostInfo)).value),
                        manageAddr, c.clientInfo).Err?)
    ensures s.result.Err? && env.fromShared(Uri.GrpcUri(c.hostInfo)).Err? ==>
      s.result.error == env.fromShared(Uri.GrpcUri(c.hostInfo)).error
    ensures s.result.Err? && env.fromShared(Uri.GrpcUri(c.hostInfo)).Ok? ==>
      s.result.error ==
        env.newByChannel(c.id, env.connectLazy(env.fromShared(Uri.GrpcUri(c.hostInfo)).value),
                         manageAddr, c.clientInfo).error
    // on success the stored channel is the lazy channel to the host's URI, and the stored
    // address is the started client built on that same channel with the given manager address
    ensures s.result.Ok? && c.supportGrpc ==>
      && env.fromShared(Uri.GrpcUri(c.hostInfo)).Ok?
      && s.after.channel == Some(env.connectLazy(env.fromShared(Uri.GrpcUri(c.hostInfo)).value))
      && env.newByChannel(c.id, s.after.channel.value, manageAddr, c.clientInfo).Ok?
      && s.after.grpcClientAddr ==
           Some(env.start(env.newByChannel(c.id, s.after.channel.value, manageAddr, c.clientInfo).value))
    // every outcome keeps the invariant; a success establishes it
    ensures HandlesPaired(c) ==> HandlesPaired(s.after)
    ensures s.result.Ok? && c.supportGrpc ==> HandlesPaired(s.after)
  {
    if !c.supportGrpc then Step(Ok(()), c)
    else
      match env.fromShared(Uri.GrpcUri(c.hostInfo))
      case Err(e) => Step(Err(e), c)
      case Ok(endpoint) =>
        var channel := env.connectLazy(endpoint);
        match env.newByChannel(c.id, channel, manageAddr, c.clientInfo)
        case Err(e) => Step(Err(e), c)
        case Ok(client) =>
          Step(Ok(()), c.(channel := Some(channel), grpcClientAddr := Some(env.start(client))))
  }

  /** `close_grpc`: when the record supports gRPC, drop both transport handles. */
  function CloseGrpc(c: ConnState): (s: Step)
    ensures s.result == Ok(())
    ensures SameButTransport(c, s.after)
    ensures c.supportGrpc ==> s.after.channel.None? && s.after.grpcClientAddr.None?
    ensures !c.supportGrpc ==> s.after == c
    ensures HandlesPaired(c) ==> HandlesPaired(s.after)
  {
    if c.supportGrpc then Step(Ok(()), c.(channel := None, grpcClientAddr := None))
    else Step(Ok(()), c)
  }

  /** Closing twice leaves the record as closing once does. */
  lemma CloseGrpcIdempotent(c: ConnState)
    ensures CloseGrpc(CloseGrpc(c).after) == CloseGrpc(c)
  {
  }

  /** Closing after any outcome of `init_grpc` gives what closing alone gives. */
  lemma CloseUndoesInit(c: ConnState, manageAddr: WeakManager, env: Transport)
    ensures CloseGrpc(InitGrpc(c, manageAddr, env).after) == CloseGrpc(c)
  {
  }

  /**
   * `init_grpc` does not look at an already-attached channel: a second call
   * behaves as it would on the record before the first, and when it
   * succeeds it replaces both handles with the ones it built.
   */
  lemma InitGrpcReplaces(c: ConnState, m1: WeakManager, e1: Transport, m2: WeakManager, e2: Transport)
    ensures InitGrpc(InitGrpc(c, m1, e1).after, m2, e2).result == InitGrpc(c, m2, e2).result
    ensures InitGrpc(InitGrpc(c, m1, e1).after, m2, e2).after ==
      if InitGrpc(c, m2, e2).result.Ok? then InitGrpc(c, m2, e2).after else InitGrpc(c, m1, e1).after
  {
  }

  /** One transport transition of a connection's life. */
  datatype Op = InitOp(manageAddr: WeakManager, env: Transport) | CloseOp

  function Apply(c: ConnState, op: Op): ConnState {
    match op
    case InitOp(m, env) => InitGrpc(c, m, env).after
    case CloseOp => CloseGrpc(c).after
  }

  /** The record after a sequence of `init_grpc` and `close_grpc` calls. */
  function Run(c: ConnState, ops: seq<Op>): ConnState
    decreases |ops|
  {
    if ops == [] then c else Run(Apply(c, ops[0]), ops[1..])
  }

  /** Every sequence of transitions keeps the channel and client actor paired. */
  lemma {:induction false} RunKeepsHandlesPaired(c: ConnState, ops: seq<Op>)
    requires HandlesPaired(c)
    ensures HandlesPaired(Run(c, ops))
    decreases |ops|
  {
    if ops != [] {
      RunKeepsHandlesPaired(Apply(c, ops[0]), ops[1..]);
    }
  }

  /** No sequence of transitions changes anything but the two transport handles. */
  lemma {:induction false} RunTouchesOnlyTransport(c: ConnState, ops: seq<Op>)
    ensures SameButTransport(c, Run(c, ops))
    decreases |ops|
  {
    if ops != [] {
      RunTouchesOnlyTransport(Apply(c, ops[0]), ops[1..]);
    }
  }

  /** A connection without gRPC support is never changed by the transitions. */
  lemma {:induction false} RunWithoutGrpcIsIdentity(c: ConnState, ops: seq<Op>)
    requires !c.supportGrpc
    ensures Run(c, ops) == c
    decreases |ops|
  {
    if ops != [] {
      RunWithoutGrpcIsIdentity(Apply(c, ops[0]), ops[1..]);
    }
  }
}
