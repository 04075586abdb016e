/**
 * `InnerConn`, the connection record the connection manager keeps for one
 * server.  `InitGrpc` and `CloseGrpc` update the record in place and may
 * write only its `channel` and `grpcClientAddr` fields.
 */
module InnerConnection {
  import opened Wrappers
  import opened Handles
  import Uri
  import ConnModel

  class InnerConn {
    var id: U32
    var weight: U64
    var hostInfo: HostInfo
    var breaker: Breaker
    var supportGrpc: bool
    var channel: Option<Channel>
    var manageAddr: Option<WeakManager>
    var grpcClientAddr: Option<ClientAddr>
    var configRequestClient: Option<ConfigClient>
    var namingRequestClient: Option<NamingClient>
    var clientInfo: ClientInfo

    /** The record as a value. */
    ghost function State(): ConnModel.ConnState
      reads this
    {
      ConnModel.ConnState(id, weight, hostInfo, breaker, supportGrpc, channel, manageAddr,
                          grpcClientAddr, configRequestClient, namingRequestClient, clientInfo)
    }

    ghost predicate Valid()
      reads this
    {
      ConnModel.HandlesPaired(State())
    }

    /** A detached connection of weight 1; `newBreaker` stands for `Breaker::new`. */
    constructor (id: U32, hostInfo: HostInfo, supportGrpc: bool, breakerConfig: BreakerConfig,
                 clientInfo: ClientInfo, newBreaker: BreakerConfig -> Breaker)
      ensures this.id == id && this.hostInfo == hostInfo && this.supportGrpc == supportGrpc
      ensures this.clientInfo == clientInfo && breaker == newBreaker(breakerConfig)
      ensures weight == 1
      ensures channel == None && grpcClientAddr == None && manageAddr == None
      ensures configRequestClient == None && namingRequestClient == None
      ensures Valid()
    {
      this.id := id;
      weight := 1;
      this.hostInfo := hostInfo;
      this.supportGrpc := supportGrpc;
      breaker := newBreaker(breakerConfig);
      channel := None;
      grpcClientAddr := None;
      manageAddr := None;
      configRequestClient := None;
      namingRequestClient := None;
      this.clientInfo := clientInfo;
    }

    /**
     * Attaches a lazy channel and a started client actor when gRPC is
     * supported.  `manageAddr` goes to the client; the field of the same
     * name is not written.
     */
    method InitGrpc(manageAddr: WeakManager, env: Transport) returns (r: Result<(), Error>)
      modifies this`channel, this`grpcClientAddr
      ensures ConnModel.Step(r, State()) == ConnModel.InitGrpc(old(State()), manageAddr, env)
      ensures !supportGrpc ==> r == Ok(())
      ensures r.Err? || !supportGrpc ==> channel == old(channel) && grpcClientAddr == old(grpcClientAddr)
      ensures r.Ok? && supportGrpc ==> channel.Some? && grpcClientAddr.Some?
      ensures old(Valid()) ==> Valid()
    {
      if supportGrpc {
        var addr := Uri.GrpcUri(hostInfo);
        var endpoint :- env.fromShared(addr);
        var lazy := env.connectLazy(endpoint);
        var client :- env.newByChannel(id, lazy, manageAddr, clientInfo);
        channel := Some(lazy);
        grpcClientAddr := Some(env.start(client));
      }
      r := Ok(());
    }

    /** Detaches both transport handles when gRPC is supported; never fails. */
    method CloseGrpc() returns (r: Result<(), Error>)
      modifies this`channel, this`grpcClientAddr
      ensures r == Ok(())
      ensures State() == ConnModel.CloseGrpc(old(State())).after
      ensures supportGrpc ==> channel == None && grpcClientAddr == None
      ensures !supportGrpc ==> channel == old(channel) && grpcClientAddr == old(grpcClientAddr)
      ensures old(Valid()) ==> Valid()
    {
      if supportGrpc {
        channel := None;
        grpcClientAddr := None;
      }
      r := Ok(());
    }
  }
}
