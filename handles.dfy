/**
 * Values the connection record holds but whose behaviour lives outside
 * `inner_conn.rs`: tonic channels, actix addresses, the breaker, the request
 * clients.  Each is an opaque token: only its identity matters to the record.
 */
module Handles {
  import opened Wrappers

  /** Rust's `u32` and `u64`. */
  type U32 = x: int | 0 <= x < 0x1_0000_0000
  type U64 = x: int | 0 <= x < 0x1_0000_0000_0000_0000

  /** The part of `HostInfo` the connection record uses. */
  datatype HostInfo = HostInfo(ip: string, grpcPort: nat)

  /** An `anyhow::Error`. */
  datatype Error = Error(message: string)

  /** tonic's `Endpoint`, as returned by `Channel::from_shared`. */
  datatype Endpoint = Endpoint(handle: nat)
  /** tonic's `Channel`. */
  datatype Channel = Channel(handle: nat)
  /** An `InnerGrpcClient` actor that has been built but not started. */
  datatype GrpcClient = GrpcClient(handle: nat)
  /** `Addr<InnerGrpcClient>`: the address of a started client actor. */
  datatype ClientAddr = ClientAddr(handle: nat)
  /** `WeakAddr<ConnManage>`: a non-owning reference to the connection manager. */
  datatype WeakManager = WeakManager(handle: nat)
  /** `Arc<ConfigInnerRequestClient>` and `Arc<InnerNamingRequestClient>`. */
  datatype ConfigClient = ConfigClient(handle: nat)
  datatype NamingClient = NamingClient(handle: nat)
  /** `Arc<ClientInfo>`: client identity shared by every connection. */
  datatype ClientInfo = ClientInfo(handle: nat)
  /** The circuit breaker and its configuration. */
  datatype Breaker = Breaker(handle: nat)
  datatype BreakerConfig = BreakerConfig(handle: nat)

  /**
   * The foreign calls `init_grpc` makes, as oracles.  `from_shared` and
   * `new_by_channel` may fail; `connect_lazy` and `start` cannot.
   */
  datatype Transport = Transport(
    fromShared: string -> Result<Endpoint, Error>,
    connectLazy: Endpoint -> Channel,
    newByChannel: (U32, Channel, WeakManager, ClientInfo) -> Result<GrpcClient, Error>,
    start: GrpcClient -> ClientAddr)
}
