# InnerConn: the per-server connection record of nacos_rust_client

This project models `InnerConn`, the record the connection manager of
nacos_rust_client keeps for each configured server. The record holds the
server's id, weight and host, its circuit breaker, and a flag saying whether
the server speaks gRPC. It also holds optional transport handles: a tonic
`Channel` and the actix address of the `InnerGrpcClient` actor that uses that
channel.

Three operations are modelled:

- `new` builds a detached record of weight 1.
- `init_grpc` attaches a lazily connecting channel to `http://<ip>:<grpc_port>`
  and a started client actor. It does this only when gRPC is supported, and
  both fallible steps run before any field is written.
- `close_grpc` drops both handles when gRPC is supported, and always succeeds.

Layout:

- `wrappers.dfy` (`Wrappers`): `Option`, and a `Result` that works with `:-`,
  Dafny's form of Rust's `?`.
- `handles.dfy` (`Handles`): opaque tokens for the foreign values, `HostInfo`
  reduced to `ip` and `grpcPort`, and `Transport`. `Transport` bundles the
  foreign calls as oracle functions: `Channel::from_shared` and
  `InnerGrpcClient::new_by_channel` may fail, while `connect_lazy` and the
  actor's `start` cannot.
- `uri.dfy` (`Uri`): the endpoint text, as Rust's `format!` writes it, and a
  parser that inverts it.
- `conn_model.dfy` (`ConnModel`): the record as a value (`ConnState`), the two
  transitions as functions, and lemmas about single calls and about any
  sequence of calls.
- `inner_conn.dfy` (`InnerConnection`): the class `InnerConn`. It has the
  source's fields. Its methods may write only `channel` and `grpcClientAddr`
  (`modifies this`channel, this`grpcClientAddr`). Their new state is tied to
  the `ConnModel` functions.

The foreign calls are parameters. So are the breaker constructor
`Breaker::new` and the weak manager address. `WeakAddr` liveness, actor
execution and `Arc` sharing are not modelled.

## Model

| member | source | states |
|---|---|---|
| InnerConnection.InnerConn.constructor | nacos_rust_client/src/conn_manage/inner_conn.rs:35-55 | Stores the given id, host, gRPC flag and client info. The breaker is built from the given config. Weight is 1. Channel, client address, manager address and both request clients are None. The paired-handles invariant holds. |
| InnerConnection.InnerConn.InitGrpc | nacos_rust_client/src/conn_manage/inner_conn.rs:57-74 | May write only `channel` and `grpcClientAddr`. The result and the new record are exactly `ConnModel.InitGrpc` of the old record. Without gRPC support it returns Ok and changes nothing. An error changes nothing. Success with support attaches both handles. The invariant is preserved. |
| InnerConnection.InnerConn.CloseGrpc | nacos_rust_client/src/conn_manage/inner_conn.rs:76-82 | May write only the two handles. Always returns Ok. With support, both handles become None. Without support, nothing changes. The new record is `ConnModel.CloseGrpc` of the old one. The invariant is preserved. |
| ConnModel.InitGrpc | nacos_rust_client/src/conn_manage/inner_conn.rs:57-74 | The capability gate holds: without support, Ok and the same record. Every field except the two handles is unchanged, so `manageAddr` is never written. It fails if and only if `from_shared` of the host's URI fails or `new_by_channel` fails, and it returns that call's error with the record unchanged. On success the channel is the lazy channel from `from_shared(GrpcUri(host))`. The client address is the started client built from the id, that same channel, the given manager address and the client info. Paired handles stay paired. |
| ConnModel.CloseGrpc | nacos_rust_client/src/conn_manage/inner_conn.rs:76-82 | Always Ok. Only the handles can change. With support both become None; without support the record is unchanged. Paired handles stay paired. |
| ConnModel.CloseGrpcIdempotent | nacos_rust_client/src/conn_manage/inner_conn.rs:76-82 | Closing twice gives the same result and record as closing once. |
| ConnModel.CloseUndoesInit | nacos_rust_client/src/conn_manage/inner_conn.rs:57-82 | Closing after any outcome of `init_grpc` gives the same as closing the original record. |
| ConnModel.InitGrpcReplaces | nacos_rust_client/src/conn_manage/inner_conn.rs:58-71 | There is no check for an existing channel. A second `init_grpc` returns what it would return on the original record. On success it leaves the handles it built itself, replacing the first call's handles. On failure it leaves the first call's record. |
| ConnModel.RunKeepsHandlesPaired | nacos_rust_client/src/conn_manage/inner_conn.rs:48-79 | Over any sequence of `init_grpc` and `close_grpc` calls, with any oracle outcomes, a record whose channel and client address are both present or both absent stays that way. |
| ConnModel.RunTouchesOnlyTransport | nacos_rust_client/src/conn_manage/inner_conn.rs:70-79 | No sequence of the two transitions changes any field except `channel` and `grpcClientAddr`. |
| ConnModel.RunWithoutGrpcIsIdentity | nacos_rust_client/src/conn_manage/inner_conn.rs:58 | A record without gRPC support is unchanged by any sequence of the two transitions. |
| Uri.Decimal | nacos_rust_client/src/conn_manage/inner_conn.rs:59-62 | The port text is Rust's `Display` form: non-empty, all digits, no leading zero, and it starts with '0' exactly when the port is 0. |
| Uri.DecimalValueOfDecimal | nacos_rust_client/src/conn_manage/inner_conn.rs:61 | Reading back the decimal text of a port gives that port. |
| Uri.DecimalOfDecimalValue | nacos_rust_client/src/conn_manage/inner_conn.rs:61 | Every canonical digit string is the decimal text of the number it denotes. |
| Uri.GrpcUriParses | nacos_rust_client/src/conn_manage/inner_conn.rs:59-62 | The endpoint `GrpcUri(host)` is "http://" + ip + ":" + decimal port. Parsing it gives back exactly that ip and port, even when the ip contains colons. |
| Uri.ParsedUriIsGrpcUri | nacos_rust_client/src/conn_manage/inner_conn.rs:59-62 | Every string that parses as an endpoint is exactly `GrpcUri` of the host it parses to. |
| Uri.GrpcUriInjective | nacos_rust_client/src/conn_manage/inner_conn.rs:59-62 | Two hosts get the same endpoint only if their ip and gRPC port are equal. |

## Left out

- `HostInfo` is defined in a file that is not part of this model. Only `ip` and `grpc_port` are kept, and the port is an unbounded `nat` written in decimal, since its Rust width is not visible here.
- `Channel::from_shared`, `Endpoint::connect_lazy`, `InnerGrpcClient::new_by_channel` and `Actor::start` are opaque oracles. Their internals, the URI validation tonic performs, and the lazy connection itself are not modelled. Each oracle is a total function, so the model cannot say that two calls build distinct actors. It only says that a second successful `init_grpc` stores what that call built.
- `Breaker::new` and `Default::default()` are an oracle from the breaker configuration to an opaque breaker. Breaker state transitions live in `breaker.rs`, which is not part of this model.
- The connection manager (`manage.rs`) is reduced to an opaque `WeakAddr` token. Its selection and health-event handling are not part of this model, and neither is `WeakAddr` liveness.
- The `Arc` sharing of `ClientInfo` and of the request clients is reduced to opaque tokens. The derived `Clone` and `Default` implementations are not modelled.
- `examples/udp_actor.rs` covers UDP I/O, a stdin loop and an actor runtime handoff. `lib.rs` holds only module declarations. Neither is modelled.
