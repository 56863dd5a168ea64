/** Values shared by the failover client, the hot-swap wrapper and the usage statistics. */
module UsenetTypes {

  datatype Option<T> = None | Some(value: T)

  /** A provider's tier. `Active(rank)` stands for an enum member other than
      Disabled whose underlying value is `rank`; a lower rank is tried first. */
  datatype ProviderType = Disabled | Active(rank: nat)

  /** The operation type a usage event is tagged with. */
  datatype OperationType = STAT | HEAD | BODY | ARTICLE | DATE

  /** The response kinds the failover rules look at; every other kind is `OtherKind`. */
  datatype ResponseKind =
    | ArticleRetrievedBodyFollows
    | ArticleRetrievedHeadAndBodyFollow
    | NoArticleWithThatMessageId
    | OtherKind(code: nat)

  /** A provider response. `streamLength` is `Some(n)` when the response is a decoded
      body or decoded article response, whose payload stream holds n bytes, and `None`
      for every other response type. Which type a provider returns is fixed by the
      operation; `Failover.PayloadFollowsOperation` states that link. */
  datatype Response = Response(kind: ResponseKind, streamLength: Option<nat>)

  /** What a provider's connection callback reports once its connection is free again. */
  datatype ArticleBodyResult = Retrieved | NotRetrieved

  /** One configured provider entry. */
  datatype ConnectionDetails = ConnectionDetails(
    host: string,
    port: int,
    useSsl: bool,
    user: string,
    pass: string,
    maxConnections: nat,
    providerType: ProviderType)

  /** A connection pool as the wrapper builds it: its capacity, the entry its
      connection factory connects with, and the index of the pool-changed handler
      it is subscribed to. */
  datatype ConnectionPool = ConnectionPool(maxConnections: nat, endpoint: ConnectionDetails, onChangedIndex: nat)

  /** One provider client: a pool bound to a provider's host and tier. */
  datatype ProviderClient = ProviderClient(host: string, providerType: ProviderType, pool: ConnectionPool)

  /** A usage event as handed to the tracking service. */
  datatype UsageEvent = UsageEvent(
    providerHost: string,
    providerType: ProviderType,
    operationType: Option<OperationType>,
    bytesTransferred: Option<nat>)
}
