/** The values the MPID (mailbox) persona receives, stores and sends:
    names, routing authorities, MPID headers and messages, the wrapper that
    carries them, request messages and the requests and failures the persona
    hands to routing. */
module MpidTypes {
  import opened Wrappers
  import opened Primitives

  /** A signing public key (32 bytes). */
  type PublicKey = s: Bytes | |s| == 32 witness seq(32, _ => 0)

  /** `len() as u64` on a byte buffer: the length, truncated to 64 bits. */
  function SizeOf(bytes: Bytes): u64
  {
    (|bytes| % 0x1_0000_0000_0000_0000) as u64
  }

  /** Routing's source and destination authorities. */
  datatype Authority =
    | ClientManager(managerName: XorName)
    | NaeManager(naeName: XorName)
    | NodeManager(nodeName: XorName)
    | ManagedNode(managedName: XorName)
    | Client(clientKey: PublicKey, proxyNodeName: XorName)
  {
    /** `Authority::name()`: the name the authority is addressed by; a
        client is addressed through its proxy node. */
    function Name(): XorName
    {
      match this
      case ClientManager(n) => n
      case NaeManager(n) => n
      case NodeManager(n) => n
      case ManagedNode(n) => n
      case Client(_, proxy) => proxy
    }
  }

  datatype MessageId = MessageId(id: XorName)

  datatype MpidHeader = MpidHeader(sender: XorName, metadata: Bytes, signature: Bytes)

  datatype MpidMessage = MpidMessage(header: MpidHeader, recipient: XorName, body: Bytes, signature: Bytes)

  /** The envelope every MPID request carries in its `PlainData` value. */
  datatype MpidMessageWrapper =
    | Online
    | PutHeader(header: MpidHeader)
    | PutMessage(message: MpidMessage)
    | GetMessage(wanted: MpidHeader)
    | OutboxHas(names: seq<XorName>)
    | OutboxHasResponse(found: seq<MpidHeader>)
    | GetOutboxHeaders
    | GetOutboxHeadersResponse(headers: seq<MpidHeader>)
    | DeleteMessage(messageName: XorName)
    | DeleteHeader(headerName: XorName)

  datatype PlainData = PlainData(name: XorName, value: Bytes)

  /** The request kinds the persona is handed; routing's demultiplexer only
      passes `PlainData` to it, so the data is a `PlainData` directly. */
  datatype RequestContent =
    | Put(data: PlainData, id: MessageId)
    | Post(data: PlainData, id: MessageId)
    | Delete(data: PlainData, id: MessageId)

  datatype RequestMessage = RequestMessage(src: Authority, dst: Authority, content: RequestContent)

  /** One call the persona makes on `RoutingNode`, in the order it makes them. */
  datatype Send =
    | PutRequest(src: Authority, dst: Authority, data: PlainData, id: MessageId)
    | PostRequest(src: Authority, dst: Authority, data: PlainData, id: MessageId)
    | PutFailure(src: Authority, dst: Authority, request: RequestMessage, externalError: Bytes, id: MessageId)
    | PostFailure(src: Authority, dst: Authority, request: RequestMessage, externalError: Bytes, id: MessageId)
    | DeleteFailure(src: Authority, dst: Authority, request: RequestMessage, externalError: Bytes, id: MessageId)

  datatype ClientError = DataExists

  datatype InternalError = ClientErr(clientError: ClientError) | Serialisation

  /** Serialisation and the hash that names a header belong to other crates;
      the persona is given them as total functions. Decoding may fail. */
  datatype Codec = Codec(
    encodeWrapper: MpidMessageWrapper -> Bytes,
    decodeWrapper: Bytes -> Option<MpidMessageWrapper>,
    encodeHeader: MpidHeader -> Bytes,
    decodeHeader: Bytes -> Option<MpidHeader>,
    encodeMessage: MpidMessage -> Bytes,
    decodeMessage: Bytes -> Option<MpidMessage>,
    headerName: MpidHeader -> XorName)

  /** What a new `Account` is granted (MAX_INBOX_SIZE and MAX_OUTBOX_SIZE of
      the mpid_messaging crate) and the codec. */
  datatype Config = Config(codec: Codec, inboxAllowance: u64, outboxAllowance: u64)
}
