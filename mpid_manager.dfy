/** The `MpidManager` persona as an object: its accounts and its two chunk
    stores, which the handlers update in place, reporting to routing through
    a `RoutingNode`. Each handler is proved to do what the function of the
    same name in MpidSpec computes. */
module MpidManager {
  import opened Wrappers
  import opened Primitives
  import opened MpidTypes
  import opened MpidSpec
  import opened MpidAccounts
  import opened MpidProperties

  /** Stands in for `RoutingNode`: the calls made on it, oldest first. Send
      failures are not modelled. */
  class RoutingNode {
    var sent: seq<Send>

    constructor ()
      ensures sent == []
    {
      sent := [];
    }

    method Send(message: Send)
      modifies this
      ensures sent == old(sent) + [message]
    {
      sent := sent + [message];
    }
  }

  class MpidManager {
    const cfg: Config
    /** The accounts, owned by value as the source's `HashMap` owns them. */
    var accounts: map<XorName, AccountState>
    /** `chunk_store_inbox`: serialised headers by name. */
    var inboxStore: map<XorName, Bytes>
    /** `chunk_store_outbox`: serialised messages by name. */
    var outboxStore: map<XorName, Bytes>

    function State(): ManagerState
      reads this
    {
      ManagerState(accounts, inboxStore, outboxStore)
    }

    ghost predicate Valid()
      reads this
    {
      State().Valid()
    }

    /** `MpidManager::new`: no accounts and empty stores. */
    constructor (cfg: Config)
      ensures Valid() && State() == ManagerState(map[], map[], map[])
    {
      this.cfg := cfg;
      accounts := map[];
      inboxStore := map[];
      outboxStore := map[];
    }

    // -------------------------------------------------------------------
    // handle_put and handle_put_failure
    // -------------------------------------------------------------------

    /** `MpidManager::handle_put`. */
    method HandlePut(routing: RoutingNode, request: RequestMessage) returns (result: Result<Unit, InternalError>)
      requires Valid() && PutDemuxed(cfg, request)
      modifies this, routing
      ensures Valid()
      ensures var o := MpidSpec.HandlePut(cfg, old(State()), request);
        State() == o.state && routing.sent == old(routing.sent) + o.sends && result == o.result
    {
      var data := request.content.data;
      var decoded := cfg.codec.decodeWrapper(data.value);
      if decoded.None? {
        return Err(Serialisation);
      }
      match decoded.value {
        case PutHeader(header) =>
          if request.content.data.name in inboxStore {
            return Err(ClientErr(DataExists));
          }
          StoreHeader(routing, request, header);
        case PutMessage(message) =>
          if request.content.data.name in outboxStore {
            return Err(ClientErr(DataExists));
          }
          StoreMessage(routing, request, message);
      }
      result := Ok(Unit);
    }

    /** The PutHeader arm of `handle_put`, for a name not yet stored: the
        header is charged to the inbox of the destination's account (created
        if need be) and stored, or refused with a put failure. */
    method StoreHeader(routing: RoutingNode, request: RequestMessage, header: MpidHeader)
      requires Valid() && PutDemuxed(cfg, request)
      requires Decoded(cfg, request) == Some(PutHeader(header)) && request.content.data.name !in inboxStore
      modifies this, routing
      ensures Valid()
      ensures var o := MpidSpec.HandlePut(cfg, old(State()), request);
        State() == o.state && routing.sent == old(routing.sent) + o.sends && o.result == Ok(Unit)
    {
      var name := request.content.data.name;
      var owner := request.dst.Name();
      var account := AccountOf(cfg, State(), owner);
      var serialised := cfg.codec.encodeHeader(header);
      var (inbox, stored) := MailBoxPut(account.inbox, SizeOf(serialised), name, None);
      accounts := accounts[owner := account.(inbox := inbox)];
      if stored {
        inboxStore := inboxStore[name := serialised];
      } else {
        routing.Send(PutFailure(request.dst, request.src, request, NoIndicator, request.content.id));
      }
    }

    /** The PutMessage arm of `handle_put`, for a name not yet stored: the
        message is charged to the outbox of the destination's account and
        stored, and its header announced to the recipient's manager; or it
        is refused with a put failure. */
    method StoreMessage(routing: RoutingNode, request: RequestMessage, message: MpidMessage)
      requires Valid() && PutDemuxed(cfg, request)
      requires Decoded(cfg, request) == Some(PutMessage(message)) && request.content.data.name !in outboxStore
      modifies this, routing
      ensures Valid()
      ensures var o := MpidSpec.HandlePut(cfg, old(State()), request);
        State() == o.state && routing.sent == old(routing.sent) + o.sends && o.result == Ok(Unit)
    {
      var name := request.content.data.name;
      var owner := request.dst.Name();
      var account := AccountOf(cfg, State(), owner);
      var serialised := cfg.codec.encodeMessage(message);
      var (outbox, stored) := MailBoxPut(account.outbox, SizeOf(serialised), name, None);
      accounts := accounts[owner := account.(outbox := outbox)];
      if stored {
        outboxStore := outboxStore[name := serialised];
        var notification := PlainData(cfg.codec.headerName(message.header),
                                      cfg.codec.encodeWrapper(PutHeader(message.header)));
        routing.Send(PutRequest(request.dst, ClientManager(message.recipient), notification, request.content.id));
      } else {
        routing.Send(PutFailure(request.dst, request.src, request, NoIndicator, request.content.id));
      }
    }

    /** `MpidManager::handle_put_failure`: tells every registered client of
        the sender's account that the header it sent was refused. */
    method HandlePutFailure(routing: RoutingNode, request: RequestMessage) returns (result: Result<Unit, InternalError>)
      requires Valid() && PutFailureDemuxed(cfg, request)
      modifies routing
      ensures var o := MpidSpec.HandlePutFailure(cfg, State(), request);
        routing.sent == old(routing.sent) + o.sends && result == o.result
    {
      var decoded := cfg.codec.decodeWrapper(request.content.data.value);
      if decoded.None? {
        return Err(Serialisation);
      }
      var header := decoded.value.header;
      var sender := request.src.Name();
      if header.sender == sender && sender in accounts {
        var account := accounts[sender];
        if cfg.codec.headerName(header) in account.outbox.entries {
          SendPutFailures(routing, account.clients, request.src, request, request.content.id);
        }
      }
      result := Ok(Unit);
    }

    /** The loop of `handle_put_failure`: one put failure per client. */
    static method SendPutFailures(routing: RoutingNode, clients: seq<Authority>, src: Authority,
                                  request: RequestMessage, id: MessageId)
      modifies routing
      ensures routing.sent == old(routing.sent) + PutFailureToEach(clients, src, request, id)
    {
      for i := 0 to |clients|
        invariant routing.sent == old(routing.sent) + PutFailureToEach(clients[..i], src, request, id)
      {
        assert clients[..i + 1][..i] == clients[..i];
        routing.Send(PutFailure(src, clients[i], request, NoIndicator, id));
      }
      assert clients[..|clients|] == clients;
    }

    // -------------------------------------------------------------------
    // handle_post
    // -------------------------------------------------------------------

    /** `MpidManager::handle_post`; `order` is the order in which the
        mailbox walked (the inbox for Online, the outbox for
        GetOutboxHeaders) yielded its names. */
    method HandlePost(routing: RoutingNode, request: RequestMessage) returns (result: Result<Unit, InternalError>, ghost order: seq<XorName>)
      requires Valid() && PostDemuxed(cfg, request)
      modifies this, routing
      ensures Valid()
      ensures var o := MpidSpec.HandlePost(cfg, old(State()), request, order);
        State() == o.state && routing.sent == old(routing.sent) + o.sends && result == o.result
      ensures Decoded(cfg, request) == Some(Online) ==>
        Enumerates(order, AccountOf(cfg, old(State()), request.dst.Name()).inbox.entries)
      ensures Decoded(cfg, request) == Some(GetOutboxHeaders) && FromRegisteredClient(old(State()), request) ==>
        Enumerates(order, old(accounts)[request.dst.Name()].outbox.entries)
    {
      order := [];
      var decoded := cfg.codec.decodeWrapper(request.content.data.value);
      if decoded.None? {
        return Err(Serialisation), order;
      }
      match decoded.value
      case Online =>
        result, order := HandleOnline(routing, request);
      case GetMessage(header) =>
        result := HandleGetMessage(routing, request, header);
      case PutMessage(message) =>
        result := HandlePostedMessage(routing, request, message);
      case OutboxHas(names) =>
        result := HandleOutboxHas(routing, request, names);
      case GetOutboxHeaders =>
        result, order := HandleGetOutboxHeaders(routing, request);
    }

    /** The Online arm: register the requester and ask each sender of a
        received header for the full message. */
    method HandleOnline(routing: RoutingNode, request: RequestMessage) returns (result: Result<Unit, InternalError>, ghost order: seq<XorName>)
      requires Valid() && request.content.Post?
      modifies this, routing
      ensures Valid()
      ensures Enumerates(order, AccountOf(cfg, old(State()), request.dst.Name()).inbox.entries)
      ensures var o := MpidSpec.HandleOnline(cfg, old(State()), request, order);
        State() == o.state && routing.sent == old(routing.sent) + o.sends && result == o.result
    {
      var owner := request.dst.Name();
      var account := RegisterOnline(AccountOf(cfg, State(), owner), request.src);
      accounts := accounts[owner := account];
      var received := NamesOf(account.inbox.entries);
      order := received;
      var fetched := FetchMessages(routing, received, request.dst, request.content.id);
      result := if fetched then Ok(Unit) else Err(Serialisation);
    }

    /** The loop of the Online arm: a GetMessage post to the sender of each
        stored header, skipping names with no stored header and stopping at
        the first stored header that does not decode. */
    method FetchMessages(routing: RoutingNode, headers: seq<XorName>, src: Authority, id: MessageId) returns (ok: bool)
      modifies routing
      ensures var r := FetchRequests(cfg, inboxStore, headers, src, id);
        routing.sent == old(routing.sent) + r.0 && ok == r.1
    {
      ghost var sent: seq<Send> := [];
      for i := 0 to |headers|
        invariant routing.sent == old(routing.sent) + sent
        invariant FetchRequests(cfg, inboxStore, headers[..i], src, id) == (sent, true)
      {
        assert headers[..i + 1][..i] == headers[..i];
        var name := headers[i];
        if name in inboxStore {
          var decoded := cfg.codec.decodeHeader(inboxStore[name]);
          if decoded.None? {
            assert headers == headers[..i + 1] + headers[i + 1..];
            FetchRequestsStopped(cfg, inboxStore, headers[..i + 1], headers[i + 1..], src, id);
            return false;
          }
          var fetch := FetchFor(cfg, decoded.value, src, id);
          routing.Send(fetch);
          sent := sent + [fetch];
        }
      }
      assert headers[..|headers|] == headers;
      ok := true;
    }

    /** The GetMessage arm: the recipient's manager asks for a stored message. */
    method HandleGetMessage(routing: RoutingNode, request: RequestMessage, header: MpidHeader) returns (result: Result<Unit, InternalError>)
      requires request.content.Post?
      modifies routing
      ensures var o := MpidSpec.HandleGetMessage(cfg, State(), request, header);
        routing.sent == old(routing.sent) + o.sends && result == o.result
    {
      var headerName := cfg.codec.headerName(header);
      if headerName !in outboxStore {
        routing.Send(PostFailure(request.dst, request.src, request, NoIndicator, request.content.id));
        return Ok(Unit);
      }
      var decoded := cfg.codec.decodeMessage(outboxStore[headerName]);
      if decoded.None? {
        return Err(Serialisation);
      }
      var message := decoded.value;
      var messageName := cfg.codec.headerName(message.header);
      if messageName == headerName && message.recipient == request.src.Name() {
        var reply := PlainData(messageName, cfg.codec.encodeWrapper(PutMessage(message)));
        routing.Send(PostRequest(request.dst, request.src, reply, request.content.id));
      }
      result := Ok(Unit);
    }

    /** The PutMessage arm: forward the message to every registered client
        of the recipient's account. */
    method HandlePostedMessage(routing: RoutingNode, request: RequestMessage, message: MpidMessage) returns (result: Result<Unit, InternalError>)
      requires request.content.Post?
      modifies routing
      ensures var o := MpidSpec.HandlePostedMessage(cfg, State(), request, message);
        routing.sent == old(routing.sent) + o.sends && result == o.result
    {
      var owner := request.dst.Name();
      if owner in accounts && message.recipient == owner {
        SendToClients(routing, accounts[owner].clients, request.dst, request.content.data, request.content.id);
      }
      result := Ok(Unit);
    }

    /** The loop of the PutMessage arm: one post request per client. */
    static method SendToClients(routing: RoutingNode, clients: seq<Authority>, src: Authority, data: PlainData, id: MessageId)
      modifies routing
      ensures routing.sent == old(routing.sent) + PostToEach(clients, src, data, id)
    {
      for i := 0 to |clients|
        invariant routing.sent == old(routing.sent) + PostToEach(clients[..i], src, data, id)
      {
        assert clients[..i + 1][..i] == clients[..i];
        routing.Send(PostRequest(src, clients[i], data, id));
      }
      assert clients[..|clients|] == clients;
    }

    /** The header-collecting loop of the OutboxHas and GetOutboxHeaders
        arms: the header of each named stored message, in order, failing on
        the first stored message that does not decode. */
    method CollectStoredHeaders(names: seq<XorName>) returns (r: Result<seq<MpidHeader>, InternalError>)
      ensures r == CollectHeaders(cfg, outboxStore, names)
    {
      var headers: seq<MpidHeader> := [];
      for i := 0 to |names|
        invariant CollectHeaders(cfg, outboxStore, names[..i]) == Ok(headers)
      {
        assert names[..i + 1][..i] == names[..i];
        var name := names[i];
        if name in outboxStore {
          var decoded := cfg.codec.decodeMessage(outboxStore[name]);
          if decoded.None? {
            assert names == names[..i + 1] + names[i + 1..];
            CollectHeadersStopped(cfg, outboxStore, names[..i + 1], names[i + 1..]);
            return Err(Serialisation);
          }
          headers := headers + [decoded.value.header];
        }
      }
      assert names[..|names|] == names;
      r := Ok(headers);
    }

    /** The reply of the OutboxHas and GetOutboxHeaders arms. */
    method SendHeadersReply(routing: RoutingNode, request: RequestMessage, names: seq<XorName>,
                            wrap: seq<MpidHeader> -> MpidMessageWrapper) returns (result: Result<Unit, InternalError>)
      requires request.content.Post?
      modifies routing
      ensures var o := HeadersReply(cfg, State(), request, names, wrap);
        routing.sent == old(routing.sent) + o.sends && result == o.result
    {
      var collected := CollectStoredHeaders(names);
      if collected.Err? {
        return Err(collected.error);
      }
      var reply := PlainData(request.dst.Name(), cfg.codec.encodeWrapper(wrap(collected.value)));
      routing.Send(PostRequest(request.dst, request.src, reply, request.content.id));
      result := Ok(Unit);
    }

    /** The OutboxHas arm: a registered client asks which of `names` are
        still in the outbox. */
    method HandleOutboxHas(routing: RoutingNode, request: RequestMessage, names: seq<XorName>) returns (result: Result<Unit, InternalError>)
      requires request.content.Post?
      modifies routing
      ensures var o := MpidSpec.HandleOutboxHas(cfg, State(), request, names);
        routing.sent == old(routing.sent) + o.sends && result == o.result
    {
      var owner := request.dst.Name();
      if owner in accounts && request.src in accounts[owner].clients {
        var found := Kept(names, accounts[owner].outbox.entries.Keys);
        result := SendHeadersReply(routing, request, found, found => OutboxHasResponse(found));
      } else {
        result := Ok(Unit);
      }
    }

    /** The GetOutboxHeaders arm: a registered client asks for the headers
        of every message in the outbox. */
    method HandleGetOutboxHeaders(routing: RoutingNode, request: RequestMessage) returns (result: Result<Unit, InternalError>, ghost order: seq<XorName>)
      requires request.content.Post?
      modifies routing
      ensures FromRegisteredClient(State(), request) ==>
        Enumerates(order, accounts[request.dst.Name()].outbox.entries)
      ensures var o := MpidSpec.HandleGetOutboxHeaders(cfg, State(), request, order);
        routing.sent == old(routing.sent) + o.sends && result == o.result
    {
      order := [];
      var owner := request.dst.Name();
      if owner in accounts && request.src in accounts[owner].clients {
        var stored := NamesOf(accounts[owner].outbox.entries);
        order := stored;
        result := SendHeadersReply(routing, request, stored, found => GetOutboxHeadersResponse(found));
      } else {
        result := Ok(Unit);
      }
    }

    // -------------------------------------------------------------------
    // handle_delete
    // -------------------------------------------------------------------

    /** `MpidManager::handle_delete`. */
    method HandleDelete(routing: RoutingNode, request: RequestMessage) returns (result: Result<Unit, InternalError>)
      requires Valid() && DeleteDemuxed(cfg, State(), request)
      modifies this, routing
      ensures Valid()
      ensures var o := MpidSpec.HandleDelete(cfg, old(State()), request);
        State() == o.state && routing.sent == old(routing.sent) + o.sends && result == o.result
    {
      var decoded := cfg.codec.decodeWrapper(request.content.data.value);
      if decoded.None? {
        return Err(Serialisation);
      }
      match decoded.value
      case DeleteMessage(name) =>
        result := HandleDeleteMessage(routing, request, name);
      case DeleteHeader(name) =>
        result := HandleDeleteHeader(routing, request, name);
    }

    /** The DeleteMessage arm: the sender's client, or the recipient once
        it has the message, removes a message from the outbox. */
    method HandleDeleteMessage(routing: RoutingNode, request: RequestMessage, name: XorName) returns (result: Result<Unit, InternalError>)
      requires Valid() && request.content.Delete?
      requires request.dst.Name() in accounts ==> RemovalFits(accounts[request.dst.Name()].outbox, outboxStore, name)
      modifies this, routing
      ensures Valid()
      ensures var o := MpidSpec.HandleDeleteMessage(cfg, old(State()), request, name);
        State() == o.state && routing.sent == old(routing.sent) + o.sends && result == o.result
    {
      var owner := request.dst.Name();
      if owner !in accounts {
        return Ok(Unit);
      }
      var account := accounts[owner];
      var registered := request.src in account.clients;
      if name !in outboxStore {
        routing.Send(DeleteFailure(request.dst, request.src, request, NoIndicator, request.content.id));
        return Ok(Unit);
      }
      var data := outboxStore[name];
      if !registered {
        var decoded := cfg.codec.decodeMessage(data);
        if decoded.None? {
          return Err(Serialisation);
        }
        if decoded.value.recipient != request.src.Name() {
          return Ok(Unit);
        }
      }
      outboxStore := outboxStore - {name};
      var (outbox, _) := MailBoxRemove(account.outbox, SizeOf(data), name);
      accounts := accounts[owner := account.(outbox := outbox)];
      result := Ok(Unit);
    }

    /** The DeleteHeader arm: a registered client removes a header from the
        inbox. */
    method HandleDeleteHeader(routing: RoutingNode, request: RequestMessage, name: XorName) returns (result: Result<Unit, InternalError>)
      requires Valid() && request.content.Delete?
      requires request.dst.Name() in accounts ==> RemovalFits(accounts[request.dst.Name()].inbox, inboxStore, name)
      modifies this, routing
      ensures Valid()
      ensures var o := MpidSpec.HandleDeleteHeader(cfg, old(State()), request, name);
        State() == o.state && routing.sent == old(routing.sent) + o.sends && result == o.result
    {
      var owner := request.dst.Name();
      result := Ok(Unit);
      if owner !in accounts || request.src !in accounts[owner].clients {
        return;
      }
      var account := accounts[owner];
      if name !in inboxStore {
        routing.Send(DeleteFailure(request.dst, request.src, request, NoIndicator, request.content.id));
        return;
      }
      var data := inboxStore[name];
      inboxStore := inboxStore - {name};
      var (inbox, _) := MailBoxRemove(account.inbox, SizeOf(data), name);
      accounts := accounts[owner := account.(inbox := inbox)];
    }
  }
}
