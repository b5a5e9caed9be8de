/** What the MPID persona's handlers promise, proved of the functions in
    MpidSpec: every stored chunk stays charged to some account's mailbox,
    duplicates are refused, the inbox and outbox sides never touch each
    other, and the request sequences of the persona's own scenarios. */
module MpidProperties {
  import opened Wrappers
  import opened Primitives
  import opened MpidTypes
  import opened MpidSpec

  // ---------------------------------------------------------------------
  // No storage without accounting
  // ---------------------------------------------------------------------

  /** Every stored header is charged to the inbox of some account, and every
      stored message to the outbox of some account. */
  predicate StoresCharged(s: ManagerState)
  {
    (forall n | n in s.inboxStore :: exists owner | owner in s.accounts :: n in s.accounts[owner].inbox.entries) &&
    (forall n | n in s.outboxStore :: exists owner | owner in s.accounts :: n in s.accounts[owner].outbox.entries)
  }

  /** Replacing the account of `owner` by `a` and the stores by `inboxStore`
      and `outboxStore` keeps every chunk charged when each chunk left in a
      store was either stored before, and so charged, and `a` keeps its name
      if the old account held it, or is charged to `a`. */
  lemma ChargedAfterUpdate(s: ManagerState, owner: XorName, a: AccountState,
                           inboxStore: map<XorName, Bytes>, outboxStore: map<XorName, Bytes>)
    requires StoresCharged(s)
    requires forall n | n in inboxStore ::
               n in a.inbox.entries ||
               (n in s.inboxStore && (owner in s.accounts && n in s.accounts[owner].inbox.entries ==> n in a.inbox.entries))
    requires forall n | n in outboxStore ::
               n in a.outbox.entries ||
               (n in s.outboxStore && (owner in s.accounts && n in s.accounts[owner].outbox.entries ==> n in a.outbox.entries))
    ensures StoresCharged(ManagerState(s.accounts[owner := a], inboxStore, outboxStore))
  {
    var t := ManagerState(s.accounts[owner := a], inboxStore, outboxStore);
    forall n | n in t.inboxStore
      ensures exists o | o in t.accounts :: n in t.accounts[o].inbox.entries
    {
      if n !in a.inbox.entries {
        var o :| o in s.accounts && n in s.accounts[o].inbox.entries;
        assert n in t.accounts[o].inbox.entries;
      } else {
        assert n in t.accounts[owner].inbox.entries;
      }
    }
    forall n | n in t.outboxStore
      ensures exists o | o in t.accounts :: n in t.accounts[o].outbox.entries
    {
      if n !in a.outbox.entries {
        var o :| o in s.accounts && n in s.accounts[o].outbox.entries;
        assert n in t.accounts[o].outbox.entries;
      } else {
        assert n in t.accounts[owner].outbox.entries;
      }
    }
  }

  /** `handle_put` keeps every chunk charged: a chunk is stored only after
      the mailbox of the destination account has taken its name. */
  lemma HandlePutKeepsChargesAccounted(cfg: Config, s: ManagerState, request: RequestMessage)
    requires s.Valid() && PutDemuxed(cfg, request) && StoresCharged(s)
    ensures StoresCharged(HandlePut(cfg, s, request).state)
  {
    match Decoded(cfg, request)
    case None =>
    case Some(wrapper) =>
      if wrapper.PutHeader? {
        PutHeaderKeepsCharges(cfg, s, request, wrapper.header);
      } else {
        PutMessageKeepsCharges(cfg, s, request, wrapper.message);
      }
  }

  /** The PutHeader branch keeps every chunk charged. */
  lemma PutHeaderKeepsCharges(cfg: Config, s: ManagerState, request: RequestMessage, header: MpidHeader)
    requires s.Valid() && PutDemuxed(cfg, request) && StoresCharged(s)
    requires Decoded(cfg, request) == Some(PutHeader(header))
    ensures StoresCharged(HandlePut(cfg, s, request).state)
  {
    var owner := request.dst.Name();
    var name := request.content.data.name;
    if name !in s.inboxStore {
      var r := MailBoxPut(AccountOf(cfg, s, owner).inbox, SizeOf(cfg.codec.encodeHeader(header)), name, None);
      var store := if r.1 then s.inboxStore[name := cfg.codec.encodeHeader(header)] else s.inboxStore;
      ChargedAfterUpdate(s, owner, AccountOf(cfg, s, owner).(inbox := r.0), store, s.outboxStore);
    }
  }

  /** The PutMessage branch keeps every chunk charged. */
  lemma PutMessageKeepsCharges(cfg: Config, s: ManagerState, request: RequestMessage, message: MpidMessage)
    requires s.Valid() && PutDemuxed(cfg, request) && StoresCharged(s)
    requires Decoded(cfg, request) == Some(PutMessage(message))
    ensures StoresCharged(HandlePut(cfg, s, request).state)
  {
    var owner := request.dst.Name();
    var name := request.content.data.name;
    if name !in s.outboxStore {
      var r := MailBoxPut(AccountOf(cfg, s, owner).outbox, SizeOf(cfg.codec.encodeMessage(message)), name, None);
      var store := if r.1 then s.outboxStore[name := cfg.codec.encodeMessage(message)] else s.outboxStore;
      ChargedAfterUpdate(s, owner, AccountOf(cfg, s, owner).(outbox := r.0), s.inboxStore, store);
    }
  }

  /** `handle_post` keeps every chunk charged: it stores and removes nothing
      and at most registers a client. */
  lemma HandlePostKeepsChargesAccounted(cfg: Config, s: ManagerState, request: RequestMessage, order: seq<XorName>)
    requires s.Valid() && PostDemuxed(cfg, request) && StoresCharged(s)
    ensures StoresCharged(HandlePost(cfg, s, request, order).state)
  {
    if Decoded(cfg, request).Some? && Decoded(cfg, request).value.Online? {
      var owner := request.dst.Name();
      var account := RegisterOnline(AccountOf(cfg, s, owner), request.src);
      ChargedAfterUpdate(s, owner, account, s.inboxStore, s.outboxStore);
    }
  }

  /** Removing `name` from a mailbox keeps every other name. */
  lemma RemovalKeepsOthers(b: MailBoxState, size: u64, name: XorName, n: XorName)
    requires b.Valid() && (name in b.entries ==> size <= b.usedSpace)
    requires n in b.entries && n != name
    ensures n in MailBoxRemove(b, size, name).0.entries
  {
  }

  /** Deleting the stored message `name` and removing it from the outbox
      of `owner` keeps every chunk charged. */
  lemma OutboxRemovalKeepsCharges(s: ManagerState, owner: XorName, name: XorName)
    requires s.Valid() && StoresCharged(s) && owner in s.accounts && name in s.outboxStore
    requires RemovalFits(s.accounts[owner].outbox, s.outboxStore, name)
    ensures var account := s.accounts[owner];
      var outbox := MailBoxRemove(account.outbox, SizeOf(s.outboxStore[name]), name).0;
      StoresCharged(ManagerState(s.accounts[owner := account.(outbox := outbox)], s.inboxStore, s.outboxStore - {name}))
  {
    var account := s.accounts[owner];
    var outbox := MailBoxRemove(account.outbox, SizeOf(s.outboxStore[name]), name).0;
    forall n | n in s.outboxStore - {name} && n in account.outbox.entries
      ensures n in outbox.entries
    {
      RemovalKeepsOthers(account.outbox, SizeOf(s.outboxStore[name]), name, n);
    }
    ChargedAfterUpdate(s, owner, account.(outbox := outbox), s.inboxStore, s.outboxStore - {name});
  }

  /** Deleting the stored header `name` and removing it from the inbox of
      `owner` keeps every chunk charged. */
  lemma InboxRemovalKeepsCharges(s: ManagerState, owner: XorName, name: XorName)
    requires s.Valid() && StoresCharged(s) && owner in s.accounts && name in s.inboxStore
    requires RemovalFits(s.accounts[owner].inbox, s.inboxStore, name)
    ensures var account := s.accounts[owner];
      var inbox := MailBoxRemove(account.inbox, SizeOf(s.inboxStore[name]), name).0;
      StoresCharged(ManagerState(s.accounts[owner := account.(inbox := inbox)], s.inboxStore - {name}, s.outboxStore))
  {
    var account := s.accounts[owner];
    var inbox := MailBoxRemove(account.inbox, SizeOf(s.inboxStore[name]), name).0;
    forall n | n in s.inboxStore - {name} && n in account.inbox.entries
      ensures n in inbox.entries
    {
      RemovalKeepsOthers(account.inbox, SizeOf(s.inboxStore[name]), name, n);
    }
    ChargedAfterUpdate(s, owner, account.(inbox := inbox), s.inboxStore - {name}, s.outboxStore);
  }

  /** The DeleteMessage branch keeps every chunk charged. */
  lemma DeleteMessageKeepsChargesAccounted(cfg: Config, s: ManagerState, request: RequestMessage, name: XorName)
    requires s.Valid() && request.content.Delete? && StoresCharged(s)
    requires request.dst.Name() in s.accounts ==> RemovalFits(s.accounts[request.dst.Name()].outbox, s.outboxStore, name)
    ensures StoresCharged(HandleDeleteMessage(cfg, s, request, name).state)
  {
    var owner := request.dst.Name();
    if owner in s.accounts && name in s.outboxStore &&
       DeletePermitted(cfg, s.accounts[owner], request, s.outboxStore[name]) == Some(true) {
      OutboxRemovalKeepsCharges(s, owner, name);
    }
  }

  /** The DeleteHeader branch keeps every chunk charged. */
  lemma DeleteHeaderKeepsChargesAccounted(cfg: Config, s: ManagerState, request: RequestMessage, name: XorName)
    requires s.Valid() && request.content.Delete? && StoresCharged(s)
    requires request.dst.Name() in s.accounts ==> RemovalFits(s.accounts[request.dst.Name()].inbox, s.inboxStore, name)
    ensures StoresCharged(HandleDeleteHeader(cfg, s, request, name).state)
  {
    var owner := request.dst.Name();
    if FromRegisteredClient(s, request) && name in s.inboxStore {
      InboxRemovalKeepsCharges(s, owner, name);
    }
  }

  /** `handle_delete` keeps every chunk charged: an account gives up a name
      only when its chunk is deleted. */
  lemma HandleDeleteKeepsChargesAccounted(cfg: Config, s: ManagerState, request: RequestMessage)
    requires s.Valid() && DeleteDemuxed(cfg, s, request) && StoresCharged(s)
    ensures StoresCharged(HandleDelete(cfg, s, request).state)
  {
    match Decoded(cfg, request)
    case None =>
    case Some(wrapper) =>
      if wrapper.DeleteMessage? {
        DeleteMessageKeepsChargesAccounted(cfg, s, request, wrapper.messageName);
      } else {
        DeleteHeaderKeepsChargesAccounted(cfg, s, request, wrapper.headerName);
      }
  }

  // ---------------------------------------------------------------------
  // handle_put
  // ---------------------------------------------------------------------

  /** A PutHeader or PutMessage whose name is already in its store is
      refused with DataExists and changes nothing. */
  lemma DuplicatePutRefused(cfg: Config, s: ManagerState, request: RequestMessage)
    requires s.Valid() && PutDemuxed(cfg, request) && Decoded(cfg, request).Some?
    requires var name := request.content.data.name;
      if Decoded(cfg, request).value.PutHeader? then name in s.inboxStore else name in s.outboxStore
    ensures HandlePut(cfg, s, request) == Outcome(s, [], Err(ClientErr(DataExists)))
  {
  }

  /** The two sides never touch each other: a PutMessage leaves the inbox
      store and every inbox as they were, a PutHeader the outbox store and
      every outbox. */
  lemma PutSidesSeparate(cfg: Config, s: ManagerState, request: RequestMessage)
    requires s.Valid() && PutDemuxed(cfg, request) && Decoded(cfg, request).Some?
    ensures var t := HandlePut(cfg, s, request).state;
      if Decoded(cfg, request).value.PutMessage? then
        t.inboxStore == s.inboxStore &&
        forall n | n in s.accounts :: n in t.accounts && t.accounts[n].inbox == s.accounts[n].inbox
      else
        t.outboxStore == s.outboxStore &&
        forall n | n in s.accounts :: n in t.accounts && t.accounts[n].outbox == s.accounts[n].outbox
  {
  }

  /** A PutMessage the sender's outbox accepts is stored under the request's
      name, and exactly one put request goes from the sender's manager to the
      recipient's, carrying the message's header in a PutHeader wrapper under
      the header's name and the request's message id. */
  lemma PutMessageNotifiesRecipient(cfg: Config, s: ManagerState, request: RequestMessage)
    requires s.Valid() && PutDemuxed(cfg, request) && Decoded(cfg, request).Some?
    requires Decoded(cfg, request).value.PutMessage?
    requires var name := request.content.data.name;
      var account := AccountOf(cfg, s, request.dst.Name());
      var size := SizeOf(cfg.codec.encodeMessage(Decoded(cfg, request).value.message));
      name !in s.outboxStore && name !in account.outbox.entries && size <= account.outbox.spaceAvailable
    ensures var o := HandlePut(cfg, s, request);
      var message := Decoded(cfg, request).value.message;
      o.result == Ok(Unit) &&
      o.state.outboxStore == s.outboxStore[request.content.data.name := cfg.codec.encodeMessage(message)] &&
      o.sends == [PutRequest(request.dst, ClientManager(message.recipient),
                             PlainData(cfg.codec.headerName(message.header), cfg.codec.encodeWrapper(PutHeader(message.header))),
                             request.content.id)]
  {
  }

  /** A PutHeader the destination's inbox accepts is stored and nothing is sent. */
  lemma PutHeaderSendsNothing(cfg: Config, s: ManagerState, request: RequestMessage)
    requires s.Valid() && PutDemuxed(cfg, request) && Decoded(cfg, request).Some?
    requires Decoded(cfg, request).value.PutHeader?
    requires var name := request.content.data.name;
      var account := AccountOf(cfg, s, request.dst.Name());
      var size := SizeOf(cfg.codec.encodeHeader(Decoded(cfg, request).value.header));
      name !in s.inboxStore && name !in account.inbox.entries && size <= account.inbox.spaceAvailable
    ensures var o := HandlePut(cfg, s, request);
      o.result == Ok(Unit) && o.sends == [] &&
      o.state.inboxStore == s.inboxStore[request.content.data.name := cfg.codec.encodeHeader(Decoded(cfg, request).value.header)]
  {
  }

  /** When the destination's mailbox refuses the entry, no chunk is stored
      and a single put failure goes back to the request's source. */
  lemma RefusedPutStoresNothing(cfg: Config, s: ManagerState, request: RequestMessage)
    requires s.Valid() && PutDemuxed(cfg, request) && Decoded(cfg, request).Some?
    requires var w := Decoded(cfg, request).value;
      var name := request.content.data.name;
      var account := AccountOf(cfg, s, request.dst.Name());
      if w.PutHeader? then
        name !in s.inboxStore && !MailBoxPut(account.inbox, SizeOf(cfg.codec.encodeHeader(w.header)), name, None).1
      else
        name !in s.outboxStore && !MailBoxPut(account.outbox, SizeOf(cfg.codec.encodeMessage(w.message)), name, None).1
    ensures var o := HandlePut(cfg, s, request);
      o.result == Ok(Unit) &&
      o.state.inboxStore == s.inboxStore && o.state.outboxStore == s.outboxStore &&
      o.sends == [PutFailure(request.dst, request.src, request, NoIndicator, request.content.id)]
  {
  }

  /** The scenario of putting a message, putting it again, putting its
      header, and putting the header again, all at a manager with no account
      yet for the destination: the message is stored and announced, its
      repeat is refused, the header (same name, other store) is stored with
      nothing sent, and its repeat is refused. */
  lemma MessageAndHeaderTwice(cfg: Config, s: ManagerState, putMessage: RequestMessage, putHeader: RequestMessage)
    requires s.Valid() && PutDemuxed(cfg, putMessage) && PutDemuxed(cfg, putHeader)
    requires Decoded(cfg, putMessage).Some? && Decoded(cfg, putMessage).value.PutMessage?
    requires var message := Decoded(cfg, putMessage).value.message;
      Decoded(cfg, putHeader) == Some(PutHeader(message.header)) &&
      SizeOf(cfg.codec.encodeMessage(message)) <= cfg.outboxAllowance &&
      SizeOf(cfg.codec.encodeHeader(message.header)) <= cfg.inboxAllowance
    requires putHeader.content.data.name == putMessage.content.data.name
    requires putHeader.dst == putMessage.dst && putMessage.dst.Name() !in s.accounts
    requires putMessage.content.data.name !in s.inboxStore && putMessage.content.data.name !in s.outboxStore
    ensures var first := HandlePut(cfg, s, putMessage);
      var second := HandlePut(cfg, first.state, putMessage);
      var third := HandlePut(cfg, first.state, putHeader);
      var fourth := HandlePut(cfg, third.state, putHeader);
      first.result == Ok(Unit) && |first.sends| == 1 && first.sends[0].PutRequest? &&
      second == Outcome(first.state, [], Err(ClientErr(DataExists))) &&
      third.result == Ok(Unit) && third.sends == [] &&
      fourth == Outcome(third.state, [], Err(ClientErr(DataExists)))
  {
    var first := HandlePut(cfg, s, putMessage);
    PutMessageNotifiesRecipient(cfg, s, putMessage);
    DuplicatePutRefused(cfg, first.state, putMessage);
    PutSidesSeparate(cfg, s, putMessage);
    var owner := putMessage.dst.Name();
    assert first.state.accounts[owner].inbox == DefaultAccount(cfg).inbox;
    PutHeaderSendsNothing(cfg, first.state, putHeader);
    var third := HandlePut(cfg, first.state, putHeader);
    DuplicatePutRefused(cfg, third.state, putHeader);
  }

  // ---------------------------------------------------------------------
  // handle_post
  // ---------------------------------------------------------------------

  /** When every received header decodes, each one stored yields a
      GetMessage request to its sender's manager... */
  lemma {:induction false} FetchReachesEveryStoredHeader(cfg: Config, inboxStore: map<XorName, Bytes>, headers: seq<XorName>,
                                                          src: Authority, id: MessageId, i: nat)
    requires FetchRequests(cfg, inboxStore, headers, src, id).1
    requires i < |headers| && headers[i] in inboxStore
    ensures cfg.codec.decodeHeader(inboxStore[headers[i]]).Some?
    ensures FetchFor(cfg, cfg.codec.decodeHeader(inboxStore[headers[i]]).value, src, id)
            in FetchRequests(cfg, inboxStore, headers, src, id).0
    decreases |headers|
  {
    var last := |headers| - 1;
    var before := FetchRequests(cfg, inboxStore, headers[..last], src, id);
    if i < last {
      assert headers[..last][i] == headers[i];
      FetchReachesEveryStoredHeader(cfg, inboxStore, headers[..last], src, id, i);
    }
  }

  /** ...and every request sent is such a request for a stored header. */
  lemma {:induction false} FetchOnlyForStoredHeaders(cfg: Config, inboxStore: map<XorName, Bytes>, headers: seq<XorName>,
                                                      src: Authority, id: MessageId, k: nat)
    requires k < |FetchRequests(cfg, inboxStore, headers, src, id).0|
    ensures exists i | 0 <= i < |headers| && headers[i] in inboxStore ::
      cfg.codec.decodeHeader(inboxStore[headers[i]]).Some? &&
      FetchRequests(cfg, inboxStore, headers, src, id).0[k] == FetchFor(cfg, cfg.codec.decodeHeader(inboxStore[headers[i]]).value, src, id)
    decreases |headers|
  {
    var last := |headers| - 1;
    var init := headers[..last];
    var before := FetchRequests(cfg, inboxStore, init, src, id);
    var r := FetchRequests(cfg, inboxStore, headers, src, id).0;
    if k < |before.0| {
      assert r[k] == before.0[k];
      FetchOnlyForStoredHeaders(cfg, inboxStore, init, src, id, k);
      var i :| 0 <= i < |init| && init[i] in inboxStore &&
        cfg.codec.decodeHeader(inboxStore[init[i]]).Some? &&
        before.0[k] == FetchFor(cfg, cfg.codec.decodeHeader(inboxStore[init[i]]).value, src, id);
      assert headers[i] == init[i];
    } else {
      assert headers[last] in inboxStore;
    }
  }

  /** Once the walk of the received headers has stopped at a header that
      does not decode, the names after it make no difference. */
  lemma {:induction false} FetchRequestsStopped(cfg: Config, inboxStore: map<XorName, Bytes>, a: seq<XorName>, b: seq<XorName>,
                                                src: Authority, id: MessageId)
    requires !FetchRequests(cfg, inboxStore, a, src, id).1
    ensures FetchRequests(cfg, inboxStore, a + b, src, id) == FetchRequests(cfg, inboxStore, a, src, id)
    decreases |b|
  {
    if b == [] {
      assert a + b == a;
    } else {
      assert (a + b)[..|a + b| - 1] == a + b[..|b| - 1];
      FetchRequestsStopped(cfg, inboxStore, a, b[..|b| - 1], src, id);
    }
  }

  /** Likewise, once collecting headers has failed, the names after the
      message that did not decode make no difference. */
  lemma {:induction false} CollectHeadersStopped(cfg: Config, outboxStore: map<XorName, Bytes>, a: seq<XorName>, b: seq<XorName>)
    requires CollectHeaders(cfg, outboxStore, a).Err?
    ensures CollectHeaders(cfg, outboxStore, a + b) == CollectHeaders(cfg, outboxStore, a)
    decreases |b|
  {
    if b == [] {
      assert a + b == a;
    } else {
      assert (a + b)[..|a + b| - 1] == a + b[..|b| - 1];
      CollectHeadersStopped(cfg, outboxStore, a, b[..|b| - 1]);
    }
  }

  /** When every stored message named decodes, the collected headers are
      those of the stored messages among `names`, in the order of `names`. */
  lemma {:induction false} CollectHeadersContents(cfg: Config, outboxStore: map<XorName, Bytes>, names: seq<XorName>)
    requires CollectHeaders(cfg, outboxStore, names).Ok?
    ensures HeadersOf(cfg, outboxStore, Kept(names, outboxStore.Keys), CollectHeaders(cfg, outboxStore, names).value)
  {
    if names != [] {
      var prefix := names[..|names| - 1];
      var name := names[|names| - 1];
      CollectHeadersContents(cfg, outboxStore, prefix);
      var stored := Kept(prefix, outboxStore.Keys);
      var before := CollectHeaders(cfg, outboxStore, prefix).value;
      if name in outboxStore {
        var header := cfg.codec.decodeMessage(outboxStore[name]).value.header;
        assert Kept(names, outboxStore.Keys) == stored + [name];
        assert CollectHeaders(cfg, outboxStore, names).value == before + [header];
        HeadersOfAppend(cfg, outboxStore, stored, before, name);
      } else {
        assert Kept(names, outboxStore.Keys) == stored;
      }
    }
  }

  /** Appending a stored message that decodes appends its header. */
  lemma HeadersOfAppend(cfg: Config, outboxStore: map<XorName, Bytes>, stored: seq<XorName>, headers: seq<MpidHeader>, name: XorName)
    requires HeadersOf(cfg, outboxStore, stored, headers)
    requires name in outboxStore && cfg.codec.decodeMessage(outboxStore[name]).Some?
    ensures HeadersOf(cfg, outboxStore, stored + [name], headers + [cfg.codec.decodeMessage(outboxStore[name]).value.header])
  {
  }

  /** The reply to OutboxHas and GetOutboxHeaders, when every stored message
      named decodes: one post request from the account's manager back to
      the requester, named after the account and carrying the headers of
      the stored messages among `names`, in order. */
  lemma HeadersReplyCarriesHeaders(cfg: Config, s: ManagerState, request: RequestMessage, names: seq<XorName>,
                                   wrap: seq<MpidHeader> -> MpidMessageWrapper)
    requires request.content.Post? && AllDecode(cfg, s.outboxStore, names)
    ensures var headers := CollectHeaders(cfg, s.outboxStore, names);
      headers.Ok? && HeadersOf(cfg, s.outboxStore, Kept(names, s.outboxStore.Keys), headers.value) &&
      HeadersReply(cfg, s, request, names, wrap).sends ==
        [PostRequest(request.dst, request.src, PlainData(request.dst.Name(), cfg.codec.encodeWrapper(wrap(headers.value))),
                     request.content.id)]
  {
    CollectHeadersContents(cfg, s.outboxStore, names);
  }

  /** A registered client asking which of `names` are still in the outbox
      gets one OutboxHasResponse holding the headers of exactly those of
      `names` the outbox holds and the store keeps, in the order asked. */
  lemma OutboxHasAnswersRegisteredClient(cfg: Config, s: ManagerState, request: RequestMessage, names: seq<XorName>)
    requires request.content.Post? && FromRegisteredClient(s, request)
    requires var asked := Kept(names, s.accounts[request.dst.Name()].outbox.entries.Keys);
      AllDecode(cfg, s.outboxStore, asked)
    ensures var asked := Kept(names, s.accounts[request.dst.Name()].outbox.entries.Keys);
      var o := HandleOutboxHas(cfg, s, request, names);
      exists headers ::
        HeadersOf(cfg, s.outboxStore, Kept(asked, s.outboxStore.Keys), headers) &&
        o == Outcome(s, [PostRequest(request.dst, request.src,
                                     PlainData(request.dst.Name(), cfg.codec.encodeWrapper(OutboxHasResponse(headers))),
                                     request.content.id)], Ok(Unit))
  {
    var asked := Kept(names, s.accounts[request.dst.Name()].outbox.entries.Keys);
    HeadersReplyCarriesHeaders(cfg, s, request, asked, found => OutboxHasResponse(found));
    var headers := CollectHeaders(cfg, s.outboxStore, asked).value;
    assert HeadersOf(cfg, s.outboxStore, Kept(asked, s.outboxStore.Keys), headers);
  }

  /** A registered client asking for its outbox's headers gets one
      GetOutboxHeadersResponse holding the header of every stored message
      named in `order`, the order the outbox yields its names in. */
  lemma GetOutboxHeadersAnswersRegisteredClient(cfg: Config, s: ManagerState, request: RequestMessage, order: seq<XorName>)
    requires request.content.Post? && FromRegisteredClient(s, request) && AllDecode(cfg, s.outboxStore, order)
    ensures var o := HandleGetOutboxHeaders(cfg, s, request, order);
      exists headers ::
        HeadersOf(cfg, s.outboxStore, Kept(order, s.outboxStore.Keys), headers) &&
        o == Outcome(s, [PostRequest(request.dst, request.src,
                                     PlainData(request.dst.Name(), cfg.codec.encodeWrapper(GetOutboxHeadersResponse(headers))),
                                     request.content.id)], Ok(Unit))
  {
    HeadersReplyCarriesHeaders(cfg, s, request, order, found => GetOutboxHeadersResponse(found));
    var headers := CollectHeaders(cfg, s.outboxStore, order).value;
    assert HeadersOf(cfg, s.outboxStore, Kept(order, s.outboxStore.Keys), headers);
  }

  /** A message stored by PutMessage under its header's name is handed,
      wrapped in PutMessage, to its recipient when the recipient's manager
      asks for it, provided the codec reads back what it wrote. */
  lemma StoredMessageReachesRecipient(cfg: Config, s: ManagerState, put: RequestMessage, get: RequestMessage, message: MpidMessage)
    requires s.Valid() && PutDemuxed(cfg, put) && Decoded(cfg, put) == Some(PutMessage(message))
    requires var name := put.content.data.name;
      var account := AccountOf(cfg, s, put.dst.Name());
      name == cfg.codec.headerName(message.header) &&
      name !in s.outboxStore && name !in account.outbox.entries &&
      SizeOf(cfg.codec.encodeMessage(message)) <= account.outbox.spaceAvailable
    requires cfg.codec.decodeMessage(cfg.codec.encodeMessage(message)) == Some(message)
    requires get.content.Post? && get.src.Name() == message.recipient
    ensures var stored := HandlePut(cfg, s, put).state;
      HandleGetMessage(cfg, stored, get, message.header).sends ==
        [PostRequest(get.dst, get.src,
                     PlainData(put.content.data.name, cfg.codec.encodeWrapper(PutMessage(message))),
                     get.content.id)]
  {
    PutMessageNotifiesRecipient(cfg, s, put);
  }

  /** An Online request registers a client authority with the destination's
      account, creating the account when there is none. */
  lemma OnlineRegistersClient(cfg: Config, s: ManagerState, request: RequestMessage, order: seq<XorName>)
    requires s.Valid() && request.content.Post? && request.src.Client?
    ensures var t := HandleOnline(cfg, s, request, order).state;
      request.dst.Name() in t.accounts && request.src in t.accounts[request.dst.Name()].clients &&
      FromRegisteredClient(t, request)
  {
  }

  /** A GetMessage for a message that is not stored gets exactly one post
      failure, back to the requester. */
  lemma GetMissingMessageFails(cfg: Config, s: ManagerState, request: RequestMessage, header: MpidHeader)
    requires request.content.Post? && cfg.codec.headerName(header) !in s.outboxStore
    ensures HandleGetMessage(cfg, s, request, header).sends ==
      [PostFailure(request.dst, request.src, request, NoIndicator, request.content.id)]
  {
  }

  // ---------------------------------------------------------------------
  // handle_delete
  // ---------------------------------------------------------------------

  /** A DeleteMessage from a requester that is neither a registered client
      of the account nor the recipient of the stored message is ignored. */
  lemma DeleteByStrangerIgnored(cfg: Config, s: ManagerState, request: RequestMessage)
    requires s.Valid() && DeleteDemuxed(cfg, s, request)
    requires Decoded(cfg, request).Some? && Decoded(cfg, request).value.DeleteMessage?
    requires var name := Decoded(cfg, request).value.messageName;
      request.dst.Name() in s.accounts && name in s.outboxStore &&
      request.src !in s.accounts[request.dst.Name()].clients &&
      cfg.codec.decodeMessage(s.outboxStore[name]).Some? &&
      cfg.codec.decodeMessage(s.outboxStore[name]).value.recipient != request.src.Name()
    ensures HandleDelete(cfg, s, request) == Outcome(s, [], Ok(Unit))
  {
  }

  /** A DeleteMessage from a registered client of the account, or from the
      message's recipient, deletes the stored message and its outbox entry,
      so that a later GetMessage for it gets a post failure. */
  lemma DeletedMessageIsGone(cfg: Config, s: ManagerState, request: RequestMessage, getRequest: RequestMessage, header: MpidHeader)
    requires s.Valid() && DeleteDemuxed(cfg, s, request) && getRequest.content.Post?
    requires Decoded(cfg, request) == Some(DeleteMessage(cfg.codec.headerName(header)))
    requires request.dst.Name() in s.accounts && cfg.codec.headerName(header) in s.outboxStore
    requires DeletePermitted(cfg, s.accounts[request.dst.Name()], request, s.outboxStore[cfg.codec.headerName(header)]) == Some(true)
    ensures var o := HandleDelete(cfg, s, request);
      var name := cfg.codec.headerName(header);
      o.result == Ok(Unit) && o.sends == [] &&
      name !in o.state.outboxStore && name !in o.state.accounts[request.dst.Name()].outbox.entries &&
      HandleGetMessage(cfg, o.state, getRequest, header).sends ==
        [PostFailure(getRequest.dst, getRequest.src, getRequest, NoIndicator, getRequest.content.id)]
  {
  }
}
