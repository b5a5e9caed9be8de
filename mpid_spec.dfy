/** The MPID persona as values: what `MailBox`, `Account` and the
    `MpidManager` handlers compute, stated as functions of the state before
    the call. The classes in MpidAccounts and MpidManager are proved against
    these functions; the lemmas here state what the persona promises. */
module MpidSpec {
  import opened Wrappers
  import opened Primitives
  import opened MpidTypes

  // ---------------------------------------------------------------------
  // MailBox
  // ---------------------------------------------------------------------

  /** A mailbox: an allowance split into used and available space, and the
      stored names with the sender's public key (always `None` today). */
  datatype MailBoxState = MailBoxState(
    allowance: u64,
    usedSpace: u64,
    spaceAvailable: u64,
    entries: map<XorName, Option<PublicKey>>)
  {
    /** The capacity accounting `MailBox::new` sets up and `put` and
        `remove` keep: what is used and what is left add up to the allowance. */
    predicate Valid()
    {
      usedSpace as int + spaceAvailable as int == allowance as int
    }
  }

  /** `MailBox::new`. */
  function NewMailBox(allowance: u64): (b: MailBoxState)
    ensures b.Valid() && b.allowance == allowance
    ensures b.entries == map[] && b.spaceAvailable == allowance
  {
    MailBoxState(allowance, 0, allowance, map[])
  }

  /** `MailBox::put`: refuses an entry larger than the space left; otherwise
      inserts it, and charges its size only when the name was not there
      before (a name already present keeps its charge, but the map insert
      has already replaced its key value). */
  function MailBoxPut(b: MailBoxState, size: u64, entry: XorName, key: Option<PublicKey>): (r: (MailBoxState, bool))
    requires b.Valid()
    ensures r.0.Valid() && r.0.allowance == b.allowance
    ensures r.1 <==> size <= b.spaceAvailable && entry !in b.entries
    ensures r.1 ==> r.0.usedSpace as int == b.usedSpace as int + size as int
    ensures !r.1 ==> r.0.usedSpace == b.usedSpace && r.0.spaceAvailable == b.spaceAvailable
    ensures size > b.spaceAvailable ==> r.0 == b
    ensures size <= b.spaceAvailable ==> r.0.entries == b.entries[entry := key]
  {
    if size > b.spaceAvailable then
      (b, false)
    else if entry in b.entries then
      (b.(entries := b.entries[entry := key]), false)
    else
      (MailBoxState(b.allowance, b.usedSpace + size, b.spaceAvailable - size, b.entries[entry := key]), true)
  }

  /** `MailBox::remove`: the caller says how much space the entry held; the
      source subtracts it unchecked, so it must not exceed the used space. */
  function MailBoxRemove(b: MailBoxState, size: u64, entry: XorName): (r: (MailBoxState, bool))
    requires b.Valid()
    requires entry in b.entries ==> size <= b.usedSpace
    ensures r.0.Valid() && r.0.allowance == b.allowance
    ensures r.1 <==> entry in b.entries
    ensures r.0.entries.Keys == b.entries.Keys - {entry}
    ensures forall n | n in r.0.entries :: r.0.entries[n] == b.entries[n]
    ensures r.1 ==> r.0.spaceAvailable as int == b.spaceAvailable as int + size as int
    ensures !r.1 ==> r.0 == b
  {
    if entry in b.entries then
      (MailBoxState(b.allowance, b.usedSpace - size, b.spaceAvailable + size, b.entries - {entry}), true)
    else
      (b, false)
  }

  /** Removing, with the same size, an entry that `put` has just accepted
      gives back the mailbox as it was. */
  lemma PutThenRemoveRestores(b: MailBoxState, size: u64, entry: XorName, key: Option<PublicKey>)
    requires b.Valid()
    requires MailBoxPut(b, size, entry, key).1
    ensures MailBoxRemove(MailBoxPut(b, size, entry, key).0, size, entry) == (b, true)
  {
    var put := MailBoxPut(b, size, entry, key).0;
    assert put.entries - {entry} == b.entries;
  }

  // ---------------------------------------------------------------------
  // Account
  // ---------------------------------------------------------------------

  /** An account: its registered client proxies, inbox and outbox. */
  datatype AccountState = AccountState(clients: seq<Authority>, inbox: MailBoxState, outbox: MailBoxState)
  {
    predicate Valid()
    {
      inbox.Valid() && outbox.Valid() && RegisteredClients(clients)
    }
  }

  /** What `register_online` keeps true of the client list: only
      `Authority::Client` values, none twice. */
  predicate RegisteredClients(clients: seq<Authority>)
  {
    (forall i | 0 <= i < |clients| :: clients[i].Client?) &&
    (forall i, j | 0 <= i < j < |clients| :: clients[i] != clients[j])
  }

  /** `Account::default()`. */
  function DefaultAccount(cfg: Config): (a: AccountState)
    ensures a.Valid() && a.clients == []
    ensures a.inbox == NewMailBox(cfg.inboxAllowance) && a.outbox == NewMailBox(cfg.outboxAllowance)
  {
    AccountState([], NewMailBox(cfg.inboxAllowance), NewMailBox(cfg.outboxAllowance))
  }

  /** `Account::register_online`: appends a client authority not yet
      registered; anything else leaves the list alone. */
  function RegisterOnline(a: AccountState, client: Authority): (r: AccountState)
    ensures r.inbox == a.inbox && r.outbox == a.outbox
    ensures RegisteredClients(a.clients) ==> RegisteredClients(r.clients)
    ensures |a.clients| <= |r.clients| <= |a.clients| + 1 && r.clients[..|a.clients|] == a.clients
    ensures forall c :: c in r.clients <==> c in a.clients || (c == client && client.Client?)
  {
    if client.Client? && client !in a.clients then a.(clients := a.clients + [client]) else a
  }

  // ---------------------------------------------------------------------
  // The persona's state and its handlers
  // ---------------------------------------------------------------------

  /** The accounts, keyed by the name of the client manager that holds them,
      and the two chunk stores. */
  datatype ManagerState = ManagerState(
    accounts: map<XorName, AccountState>,
    inboxStore: map<XorName, Bytes>,
    outboxStore: map<XorName, Bytes>)
  {
    predicate Valid()
    {
      forall n | n in accounts :: accounts[n].Valid()
    }
  }

  /** What a handler does: the new state, the routing calls it makes, in
      order, and what it returns. */
  datatype Outcome = Outcome(state: ManagerState, sends: seq<Send>, result: Result<Unit, InternalError>)

  /** `accounts.entry(owner).or_insert(Account::default())`. */
  function AccountOf(cfg: Config, s: ManagerState, owner: XorName): (a: AccountState)
    requires s.Valid()
    ensures a.Valid()
  {
    if owner in s.accounts then s.accounts[owner] else DefaultAccount(cfg)
  }

  /** The wrapper a request's data decodes to, if any. */
  function Decoded(cfg: Config, request: RequestMessage): Option<MpidMessageWrapper>
  {
    cfg.codec.decodeWrapper(request.content.data.value)
  }

  /** `Vec::new()`, the empty external error indicator. */
  const NoIndicator: Bytes := []

  /** The requests `handle_put` handles without panicking: a Put whose
      data, if it decodes at all, holds a PutHeader or PutMessage. Any other
      wrapper kind reaches the source's `unreachable!` and is excluded. */
  predicate PutDemuxed(cfg: Config, request: RequestMessage)
  {
    request.content.Put? &&
    (Decoded(cfg, request).Some? ==> Decoded(cfg, request).value.PutHeader? || Decoded(cfg, request).value.PutMessage?)
  }

  /** `MpidManager::handle_put`. */
  function HandlePut(cfg: Config, s: ManagerState, request: RequestMessage): (o: Outcome)
    requires s.Valid() && PutDemuxed(cfg, request)
    ensures o.state.Valid()
    ensures o.result.Err? ==> o.state == s && o.sends == []
    ensures Decoded(cfg, request).None? ==> o.result == Err(Serialisation)
    ensures |o.sends| <= 1
    ensures forall n | n != request.dst.Name() && n in s.accounts :: n in o.state.accounts && o.state.accounts[n] == s.accounts[n]
  {
    var data := request.content.data;
    var owner := request.dst.Name();
    var account := AccountOf(cfg, s, owner);
    var failure := PutFailure(request.dst, request.src, request, NoIndicator, request.content.id);
    match Decoded(cfg, request)
    case None => Outcome(s, [], Err(Serialisation))
    case Some(wrapper) =>
      if wrapper.PutHeader? then
        if data.name in s.inboxStore then
          Outcome(s, [], Err(ClientErr(DataExists)))
        else
          var serialised := cfg.codec.encodeHeader(wrapper.header);
          var (inbox, stored) := MailBoxPut(account.inbox, SizeOf(serialised), data.name, None);
          var accounts := s.accounts[owner := account.(inbox := inbox)];
          if stored then
            Outcome(ManagerState(accounts, s.inboxStore[data.name := serialised], s.outboxStore), [], Ok(Unit))
          else
            Outcome(s.(accounts := accounts), [failure], Ok(Unit))
      else
        if data.name in s.outboxStore then
          Outcome(s, [], Err(ClientErr(DataExists)))
        else
          var message := wrapper.message;
          var serialised := cfg.codec.encodeMessage(message);
          var (outbox, stored) := MailBoxPut(account.outbox, SizeOf(serialised), data.name, None);
          var accounts := s.accounts[owner := account.(outbox := outbox)];
          if stored then
            var notification := PlainData(cfg.codec.headerName(message.header),
                                          cfg.codec.encodeWrapper(PutHeader(message.header)));
            Outcome(ManagerState(accounts, s.inboxStore, s.outboxStore[data.name := serialised]),
                    [PutRequest(request.dst, ClientManager(message.recipient), notification, request.content.id)],
                    Ok(Unit))
          else
            Outcome(s.(accounts := accounts), [failure], Ok(Unit))
  }

  /** The requests `handle_put_failure` handles without panicking: a Put
      whose data, if it decodes at all, holds a PutHeader. Any other wrapper
      kind reaches the source's `unreachable!` and is excluded. */
  predicate PutFailureDemuxed(cfg: Config, request: RequestMessage)
  {
    request.content.Put? &&
    (Decoded(cfg, request).Some? ==> Decoded(cfg, request).value.PutHeader?)
  }

  /** One put failure to each of `clients`, in their order. */
  function PutFailureToEach(clients: seq<Authority>, src: Authority, request: RequestMessage, id: MessageId): (r: seq<Send>)
    ensures |r| == |clients|
    ensures forall i | 0 <= i < |r| :: r[i] == PutFailure(src, clients[i], request, NoIndicator, id)
  {
    if clients == [] then []
    else PutFailureToEach(clients[..|clients| - 1], src, request, id)
         + [PutFailure(src, clients[|clients| - 1], request, NoIndicator, id)]
  }

  /** A put failure concerns a message its source still holds: the header
      names the source as its sender, and the source's account holds the
      message in its outbox. */
  predicate OwnsFailedMessage(cfg: Config, s: ManagerState, request: RequestMessage)
  {
    Decoded(cfg, request).Some? && Decoded(cfg, request).value.PutHeader? &&
    var header := Decoded(cfg, request).value.header;
    header.sender == request.src.Name() && request.src.Name() in s.accounts &&
    cfg.codec.headerName(header) in s.accounts[request.src.Name()].outbox.entries
  }

  /** `MpidManager::handle_put_failure`: the state is never changed; every
      client registered with the sender's account hears of the failure,
      once each, in their order, when the sender still holds the message,
      and nobody hears of it otherwise. */
  function HandlePutFailure(cfg: Config, s: ManagerState, request: RequestMessage): (o: Outcome)
    requires s.Valid() && PutFailureDemuxed(cfg, request)
    ensures o.state == s
    ensures o.result.Err? <==> Decoded(cfg, request).None?
    ensures OwnsFailedMessage(cfg, s, request) ==>
      var clients := s.accounts[request.src.Name()].clients;
      |o.sends| == |clients| &&
      forall i | 0 <= i < |clients| ::
        o.sends[i] == PutFailure(request.src, clients[i], request, NoIndicator, request.content.id)
    ensures !OwnsFailedMessage(cfg, s, request) ==> o.sends == []
  {
    var sender := request.src.Name();
    match Decoded(cfg, request)
    case None => Outcome(s, [], Err(Serialisation))
    case Some(wrapper) =>
      var header := wrapper.header;
      if header.sender == sender && sender in s.accounts
         && cfg.codec.headerName(header) in s.accounts[sender].outbox.entries
      then
        Outcome(s, PutFailureToEach(s.accounts[sender].clients, request.src, request, request.content.id), Ok(Unit))
      else
        Outcome(s, [], Ok(Unit))
  }

  /** The GetMessage request an Online request sends to the sender of a
      received header. */
  function FetchFor(cfg: Config, header: MpidHeader, src: Authority, id: MessageId): Send
  {
    PostRequest(src, ClientManager(header.sender),
                PlainData(cfg.codec.headerName(header), cfg.codec.encodeWrapper(GetMessage(header))), id)
  }

  /** The GetMessage requests `handle_post` sends for an Online request
      after going through the received header names in `headers`, and
      whether it got to the end: a name with no stored header is skipped,
      and a stored header that does not decode ends the walk with an error
      (the `try!`), keeping what was sent before it. */
  function FetchRequests(cfg: Config, inboxStore: map<XorName, Bytes>, headers: seq<XorName>, src: Authority, id: MessageId): (r: (seq<Send>, bool))
    ensures |r.0| <= |headers|
  {
    if headers == [] then
      ([], true)
    else
      var before := FetchRequests(cfg, inboxStore, headers[..|headers| - 1], src, id);
      var name := headers[|headers| - 1];
      if !before.1 || name !in inboxStore then
        before
      else
        match cfg.codec.decodeHeader(inboxStore[name])
        case None => (before.0, false)
        case Some(header) => (before.0 + [FetchFor(cfg, header, src, id)], true)
  }

  /** `handle_post` for `Online`: registers the requester with the account
      (creating the account if need be) and asks each sender of a received
      header for the full message; `order` is the order the inbox's
      `HashMap` yields its names in. */
  function HandleOnline(cfg: Config, s: ManagerState, request: RequestMessage, order: seq<XorName>): (o: Outcome)
    requires s.Valid() && request.content.Post?
    ensures o.state.Valid()
    ensures o.state.inboxStore == s.inboxStore && o.state.outboxStore == s.outboxStore
    ensures o.result.Err? ==> o.result == Err(Serialisation)
  {
    var owner := request.dst.Name();
    var account := RegisterOnline(AccountOf(cfg, s, owner), request.src);
    var fetched := FetchRequests(cfg, s.inboxStore, order, request.dst, request.content.id);
    Outcome(s.(accounts := s.accounts[owner := account]), fetched.0,
            if fetched.1 then Ok(Unit) else Err(Serialisation))
  }

  /** `handle_post` for `GetMessage`: answers with the stored message only
      when its own name is the one asked for and the requester is its
      recipient; a missing message is a post failure. */
  function HandleGetMessage(cfg: Config, s: ManagerState, request: RequestMessage, header: MpidHeader): (o: Outcome)
    requires request.content.Post?
    ensures o.state == s
    ensures |o.sends| <= 1
    ensures cfg.codec.headerName(header) !in s.outboxStore ==>
      o == Outcome(s, [PostFailure(request.dst, request.src, request, NoIndicator, request.content.id)], Ok(Unit))
    ensures forall i | 0 <= i < |o.sends| && o.sends[i].PostRequest? ::
      var m := cfg.codec.decodeMessage(s.outboxStore[cfg.codec.headerName(header)]);
      m.Some? && m.value.recipient == request.src.Name() &&
      cfg.codec.headerName(m.value.header) == cfg.codec.headerName(header) &&
      o.sends[i].dst == request.src
    ensures var name := cfg.codec.headerName(header);
      name in s.outboxStore && cfg.codec.decodeMessage(s.outboxStore[name]).None? ==>
        o == Outcome(s, [], Err(Serialisation))
    ensures var name := cfg.codec.headerName(header);
      name in s.outboxStore && cfg.codec.decodeMessage(s.outboxStore[name]).Some? ==>
        var m := cfg.codec.decodeMessage(s.outboxStore[name]).value;
        if cfg.codec.headerName(m.header) == name && m.recipient == request.src.Name() then
          o == Outcome(s, [PostRequest(request.dst, request.src, PlainData(name, cfg.codec.encodeWrapper(PutMessage(m))),
                                       request.content.id)], Ok(Unit))
        else
          o == Outcome(s, [], Ok(Unit))
  {
    var headerName := cfg.codec.headerName(header);
    if headerName in s.outboxStore then
      match cfg.codec.decodeMessage(s.outboxStore[headerName])
      case None => Outcome(s, [], Err(Serialisation))
      case Some(message) =>
        var messageName := cfg.codec.headerName(message.header);
        if messageName == headerName && message.recipient == request.src.Name() then
          var reply := PlainData(messageName, cfg.codec.encodeWrapper(PutMessage(message)));
          Outcome(s, [PostRequest(request.dst, request.src, reply, request.content.id)], Ok(Unit))
        else
          Outcome(s, [], Ok(Unit))
    else
      Outcome(s, [PostFailure(request.dst, request.src, request, NoIndicator, request.content.id)], Ok(Unit))
  }

  /** One post request carrying `data` to each of `clients`, in their order. */
  function PostToEach(clients: seq<Authority>, src: Authority, data: PlainData, id: MessageId): (r: seq<Send>)
    ensures |r| == |clients|
    ensures forall i | 0 <= i < |r| :: r[i] == PostRequest(src, clients[i], data, id)
  {
    if clients == [] then []
    else PostToEach(clients[..|clients| - 1], src, data, id) + [PostRequest(src, clients[|clients| - 1], data, id)]
  }

  /** `handle_post` for `PutMessage`: a message reaching the recipient's
      manager is forwarded unchanged to every registered client, once each,
      in their order; a message for anyone else, or for a manager with no
      account, goes nowhere. */
  function HandlePostedMessage(cfg: Config, s: ManagerState, request: RequestMessage, message: MpidMessage): (o: Outcome)
    requires request.content.Post?
    ensures o.state == s && o.result.Ok?
    ensures request.dst.Name() in s.accounts && message.recipient == request.dst.Name() ==>
      var clients := s.accounts[request.dst.Name()].clients;
      |o.sends| == |clients| &&
      forall i | 0 <= i < |clients| ::
        o.sends[i] == PostRequest(request.dst, clients[i], request.content.data, request.content.id)
    ensures request.dst.Name() !in s.accounts || message.recipient != request.dst.Name() ==> o.sends == []
  {
    var owner := request.dst.Name();
    if owner in s.accounts && message.recipient == owner then
      Outcome(s, PostToEach(s.accounts[owner].clients, request.dst, request.content.data, request.content.id), Ok(Unit))
    else
      Outcome(s, [], Ok(Unit))
  }

  /** The names among `names` that are in `keys`, in their order and with
      their repeats, as an iterator's `filter` keeps them. */
  function Kept(names: seq<XorName>, keys: set<XorName>): (r: seq<XorName>)
    ensures forall n :: n in r <==> n in names && n in keys
    ensures forall n :: multiset(r)[n] == if n in keys then multiset(names)[n] else 0
    ensures |r| <= |names|
  {
    if names == [] then []
    else
      var last := names[|names| - 1];
      assert names == names[..|names| - 1] + [last];
      Kept(names[..|names| - 1], keys) + if last in keys then [last] else []
  }

  /** Every stored message named in `names` decodes. */
  predicate AllDecode(cfg: Config, outboxStore: map<XorName, Bytes>, names: seq<XorName>)
  {
    forall i | 0 <= i < |names| && names[i] in outboxStore :: cfg.codec.decodeMessage(outboxStore[names[i]]).Some?
  }

  /** `headers` are the headers of the stored messages `stored`, in order. */
  predicate HeadersOf(cfg: Config, outboxStore: map<XorName, Bytes>, stored: seq<XorName>, headers: seq<MpidHeader>)
  {
    |headers| == |stored| &&
    forall i | 0 <= i < |stored| ::
      stored[i] in outboxStore && cfg.codec.decodeMessage(outboxStore[stored[i]]).Some? &&
      headers[i] == cfg.codec.decodeMessage(outboxStore[stored[i]]).value.header
  }

  /** The headers of the stored messages named in `names`, in that order:
      names with no stored message are skipped, and a stored message that
      does not decode is an error (the `try!`). */
  function CollectHeaders(cfg: Config, outboxStore: map<XorName, Bytes>, names: seq<XorName>): (r: Result<seq<MpidHeader>, InternalError>)
    ensures r.Ok? <==> AllDecode(cfg, outboxStore, names)
    ensures r.Err? ==> r.error == Serialisation
  {
    if names == [] then
      Ok([])
    else
      var prefix := names[..|names| - 1];
      var before := CollectHeaders(cfg, outboxStore, prefix);
      var name := names[|names| - 1];
      assert forall i | 0 <= i < |prefix| :: prefix[i] == names[i];
      if before.Err? || name !in outboxStore then
        before
      else
        match cfg.codec.decodeMessage(outboxStore[name])
        case None => Err(Serialisation)
        case Some(message) => Ok(before.value + [message.header])
  }

  /** The reply `handle_post` builds for OutboxHas and GetOutboxHeaders: a
      single post request back to the requester, named after the account,
      carrying the headers of the stored messages named; nothing when one
      of them does not decode. */
  function HeadersReply(cfg: Config, s: ManagerState, request: RequestMessage, names: seq<XorName>,
                        wrap: seq<MpidHeader> -> MpidMessageWrapper): (o: Outcome)
    requires request.content.Post?
    ensures o.state == s && |o.sends| <= 1
    ensures o.result.Ok? <==> AllDecode(cfg, s.outboxStore, names)
    ensures o.result.Err? ==> o.sends == [] && o.result == Err(Serialisation)
  {
    match CollectHeaders(cfg, s.outboxStore, names)
    case Err(e) => Outcome(s, [], Err(e))
    case Ok(headers) =>
      var reply := PlainData(request.dst.Name(), cfg.codec.encodeWrapper(wrap(headers)));
      Outcome(s, [PostRequest(request.dst, request.src, reply, request.content.id)], Ok(Unit))
  }

  /** Whether the request comes from a client registered with the account
      its destination manages. */
  predicate FromRegisteredClient(s: ManagerState, request: RequestMessage)
  {
    request.dst.Name() in s.accounts && request.src in s.accounts[request.dst.Name()].clients
  }

  /** `handle_post` for `OutboxHas`: only a registered client is answered,
      with the headers of those asked-for names the outbox holds. */
  function HandleOutboxHas(cfg: Config, s: ManagerState, request: RequestMessage, names: seq<XorName>): (o: Outcome)
    requires request.content.Post?
    ensures o.state == s
    ensures !FromRegisteredClient(s, request) ==> o == Outcome(s, [], Ok(Unit))
  {
    if FromRegisteredClient(s, request) then
      var account := s.accounts[request.dst.Name()];
      HeadersReply(cfg, s, request, Kept(names, account.outbox.entries.Keys), found => OutboxHasResponse(found))
    else
      Outcome(s, [], Ok(Unit))
  }

  /** `handle_post` for `GetOutboxHeaders`: only a registered client is
      answered, with the headers of every stored message; `order` is the
      order the outbox's `HashMap` yields its names in. */
  function HandleGetOutboxHeaders(cfg: Config, s: ManagerState, request: RequestMessage, order: seq<XorName>): (o: Outcome)
    requires request.content.Post?
    ensures o.state == s
    ensures !FromRegisteredClient(s, request) ==> o == Outcome(s, [], Ok(Unit))
  {
    if FromRegisteredClient(s, request) then
      HeadersReply(cfg, s, request, order, found => GetOutboxHeadersResponse(found))
    else
      Outcome(s, [], Ok(Unit))
  }

  /** The requests `handle_post` handles without panicking: a Post whose
      data, if it decodes at all, holds Online, GetMessage, PutMessage,
      OutboxHas or GetOutboxHeaders. Any other wrapper kind reaches the
      source's `unreachable!` and is excluded. */
  predicate PostDemuxed(cfg: Config, request: RequestMessage)
  {
    request.content.Post? &&
    (Decoded(cfg, request).Some? ==>
      var w := Decoded(cfg, request).value;
      w.Online? || w.GetMessage? || w.PutMessage? || w.OutboxHas? || w.GetOutboxHeaders?)
  }

  /** `MpidManager::handle_post`; `order` is the order in which the `HashMap`
      of the mailbox being walked (the inbox for Online, the outbox for
      GetOutboxHeaders) yields its names. */
  function HandlePost(cfg: Config, s: ManagerState, request: RequestMessage, order: seq<XorName>): (o: Outcome)
    requires s.Valid() && PostDemuxed(cfg, request)
    ensures o.state.Valid()
    ensures o.state.inboxStore == s.inboxStore && o.state.outboxStore == s.outboxStore
  {
    match Decoded(cfg, request)
    case None => Outcome(s, [], Err(Serialisation))
    case Some(wrapper) =>
      if wrapper.Online? then HandleOnline(cfg, s, request, order)
      else if wrapper.GetMessage? then HandleGetMessage(cfg, s, request, wrapper.wanted)
      else if wrapper.PutMessage? then HandlePostedMessage(cfg, s, request, wrapper.message)
      else if wrapper.OutboxHas? then HandleOutboxHas(cfg, s, request, wrapper.names)
      else HandleGetOutboxHeaders(cfg, s, request, order)
  }

  /** The unchecked subtraction in `MailBox::remove` does not underflow when
      `name` is removed from `b` with the size of its stored chunk. */
  predicate RemovalFits(b: MailBoxState, store: map<XorName, Bytes>, name: XorName)
  {
    name in b.entries && name in store ==> SizeOf(store[name]) <= b.usedSpace
  }

  /** The requests `handle_delete` handles without panicking (a Delete
      whose data, if it decodes at all, holds DeleteMessage or DeleteHeader;
      any other wrapper kind reaches the source's `unreachable!` and is
      excluded), and for which the removal it may make does not underflow
      the mailbox. */
  predicate DeleteDemuxed(cfg: Config, s: ManagerState, request: RequestMessage)
  {
    request.content.Delete? &&
    (Decoded(cfg, request).Some? ==>
      var w := Decoded(cfg, request).value;
      (w.DeleteMessage? || w.DeleteHeader?) &&
      (request.dst.Name() in s.accounts ==>
        var account := s.accounts[request.dst.Name()];
        if w.DeleteMessage? then RemovalFits(account.outbox, s.outboxStore, w.messageName)
        else RemovalFits(account.inbox, s.inboxStore, w.headerName)))
  }

  /** Whether a DeleteMessage for `name` may go ahead: the requester is a
      registered client of the account, or else the stored message must
      decode (`None` when it does not) and name the requester as recipient. */
  function DeletePermitted(cfg: Config, account: AccountState, request: RequestMessage, stored: Bytes): (r: Option<bool>)
    ensures r == Some(true) <==>
      request.src in account.clients ||
      (cfg.codec.decodeMessage(stored).Some? && cfg.codec.decodeMessage(stored).value.recipient == request.src.Name())
    ensures r.None? <==> request.src !in account.clients && cfg.codec.decodeMessage(stored).None?
  {
    if request.src in account.clients then Some(true)
    else
      match cfg.codec.decodeMessage(stored)
      case None => None
      case Some(message) => Some(message.recipient == request.src.Name())
  }

  /** `handle_delete` for `DeleteMessage`. */
  function HandleDeleteMessage(cfg: Config, s: ManagerState, request: RequestMessage, name: XorName): (o: Outcome)
    requires s.Valid() && request.content.Delete?
    requires request.dst.Name() in s.accounts ==> RemovalFits(s.accounts[request.dst.Name()].outbox, s.outboxStore, name)
    ensures o.state.Valid()
    ensures o.state.inboxStore == s.inboxStore
    ensures o.state.outboxStore == s.outboxStore || o.state.outboxStore == s.outboxStore - {name}
    ensures o.state.accounts.Keys == s.accounts.Keys
    ensures request.dst.Name() !in s.accounts ==> o == Outcome(s, [], Ok(Unit))
    ensures request.dst.Name() in s.accounts && name !in s.outboxStore ==>
      o == Outcome(s, [DeleteFailure(request.dst, request.src, request, NoIndicator, request.content.id)], Ok(Unit))
    ensures request.dst.Name() in s.accounts && name in s.outboxStore ==>
      var permitted := DeletePermitted(cfg, s.accounts[request.dst.Name()], request, s.outboxStore[name]);
      (permitted.None? ==> o == Outcome(s, [], Err(Serialisation))) &&
      (permitted == Some(false) ==> o == Outcome(s, [], Ok(Unit)))
    ensures request.dst.Name() in s.accounts && name in s.outboxStore &&
            DeletePermitted(cfg, s.accounts[request.dst.Name()], request, s.outboxStore[name]) == Some(true) ==>
      var owner := request.dst.Name();
      var before := s.accounts[owner].outbox;
      var after := o.state.accounts[owner];
      o.result == Ok(Unit) && o.sends == [] && o.state.outboxStore == s.outboxStore - {name} &&
      after.clients == s.accounts[owner].clients && after.inbox == s.accounts[owner].inbox &&
      after.outbox == MailBoxRemove(before, SizeOf(s.outboxStore[name]), name).0 &&
      after.outbox.entries.Keys == before.entries.Keys - {name} &&
      (name in before.entries ==>
        after.outbox.spaceAvailable as int == before.spaceAvailable as int + SizeOf(s.outboxStore[name]) as int) &&
      (forall n | n in s.accounts && n != owner :: o.state.accounts[n] == s.accounts[n])
  {
    var owner := request.dst.Name();
    if owner !in s.accounts then
      Outcome(s, [], Ok(Unit))
    else if name !in s.outboxStore then
      Outcome(s, [DeleteFailure(request.dst, request.src, request, NoIndicator, request.content.id)], Ok(Unit))
    else
      var account := s.accounts[owner];
      var stored := s.outboxStore[name];
      match DeletePermitted(cfg, account, request, stored)
      case None => Outcome(s, [], Err(Serialisation))
      case Some(permitted) =>
        if !permitted then
          Outcome(s, [], Ok(Unit))
        else
          var outbox := MailBoxRemove(account.outbox, SizeOf(stored), name).0;
          Outcome(ManagerState(s.accounts[owner := account.(outbox := outbox)], s.inboxStore, s.outboxStore - {name}),
                  [], Ok(Unit))
  }

  /** `handle_delete` for `DeleteHeader`: only a registered client may delete. */
  function HandleDeleteHeader(cfg: Config, s: ManagerState, request: RequestMessage, name: XorName): (o: Outcome)
    requires s.Valid() && request.content.Delete?
    requires request.dst.Name() in s.accounts ==> RemovalFits(s.accounts[request.dst.Name()].inbox, s.inboxStore, name)
    ensures o.state.Valid() && o.result.Ok?
    ensures o.state.outboxStore == s.outboxStore
    ensures o.state.inboxStore == s.inboxStore || o.state.inboxStore == s.inboxStore - {name}
    ensures o.state.accounts.Keys == s.accounts.Keys
    ensures !FromRegisteredClient(s, request) ==> o == Outcome(s, [], Ok(Unit))
    ensures FromRegisteredClient(s, request) && name !in s.inboxStore ==>
      o == Outcome(s, [DeleteFailure(request.dst, request.src, request, NoIndicator, request.content.id)], Ok(Unit))
    ensures FromRegisteredClient(s, request) && name in s.inboxStore ==>
      var owner := request.dst.Name();
      var before := s.accounts[owner].inbox;
      var after := o.state.accounts[owner];
      o.sends == [] && o.state.inboxStore == s.inboxStore - {name} &&
      after.clients == s.accounts[owner].clients && after.outbox == s.accounts[owner].outbox &&
      after.inbox == MailBoxRemove(before, SizeOf(s.inboxStore[name]), name).0 &&
      after.inbox.entries.Keys == before.entries.Keys - {name} &&
      (name in before.entries ==>
        after.inbox.spaceAvailable as int == before.spaceAvailable as int + SizeOf(s.inboxStore[name]) as int) &&
      (forall n | n in s.accounts && n != owner :: o.state.accounts[n] == s.accounts[n])
  {
    var owner := request.dst.Name();
    if !FromRegisteredClient(s, request) then
      Outcome(s, [], Ok(Unit))
    else if name !in s.inboxStore then
      Outcome(s, [DeleteFailure(request.dst, request.src, request, NoIndicator, request.content.id)], Ok(Unit))
    else
      var account := s.accounts[owner];
      var inbox := MailBoxRemove(account.inbox, SizeOf(s.inboxStore[name]), name).0;
      Outcome(ManagerState(s.accounts[owner := account.(inbox := inbox)], s.inboxStore - {name}, s.outboxStore),
              [], Ok(Unit))
  }

  /** `MpidManager::handle_delete`. */
  function HandleDelete(cfg: Config, s: ManagerState, request: RequestMessage): (o: Outcome)
    requires s.Valid() && DeleteDemuxed(cfg, s, request)
    ensures o.state.Valid()
    ensures |o.sends| <= 1
    ensures o.state.accounts.Keys == s.accounts.Keys
    ensures Decoded(cfg, request).None? ==> o == Outcome(s, [], Err(Serialisation))
    ensures Decoded(cfg, request).Some? && Decoded(cfg, request).value.DeleteMessage? ==>
      o == HandleDeleteMessage(cfg, s, request, Decoded(cfg, request).value.messageName)
    ensures Decoded(cfg, request).Some? && Decoded(cfg, request).value.DeleteHeader? ==>
      o == HandleDeleteHeader(cfg, s, request, Decoded(cfg, request).value.headerName)
  {
    match Decoded(cfg, request)
    case None => Outcome(s, [], Err(Serialisation))
    case Some(wrapper) =>
      if wrapper.DeleteMessage? then HandleDeleteMessage(cfg, s, request, wrapper.messageName)
      else HandleDeleteHeader(cfg, s, request, wrapper.headerName)
  }
}
