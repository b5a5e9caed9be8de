/** The `Map` data type as the elders' metadata store keeps it, the read and
    write requests on it, the responses and errors, and what each write does
    to the chunk store, as functions of the store's contents. */
module MapData {
  import opened Wrappers
  import opened Primitives

  /** A client's key (`safe_nd::PublicKey`), compared by value. */
  type PublicKey = Bytes

  datatype MessageId = MessageId(id: XorName)

  /** Where a response goes (`safe_nd::Address`). */
  datatype Address = ClientAddress(name: XorName) | NodeAddress(name: XorName) | SectionAddress(name: XorName)

  /** `MsgSender`: the key that signed the request (`id()`) and the address
      to answer (`address()`). */
  datatype MsgSender = MsgSender(id: PublicKey, address: Address)

  datatype MapAddress = SeqAddress(name: XorName, tag: u64) | UnseqAddress(name: XorName, tag: u64)

  datatype MapAction = Read | Insert | Update | Delete | ManagePermissions

  /** `MapPermissionSet`: each listed action is allowed or denied. */
  type PermissionSet = map<MapAction, bool>

  /** An entry's value; a Seq map keeps a version with each value. */
  datatype MapValue = SeqValue(data: Bytes, version: u64) | UnseqValue(data: Bytes)

  /** A Seq or Unseq `Map` (the address says which); `entries` is its
      `BTreeMap` of entries, in key order. */
  datatype Map = Map(
    address: MapAddress,
    entries: seq<(Bytes, MapValue)>,
    permissions: map<PublicKey, PermissionSet>,
    version: u64,
    owner: PublicKey)

  datatype NdError =
    | AccessDenied
    | NoSuchData
    | DataExists
    | NoSuchEntry
    | NoSuchKey
    | InvalidOwners
    | InvalidSuccessor(current: u64)
    | InvalidEntryActions
    | InvalidPermissions

  type NdResult<T> = Result<T, NdError>

  datatype EntryAction = InsertEntry(value: MapValue) | UpdateEntry(value: MapValue) | DeleteEntry(version: Option<u64>)

  type EntryActions = map<Bytes, EntryAction>

  datatype MapRead =
    | Get(address: MapAddress)
    | GetValue(address: MapAddress, key: Bytes)
    | GetShell(address: MapAddress)
    | GetVersion(address: MapAddress)
    | ListEntries(address: MapAddress)
    | ListKeys(address: MapAddress)
    | ListValues(address: MapAddress)
    | ListPermissions(address: MapAddress)
    | ListUserPermissions(address: MapAddress, user: PublicKey)

  datatype MapWrite =
    | New(data: Map)
    | Delete(target: MapAddress)
    | SetUserPermissions(target: MapAddress, user: PublicKey, permissions: PermissionSet, version: u64)
    | DelUserPermissions(target: MapAddress, user: PublicKey, version: u64)
    | Edit(target: MapAddress, changes: EntryActions)

  datatype QueryResponse =
    | GetMap(whole: NdResult<Map>)
    | GetMapShell(shell: NdResult<Map>)
    | GetMapVersion(version: NdResult<u64>)
    | GetMapValue(value: NdResult<MapValue>)
    | ListMapKeys(keys: NdResult<set<Bytes>>)
    | ListMapValues(values: NdResult<seq<MapValue>>)
    | ListMapEntries(entries: NdResult<seq<(Bytes, MapValue)>>)
    | ListMapPermissions(permissions: NdResult<map<PublicKey, PermissionSet>>)
    | ListMapUserPermissions(userPermissions: NdResult<PermissionSet>)

  datatype CmdError = Data(error: NdError)

  /** What the elder's message wrapping hands on for sending: a query
      response to the querying client, or a command error to the origin of
      a write. */
  datatype MessagingDuty =
    | SendQueryResponse(response: QueryResponse, correlationId: MessageId, queryOrigin: Address)
    | SendCmdError(error: CmdError, correlationId: MessageId, cmdOrigin: Address)

  /** The `Map` methods of `safe_nd` whose rules the store only consults:
      permission and ownership checks and the three in-place mutations, each
      returning the mutated map or the error it raised. */
  datatype MapRules = MapRules(
    checkPermissions: (Map, MapAction, PublicKey) -> NdResult<Unit>,
    checkIsOwner: (Map, PublicKey) -> NdResult<Unit>,
    setUserPermissions: (Map, PublicKey, PermissionSet, u64) -> NdResult<Map>,
    delUserPermissions: (Map, PublicKey, u64) -> NdResult<Map>,
    mutateEntries: (Map, EntryActions, PublicKey) -> NdResult<Map>)

  /** The three `Map` mutations never move a map to another address. */
  ghost predicate KeepsAddresses(rules: MapRules)
  {
    (forall m, user, permissions, version | rules.setUserPermissions(m, user, permissions, version).Ok? ::
       rules.setUserPermissions(m, user, permissions, version).value.address == m.address) &&
    (forall m, user, version | rules.delUserPermissions(m, user, version).Ok? ::
       rules.delUserPermissions(m, user, version).value.address == m.address) &&
    (forall m, actions, requester | rules.mutateEntries(m, actions, requester).Ok? ::
       rules.mutateEntries(m, actions, requester).value.address == m.address)
  }

  /** The keys of a map's entries (`keys()`). */
  function KeysOf(entries: seq<(Bytes, MapValue)>): set<Bytes>
  {
    set i | 0 <= i < |entries| :: entries[i].0
  }

  /** The values of a map's entries in key order (`values()`). */
  function ValuesOf(entries: seq<(Bytes, MapValue)>): (values: seq<MapValue>)
    ensures |values| == |entries|
    ensures forall i | 0 <= i < |entries| :: values[i] == entries[i].1
  {
    seq(|entries|, i requires 0 <= i < |entries| => entries[i].1)
  }

  /** The value stored under `key` (`BTreeMap::get`): there is one exactly
      when `key` is one of the map's keys. */
  function Lookup(entries: seq<(Bytes, MapValue)>, key: Bytes): (v: Option<MapValue>)
    ensures v.Some? <==> key in KeysOf(entries)
    ensures v.Some? ==> (key, v.value) in entries
  {
    if entries == [] then None
    else if entries[0].0 == key then
      assert entries[0].0 in KeysOf(entries);
      Some(entries[0].1)
    else
      assert forall i | 1 <= i < |entries| :: entries[i] == entries[1..][i - 1];
      assert KeysOf(entries) == {entries[0].0} + KeysOf(entries[1..]);
      Lookup(entries[1..], key)
  }

  /** `user_permissions`: the user's permission set, or NoSuchKey. */
  function UserPermissions(m: Map, user: PublicKey): (r: NdResult<PermissionSet>)
    ensures r.Ok? <==> user in m.permissions
    ensures r.Ok? ==> r.value == m.permissions[user]
    ensures r.Err? ==> r.error == NoSuchKey
  {
    if user in m.permissions then Ok(m.permissions[user]) else Err(NoSuchKey)
  }

  /** `shell()`: the map without its entries. */
  function Shell(m: Map): (s: Map)
    ensures s.entries == []
    ensures s.address == m.address && s.permissions == m.permissions && s.version == m.version && s.owner == m.owner
  {
    m.(entries := [])
  }

  /** The error a query response carries, if any. */
  function Failure(response: QueryResponse): Option<NdError>
  {
    match response
    case GetMap(r) => if r.Err? then Some(r.error) else None
    case GetMapShell(r) => if r.Err? then Some(r.error) else None
    case GetMapVersion(r) => if r.Err? then Some(r.error) else None
    case GetMapValue(r) => if r.Err? then Some(r.error) else None
    case ListMapKeys(r) => if r.Err? then Some(r.error) else None
    case ListMapValues(r) => if r.Err? then Some(r.error) else None
    case ListMapEntries(r) => if r.Err? then Some(r.error) else None
    case ListMapPermissions(r) => if r.Err? then Some(r.error) else None
    case ListMapUserPermissions(r) => if r.Err? then Some(r.error) else None
  }

  /** The chunk store's contents: each stored map under its own address. */
  type Store = map<MapAddress, Map>

  ghost predicate Keyed(store: Store)
  {
    forall a | a in store :: store[a].address == a
  }

  /** The state change and result of one write. */
  datatype WriteOutcome = WriteOutcome(store: Store, result: NdResult<Unit>)

  /** `create`: a map is stored only at a free address. */
  function CreateIn(store: Store, data: Map): (o: WriteOutcome)
    ensures o.result.Ok? <==> data.address !in store
    ensures o.result.Err? ==> o.result.error == DataExists && o.store == store
    ensures o.result.Ok? ==> o.store.Keys == store.Keys + {data.address} && o.store[data.address] == data
    ensures forall a | a in store :: a in o.store && o.store[a] == store[a]
    ensures Keyed(store) ==> Keyed(o.store)
  {
    if data.address in store then WriteOutcome(store, Err(DataExists))
    else WriteOutcome(store[data.address := data], Ok(Unit))
  }

  /** `delete`: only the owner of a stored map may delete it. */
  function DeleteFrom(rules: MapRules, store: Store, address: MapAddress, requester: PublicKey): (o: WriteOutcome)
    ensures address !in store ==> o == WriteOutcome(store, Err(NoSuchData))
    ensures o.result.Ok? <==> address in store && rules.checkIsOwner(store[address], requester).Ok?
    ensures address in store && rules.checkIsOwner(store[address], requester).Err? ==>
      o == WriteOutcome(store, Err(rules.checkIsOwner(store[address], requester).error))
    ensures o.result.Ok? ==> o.store == store - {address}
    ensures Keyed(store) ==> Keyed(o.store)
  {
    if address !in store then WriteOutcome(store, Err(NoSuchData))
    else
      match rules.checkIsOwner(store[address], requester)
      case Err(e) => WriteOutcome(store, Err(e))
      case Ok(_) => WriteOutcome(store - {address}, Ok(Unit))
  }

  /** The closure each editing write hands to `edit_chunk`. */
  datatype Mutation =
    | SetPermissions(user: PublicKey, permissions: PermissionSet, version: u64)
    | DelPermissions(user: PublicKey, version: u64)
    | EditEntries(actions: EntryActions)

  /** Runs a mutation on a stored map; the two permission changes first
      require ManagePermissions for the requester. */
  function Mutate(rules: MapRules, mutation: Mutation, requester: PublicKey, data: Map): (r: NdResult<Map>)
    ensures !mutation.EditEntries? && rules.checkPermissions(data, ManagePermissions, requester).Err? ==>
      r == Err(rules.checkPermissions(data, ManagePermissions, requester).error)
    ensures mutation.SetPermissions? && rules.checkPermissions(data, ManagePermissions, requester).Ok? ==>
      r == rules.setUserPermissions(data, mutation.user, mutation.permissions, mutation.version)
    ensures mutation.DelPermissions? && rules.checkPermissions(data, ManagePermissions, requester).Ok? ==>
      r == rules.delUserPermissions(data, mutation.user, mutation.version)
    ensures mutation.EditEntries? ==> r == rules.mutateEntries(data, mutation.actions, requester)
    ensures KeepsAddresses(rules) && r.Ok? ==> r.value.address == data.address
  {
    match mutation
    case SetPermissions(user, permissions, version) =>
      if rules.checkPermissions(data, ManagePermissions, requester).Err? then
        Err(rules.checkPermissions(data, ManagePermissions, requester).error)
      else rules.setUserPermissions(data, user, permissions, version)
    case DelPermissions(user, version) =>
      if rules.checkPermissions(data, ManagePermissions, requester).Err? then
        Err(rules.checkPermissions(data, ManagePermissions, requester).error)
      else rules.delUserPermissions(data, user, version)
    case EditEntries(actions) =>
      rules.mutateEntries(data, actions, requester)
  }

  /** `edit_chunk`: get the stored map, mutate it and put the result back. */
  function EditIn(rules: MapRules, store: Store, address: MapAddress, requester: PublicKey, mutation: Mutation): (o: WriteOutcome)
    ensures address !in store ==> o == WriteOutcome(store, Err(NoSuchData))
    ensures o.result.Ok? <==> address in store && Mutate(rules, mutation, requester, store[address]).Ok?
    ensures o.result.Err? ==> o.store == store
    ensures o.result.Ok? ==>
      var m := Mutate(rules, mutation, requester, store[address]).value;
      o.store == store[m.address := m]
    ensures Keyed(store) ==> Keyed(o.store)
  {
    if address !in store then WriteOutcome(store, Err(NoSuchData))
    else
      match Mutate(rules, mutation, requester, store[address])
      case Err(e) => WriteOutcome(store, Err(e))
      case Ok(m) => WriteOutcome(store[m.address := m], Ok(Unit))
  }

  /** `write`: the one store operation each write request names. */
  function WriteTo(rules: MapRules, store: Store, write: MapWrite, origin: MsgSender): (o: WriteOutcome)
    ensures o.result.Err? ==> o.store == store
    ensures Keyed(store) ==> Keyed(o.store)
  {
    match write
    case New(data) => CreateIn(store, data)
    case Delete(address) => DeleteFrom(rules, store, address, origin.id)
    case SetUserPermissions(address, user, permissions, version) =>
      EditIn(rules, store, address, origin.id, SetPermissions(user, permissions, version))
    case DelUserPermissions(address, user, version) =>
      EditIn(rules, store, address, origin.id, DelPermissions(user, version))
    case Edit(address, changes) =>
      EditIn(rules, store, address, origin.id, EditEntries(changes))
  }

  /** Creating a map and then deleting it as its owner leaves the store as
      it was. */
  lemma CreateThenDeleteRestores(rules: MapRules, store: Store, data: Map, requester: PublicKey)
    requires data.address !in store && rules.checkIsOwner(data, requester).Ok?
    ensures DeleteFrom(rules, CreateIn(store, data).store, data.address, requester) == WriteOutcome(store, Ok(Unit))
  {
    assert CreateIn(store, data).store - {data.address} == store;
  }

  /** A second create at an occupied address fails and keeps the first map. */
  lemma SecondCreateRefused(store: Store, data: Map, other: Map)
    requires other.address == data.address
    ensures var first := CreateIn(store, data).store;
      CreateIn(first, other) == WriteOutcome(first, Err(DataExists)) && first[data.address] == (if data.address in store then store[data.address] else data)
  {
  }

  /** With mutations that keep a map's address, an edit of a keyed store
      touches no other address. */
  lemma EditTouchesOnlyItsAddress(rules: MapRules, store: Store, address: MapAddress, requester: PublicKey, mutation: Mutation)
    requires KeepsAddresses(rules) && Keyed(store)
    ensures var o := EditIn(rules, store, address, requester, mutation);
      o.store.Keys == store.Keys &&
      forall a | a in store && a != address :: o.store[a] == store[a]
  {
    var o := EditIn(rules, store, address, requester, mutation);
    if o.result.Ok? {
      var m := Mutate(rules, mutation, requester, store[address]).value;
      assert m.address == address;
    }
  }

  /** A permission change succeeds only on a stored map whose permissions let
      the requester manage them. */
  lemma PermissionChangeNeedsManagePermissions(rules: MapRules, store: Store, write: MapWrite, origin: MsgSender)
    requires write.SetUserPermissions? || write.DelUserPermissions?
    ensures WriteTo(rules, store, write, origin).result.Ok? ==>
      write.target in store && rules.checkPermissions(store[write.target], ManagePermissions, origin.id).Ok?
  {
  }

  /** Only `New` adds an address to the store. */
  lemma OnlyNewAddsAddresses(rules: MapRules, store: Store, write: MapWrite, origin: MsgSender)
    requires KeepsAddresses(rules) && Keyed(store) && !write.New?
    ensures WriteTo(rules, store, write, origin).store.Keys <= store.Keys
  {
    if !write.Delete? {
      var mutation :=
        if write.SetUserPermissions? then SetPermissions(write.user, write.permissions, write.version)
        else if write.DelUserPermissions? then DelPermissions(write.user, write.version)
        else EditEntries(write.changes);
      EditTouchesOnlyItsAddress(rules, store, write.target, origin.id, mutation);
    }
  }
}
