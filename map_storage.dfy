/** `MapStorage`: the elder's store of `Map` chunks. Reads answer the origin
    with a query response and never change the store; writes change the
    store as MapData's functions say and answer only with an error. */
module MapStorage {
  import opened Wrappers
  import opened Primitives
  import opened MapData

  class MapStorage {
    /** The `safe_nd` rules the stored maps follow. */
    const rules: MapRules
    /** The `MapChunkStore`: each map under its address. */
    var chunks: Store

    ghost predicate Valid()
      reads this
    {
      Keyed(chunks)
    }

    constructor (rules: MapRules)
      ensures Valid() && this.rules == rules && chunks == map[]
    {
      this.rules := rules;
      chunks := map[];
    }

    /** A map is stored at `address` and lets `origin` read it. */
    predicate Readable(address: MapAddress, origin: MsgSender)
      reads this
    {
      address in chunks && rules.checkPermissions(chunks[address], MapAction.Read, origin.id).Ok?
    }

    /** `d` is a query response to `origin` correlated with `msgId`, and it
        reports NoSuchData for a missing map and the permission error for a
        map `origin` may not read. */
    ghost predicate Answers(d: Option<MessagingDuty>, address: MapAddress, msgId: MessageId, origin: MsgSender)
      reads this
    {
      d.Some? && d.value.SendQueryResponse? &&
      d.value.correlationId == msgId && d.value.queryOrigin == origin.address &&
      (address !in chunks ==> Failure(d.value.response) == Some(NoSuchData)) &&
      (address in chunks && rules.checkPermissions(chunks[address], MapAction.Read, origin.id).Err? ==>
         Failure(d.value.response) == Some(rules.checkPermissions(chunks[address], MapAction.Read, origin.id).error))
    }

    /** `get_chunk`: the stored map if `origin` may perform `action` on it. */
    function GetChunk(address: MapAddress, origin: MsgSender, action: MapAction): (r: Option<NdResult<Map>>)
      reads this
      ensures r.Some?
      ensures address !in chunks ==> r.value == Err(NoSuchData)
      ensures r.value.Ok? <==> address in chunks && rules.checkPermissions(chunks[address], action, origin.id).Ok?
      ensures r.value.Ok? ==> r.value.value == chunks[address]
      ensures address in chunks && rules.checkPermissions(chunks[address], action, origin.id).Err? ==>
        r.value == Err(rules.checkPermissions(chunks[address], action, origin.id).error)
    {
      if address !in chunks then Some(Err(NoSuchData))
      else
        match rules.checkPermissions(chunks[address], action, origin.id)
        case Err(e) => Some(Err(e))
        case Ok(_) => Some(Ok(chunks[address]))
    }

    /** The message wrapping's `send` of a query response. */
    static function Respond(response: QueryResponse, msgId: MessageId, origin: MsgSender): (d: Option<MessagingDuty>)
      ensures d.Some? && d.value.SendQueryResponse? && d.value.response == response
      ensures d.value.correlationId == msgId && d.value.queryOrigin == origin.address
    {
      Some(SendQueryResponse(response, msgId, origin.address))
    }

    /** `get`: the whole map. */
    function Get(address: MapAddress, msgId: MessageId, origin: MsgSender): (d: Option<MessagingDuty>)
      reads this
      ensures Answers(d, address, msgId, origin) && d.value.response.GetMap?
      ensures Readable(address, origin) ==> d.value.response.whole == Ok(chunks[address])
    {
      Respond(GetMap(GetChunk(address, origin, MapAction.Read).value), msgId, origin)
    }

    /** `get_shell`: the map without its entries. */
    function GetShell(address: MapAddress, msgId: MessageId, origin: MsgSender): (d: Option<MessagingDuty>)
      reads this
      ensures Answers(d, address, msgId, origin) && d.value.response.GetMapShell?
      ensures Readable(address, origin) ==> d.value.response.shell == Ok(Shell(chunks[address]))
    {
      var result := GetChunk(address, origin, MapAction.Read).value;
      Respond(GetMapShell(if result.Ok? then Ok(Shell(result.value)) else Err(result.error)), msgId, origin)
    }

    /** `get_version`: the map's version. */
    function GetVersion(address: MapAddress, msgId: MessageId, origin: MsgSender): (d: Option<MessagingDuty>)
      reads this
      ensures Answers(d, address, msgId, origin) && d.value.response.GetMapVersion?
      ensures Readable(address, origin) ==> d.value.response.version == Ok(chunks[address].version)
    {
      var result := GetChunk(address, origin, MapAction.Read).value;
      Respond(GetMapVersion(if result.Ok? then Ok(result.value.version) else Err(result.error)), msgId, origin)
    }

    /** `get_value`: the value under `key`, or NoSuchEntry; Seq and Unseq
        maps are looked up alike. */
    function GetValue(address: MapAddress, key: Bytes, msgId: MessageId, origin: MsgSender): (d: Option<MessagingDuty>)
      reads this
      ensures Answers(d, address, msgId, origin) && d.value.response.GetMapValue?
      ensures Readable(address, origin) ==>
        (d.value.response.value.Ok? <==> key in KeysOf(chunks[address].entries))
      ensures Readable(address, origin) && key !in KeysOf(chunks[address].entries) ==>
        d.value.response.value == Err(NoSuchEntry)
      ensures d.value.response.value.Ok? ==> (key, d.value.response.value.value) in chunks[address].entries
    {
      var result := GetChunk(address, origin, MapAction.Read).value;
      var value :=
        if result.Err? then Err(result.error)
        else
          match Lookup(result.value.entries, key)
          case None => Err(NoSuchEntry)
          case Some(v) => Ok(v);
      Respond(GetMapValue(value), msgId, origin)
    }

    /** `list_keys`: the set of keys. */
    function ListKeys(address: MapAddress, msgId: MessageId, origin: MsgSender): (d: Option<MessagingDuty>)
      reads this
      ensures Answers(d, address, msgId, origin) && d.value.response.ListMapKeys?
      ensures Readable(address, origin) ==> d.value.response.keys == Ok(KeysOf(chunks[address].entries))
    {
      var result := GetChunk(address, origin, MapAction.Read).value;
      Respond(ListMapKeys(if result.Ok? then Ok(KeysOf(result.value.entries)) else Err(result.error)), msgId, origin)
    }

    /** `list_values`: the values in key order. */
    function ListValues(address: MapAddress, msgId: MessageId, origin: MsgSender): (d: Option<MessagingDuty>)
      reads this
      ensures Answers(d, address, msgId, origin) && d.value.response.ListMapValues?
      ensures Readable(address, origin) ==> d.value.response.values == Ok(ValuesOf(chunks[address].entries))
    {
      var result := GetChunk(address, origin, MapAction.Read).value;
      Respond(ListMapValues(if result.Ok? then Ok(ValuesOf(result.value.entries)) else Err(result.error)), msgId, origin)
    }

    /** `list_entries`: the entries in key order. */
    function ListEntries(address: MapAddress, msgId: MessageId, origin: MsgSender): (d: Option<MessagingDuty>)
      reads this
      ensures Answers(d, address, msgId, origin) && d.value.response.ListMapEntries?
      ensures Readable(address, origin) ==> d.value.response.entries == Ok(chunks[address].entries)
    {
      var result := GetChunk(address, origin, MapAction.Read).value;
      Respond(ListMapEntries(if result.Ok? then Ok(result.value.entries) else Err(result.error)), msgId, origin)
    }

    /** `list_permissions`: every user's permission set. */
    function ListPermissions(address: MapAddress, msgId: MessageId, origin: MsgSender): (d: Option<MessagingDuty>)
      reads this
      ensures Answers(d, address, msgId, origin) && d.value.response.ListMapPermissions?
      ensures Readable(address, origin) ==> d.value.response.permissions == Ok(chunks[address].permissions)
    {
      var result := GetChunk(address, origin, MapAction.Read).value;
      Respond(ListMapPermissions(if result.Ok? then Ok(result.value.permissions) else Err(result.error)), msgId, origin)
    }

    /** `list_user_permissions`: one user's permission set, or NoSuchKey. */
    function ListUserPermissions(address: MapAddress, user: PublicKey, msgId: MessageId, origin: MsgSender): (d: Option<MessagingDuty>)
      reads this
      ensures Answers(d, address, msgId, origin) && d.value.response.ListMapUserPermissions?
      ensures Readable(address, origin) ==> d.value.response.userPermissions == UserPermissions(chunks[address], user)
      ensures Readable(address, origin) && user in chunks[address].permissions ==>
        d.value.response.userPermissions == Ok(chunks[address].permissions[user])
      ensures Readable(address, origin) && user !in chunks[address].permissions ==>
        d.value.response.userPermissions == Err(NoSuchKey)
      ensures d.value.response.userPermissions.Ok? ==>
        Readable(address, origin) && user in chunks[address].permissions &&
        d.value.response.userPermissions.value == chunks[address].permissions[user]
    {
      var result := GetChunk(address, origin, MapAction.Read).value;
      Respond(ListMapUserPermissions(if result.Ok? then UserPermissions(result.value, user) else Err(result.error)), msgId, origin)
    }

    /** `read`: the reader each request names. */
    function Read(read: MapRead, msgId: MessageId, origin: MsgSender): (d: Option<MessagingDuty>)
      reads this
      ensures Answers(d, read.address, msgId, origin)
      ensures read.Get? <==> d.value.response.GetMap?
      ensures read.GetValue? <==> d.value.response.GetMapValue?
      ensures read.GetShell? <==> d.value.response.GetMapShell?
      ensures read.GetVersion? <==> d.value.response.GetMapVersion?
      ensures read.ListEntries? <==> d.value.response.ListMapEntries?
      ensures read.ListKeys? <==> d.value.response.ListMapKeys?
      ensures read.ListValues? <==> d.value.response.ListMapValues?
      ensures read.ListPermissions? <==> d.value.response.ListMapPermissions?
      ensures read.ListUserPermissions? <==> d.value.response.ListMapUserPermissions?
      ensures read.Get? ==> d == Get(read.address, msgId, origin)
      ensures read.GetValue? ==> d == GetValue(read.address, read.key, msgId, origin)
      ensures read.GetShell? ==> d == GetShell(read.address, msgId, origin)
      ensures read.GetVersion? ==> d == GetVersion(read.address, msgId, origin)
      ensures read.ListEntries? ==> d == ListEntries(read.address, msgId, origin)
      ensures read.ListKeys? ==> d == ListKeys(read.address, msgId, origin)
      ensures read.ListValues? ==> d == ListValues(read.address, msgId, origin)
      ensures read.ListPermissions? ==> d == ListPermissions(read.address, msgId, origin)
      ensures read.ListUserPermissions? ==> d == ListUserPermissions(read.address, read.user, msgId, origin)
    {
      match read
      case Get(address) => Get(address, msgId, origin)
      case GetValue(address, key) => GetValue(address, key, msgId, origin)
      case GetShell(address) => GetShell(address, msgId, origin)
      case GetVersion(address) => GetVersion(address, msgId, origin)
      case ListEntries(address) => ListEntries(address, msgId, origin)
      case ListKeys(address) => ListKeys(address, msgId, origin)
      case ListValues(address) => ListValues(address, msgId, origin)
      case ListPermissions(address) => ListPermissions(address, msgId, origin)
      case ListUserPermissions(address, user) => ListUserPermissions(address, user, msgId, origin)
    }

    /** `ok_or_error`: nothing after a successful write; the error, wrapped
        as a data error, to the origin after a failed one. */
    static function OkOrError(result: NdResult<Unit>, msgId: MessageId, origin: MsgSender): (d: Option<MessagingDuty>)
      ensures d.None? <==> result.Ok?
      ensures result.Err? ==> d == Some(SendCmdError(Data(result.error), msgId, origin.address))
    {
      if result.Err? then Some(SendCmdError(Data(result.error), msgId, origin.address)) else None
    }

    /** `create`. */
    method Create(data: Map, msgId: MessageId, origin: MsgSender) returns (d: Option<MessagingDuty>)
      requires Valid()
      modifies this
      ensures Valid()
      ensures var o := CreateIn(old(chunks), data);
        chunks == o.store && d == OkOrError(o.result, msgId, origin)
    {
      var result: NdResult<Unit>;
      if data.address in chunks {
        result := Err(DataExists);
      } else {
        chunks := chunks[data.address := data];
        result := Ok(Unit);
      }
      d := OkOrError(result, msgId, origin);
    }

    /** `delete`. */
    method Delete(address: MapAddress, msgId: MessageId, origin: MsgSender) returns (d: Option<MessagingDuty>)
      requires Valid()
      modifies this
      ensures Valid()
      ensures var o := DeleteFrom(rules, old(chunks), address, origin.id);
        chunks == o.store && d == OkOrError(o.result, msgId, origin)
    {
      var result: NdResult<Unit>;
      if address !in chunks {
        result := Err(NoSuchData);
      } else {
        var owned := rules.checkIsOwner(chunks[address], origin.id);
        if owned.Err? {
          result := Err(owned.error);
        } else {
          chunks := chunks - {address};
          result := Ok(Unit);
        }
      }
      d := OkOrError(result, msgId, origin);
    }

    /** `edit_chunk`: get, mutate and put back. */
    method EditChunk(address: MapAddress, origin: MsgSender, msgId: MessageId, mutation: Mutation) returns (d: Option<MessagingDuty>)
      requires Valid()
      modifies this
      ensures Valid()
      ensures var o := EditIn(rules, old(chunks), address, origin.id, mutation);
        chunks == o.store && d == OkOrError(o.result, msgId, origin)
    {
      var result: NdResult<Unit>;
      if address !in chunks {
        result := Err(NoSuchData);
      } else {
        var mutated := Mutate(rules, mutation, origin.id, chunks[address]);
        if mutated.Err? {
          result := Err(mutated.error);
        } else {
          chunks := chunks[mutated.value.address := mutated.value];
          result := Ok(Unit);
        }
      }
      d := OkOrError(result, msgId, origin);
    }

    /** `set_user_permissions`. */
    method SetUserPermissions(address: MapAddress, user: PublicKey, permissions: PermissionSet, version: u64,
                              msgId: MessageId, origin: MsgSender) returns (d: Option<MessagingDuty>)
      requires Valid()
      modifies this
      ensures Valid()
      ensures var o := EditIn(rules, old(chunks), address, origin.id, SetPermissions(user, permissions, version));
        chunks == o.store && d == OkOrError(o.result, msgId, origin)
    {
      d := EditChunk(address, origin, msgId, SetPermissions(user, permissions, version));
    }

    /** `delete_user_permissions`. */
    method DeleteUserPermissions(address: MapAddress, user: PublicKey, version: u64,
                                 msgId: MessageId, origin: MsgSender) returns (d: Option<MessagingDuty>)
      requires Valid()
      modifies this
      ensures Valid()
      ensures var o := EditIn(rules, old(chunks), address, origin.id, DelPermissions(user, version));
        chunks == o.store && d == OkOrError(o.result, msgId, origin)
    {
      d := EditChunk(address, origin, msgId, DelPermissions(user, version));
    }

    /** `edit_entries`. */
    method EditEntries(address: MapAddress, actions: EntryActions, msgId: MessageId, origin: MsgSender)
      returns (d: Option<MessagingDuty>)
      requires Valid()
      modifies this
      ensures Valid()
      ensures var o := EditIn(rules, old(chunks), address, origin.id, Mutation.EditEntries(actions));
        chunks == o.store && d == OkOrError(o.result, msgId, origin)
    {
      d := EditChunk(address, origin, msgId, Mutation.EditEntries(actions));
    }

    /** `write`: the writer each request names. */
    method Write(write: MapWrite, msgId: MessageId, origin: MsgSender) returns (d: Option<MessagingDuty>)
      requires Valid()
      modifies this
      ensures Valid()
      ensures var o := WriteTo(rules, old(chunks), write, origin);
        chunks == o.store && d == OkOrError(o.result, msgId, origin)
    {
      match write
      case New(data) => d := Create(data, msgId, origin);
      case Delete(address) => d := Delete(address, msgId, origin);
      case SetUserPermissions(address, user, permissions, version) =>
        d := SetUserPermissions(address, user, permissions, version, msgId, origin);
      case DelUserPermissions(address, user, version) =>
        d := DeleteUserPermissions(address, user, version, msgId, origin);
      case Edit(address, changes) => d := EditEntries(address, changes, msgId, origin);
    }
  }
}
