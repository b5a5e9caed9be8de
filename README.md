# safe_vault core, modelled in Dafny

This project models four parts of the safe_vault node.

- **The MPID persona.** The `MpidManager` keeps one account per client
  manager name. Each account has registered client proxies, an inbox of
  received message headers and an outbox of sent messages. Both mailboxes
  are `MailBox`es with an allowance, a used space and a space left. The
  serialised headers and messages live in two chunk stores. The handlers
  `handle_put`, `handle_put_failure`, `handle_post` and `handle_delete`
  store, announce, fetch, list and delete messages, and answer through the
  routing node.
- **MapStorage.** The elders' store of `Map` chunks. Its readers answer a
  query with a response correlated to the request, or with the permission
  or missing-data error. Its writers create, delete, and edit the entries
  and permissions of stored maps, and report errors back to the origin.
- **KeySection.** The dispatcher of client-facing duties. It evaluates
  client messages (signature, then app authorisation, then analysis),
  turns group decisions into auth duties, and hands every `RunAs…` duty to
  its sub-component. It also keeps the transfer replica's keys up to date
  when the elders change, and builds the replica manager from what routing
  reports.
- **SectionFunds.** Pays out rewards through a transfer actor. It applies
  each event the actor yields and announces it to the network.

Layout:

- `mpid_spec.dfy` gives each MPID operation as a function of the state
  before the call.
- `mpid_accounts.dfy` and `mpid_manager.dfy` are the classes the source
  updates in place. Their methods are proved equal to those functions.
- `mpid_properties.dfy` proves what the persona promises about them.
- `map_data.dfy` holds the `Map` data and the store-level write functions.
  `map_storage.dfy` is the storage class.
- `key_section.dfy` and `section_funds.dfy` hold the other two components.
- `primitives.dfy`, `wrappers.dfy` and `mpid_types.dfy` hold the shared
  types.

Serialisation, hashing, the `safe_nd` map rules, routing and the
sub-components are inputs: records of functions, or per-call outcomes.

## Model

| member | source | states |
|---|---|---|
| MpidSpec.NewMailBox | src/personas/mpid_manager.rs:41-48 | a new mailbox has the given allowance, nothing used, everything available and no entries |
| MpidSpec.MailBoxPut | src/personas/mpid_manager.rs:51-64 | put reports success exactly when the size fits the space left and the name is new. On success the size moves from available to used. A refused put keeps the accounting. Whenever the size fits, the name is in the map with the new key. used + available = allowance is kept |
| MpidSpec.MailBoxRemove | src/personas/mpid_manager.rs:66-75 | remove reports success exactly when the name was present. It removes only that name, keeps every other entry, and gives the size back to the available space. An absent name changes nothing. The accounting invariant is kept |
| MpidSpec.PutThenRemoveRestores | src/personas/mpid_manager.rs:51-75 | removing, with the same size, an entry that put has just accepted restores the mailbox exactly |
| MpidSpec.DefaultAccount | src/personas/mpid_manager.rs:94-103 | a default account has no clients, and fresh inbox and outbox mailboxes with the configured allowances |
| MpidSpec.RegisterOnline | src/personas/mpid_manager.rs:127-138 | the client is registered afterwards exactly when it is a Client authority. Earlier clients keep their order, at most one is added, no authority is listed twice, and the mailboxes are untouched |
| MpidSpec.HandlePut | src/personas/mpid_manager.rs:171-231 | handle_put keeps every account valid. An error (an undecodable wrapper, or a name already stored) changes nothing and sends nothing. At most one message is sent. Accounts other than the destination's are unchanged |
| MpidSpec.PutFailureToEach | src/personas/mpid_manager.rs:249-256 | one put failure to each registered client, in the clients' order |
| MpidSpec.HandlePutFailure | src/personas/mpid_manager.rs:234-264 | handle_put_failure never changes the state, and fails exactly when the wrapper does not decode. When the header names the source as its sender and the source's account still holds the message in its outbox, every registered client of that account gets one put failure, in the clients' order. Otherwise nothing is sent |
| MpidSpec.FetchRequests | src/personas/mpid_manager.rs:279-303 | the walk over the received header names sends at most one GetMessage per name |
| MpidSpec.HandleOnline | src/personas/mpid_manager.rs:273-304 | Online keeps every account valid and leaves both chunk stores unchanged. Its only error is a serialisation failure |
| MpidSpec.HandleGetMessage | src/personas/mpid_manager.rs:305-329 | GetMessage changes nothing. A missing message gets exactly one post failure back to the requester. A stored message that does not decode is a serialisation error with nothing sent. A stored message whose header name matches and whose recipient is the requester is sent back in a PutMessage wrapper under that name, with the request's id. Any other stored message gets no answer |
| MpidSpec.PostToEach | src/personas/mpid_manager.rs:330-345 | one post carrying the message to each registered client, in the clients' order |
| MpidSpec.HandlePostedMessage | src/personas/mpid_manager.rs:330-345 | a forwarded PutMessage never changes the state and never fails. When the destination holds an account and is the message's recipient, every registered client gets the data once, in the clients' order. Otherwise nothing is sent |
| MpidSpec.Kept | src/personas/mpid_manager.rs:349-352 | the filter keeps exactly the asked-for names that are present, each as often as it was asked, and never more names than were asked |
| MpidSpec.CollectHeaders | src/personas/mpid_manager.rs:353-360 | collecting headers succeeds exactly when every stored message named decodes. Its only error is a serialisation failure |
| MpidSpec.HeadersReply | src/personas/mpid_manager.rs:353-388 | the OutboxHas and GetOutboxHeaders replies change nothing and send at most one message. They succeed exactly when every stored message named decodes. On failure nothing is sent |
| MpidSpec.HandleOutboxHas | src/personas/mpid_manager.rs:346-370 | OutboxHas changes nothing. A requester that is not a registered client of the account gets no answer |
| MpidSpec.HandleGetOutboxHeaders | src/personas/mpid_manager.rs:371-392 | GetOutboxHeaders changes nothing. A requester that is not a registered client of the account gets no answer |
| MpidSpec.HandlePost | src/personas/mpid_manager.rs:266-396 | handle_post keeps every account valid and never touches either chunk store |
| MpidSpec.HandleDeleteMessage | src/personas/mpid_manager.rs:405-435 | DeleteMessage keeps the accounts valid and the set of accounts unchanged, and never touches the inbox store. With no account it does nothing. A message not stored gets one delete failure back. A delete by a stranger is ignored, and an undecodable message is a serialisation error. A delete by a registered client or by the message's recipient removes the message from the store. The account's outbox becomes exactly the mailbox `remove` leaves (the allowance, the other entries and, when the outbox never held the name, the whole mailbox kept). The size is credited back only when the outbox held the name. It sends nothing and leaves every other account alone |
| MpidSpec.DeletePermitted | src/personas/mpid_manager.rs:406-419 | a DeleteMessage is permitted exactly when the requester is a registered client of the account, or the stored message decodes and names the requester as its recipient. The answer is undetermined (a serialisation error) exactly when the requester is unregistered and the message does not decode |
| MpidSpec.HandleDeleteHeader | src/personas/mpid_manager.rs:436-455 | DeleteHeader never fails, keeps the accounts valid and never touches the outbox store. A requester that is not a registered client changes nothing. A registered client's delete of a header not stored gets one delete failure back. Otherwise it removes the header from the store. The inbox becomes exactly the mailbox `remove` leaves, so the allowance and the other entries are kept, the size is credited back only when the inbox held the name, and the whole inbox is kept when it did not. It sends nothing and leaves every other account alone |
| MpidSpec.HandleDelete | src/personas/mpid_manager.rs:398-458 | handle_delete keeps the accounts valid and the set of accounts unchanged, and sends at most one message. Undecodable data is a serialisation error that changes nothing. A decoded DeleteMessage or DeleteHeader gives exactly the outcome of its arm |
| MpidAccounts.MailBox.constructor | src/personas/mpid_manager.rs:41-48 | the object is the new mailbox `MpidSpec.NewMailBox` describes |
| MpidAccounts.MailBox.Put | src/personas/mpid_manager.rs:51-64 | the new state and the answer are those of `MpidSpec.MailBoxPut`. The accounting invariant is kept |
| MpidAccounts.MailBox.Remove | src/personas/mpid_manager.rs:66-75 | the new state and the answer are those of `MpidSpec.MailBoxRemove`. The accounting invariant is kept |
| MpidAccounts.MailBox.ContainsKey | src/personas/mpid_manager.rs:77-79 | true exactly when the name is stored |
| MpidAccounts.MailBox.Names | src/personas/mpid_manager.rs:81-83 | every stored name, each exactly once |
| MpidAccounts.NamesOf | src/personas/mpid_manager.rs:81-83 | the keys of the map, each exactly once, as many as the map has |
| MpidAccounts.Account.Default | src/personas/mpid_manager.rs:94-103 | the object is the account `MpidSpec.DefaultAccount` describes, with freshly allocated mailboxes |
| MpidAccounts.Account.PutIntoOutbox | src/personas/mpid_manager.rs:107-109 | the outbox is updated as `MpidSpec.MailBoxPut` says, and the inbox and clients are untouched |
| MpidAccounts.Account.PutIntoInbox | src/personas/mpid_manager.rs:111-113 | the inbox is updated as `MpidSpec.MailBoxPut` says, and the outbox and clients are untouched |
| MpidAccounts.Account.RemoveFromOutbox | src/personas/mpid_manager.rs:115-117 | the outbox is updated as `MpidSpec.MailBoxRemove` says, and the rest is untouched |
| MpidAccounts.Account.RemoveFromInbox | src/personas/mpid_manager.rs:119-121 | the inbox is updated as `MpidSpec.MailBoxRemove` says, and the rest is untouched |
| MpidAccounts.Account.HasInOutbox | src/personas/mpid_manager.rs:123-125 | true exactly when the outbox holds the name |
| MpidAccounts.Account.RegisterOnline | src/personas/mpid_manager.rs:127-138 | the account becomes `MpidSpec.RegisterOnline` of the old one |
| MpidAccounts.Account.ReceivedHeaders | src/personas/mpid_manager.rs:140-142 | every inbox name, each exactly once |
| MpidAccounts.Account.StoredMessages | src/personas/mpid_manager.rs:144-146 | every outbox name, each exactly once |
| MpidManager.RoutingNode.Send | src/personas/mpid_manager.rs:215 | a send appends exactly that message to the routing log |
| MpidManager.MpidManager.constructor | src/personas/mpid_manager.rs:160-166 | no accounts and two empty stores |
| MpidManager.MpidManager.HandlePut | src/personas/mpid_manager.rs:171-231 | the new state, the messages sent and the result are those of `MpidSpec.HandlePut` |
| MpidManager.MpidManager.StoreHeader | src/personas/mpid_manager.rs:178-196 | the PutHeader arm, for a new name, does what `MpidSpec.HandlePut` says |
| MpidManager.MpidManager.StoreMessage | src/personas/mpid_manager.rs:197-228 | the PutMessage arm, for a new name, does what `MpidSpec.HandlePut` says |
| MpidManager.MpidManager.HandlePutFailure | src/personas/mpid_manager.rs:234-264 | the messages sent and the result are those of `MpidSpec.HandlePutFailure`: one put failure to each registered client of the sender when it still holds the message, and nothing otherwise. The state is unchanged |
| MpidManager.MpidManager.SendPutFailures | src/personas/mpid_manager.rs:249-256 | the loop sends exactly `MpidSpec.PutFailureToEach` |
| MpidManager.MpidManager.HandlePost | src/personas/mpid_manager.rs:266-396 | the result is that of `MpidSpec.HandlePost` for the order in which the walked mailbox yields its names, and that order lists each name once |
| MpidManager.MpidManager.HandleOnline | src/personas/mpid_manager.rs:273-304 | the result is that of `MpidSpec.HandleOnline` for an order that lists each received header once |
| MpidManager.MpidManager.FetchMessages | src/personas/mpid_manager.rs:279-303 | the loop sends exactly `MpidSpec.FetchRequests` and reports whether it reached the end |
| MpidManager.MpidManager.HandleGetMessage | src/personas/mpid_manager.rs:305-329 | sends and returns what `MpidSpec.HandleGetMessage` says, and changes nothing |
| MpidManager.MpidManager.HandlePostedMessage | src/personas/mpid_manager.rs:330-345 | sends and returns what `MpidSpec.HandlePostedMessage` says: the message to every registered client of its recipient's account. Nothing changes |
| MpidManager.MpidManager.SendToClients | src/personas/mpid_manager.rs:334-340 | the loop sends exactly `MpidSpec.PostToEach` |
| MpidManager.MpidManager.CollectStoredHeaders | src/personas/mpid_manager.rs:353-360 | the loop computes `MpidSpec.CollectHeaders`. It succeeds exactly when every stored message named decodes, and then holds their headers in order (`MpidProperties.CollectHeadersContents`) |
| MpidManager.MpidManager.SendHeadersReply | src/personas/mpid_manager.rs:353-388 | sends and returns what `MpidSpec.HeadersReply` says: one post to the requester carrying the stored messages' headers, or nothing when one does not decode (`MpidProperties.HeadersReplyCarriesHeaders`) |
| MpidManager.MpidManager.HandleOutboxHas | src/personas/mpid_manager.rs:346-370 | sends and returns what `MpidSpec.HandleOutboxHas` says |
| MpidManager.MpidManager.HandleGetOutboxHeaders | src/personas/mpid_manager.rs:371-392 | sends and returns what `MpidSpec.HandleGetOutboxHeaders` says, for an order that lists each outbox name once |
| MpidManager.MpidManager.HandleDelete | src/personas/mpid_manager.rs:398-458 | the new state, the messages sent and the result are those of `MpidSpec.HandleDelete` |
| MpidManager.MpidManager.HandleDeleteMessage | src/personas/mpid_manager.rs:405-435 | the DeleteMessage arm does what `MpidSpec.HandleDeleteMessage` says: removal for a registered client or the recipient, a delete failure for a missing message, and nothing for a stranger |
| MpidManager.MpidManager.HandleDeleteHeader | src/personas/mpid_manager.rs:436-455 | the DeleteHeader arm does what `MpidSpec.HandleDeleteHeader` says: removal for a registered client, and a delete failure for a missing header |
| MpidProperties.ChargedAfterUpdate | src/personas/mpid_manager.rs:171-231 | replacing one account and the stores keeps every stored chunk charged to some account, provided each stored name is charged in the new state |
| MpidProperties.HandlePutKeepsChargesAccounted | src/personas/mpid_manager.rs:171-231 | handle_put stores a chunk only after charging it to a mailbox, so every stored header stays in some inbox and every stored message in some outbox |
| MpidProperties.PutHeaderKeepsCharges | src/personas/mpid_manager.rs:178-196 | the PutHeader arm keeps every stored chunk charged |
| MpidProperties.PutMessageKeepsCharges | src/personas/mpid_manager.rs:197-228 | the PutMessage arm keeps every stored chunk charged |
| MpidProperties.HandlePostKeepsChargesAccounted | src/personas/mpid_manager.rs:266-396 | handle_post keeps every stored chunk charged |
| MpidProperties.RemovalKeepsOthers | src/personas/mpid_manager.rs:66-75 | removing one name from a mailbox keeps every other name |
| MpidProperties.OutboxRemovalKeepsCharges | src/personas/mpid_manager.rs:421-425 | deleting a stored message together with its outbox entry keeps every other stored chunk charged |
| MpidProperties.InboxRemovalKeepsCharges | src/personas/mpid_manager.rs:439-444 | deleting a stored header together with its inbox entry keeps every other stored chunk charged |
| MpidProperties.DeleteMessageKeepsChargesAccounted | src/personas/mpid_manager.rs:405-435 | DeleteMessage keeps every stored chunk charged |
| MpidProperties.DeleteHeaderKeepsChargesAccounted | src/personas/mpid_manager.rs:436-455 | DeleteHeader keeps every stored chunk charged |
| MpidProperties.HandleDeleteKeepsChargesAccounted | src/personas/mpid_manager.rs:398-458 | handle_delete keeps every stored chunk charged |
| MpidProperties.DuplicatePutRefused | src/personas/mpid_manager.rs:178-200 | a put whose name is already in its store is refused with DataExists. Nothing changes and nothing is sent |
| MpidProperties.PutSidesSeparate | src/personas/mpid_manager.rs:171-231 | a PutMessage leaves the inbox store and every inbox as they were. A PutHeader leaves the outbox store and every outbox as they were |
| MpidProperties.PutMessageNotifiesRecipient | src/personas/mpid_manager.rs:197-228 | an accepted PutMessage is stored under the request's name. Exactly one put request goes to the recipient's manager, carrying the header under the header's name |
| MpidProperties.PutHeaderSendsNothing | src/personas/mpid_manager.rs:178-196 | an accepted PutHeader is stored and nothing is sent |
| MpidProperties.RefusedPutStoresNothing | src/personas/mpid_manager.rs:184-222 | a put the mailbox refuses stores nothing. A single put failure goes back to the request's source |
| MpidProperties.MessageAndHeaderTwice | src/personas/mpid_manager.rs:573-660 | put a message, repeat it, put its header, repeat that. The message is stored and announced, the header is stored silently, and each repeat is refused with DataExists |
| MpidProperties.FetchReachesEveryStoredHeader | src/personas/mpid_manager.rs:279-303 | when the walk completes, every stored received header decodes, and a GetMessage to its sender is among the sends |
| MpidProperties.FetchOnlyForStoredHeaders | src/personas/mpid_manager.rs:279-303 | every GetMessage sent is for a stored received header |
| MpidProperties.FetchRequestsStopped | src/personas/mpid_manager.rs:280-283 | once a stored header fails to decode, the names after it send nothing more |
| MpidProperties.CollectHeadersStopped | src/personas/mpid_manager.rs:355-357 | once a stored message fails to decode, the names after it add nothing |
| MpidProperties.CollectHeadersContents | src/personas/mpid_manager.rs:353-360 | when every stored message named decodes, the collected headers are exactly the headers of the stored messages among the names, in the names' order |
| MpidProperties.HeadersReplyCarriesHeaders | src/personas/mpid_manager.rs:353-388 | when every stored message named decodes, the reply is one post request from the account's manager to the requester, named after the account, carrying those headers with the request's id |
| MpidProperties.OutboxHasAnswersRegisteredClient | src/personas/mpid_manager.rs:346-370 | a registered client asking about some names gets one OutboxHasResponse. It holds the headers of exactly those names the outbox holds and the store keeps, in the order asked |
| MpidProperties.GetOutboxHeadersAnswersRegisteredClient | src/personas/mpid_manager.rs:371-392 | a registered client asking for its outbox gets one GetOutboxHeadersResponse holding the header of every stored message, in the outbox's order |
| MpidProperties.OnlineRegistersClient | src/personas/mpid_manager.rs:273-304 | after Online, the requesting client is a registered client of the destination's account, and the account is created if missing |
| MpidProperties.GetMissingMessageFails | src/personas/mpid_manager.rs:321-327 | a GetMessage for a message that is not stored gets exactly one post failure, back to the requester |
| MpidProperties.StoredMessageReachesRecipient | src/personas/mpid_manager.rs:197-329 | a message stored by PutMessage under its header's name is sent back, wrapped in PutMessage, when its recipient asks for it, provided the codec reads back what it wrote |
| MpidProperties.DeleteByStrangerIgnored | src/personas/mpid_manager.rs:406-419 | a DeleteMessage from someone who is neither a registered client nor the recipient changes nothing and sends nothing |
| MpidProperties.DeletedMessageIsGone | src/personas/mpid_manager.rs:405-435 | a DeleteMessage from a registered client or from the message's recipient removes the message from the store and the outbox, so a later GetMessage gets a post failure |
| MapData.ValuesOf | src/node/elder_duties/data_section/metadata/map_storage.rs:330-347 | one value per entry, in the entries' order |
| MapData.Lookup | src/node/elder_duties/data_section/metadata/map_storage.rs:283-309 | a value is found exactly when the key is among the map's keys, and the value found is the one stored with that key |
| MapData.UserPermissions | src/node/elder_duties/data_section/metadata/map_storage.rs:388-404 | a permission set is returned exactly when the user has one, and it is that set. Otherwise the error is NoSuchKey |
| MapData.Shell | src/node/elder_duties/data_section/metadata/map_storage.rs:247-262 | the shell has no entries and keeps the address, permissions, version and owner |
| MapData.CreateIn | src/node/elder_duties/data_section/metadata/map_storage.rs:144-158 | create succeeds exactly at a free address, and then adds only that map. Otherwise the error is DataExists and the store is unchanged. Every existing map stays |
| MapData.DeleteFrom | src/node/elder_duties/data_section/metadata/map_storage.rs:160-181 | delete of a missing map gives NoSuchData. It succeeds exactly when the requester owns the stored map, and then removes only that address. A non-owner gets the owner check's error |
| MapData.Mutate | src/node/elder_duties/data_section/metadata/map_storage.rs:184-228 | a permission change without ManagePermissions fails with that check's error. With it, setting a user's permissions is exactly the map's `set_user_permissions` and deleting them exactly its `del_user_permissions`. An entry edit is the map's own entry mutation. Address-preserving rules keep the address |
| MapData.EditIn | src/node/elder_duties/data_section/metadata/map_storage.rs:117-141 | an edit of a missing map gives NoSuchData. It succeeds exactly when the mutation does, and then stores the mutated map. A failed edit leaves the store unchanged |
| MapData.WriteTo | src/node/elder_duties/data_section/metadata/map_storage.rs:70-93 | a failed write leaves the store unchanged, and every write keeps each map stored under its own address |
| MapData.CreateThenDeleteRestores | src/node/elder_duties/data_section/metadata/map_storage.rs:144-181 | creating a map and then deleting it as its owner restores the store |
| MapData.SecondCreateRefused | src/node/elder_duties/data_section/metadata/map_storage.rs:144-158 | a second create at the same address fails with DataExists and keeps the first map |
| MapData.EditTouchesOnlyItsAddress | src/node/elder_duties/data_section/metadata/map_storage.rs:117-141 | an edit changes at most the map at its own address |
| MapData.PermissionChangeNeedsManagePermissions | src/node/elder_duties/data_section/metadata/map_storage.rs:184-214 | a permission change succeeds only on a stored map whose permission check allows ManagePermissions to the requester |
| MapData.OnlyNewAddsAddresses | src/node/elder_duties/data_section/metadata/map_storage.rs:70-93 | no write other than New adds an address to the store |
| MapStorage.MapStorage.constructor | src/node/elder_duties/data_section/metadata/map_storage.rs:34-46 | an empty store over the given rules |
| MapStorage.MapStorage.GetChunk | src/node/elder_duties/data_section/metadata/map_storage.rs:99-114 | a missing map gives NoSuchData. The stored map is returned exactly when the permission check allows the action, and otherwise the check's error |
| MapStorage.MapStorage.Respond | src/node/elder_duties/data_section/metadata/map_storage.rs:238-243 | a query response is sent to the origin's address, correlated with the request's message id |
| MapStorage.MapStorage.Get | src/node/elder_duties/data_section/metadata/map_storage.rs:231-244 | a correlated GetMap response. It carries the whole map when the origin may read it, and otherwise the read error |
| MapStorage.MapStorage.GetShell | src/node/elder_duties/data_section/metadata/map_storage.rs:247-262 | a correlated GetMapShell response. It carries the map's shell when readable |
| MapStorage.MapStorage.GetVersion | src/node/elder_duties/data_section/metadata/map_storage.rs:265-280 | a correlated GetMapVersion response. It carries the map's version when readable |
| MapStorage.MapStorage.GetValue | src/node/elder_duties/data_section/metadata/map_storage.rs:283-309 | a correlated GetMapValue response. When readable, it carries the stored value exactly when the key exists, and NoSuchEntry otherwise. Any value returned is the one stored under the key |
| MapStorage.MapStorage.ListKeys | src/node/elder_duties/data_section/metadata/map_storage.rs:312-327 | a correlated response. When readable, it carries the set of the map's keys |
| MapStorage.MapStorage.ListValues | src/node/elder_duties/data_section/metadata/map_storage.rs:330-347 | a correlated response. When readable, it carries the values in key order |
| MapStorage.MapStorage.ListEntries | src/node/elder_duties/data_section/metadata/map_storage.rs:350-367 | a correlated response. When readable, it carries the entries |
| MapStorage.MapStorage.ListPermissions | src/node/elder_duties/data_section/metadata/map_storage.rs:370-385 | a correlated response. When readable, it carries every user's permission set |
| MapStorage.MapStorage.ListUserPermissions | src/node/elder_duties/data_section/metadata/map_storage.rs:388-404 | a correlated response. When the map is readable, a user with a permission set gets exactly that set, and an unknown user gets NoSuchKey. Any set returned is the user's own, from a readable map |
| MapStorage.MapStorage.Read | src/node/elder_duties/data_section/metadata/map_storage.rs:48-68 | every read request is answered with a correlated response to its origin, of the kind matching the request. The answer is exactly that of the reader the request names (Get, GetValue, GetShell, GetVersion, ListEntries, ListKeys, ListValues, ListPermissions or ListUserPermissions), so each reader's content guarantee carries over |
| MapStorage.MapStorage.OkOrError | src/node/elder_duties/data_section/metadata/map_storage.rs:406-418 | nothing is sent exactly when the write succeeded. Otherwise the error goes back to the origin as a command error correlated with the message id |
| MapStorage.MapStorage.Create | src/node/elder_duties/data_section/metadata/map_storage.rs:144-158 | the store becomes `MapData.CreateIn` of the old one, and the duty reports its error, if any |
| MapStorage.MapStorage.Delete | src/node/elder_duties/data_section/metadata/map_storage.rs:160-181 | the store becomes `MapData.DeleteFrom` of the old one, and the duty reports its error, if any |
| MapStorage.MapStorage.EditChunk | src/node/elder_duties/data_section/metadata/map_storage.rs:117-141 | the store becomes `MapData.EditIn` of the old one, and the duty reports its error, if any |
| MapStorage.MapStorage.SetUserPermissions | src/node/elder_duties/data_section/metadata/map_storage.rs:184-198 | the store becomes the permission-setting edit of the old one, and the duty reports its error, if any |
| MapStorage.MapStorage.DeleteUserPermissions | src/node/elder_duties/data_section/metadata/map_storage.rs:201-214 | the store becomes the permission-deleting edit of the old one, and the duty reports its error, if any |
| MapStorage.MapStorage.EditEntries | src/node/elder_duties/data_section/metadata/map_storage.rs:217-228 | the store becomes the entry-mutating edit of the old one, and the duty reports its error, if any |
| MapStorage.MapStorage.Write | src/node/elder_duties/data_section/metadata/map_storage.rs:70-93 | the store becomes `MapData.WriteTo` of the old one, and each map stays under its own address |
| KeySection.Evaluate | src/node/elder_duties/key_section/mod.rs:89-97 | the signature is always checked first, and its error is the answer. The app authorisation's error is the answer next. Analysis is consulted exactly when both checks pass, and its answer is returned |
| KeySection.ProcessGroupDecision | src/node/elder_duties/key_section/mod.rs:102-119 | a group decision becomes an auth Process duty with the same command, message id and origin. No sub-component is consulted |
| KeySection.Dispatch | src/node/elder_duties/key_section/mod.rs:77-87 | client messages go to evaluate and group decisions to process_group_decision. Every RunAs duty consults exactly one sub-component, the one its variant names, and returns that sub-component's answer |
| KeySection.GroupDecisionReachesAuth | src/node/elder_duties/key_section/mod.rs:102-119 | a processed group decision, dispatched in turn, reaches the auth sub-component with the decided command |
| KeySection.BadSignatureStopsEvaluation | src/node/elder_duties/key_section/mod.rs:90-92 | a client message with a bad signature is answered with that error. Neither authorisation nor analysis is consulted |
| KeySection.ReplicaManagerOf | src/node/elder_duties/key_section/mod.rs:136-150 | routing's answers are checked in the order key set, key share, index, history. The first failure is the error, and a missing history is InvalidState. On success the manager is created from exactly those keys and no accounts |
| KeySection.KeySection.constructor | src/node/elder_duties/key_section/mod.rs:45-75 | no replica updates made yet |
| KeySection.KeySection.EldersChanged | src/node/elder_duties/key_section/mod.rs:122-134 | the replica is updated with the new keys exactly when routing provides the key set, the key share, the history and the index. Nothing is returned either way |
| SectionFunds.PayoutStep | src/node/elder_duties/rewards/section_funds.rs:17-29 | a payout is announced exactly when the actor yields an initiated transfer. That event is applied and announced with its signed transfer. Otherwise nothing is applied |
| SectionFunds.ReceiveStep | src/node/elder_duties/rewards/section_funds.rs:31-43 | a received validation is applied whenever the actor yields one. A finalise command is sent exactly when it completes a proof, and carries that proof |
| SectionFunds.SentOnlyWhatWasApplied | src/node/elder_duties/rewards/section_funds.rs:17-43 | every message sent announces the one event applied in the same step |
| SectionFunds.ValidationWithoutProofStaysQuiet | src/node/elder_duties/rewards/section_funds.rs:31-43 | a validation without a completed proof is applied, and nothing is sent |
| SectionFunds.SectionFunds.InitiateRewardPayout | src/node/elder_duties/rewards/section_funds.rs:17-29 | the actor's log grows by exactly `SectionFunds.PayoutStep`'s events, and its message is returned |
| SectionFunds.SectionFunds.Receive | src/node/elder_duties/rewards/section_funds.rs:31-43 | the actor's log grows by exactly `SectionFunds.ReceiveStep`'s events, and its message is returned |

## Left out

- Serialisation and name hashing are not modelled. They are the `Codec` input (`decodeWrapper`, `encodeHeader`, `headerName`, …). A serialise failure when encoding is not modelled: the model treats encoding as total.
- Errors from routing sends (the `try!` around `send_*_request`) are not modelled. The routing node records every send and never fails.
- Chunk store I/O failures are not modelled. A store that fails to get, put or delete, and the conversion of that error to a string, are absent: the stores are maps.
- Logging, `Display` / `Debug` implementations and `MessageId::new()` are not modelled. They are I/O or randomness.
- The iteration order of the mailboxes' `HashMap`s is not modelled. Any order that lists each name once is allowed (`MpidAccounts.NamesOf`), and the handlers' results are stated for that order.
- The internals of `Authority` and `RequestMessage` are reduced to what the handlers read: the name, whether it is a client, and the content.
- `MAX_INBOX_SIZE` and `MAX_OUTBOX_SIZE` are the `Config` allowances rather than fixed constants.
- MpidManager.MpidManager: the manager holds its accounts by value (`accounts: map<XorName, AccountState>`), not as a map of `Account` objects. The in-place updates of a single account and mailbox are the `MpidAccounts` classes. Object-level framing across a map of accounts is not modelled.
- MpidSpec.HandleDelete: requires that the removal fits (`RemovalFits`). `MailBox::remove` subtracts the stored chunk's size from `used_space` unchecked. The chunk stores are shared by every account, and `handle_delete` does not check that the addressed account holds the name. So a chunk another account's put has stored under the same name can be larger than this mailbox's used space, and the u64 subtraction would wrap. The model excludes that case instead of modelling the wrap.
- MpidSpec.HandleDeleteMessage and MpidSpec.HandleDeleteHeader: the same `RemovalFits` precondition, for the same reason.
- MpidSpec.PutDemuxed, MpidSpec.PutFailureDemuxed, MpidSpec.PostDemuxed and the wrapper-kind part of MpidSpec.DeleteDemuxed exclude, as preconditions, requests whose data decodes to a wrapper kind the handler does not expect. In the source those reach `unreachable!` and panic. The model does not capture that panic.
- MpidAccounts.MailBox.Remove: requires that the size given does not exceed the used space when the name is present, for the same unchecked subtraction.
- The `safe_nd` `Map` rules are not modelled. Permission checks, owner checks, permission changes and entry mutations are the `MapRules` input. The store only dispatches to them and stores their results.
- A map's entries are a sequence standing for the `BTreeMap`. Neither key order nor distinct keys is required of it, so a stored map could list a key twice, which the source's maps cannot.
- Message wrapping is assumed always to produce its duty. `ElderMsgWrapping::send` and `error` in MapStorage, and `ElderMsgDecisions::send` in SectionFunds, build the duty directly; their signing is not modelled.
- The sub-components of KeySection (auth, gateway, payments, transfers, message analysis) and routing are inputs: `Collaborators` and `RoutingView`.
- The transfer replica's key update is not modelled. It is recorded as a log of the keys handed over (`churnUpdates`).
- `KeySection::new` and `MapStorage::new` are reduced to their resulting state. Their construction plumbing (the chunk store on disk, the sub-components' setup, the rng) is not modelled.
- The `TransferActor` is reduced to what its `transfer` and `receive` return on each call, which are parameters. The events applied to it are the ghost log `applied`.
- `Account::registered_clients` is a plain read of the `clients` field.
