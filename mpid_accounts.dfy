/** The persona's `MailBox` and `Account` as the objects the handlers update
    in place, each proved against its value in MpidSpec. */
module MpidAccounts {
  import opened Wrappers
  import opened Primitives
  import opened MpidTypes
  import opened MpidSpec

  /** No name occurs twice. */
  predicate Distinct(names: seq<XorName>)
  {
    forall i, j | 0 <= i < j < |names| :: names[i] != names[j]
  }

  /** An inbox or outbox: the allowance, the space used and left, and the
      stored names with their sender's key. */
  class MailBox {
    var allowance: u64
    var usedSpace: u64
    var spaceAvailable: u64
    var mailBox: map<XorName, Option<PublicKey>>

    function State(): MailBoxState
      reads this
    {
      MailBoxState(allowance, usedSpace, spaceAvailable, mailBox)
    }

    ghost predicate Valid()
      reads this
    {
      State().Valid()
    }

    /** `MailBox::new`. */
    constructor (allowance: u64)
      ensures Valid() && State() == NewMailBox(allowance)
    {
      this.allowance := allowance;
      usedSpace := 0;
      spaceAvailable := allowance;
      mailBox := map[];
    }

    /** `MailBox::put`. */
    method Put(size: u64, entry: XorName, publicKey: Option<PublicKey>) returns (stored: bool)
      requires Valid()
      modifies this
      ensures Valid()
      ensures (State(), stored) == MailBoxPut(old(State()), size, entry, publicKey)
    {
      if size > spaceAvailable {
        return false;
      }
      var present := entry in mailBox;
      mailBox := mailBox[entry := publicKey];
      if present {
        stored := false;
      } else {
        usedSpace := usedSpace + size;
        spaceAvailable := spaceAvailable - size;
        stored := true;
      }
    }

    /** `MailBox::remove`; `size` must not exceed the space in use when the
        entry is there, as the source's unchecked subtraction assumes. */
    method Remove(size: u64, entry: XorName) returns (removed: bool)
      requires Valid() && (entry in mailBox ==> size <= usedSpace)
      modifies this
      ensures Valid()
      ensures (State(), removed) == MailBoxRemove(old(State()), size, entry)
    {
      if entry in mailBox {
        mailBox := mailBox - {entry};
        usedSpace := usedSpace - size;
        spaceAvailable := spaceAvailable + size;
        removed := true;
      } else {
        removed := false;
      }
    }

    /** `MailBox::contains_key`. */
    function ContainsKey(entry: XorName): (present: bool)
      reads this
      ensures present <==> entry in State().entries
    {
      entry in mailBox
    }

    /** `MailBox::names`. */
    method Names() returns (names: seq<XorName>)
      ensures Enumerates(names, State().entries)
    {
      names := NamesOf(mailBox);
    }
  }

  /** `names` holds every key of `entries` once. */
  ghost predicate Enumerates(names: seq<XorName>, entries: map<XorName, Option<PublicKey>>)
  {
    Distinct(names) && forall n :: n in names <==> n in entries
  }

  /** The names a mailbox's `HashMap` yields, each once, in an order the
      model leaves open. */
  method NamesOf(entries: map<XorName, Option<PublicKey>>) returns (names: seq<XorName>)
    ensures Enumerates(names, entries) && |names| == |entries|
  {
    names := [];
    var rest := entries.Keys;
    while rest != {}
      invariant rest <= entries.Keys
      invariant forall n :: n in names <==> n in entries && n !in rest
      invariant Distinct(names) && |names| + |rest| == |entries|
      decreases |rest|
    {
      var n :| n in rest;
      names := names + [n];
      rest := rest - {n};
    }
  }

  /** An account: the registered client proxies, the inbox and the outbox. */
  class Account {
    var clients: seq<Authority>
    const inbox: MailBox
    const outbox: MailBox

    ghost predicate Valid()
      reads this, inbox, outbox
    {
      inbox != outbox && inbox.Valid() && outbox.Valid() && RegisteredClients(clients)
    }

    function State(): AccountState
      reads this, inbox, outbox
    {
      AccountState(clients, inbox.State(), outbox.State())
    }

    /** `Account::default()`: no clients and fresh mailboxes with the
        configured allowances. */
    constructor Default(cfg: Config)
      ensures Valid() && State() == DefaultAccount(cfg)
      ensures fresh(inbox) && fresh(outbox)
    {
      clients := [];
      inbox := new MailBox(cfg.inboxAllowance);
      outbox := new MailBox(cfg.outboxAllowance);
    }

    /** `Account::put_into_outbox`. */
    method PutIntoOutbox(size: u64, entry: XorName, publicKey: Option<PublicKey>) returns (stored: bool)
      requires Valid()
      modifies outbox
      ensures Valid()
      ensures var r := MailBoxPut(old(State()).outbox, size, entry, publicKey);
        State() == old(State()).(outbox := r.0) && stored == r.1
    {
      stored := outbox.Put(size, entry, publicKey);
    }

    /** `Account::put_into_inbox`. */
    method PutIntoInbox(size: u64, entry: XorName, publicKey: Option<PublicKey>) returns (stored: bool)
      requires Valid()
      modifies inbox
      ensures Valid()
      ensures var r := MailBoxPut(old(State()).inbox, size, entry, publicKey);
        State() == old(State()).(inbox := r.0) && stored == r.1
    {
      stored := inbox.Put(size, entry, publicKey);
    }

    /** `Account::remove_from_outbox`. */
    method RemoveFromOutbox(size: u64, entry: XorName) returns (removed: bool)
      requires Valid() && (entry in outbox.mailBox ==> size <= outbox.usedSpace)
      modifies outbox
      ensures Valid()
      ensures var r := MailBoxRemove(old(State()).outbox, size, entry);
        State() == old(State()).(outbox := r.0) && removed == r.1
    {
      removed := outbox.Remove(size, entry);
    }

    /** `Account::remove_from_inbox`. */
    method RemoveFromInbox(size: u64, entry: XorName) returns (removed: bool)
      requires Valid() && (entry in inbox.mailBox ==> size <= inbox.usedSpace)
      modifies inbox
      ensures Valid()
      ensures var r := MailBoxRemove(old(State()).inbox, size, entry);
        State() == old(State()).(inbox := r.0) && removed == r.1
    {
      removed := inbox.Remove(size, entry);
    }

    /** `Account::has_in_outbox`. */
    function HasInOutbox(entry: XorName): (present: bool)
      reads this, outbox
      ensures present <==> entry in State().outbox.entries
    {
      outbox.ContainsKey(entry)
    }

    /** `Account::register_online`: a client authority not yet registered is
        appended; anything else is only logged. */
    method RegisterOnline(client: Authority)
      requires Valid()
      modifies this
      ensures Valid()
      ensures State() == MpidSpec.RegisterOnline(old(State()), client)
    {
      if client.Client? {
        if client !in clients {
          clients := clients + [client];
        }
      }
    }

    /** `Account::received_headers`: the names in the inbox. */
    method ReceivedHeaders() returns (names: seq<XorName>)
      ensures Enumerates(names, State().inbox.entries)
    {
      names := inbox.Names();
    }

    /** `Account::stored_messages`: the names in the outbox. */
    method StoredMessages() returns (names: seq<XorName>)
      ensures Enumerates(names, State().outbox.entries)
    {
      names := outbox.Names();
    }
  }
}
