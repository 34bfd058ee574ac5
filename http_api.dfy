/** The message table of `HttpServer` (http_server/api.py): messages the GUI
    side was asked to keep, by id, for the server thread to pick up later. */
module HttpApi {
  import opened Strings
  import opened Messages
  import opened OrderedMaps

  /** `messages_limit` as the constructor sets it. */
  const DefaultMessagesLimit: nat := 100

  /** `str(message.message_id)`, the key a message is stored under. */
  function Key(message: TsMessage): (k: string)
    ensures |k| >= 1 && k[0] != '-'
  {
    IntToString(message.messageId)
  }

  /** Distinct ids give distinct keys. */
  lemma KeyInjective(a: TsMessage, b: TsMessage)
    requires a.messageId != b.messageId
    ensures Key(a) != Key(b)
  {
    if Key(a) == Key(b) {
      IntToStringInjective(a.messageId, b.messageId);
    }
  }

  /** The table after storing `message`: `messages[key] = message`, then
      `popitem()` while the table holds more than `limit` entries. */
  function Stored(table: OrderedMap<string, TsMessage>, message: TsMessage, limit: nat)
    : (r: OrderedMap<string, TsMessage>)
    requires Valid(table)
    ensures Valid(r) && |r.keys| <= limit
  {
    Trim(Assign(table, Key(message), message), limit)
  }

  /** Storing never removes an older entry except by overflow of the newest:
      the result is the assigned table's first entries, in their order. */
  lemma StoredIsOldestPrefix(table: OrderedMap<string, TsMessage>, message: TsMessage, limit: nat)
    requires Valid(table)
    ensures var a := Assign(table, Key(message), message);
            Stored(table, message, limit) == Prefix(a, if |a.keys| <= limit then |a.keys| else limit)
  {
    TrimKeepsOldest(Assign(table, Key(message), message), limit);
  }

  /** A message with a new id arriving at a full table is the one dropped:
      the table is left exactly as it was. */
  lemma StoredFullTableUnchanged(table: OrderedMap<string, TsMessage>, message: TsMessage, limit: nat)
    requires Valid(table) && |table.keys| == limit
    requires Key(message) !in table.values
    ensures Stored(table, message, limit) == table
  {
    var a := Assign(table, Key(message), message);
    StoredIsOldestPrefix(table, message, limit);
    assert a.keys[..limit] == table.keys;
    var q := Prefix(a, limit).values;
    forall k | k in q ensures k in table.values && q[k] == table.values[k] {
      assert k in table.keys;
    }
    assert q.Keys == table.values.Keys;
  }

  /** Storing under a key already present replaces the value, keeps every
      position and evicts nothing. */
  lemma StoredReplacesInPlace(table: OrderedMap<string, TsMessage>, message: TsMessage, limit: nat)
    requires Valid(table) && |table.keys| <= limit
    requires Key(message) in table.values
    ensures Stored(table, message, limit)
            == OrderedMap(table.keys, table.values[Key(message) := message])
  {
  }

  /** Below the limit a new message goes to the end and nothing is evicted. */
  lemma StoredAppends(table: OrderedMap<string, TsMessage>, message: TsMessage, limit: nat)
    requires Valid(table) && |table.keys| < limit
    requires Key(message) !in table.values
    ensures Stored(table, message, limit)
            == OrderedMap(table.keys + [Key(message)], table.values[Key(message) := message])
  {
  }

  /** Entries that remain keep their values (other than the one assigned)
      and their relative insertion order. */
  lemma StoredKeepsOthers(table: OrderedMap<string, TsMessage>, message: TsMessage, limit: nat)
    requires Valid(table)
    ensures var r := Stored(table, message, limit);
            && r.keys <= table.keys + [Key(message)]
            && (Key(message) in table.values ==> r.keys <= table.keys)
            && (forall k :: k in r.values && k != Key(message) ==>
                  k in table.values && r.values[k] == table.values[k])
            && (Key(message) in r.values ==> r.values[Key(message)] == message)
  {
    var a := Assign(table, Key(message), message);
    StoredIsOldestPrefix(table, message, limit);
    PrefixIsSubmap(a, if |a.keys| <= limit then |a.keys| else limit);
  }

  /** The table after `message_accepted` has handled `message`. */
  function AfterAccept(table: OrderedMap<string, TsMessage>, message: TsMessage, limit: nat)
    : (r: OrderedMap<string, TsMessage>)
    requires Valid(table)
    ensures Valid(r)
    ensures GuiDirective(message.kind) != AddToQueue ==> r == table
    ensures GuiDirective(message.kind) == AddToQueue ==> |r.keys| <= limit
  {
    if GuiDirective(message.kind) == AddToQueue then Stored(table, message, limit) else table
  }

  /** The table after `message_accepted` has handled each of `msgs` in
      turn: it stays valid, stays within the limit once within it, and is
      untouched by messages that are not queued. */
  function AcceptAll(table: OrderedMap<string, TsMessage>, msgs: seq<TsMessage>, limit: nat)
    : (r: OrderedMap<string, TsMessage>)
    requires Valid(table)
    ensures Valid(r)
    ensures |table.keys| <= limit ==> |r.keys| <= limit
    ensures (forall i :: 0 <= i < |msgs| ==> GuiDirective(msgs[i].kind) != AddToQueue) ==> r == table
    decreases |msgs|
  {
    if |msgs| == 0 then table
    else AfterAccept(AcceptAll(table, msgs[..|msgs| - 1], limit), msgs[|msgs| - 1], limit)
  }

  lemma AcceptAllAppend(table: OrderedMap<string, TsMessage>, msgs: seq<TsMessage>, m: TsMessage, limit: nat)
    requires Valid(table)
    ensures AcceptAll(table, msgs + [m], limit) == AfterAccept(AcceptAll(table, msgs, limit), m, limit)
  {
    assert (msgs + [m])[..|msgs|] == msgs;
  }

  class HttpServer {
    /** `self.messages`, an OrderedDict from `str(message_id)` to message. */
    var messages: OrderedMap<string, TsMessage>
    /** `self.messages_limit`. */
    var messagesLimit: nat

    /** The table fields `HttpServer.__init__` sets: an empty table and a
        limit of 100. */
    constructor ()
      ensures messages == Empty() && messagesLimit == DefaultMessagesLimit
    {
      messages := Empty();
      messagesLimit := DefaultMessagesLimit;
    }

    /** A valid table within its limit: `len(self.messages)` is at most
        `messages_limit`. */
    ghost predicate Bounded(): (b: bool)
      reads this
      ensures b ==> |messages.values| <= messagesLimit
    {
      Valid(messages) && (SizeIsKeyCount(messages); |messages.keys| <= messagesLimit)
    }

    /** `HttpServer.message_accepted`: run `on_gui_side` once; only when it
        says `ADD_TO_QUEUE` store the message and trim the table from its
        newest end. The lock around the update is not modelled. */
    method MessageAccepted(message: TsMessage, log: Log)
      requires Valid(messages)
      modifies this, log
      ensures messagesLimit == old(messagesLimit)
      ensures log.records == old(log.records) + [ReceivedOnGui(message.messageId)]
      ensures messages == AfterAccept(old(messages), message, messagesLimit)
      ensures GuiDirective(message.kind) == AddToQueue || old(Bounded()) ==> Bounded()
    {
      var directive := message.OnGuiSide(log);
      if directive == AddToQueue {
        messages := Assign(messages, Key(message), message);
        while |messages.keys| > messagesLimit
          invariant Valid(messages)
          invariant messagesLimit == old(messagesLimit)
          invariant log.records == old(log.records) + [ReceivedOnGui(message.messageId)]
          invariant Trim(messages, messagesLimit) == Stored(old(messages), message, messagesLimit)
          decreases |messages.keys|
        {
          messages := PopItem(messages);
        }
      }
    }
  }
}
