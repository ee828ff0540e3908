/** What every call keeps: registry and Zenoh stay in step, publishers are cached once, no query is answered twice. */
module TransportInvariants {
  import opened Common
  import opened Attributes
  import opened Transport
  import opened RequestLedger

  // ---------- the registry ----------

  /** One of the two handle vectors is in use, and it is as long as the listener vector. */
  ghost predicate Lockstep(e: Entry) {
    || (e.qables == [] && |e.subs| == |e.listeners|)
    || (e.subs == [] && |e.qables| == |e.listeners|)
  }

  ghost predicate Distinct(s: seq<Listener>) {
    forall i, j :: 0 <= i < j < |s| ==> s[i] != s[j]
  }

  /** Handle i of a vector is declared, for this key and kind, with listener i as callback argument. */
  ghost predicate Aligned(handles: seq<Handle>, listeners: seq<Listener>, key: Key, rpc: bool,
                          known: map<Handle, Callback>) {
    && (handles != [] ==> |handles| == |listeners|)
    && forall i :: 0 <= i < |handles| ==>
         && handles[i] in known
         && known[handles[i]].key == known[handles[i]].uri.key == key
         && known[handles[i]].uri.rpc == rpc
         && known[handles[i]].listener == listeners[i]
  }

  ghost predicate EntryOk(key: Key, e: Entry, subscribers: map<Handle, Callback>, queryables: map<Handle, Callback>) {
    && Lockstep(e)
    && Distinct(e.listeners)
    && Aligned(e.subs, e.listeners, key, false, subscribers)
    && Aligned(e.qables, e.listeners, key, true, queryables)
  }

  ghost predicate EntriesOk(entries: map<Key, Entry>,
                            subscribers: map<Handle, Callback>, queryables: map<Handle, Callback>) {
    forall k :: k in entries ==> EntryOk(k, entries[k], subscribers, queryables)
  }

  function HandlesOf(e: Entry, rpc: bool): seq<Handle> {
    if rpc then e.qables else e.subs
  }

  /** Whatever is declared is kept in the vector of its key and kind. */
  ghost predicate Kept(entries: map<Key, Entry>, known: map<Handle, Callback>, rpc: bool) {
    forall h :: h in known ==> known[h].key in entries && h in HandlesOf(entries[known[h].key], rpc)
  }

  ghost predicate RegistryInv(s: State) {
    && EntriesOk(s.entries, s.world.subscribers, s.world.queryables)
    && Kept(s.entries, s.world.subscribers, false)
    && Kept(s.entries, s.world.queryables, true)
  }

  /** Zenoh does not give out a handle that is in use. */
  predicate FreshHandle(w: World, h: Option<Handle>) {
    h.Some? ==> h.value !in w.publishers && h.value !in w.subscribers && h.value !in w.queryables
  }

  /** The key is not in use for URIs of the other kind. */
  predicate SameKind(e: Entry, rpc: bool) {
    e.listeners != [] ==> (rpc <==> e.qables != [])
  }

  /** Replacing the vectors of one key keeps what is declared for it, if the new vectors do. */
  lemma ReplaceEntry(entries: map<Key, Entry>, known: map<Handle, Callback>, known': map<Handle, Callback>,
                     rpc: bool, key: Key, e: Entry)
    requires Kept(entries, known, rpc)
    requires forall h :: h in known' && !(h in known && known[h] == known'[h]) ==>
               known'[h].key == key && h in HandlesOf(e, rpc)
    requires key in entries ==> forall h :: h in HandlesOf(entries[key], rpc) && h in known' ==> h in HandlesOf(e, rpc)
    ensures Kept(entries[key := e], known', rpc)
  {
  }

  lemma AppendedOk(e: Entry, uri: UUri, listener: Listener, h: Handle, w: World)
    requires EntryOk(uri.key, e, w.subscribers, w.queryables) && SameKind(e, uri.rpc) && listener !in e.listeners
    requires h !in w.subscribers && h !in w.queryables
    ensures var f, v := Appended(e, uri.rpc, h, listener), Declare(w, uri.rpc, h, Callback(uri.key, uri, listener));
            && EntryOk(uri.key, f, v.subscribers, v.queryables)
            && h in HandlesOf(f, uri.rpc)
            && (forall g :: g in e.subs ==> g in f.subs)
            && (forall g :: g in e.qables ==> g in f.qables)
  {
  }

  lemma RegisterKeepsRegistry(s: State, uri: UUri, listener: Listener, declared: Option<Handle>)
    requires RegistryInv(s) && FreshHandle(s.world, declared) && SameKind(EntryAt(s, uri.key), uri.rpc)
    ensures RegistryInv(Register(s, uri, listener, declared).0)
  {
    var e := EntryAt(s, uri.key);
    if listener !in e.listeners && declared.Some? {
      var h := declared.value;
      var f, v := Appended(e, uri.rpc, h, listener), Declare(s.world, uri.rpc, h, Callback(uri.key, uri, listener));
      AppendedOk(e, uri, listener, h, s.world);
      ReplaceEntry(s.entries, s.world.subscribers, v.subscribers, false, uri.key, f);
      ReplaceEntry(s.entries, s.world.queryables, v.queryables, true, uri.key, f);
      OthersStayOk(s.entries, s.world, v, uri.key, f);
    }
  }

  /** Declarations that leave the handles of other keys alone leave their vectors as they should be. */
  lemma OthersStayOk(entries: map<Key, Entry>, w: World, v: World, key: Key, e: Entry)
    requires EntriesOk(entries, w.subscribers, w.queryables)
    requires EntryOk(key, e, v.subscribers, v.queryables)
    requires forall h :: h in w.subscribers && w.subscribers[h].key != key ==>
               h in v.subscribers && v.subscribers[h] == w.subscribers[h]
    requires forall h :: h in w.queryables && w.queryables[h].key != key ==>
               h in v.queryables && v.queryables[h] == w.queryables[h]
    ensures EntriesOk(entries[key := e], v.subscribers, v.queryables)
  {
  }

  /**
    Registering a new listener keeps the vectors of its key in lockstep exactly when the key is not in
    use for the other kind of URI.
  */
  lemma LockstepNeedsOneKind(s: State, uri: UUri, listener: Listener, declared: Option<Handle>)
    requires Lockstep(EntryAt(s, uri.key))
    requires Register(s, uri, listener, declared).1 == OK
    ensures var t := Register(s, uri, listener, declared).0;
            Lockstep(EntryAt(t, uri.key)) <==> SameKind(EntryAt(s, uri.key), uri.rpc)
  {
  }

  /** In a state the calls can reach, unregistering never erases past the end of a vector. */
  lemma AlwaysErasable(s: State, uri: UUri, listener: Listener)
    requires RegistryInv(s)
    ensures Erasable(EntryAt(s, uri.key), listener)
  {
  }

  lemma EraseAt<T>(s: seq<T>, i: nat)
    requires i < |s|
    ensures |Erase(s, i)| == |s| - 1
    ensures forall j :: 0 <= j < |s| - 1 ==> Erase(s, i)[j] == if j < i then s[j] else s[j + 1]
    ensures forall x :: x in s ==> x == s[i] || x in Erase(s, i)
    ensures forall x :: x in Erase(s, i) ==> x in s
  {
  }

  /** Erasing one position of handles and listeners keeps what is left aligned. */
  lemma EraseAligned(handles: seq<Handle>, listeners: seq<Listener>, i: nat, key: Key, rpc: bool,
                     known: map<Handle, Callback>)
    requires i < |handles| == |listeners| && Distinct(listeners) && Aligned(handles, listeners, key, rpc, known)
    ensures Distinct(Erase(listeners, i))
    ensures Aligned(Erase(handles, i), Erase(listeners, i), key, rpc, known - {handles[i]})
    ensures handles[i] !in Erase(handles, i)
  {
  }

  lemma DroppedOk(key: Key, e: Entry, w: World, listener: Listener)
    requires EntryOk(key, e, w.subscribers, w.queryables) && listener in e.listeners
    ensures Erasable(e, listener)
    ensures var f, h, rpc := Dropped(e, listener), HandleFor(e, listener), e.subs == [];
            var v := Undeclare(w, rpc, h);
            && EntryOk(key, f, v.subscribers, v.queryables)
            && h in (if rpc then w.queryables else w.subscribers)
            && (if rpc then w.queryables else w.subscribers)[h].key == key
            && (forall l :: l in f.listeners <==> l in e.listeners && l != listener)
            && (forall g :: g in e.subs ==> g in f.subs || (!rpc && g == h))
            && (forall g :: g in e.qables ==> g in f.qables || (rpc && g == h))
  {
    var i := IndexOf(e.listeners, listener);
    EraseAt(e.listeners, i);
    if e.subs != [] {
      EraseAligned(e.subs, e.listeners, i, key, false, w.subscribers);
      EraseAt(e.subs, i);
    } else {
      EraseAligned(e.qables, e.listeners, i, key, true, w.queryables);
      EraseAt(e.qables, i);
    }
    assert listener !in Erase(e.listeners, i);
  }

  lemma UnregisterKeepsRegistry(s: State, uri: UUri, listener: Listener)
    requires RegistryInv(s)
    ensures Erasable(EntryAt(s, uri.key), listener)
    ensures RegistryInv(Unregister(s, uri, listener).0)
  {
    AlwaysErasable(s, uri, listener);
    if uri.key in s.entries && listener in s.entries[uri.key].listeners {
      var e := s.entries[uri.key];
      var f, v := Dropped(e, listener), Undeclare(s.world, e.subs == [], HandleFor(e, listener));
      DroppedOk(uri.key, e, s.world, listener);
      ReplaceEntry(s.entries, s.world.subscribers, v.subscribers, false, uri.key, f);
      ReplaceEntry(s.entries, s.world.queryables, v.queryables, true, uri.key, f);
      OthersStayOk(s.entries, s.world, v, uri.key, f);
    }
  }

  // ---------- the registry as a relation ----------

  /** Who listens to what. */
  function Pairs(s: State): set<(Key, Listener)> {
    PairsIn(s.entries)
  }

  function PairsIn(entries: map<Key, Entry>): set<(Key, Listener)> {
    set k, l | k in entries && l in entries[k].listeners :: (k, l)
  }

  lemma PairsAfter(entries: map<Key, Entry>, key: Key, e: Entry, listener: Listener)
    ensures (forall l :: l in e.listeners <==> l == listener || (key in entries && l in entries[key].listeners)) ==>
              PairsIn(entries[key := e]) == PairsIn(entries) + {(key, listener)}
    ensures (forall l :: l in e.listeners <==> l != listener && key in entries && l in entries[key].listeners) ==>
              PairsIn(entries[key := e]) == PairsIn(entries) - {(key, listener)}
  {
  }

  /** A successful registration adds exactly one pair; any other changes nothing at all. */
  lemma RegisterAddsOnePair(s: State, uri: UUri, listener: Listener, declared: Option<Handle>)
    ensures var (t, status) := Register(s, uri, listener, declared);
            && status == (if (uri.key, listener) in Pairs(s) then INVALID_ARGUMENT
                          else if declared.None? then INTERNAL
                          else OK)
            && (status == OK ==> Pairs(t) == Pairs(s) + {(uri.key, listener)})
            && (status != OK ==> t == s)
  {
  }

  /** Unregistering removes exactly the pair it names, and is an error only for a key never registered. */
  lemma UnregisterRemovesOnePair(s: State, uri: UUri, listener: Listener)
    requires RegistryInv(s)
    ensures Erasable(EntryAt(s, uri.key), listener)
    ensures var (t, status) := Unregister(s, uri, listener);
            && Pairs(t) == Pairs(s) - {(uri.key, listener)}
            && status == (if uri.key in s.entries then OK else INVALID_ARGUMENT)
  {
    AlwaysErasable(s, uri, listener);
    if uri.key in s.entries && listener in s.entries[uri.key].listeners {
      DroppedOk(uri.key, s.entries[uri.key], s.world, listener);
      PairsAfter(s.entries, uri.key, Dropped(s.entries[uri.key], listener), listener);
      hide PairsIn, EntryOk;
    }
  }

  /** Unregistering what was just registered restores every vector of the key and all of Zenoh's entities. */
  lemma RegisterThenUnregister(s: State, uri: UUri, listener: Listener, declared: Option<Handle>)
    requires RegistryInv(s) && FreshHandle(s.world, declared) && SameKind(EntryAt(s, uri.key), uri.rpc)
    requires Register(s, uri, listener, declared).1 == OK
    ensures var t := Register(s, uri, listener, declared).0;
            && Erasable(EntryAt(t, uri.key), listener)
            && Unregister(t, uri, listener).1 == OK
            && Unregister(t, uri, listener).0 == s.(entries := s.entries[uri.key := EntryAt(s, uri.key)])
  {
    var t := Register(s, uri, listener, declared).0;
    var e, h := EntryAt(s, uri.key), declared.value;
    if uri.key in s.entries {
      assert EntryOk(uri.key, e, s.world.subscribers, s.world.queryables);
    }
    DroppedAppended(e, uri.rpc, h, listener);
    DeclareUndeclare(s.world, uri.rpc, h, Callback(uri.key, uri, listener));
    hide RegistryInv, EntryOk, Appended, Dropped, Declare, Undeclare, HandleFor, Erasable;
    assert s.entries[uri.key := EntryAt(t, uri.key)][uri.key := e] == s.entries[uri.key := e];
  }

  lemma DeclareUndeclare(w: World, rpc: bool, h: Handle, cb: Callback)
    requires h !in w.subscribers && h !in w.queryables
    ensures Undeclare(Declare(w, rpc, h, cb), rpc, h) == w
  {
  }

  lemma DroppedAppended(e: Entry, rpc: bool, h: Handle, listener: Listener)
    requires Lockstep(e) && SameKind(e, rpc) && listener !in e.listeners
    ensures var f := Appended(e, rpc, h, listener);
            && listener in f.listeners
            && Erasable(f, listener)
            && Dropped(f, listener) == e
            && HandleFor(f, listener) == h
            && (f.subs == [] <==> rpc)
  {
    var f := Appended(e, rpc, h, listener);
    var n := |e.listeners|;
    assert f.listeners[n] == listener;
    assert IndexOf(f.listeners, listener) == n;
    assert Erase(f.listeners, n) == e.listeners;
    if rpc {
      assert Erase(f.qables, n) == e.qables;
    } else {
      assert Erase(f.subs, n) == e.subs;
    }
  }

  ghost predicate Declared(w: World, h: Handle, p: (Key, Listener)) {
    || (h in w.subscribers && (w.subscribers[h].key, w.subscribers[h].listener) == p)
    || (h in w.queryables && (w.queryables[h].key, w.queryables[h].listener) == p)
  }

  /** Declared subscribers and queryables correspond one to one to the registered pairs. */
  lemma EntitiesArePairs(s: State)
    requires RegistryInv(s)
    ensures forall p :: p in Pairs(s) ==> exists h :: Declared(s.world, h, p)
    ensures forall h, p :: Declared(s.world, h, p) ==> p in Pairs(s)
    ensures forall h, g, p :: Declared(s.world, h, p) && Declared(s.world, g, p) ==> h == g
  {
    forall p | p in Pairs(s)
      ensures exists h :: Declared(s.world, h, p)
    {
      var e := s.entries[p.0];
      assert EntryOk(p.0, e, s.world.subscribers, s.world.queryables);
      var i := IndexOf(e.listeners, p.1);
      assert Declared(s.world, if e.subs != [] then e.subs[i] else e.qables[i], p);
    }
    forall h, p | Declared(s.world, h, p)
      ensures p in Pairs(s) && HandleOf(s, p) == h
    {
      OneHandle(s, h, p);
    }
  }

  /** Where the registry keeps the handle of a pair. */
  ghost function HandleOf(s: State, p: (Key, Listener)): Handle {
    var e := EntryAt(s, p.0);
    var i := IndexOf(e.listeners, p.1);
    if i < |e.subs| then e.subs[i] else if i < |e.qables| then e.qables[i] else 0
  }

  lemma OneHandle(s: State, h: Handle, p: (Key, Listener))
    requires RegistryInv(s) && Declared(s.world, h, p)
    ensures p in Pairs(s) && HandleOf(s, p) == h
  {
    var e := s.entries[p.0];
    assert EntryOk(p.0, e, s.world.subscribers, s.world.queryables);
    if h in s.world.subscribers && (s.world.subscribers[h].key, s.world.subscribers[h].listener) == p {
      PositionOf(e.subs, e.listeners, p.0, false, s.world.subscribers, h);
    } else {
      PositionOf(e.qables, e.listeners, p.0, true, s.world.queryables, h);
    }
  }

  /** A handle sits where its listener sits. */
  lemma PositionOf(handles: seq<Handle>, listeners: seq<Listener>, key: Key, rpc: bool,
                   known: map<Handle, Callback>, h: Handle)
    requires Aligned(handles, listeners, key, rpc, known) && Distinct(listeners) && h in handles && h in known
    ensures known[h].listener in listeners
    ensures IndexOf(listeners, known[h].listener) < |handles| && handles[IndexOf(listeners, known[h].listener)] == h
  {
  }

  // ---------- the publisher cache ----------

  /** The cache and the declared publishers are the same relation, and every put used the cached publisher. */
  ghost predicate PublisherInv(s: State) {
    && (forall k :: k in s.pubs ==> s.pubs[k] in s.world.publishers && s.world.publishers[s.pubs[k]] == k)
    && (forall h :: h in s.world.publishers ==>
          s.world.publishers[h] in s.pubs && s.pubs[s.world.publishers[h]] == h)
    && (forall p :: p in s.world.puts ==> p.key in s.pubs && s.pubs[p.key] == p.publisher)
  }

  lemma SendKeepsPublishers(s: State, uri: UUri, payload: UPayload, a: UAttributes, fate: Fate)
    requires PublisherInv(s) && CanSend(s, uri, payload, a, fate) && FreshHandle(s.world, fate.declared)
    ensures PublisherInv(Send(s, uri, payload, a, fate).0)
    ensures var t := Send(s, uri, payload, a, fate).0;
            forall k :: k in s.pubs ==> k in t.pubs && t.pubs[k] == s.pubs[k]
  {
    hide HeaderBytes, RunsOf, Wired, ParseableSample, Delivers, CallbacksOf, Addressable;
  }

  // ---------- pending queries ----------

  /** A reply carries the id its query was filed under, a header that was built, and a payload. */
  ghost predicate ReplyOk(filed: map<QueryId, Uuid>, r: Reply) {
    && r.query in filed
    && r.attributes.id == filed[r.query]
    && r.attributes.kind == RESPONSE
    && r.payload != []
    && Addressable(r.attributes)
    && r.header == HeaderBytes(r.attributes)
  }

  /** Replies are as they should be, and no clone gets two. */
  ghost predicate Answers(w: World) {
    && (forall i :: 0 <= i < |w.replies| ==> ReplyOk(w.filed, w.replies[i]))
    && (forall i, j :: 0 <= i < j < |w.replies| ==> w.replies[i].query != w.replies[j].query)
    && |Answered(w)| == |w.replies|
  }

  ghost predicate QueryInv(s: State) {
    Inv(LedgerOf(s)) && Answers(s.world)
  }

  /** An incoming query touches neither registry nor cache nor replies. */
  lemma QueryLeaves(s: State, query: Sample, cb: Callback)
    requires ParseableSample(query)
    ensures var t := Query(s, query, cb);
            && t.pubs == s.pubs && t.entries == s.entries
            && t.world.publishers == s.world.publishers && t.world.subscribers == s.world.subscribers
            && t.world.queryables == s.world.queryables && t.world.puts == s.world.puts
            && t.world.replies == s.world.replies
  {
    hide AttributesIn, Parseable;
  }

  /** An incoming query is one step of the ledger. */
  lemma QueryIsLedgerStep(s: State, query: Sample, cb: Callback)
    requires ParseableSample(query)
    ensures var t := Query(s, query, cb);
            LedgerOf(t) ==
            if !HasHeader(query) then LedgerOf(s)
            else if AttributesIn(query.attachment.header).None? then Unread(LedgerOf(s))
            else File(LedgerOf(s), AttributesIn(query.attachment.header).value.id)
  {
    QueryLeaves(s, query, cb);
    hide AttributesIn, Parseable, Answered;
    if HasHeader(query) && AttributesIn(query.attachment.header).Some? {
      var l := File(LedgerOf(s), AttributesIn(query.attachment.header).value.id);
      assert LedgerOf(s.(pending := l.pending, world := Recorded(s.world, l))) == l;
    }
  }

  lemma QueryKeepsQueries(s: State, query: Sample, cb: Callback)
    requires QueryInv(s) && ParseableSample(query)
    ensures QueryInv(Query(s, query, cb))
  {
    var t := Query(s, query, cb);
    QueryLeaves(s, query, cb);
    QueryIsLedgerStep(s, query, cb);
    FilesOnlyNew(LedgerOf(s));
    hide HeaderBytes, AttributesIn, Parseable, Query;
    assert t.world.filed == LedgerOf(t).filed;
    KeepAnswers(s.world, t.world);
    if HasHeader(query) {
      if AttributesIn(query.attachment.header).None? {
        UnreadKeeps(LedgerOf(s));
      } else {
        FileKeeps(LedgerOf(s), AttributesIn(query.attachment.header).value.id);
      }
    }
    hide Inv, Answers;
  }

  lemma FilesOnlyNew(l: Ledger<Uuid>)
    requires Inv(l)
    ensures l.clones !in l.filed
  {
  }

  lemma KeepAnswers(w: World, v: World)
    requires Answers(w) && v.replies == w.replies
    requires forall q :: q in w.filed ==> q in v.filed && v.filed[q] == w.filed[q]
    ensures Answers(v)
  {
  }

  /** A message sent is an answer in the ledger exactly when it is a response that was accepted. */
  lemma SendIsLedgerStep(s: State, uri: UUri, payload: UPayload, a: UAttributes, fate: Fate)
    requires CanSend(s, uri, payload, a, fate)
    ensures var (t, status) := Send(s, uri, payload, a, fate);
            if uri.rpc && status == OK then a.id in s.pending && LedgerOf(t) == Answer(LedgerOf(s), a.id)
            else LedgerOf(t) == LedgerOf(s) && t.world.replies == s.world.replies
  {
    hide HeaderBytes, RunsOf, Wired, ParseableSample, CallbacksOf;
    var (t, status) := Send(s, uri, payload, a, fate);
    if uri.rpc && status == OK {
      AnsweredOneMore(s.world.replies, t.world.replies[|s.world.replies|]);
    }
  }

  lemma AnsweredOneMore(replies: seq<Reply>, r: Reply)
    ensures (set x | x in replies + [r] :: x.query) == (set x | x in replies :: x.query) + {r.query}
  {
  }

  lemma SendKeepsQueries(s: State, uri: UUri, payload: UPayload, a: UAttributes, fate: Fate)
    requires QueryInv(s) && CanSend(s, uri, payload, a, fate)
    ensures QueryInv(Send(s, uri, payload, a, fate).0)
  {
    hide HeaderBytes, RunsOf, Wired, ParseableSample, CallbacksOf;
    var (t, status) := Send(s, uri, payload, a, fate);
    SendIsLedgerStep(s, uri, payload, a, fate);
    if uri.rpc && status == OK {
      AnswerKeeps(LedgerOf(s), a.id);
      var r := t.world.replies[|s.world.replies|];
      PendingIsFiled(LedgerOf(s), a.id);
      MoreAnswers(s.world, t.world, r);
    } else {
      KeepAnswers(s.world, t.world);
    }
  }

  lemma PendingIsFiled(l: Ledger<Uuid>, id: Uuid)
    requires Inv(l) && id in l.pending
    ensures var q := l.pending[id]; q in l.filed && l.filed[q] == id && q !in l.answered
  {
  }

  lemma MoreAnswers(w: World, v: World, r: Reply)
    requires Answers(w) && v.replies == w.replies + [r] && v.filed == w.filed
    requires ReplyOk(w.filed, r) && r.query !in Answered(w)
    ensures Answers(v)
  {
    hide HeaderBytes, ReplyOk;
    AnsweredOneMore(w.replies, r);
    forall i | 0 <= i < |w.replies|
      ensures w.replies[i].query != r.query
    {
      assert w.replies[i] in w.replies && w.replies[i].query in Answered(w);
    }
  }
}
