/**
  The transport as a state machine on values: what one call does to the registry, the publisher cache,
  the pending queries and to the entities Zenoh knows. Everything Zenoh decides (whether a declaration,
  a put or a reply succeeds, which handle it gives out, in which order it delivers) is an argument.
*/
module Transport {
  import opened Common
  import opened Wire
  import opened Attributes
  import opened MessageParser
  import opened RequestLedger

  type Key = nat
  type Handle = nat
  type Listener = nat
  type QueryId = nat

  /** A URI: its serialized text, the hash of that text, and whether its resource is an RPC method. */
  datatype UUri = UUri(text: string, key: Key, rpc: bool)

  /** A payload without data counts as empty. */
  datatype UPayload = UPayload(data: Option<seq<Byte>>) {
    predicate Empty() {
      data.None? || data.value == []
    }

    function Bytes(): seq<Byte> {
      if data.None? then [] else data.value
    }
  }

  // ---------- what travels ----------

  /** `len` bytes starting at a pointer; `start` is the memory that can be read from there on. */
  datatype ZBytes = ZBytes(start: Option<seq<Byte>>, len: nat)

  /** A missing "header" entry is a null pointer of length zero. */
  datatype Attachment = NoAttachment | Attachment(header: ZBytes)

  datatype Sample = Sample(payload: seq<Byte>, attachment: Attachment)

  datatype Encoding = AppOctetStream | AppJson | TextPlain

  const PROTOBUF: Int32 := 1
  const JSON: Int32 := 2
  const SOMEIP: Int32 := 3
  const RAW: Int32 := 4

  function EncodingFor(hint: Option<Int32>): Option<Encoding> {
    if hint.None? then Some(TextPlain)
    else if hint.value == PROTOBUF then Some(AppOctetStream)
    else if hint.value == JSON then Some(AppJson)
    else if hint.value == SOMEIP || hint.value == RAW then Some(TextPlain)
    else None
  }

  /** The parser's behaviour on these bytes is defined. */
  predicate Parseable(z: ZBytes) {
    z.start.Some? ==>
      && z.len <= |z.start.value|
      && Decode(z.start.value[..z.len]).Defined()
      && (Decode(z.start.value[..z.len]).Truncated? ==> z.len + LENGTH_BYTES <= |z.start.value|)
      && (Decode(z.start.value[..z.len]).Parsed? ==> Readable(Decode(z.start.value[..z.len]).records))
  }

  predicate ParseableSample(s: Sample) {
    s.attachment.Attachment? ==> Parseable(s.attachment.header)
  }

  predicate HasHeader(s: Sample) {
    s.attachment.Attachment? && s.attachment.header.len != 0 && s.attachment.header.start.Some?
  }

  function AttributesIn(z: ZBytes): Option<UAttributes>
    requires Parseable(z) && z.start.Some?
  {
    var o := Decode(z.start.value[..z.len]);
    if o.Parsed? then AttributesOf(o.records) else None
  }

  /** A header as it arrives: followed by bytes that are not part of it. */
  function Wired(payload: seq<Byte>, header: seq<Byte>, beyond: seq<Byte>): Sample {
    Sample(payload, Attachment(ZBytes(Some(header + beyond), |header|)))
  }

  // ---------- what Zenoh knows ----------

  /** The argument of a callback: the URI it was registered for and the listener to run. */
  datatype Callback = Callback(key: Key, uri: UUri, listener: Listener)

  /** One run of a listener. */
  datatype Event = Event(listener: Listener, uri: UUri, payload: seq<Byte>, attributes: UAttributes)

  datatype Put = Put(publisher: Handle, key: Key, payload: seq<Byte>, header: seq<Byte>, encoding: Encoding)

  datatype Reply =
    Reply(query: QueryId, payload: seq<Byte>, attributes: UAttributes, header: seq<Byte>, encoding: Encoding)

  /**
    Declared entities, and a record of what happened: the puts, the listener runs, the cloned queries
    with the id each was filed under, the clones that can never be answered, and the replies sent.
  */
  datatype World = World(
    publishers: map<Handle, Key>,
    subscribers: map<Handle, Callback>,
    queryables: map<Handle, Callback>,
    puts: seq<Put>,
    received: seq<Event>,
    clones: nat,
    filed: map<QueryId, Uuid>,
    lost: set<QueryId>,
    replies: seq<Reply>)

  /** The parallel vectors kept for one key. */
  datatype Entry = Entry(subs: seq<Handle>, qables: seq<Handle>, listeners: seq<Listener>)

  datatype State = State(pubs: map<Key, Handle>, entries: map<Key, Entry>, pending: map<Uuid, QueryId>, world: World)

  const NO_ENTITIES := World(map[], map[], map[], [], [], 0, map[], {}, [])
  const FRESH := State(map[], map[], map[], NO_ENTITIES)

  // ---------- listeners ----------

  function IndexOf(s: seq<Listener>, x: Listener): (i: nat)
    ensures i <= |s| && (i < |s| <==> x in s)
    ensures i < |s| ==> s[i] == x
    ensures forall j :: 0 <= j < i ==> s[j] != x
  {
    if s == [] || s[0] == x then 0 else
    var i := IndexOf(s[1..], x);
    assert forall j :: 1 <= j < 1 + i ==> s[j] == s[1..][j - 1];
    1 + i
  }

  function Erase<T>(s: seq<T>, i: nat): seq<T>
    requires i < |s|
  {
    s[..i] + s[i + 1..]
  }

  function EntryAt(s: State, key: Key): Entry {
    if key in s.entries then s.entries[key] else Entry([], [], [])
  }

  /** Zenoh learns of a subscriber, or of a queryable for an RPC method. */
  function Declare(w: World, rpc: bool, h: Handle, cb: Callback): World {
    if rpc then w.(queryables := w.queryables[h := cb]) else w.(subscribers := w.subscribers[h := cb])
  }

  function Undeclare(w: World, rpc: bool, h: Handle): World {
    if rpc then w.(queryables := w.queryables - {h}) else w.(subscribers := w.subscribers - {h})
  }

  /** The vectors of a key after a listener and its handle were appended. */
  function Appended(e: Entry, rpc: bool, h: Handle, listener: Listener): Entry {
    if rpc then
      Entry(e.subs, e.qables + [h], e.listeners + [listener])
    else
      Entry(e.subs + [h], e.qables, e.listeners + [listener])
  }

  /** `declared` is the handle Zenoh gives out, or nothing when the declaration fails. */
  function Register(s: State, uri: UUri, listener: Listener, declared: Option<Handle>): (State, UCode) {
    var e := EntryAt(s, uri.key);
    if listener in e.listeners then
      (s, INVALID_ARGUMENT)
    else if declared.None? then
      (s, INTERNAL)
    else
      var h, cb := declared.value, Callback(uri.key, uri, listener);
      (s.(entries := s.entries[uri.key := Appended(e, uri.rpc, h, listener)],
          world := Declare(s.world, uri.rpc, h, cb)), OK)
  }

  /** The position of the listener is a position of the vector its handle is erased from. */
  predicate Erasable(e: Entry, listener: Listener) {
    listener in e.listeners ==>
      IndexOf(e.listeners, listener) < if e.subs != [] then |e.subs| else |e.qables|
  }

  /** The vectors of a key after a listener and its handle were erased. */
  function Dropped(e: Entry, listener: Listener): Entry
    requires listener in e.listeners && Erasable(e, listener)
  {
    var i := IndexOf(e.listeners, listener);
    if e.subs != [] then
      Entry(Erase(e.subs, i), e.qables, Erase(e.listeners, i))
    else
      Entry(e.subs, Erase(e.qables, i), Erase(e.listeners, i))
  }

  /** The handle of a listener. It is a queryable's exactly when there are no subscribers for the key. */
  function HandleFor(e: Entry, listener: Listener): Handle
    requires listener in e.listeners && Erasable(e, listener)
  {
    if e.subs != [] then e.subs[IndexOf(e.listeners, listener)] else e.qables[IndexOf(e.listeners, listener)]
  }

  function Unregister(s: State, uri: UUri, listener: Listener): (State, UCode)
    requires Erasable(EntryAt(s, uri.key), listener)
  {
    if uri.key !in s.entries then
      (s, INVALID_ARGUMENT)
    else
      var e := s.entries[uri.key];
      if listener !in e.listeners then
        (s, OK)
      else
        (s.(entries := s.entries[uri.key := Dropped(e, listener)],
            world := Undeclare(s.world, e.subs == [], HandleFor(e, listener))), OK)
  }

  // ---------- sending ----------

  /** What a subscriber's callback does with a sample: at most one run of its listener. */
  function Handled(sample: Sample, cb: Callback): Option<Event>
    requires ParseableSample(sample)
  {
    if !HasHeader(sample) then None else
    var a := AttributesIn(sample.attachment.header);
    if a.None? then None else Some(Event(cb.listener, cb.uri, sample.payload, a.value))
  }

  /** The listener runs when a sample reaches these callbacks in this order. */
  function RunsOf(sample: Sample, callbacks: seq<Callback>): seq<Event>
    requires ParseableSample(sample)
  {
    if callbacks == [] then [] else
    var e := Handled(sample, callbacks[0]);
    (if e.Some? then [e.value] else []) + RunsOf(sample, callbacks[1..])
  }

  /** What Zenoh answers while a message is sent. */
  datatype Fate = Fate(declared: Option<Handle>, accepted: bool, order: seq<Handle>, beyond: seq<Byte>)

  /** The order names every subscriber of the key exactly once. */
  ghost predicate Delivers(w: World, key: Key, order: seq<Handle>) {
    && (forall i, j :: 0 <= i < j < |order| ==> order[i] != order[j])
    && (forall h :: h in order <==> h in w.subscribers && w.subscribers[h].key == key)
  }

  function CallbacksOf(known: map<Handle, Callback>, order: seq<Handle>): seq<Callback>
    requires forall h :: h in order ==> h in known
  {
    seq(|order|, i requires 0 <= i < |order| => known[order[i]])
  }

  ghost predicate CanPublish(s: State, uri: UUri, payload: UPayload, a: UAttributes, fate: Fate) {
    && Addressable(a)
    && Delivers(s.world, uri.key, fate.order)
    && ParseableSample(Wired(payload.Bytes(), HeaderBytes(a), fate.beyond))
  }

  function WithPut(w: World, put: Put): World {
    w.(puts := w.puts + [put])
  }

  /** The subscribers in this order have been handed the sample. */
  function WithRuns(w: World, sample: Sample, order: seq<Handle>): World
    requires ParseableSample(sample)
    requires forall h :: h in order ==> h in w.subscribers
  {
    w.(received := w.received + RunsOf(sample, CallbacksOf(w.subscribers, order)))
  }

  ghost function SendPublish(s: State, uri: UUri, payload: UPayload, a: UAttributes, fate: Fate): (State, UCode)
    requires CanPublish(s, uri, payload, a, fate)
  {
    if a.kind != PUBLISH then
      (s, INVALID_ARGUMENT)
    else if uri.key !in s.pubs && fate.declared.None? then
      (s, UNAVAILABLE)
    else
      var t := if uri.key in s.pubs then s else
               s.(pubs := s.pubs[uri.key := fate.declared.value],
                  world := s.world.(publishers := s.world.publishers[fate.declared.value := uri.key]));
      if EncodingFor(a.hint).None? || !fate.accepted then
        (t, UNAVAILABLE)
      else
        var put := Put(t.pubs[uri.key], uri.key, payload.Bytes(), HeaderBytes(a), EncodingFor(a.hint).value);
        var sample := Wired(payload.Bytes(), HeaderBytes(a), fate.beyond);
        (t.(world := WithRuns(WithPut(t.world, put), sample, fate.order)), OK)
  }

  function WithReply(w: World, reply: Reply): World {
    w.(replies := w.replies + [reply])
  }

  function SendQueryable(s: State, payload: UPayload, a: UAttributes, accepted: bool): (State, UCode) {
    if a.kind != RESPONSE then
      (s, INVALID_ARGUMENT)
    else if a.id !in s.pending then
      (s, UNAVAILABLE)
    else if EncodingFor(a.hint).None? || !accepted then
      (s, INTERNAL)
    else
      var reply := Reply(s.pending[a.id], payload.Bytes(), a, HeaderBytes(a), EncodingFor(a.hint).value);
      (s.(pending := s.pending - {a.id}, world := WithReply(s.world, reply)), OK)
  }

  ghost predicate CanSend(s: State, uri: UUri, payload: UPayload, a: UAttributes, fate: Fate) {
    if uri.rpc then Addressable(a) else CanPublish(s, uri, payload, a, fate)
  }

  ghost function Send(s: State, uri: UUri, payload: UPayload, a: UAttributes, fate: Fate): (State, UCode)
    requires CanSend(s, uri, payload, a, fate)
  {
    if payload.Empty() then (s, UNAVAILABLE)
    else if uri.rpc then SendQueryable(s, payload, a, fate.accepted)
    else SendPublish(s, uri, payload, a, fate)
  }

  // ---------- incoming queries ----------

  function Answered(w: World): set<QueryId> {
    set r | r in w.replies :: r.query
  }

  /** The queries of a transport, seen as a request ledger. */
  function Queries(pending: map<Uuid, QueryId>, w: World): Ledger<Uuid> {
    Ledger(pending, w.clones, w.filed, w.lost, Answered(w))
  }

  function LedgerOf(s: State): Ledger<Uuid> {
    Queries(s.pending, s.world)
  }

  /** The world after clones were made, filed or lost; replies are recorded where they are sent. */
  function Recorded(w: World, l: Ledger<Uuid>): World {
    w.(clones := l.clones, filed := l.filed, lost := l.lost)
  }

  function Ran(w: World, e: Event): World {
    w.(received := w.received + [e])
  }

  /** A query reaches a queryable's callback: it is cloned, filed under its id, and handed to the listener. */
  function Query(s: State, query: Sample, cb: Callback): State
    requires ParseableSample(query)
  {
    if !HasHeader(query) then s else
    var a := AttributesIn(query.attachment.header);
    if a.None? then
      s.(world := Recorded(s.world, Unread(LedgerOf(s))))
    else
      var l := File(LedgerOf(s), a.value.id);
      var w := Recorded(s.world, l);
      s.(pending := l.pending,
         world := if a.value.kind != REQUEST then w else Ran(w, Event(cb.listener, cb.uri, query.payload, a.value)))
  }

  // ---------- the end of the object's life ----------

  function WithoutPublishers(w: World, gone: set<Handle>): World {
    w.(publishers := w.publishers - gone)
  }

  function WithoutSubscribers(w: World, gone: set<Handle>): World {
    w.(subscribers := w.subscribers - gone)
  }

  /** Publishers and subscribers are undeclared; the queryables are not. */
  function Destroyed(s: State): State {
    State(map[], map[], s.pending,
          WithoutSubscribers(WithoutPublishers(s.world, set k | k in s.pubs :: s.pubs[k]), AllSubs(s)))
  }

  function AllSubs(s: State): set<Handle> {
    set k, h | k in s.entries && h in s.entries[k].subs :: h
  }

  function AllQables(s: State): set<Handle> {
    set k, h | k in s.entries && h in s.entries[k].qables :: h
  }
}
