/** The transport object: the methods update its maps and vectors in place, each exactly as `Transport` specifies. */
module UTransport {
  import opened Common
  import opened Attributes
  import opened Transport
  import opened RequestLedger
  import MessageBuilder
  import MessageParser

  class ListenerContainer {
    var subVector: seq<Handle>
    var queryVector: seq<Handle>
    var listenerVector: seq<Listener>
    /** The key the container is made for. */
    ghost const key: Key

    constructor (ghost key: Key)
      ensures View() == Entry([], [], []) && this.key == key
    {
      this.key := key;
      subVector, queryVector, listenerVector := [], [], [];
    }

    ghost function View(): Entry
      reads this
    {
      Entry(subVector, queryVector, listenerVector)
    }

    method PushBack(rpc: bool, handle: Handle, listener: Listener)
      modifies this
      ensures View() == Appended(old(View()), rpc, handle, listener)
    {
      if !rpc {
        subVector := subVector + [handle];
        listenerVector := listenerVector + [listener];
      } else {
        queryVector := queryVector + [handle];
        listenerVector := listenerVector + [listener];
      }
    }

    /** Erase the listener at `index` and the handle at the same index; `isSub` says of which vector. */
    method EraseAt(index: nat) returns (isSub: bool, handle: Handle)
      requires index < |listenerVector| && listenerVector[index] !in listenerVector[..index]
      requires Erasable(View(), listenerVector[index])
      modifies this
      ensures View() == Dropped(old(View()), old(listenerVector[index]))
      ensures isSub == (old(subVector) != []) && handle == HandleFor(old(View()), old(listenerVector[index]))
    {
      FirstPosition(listenerVector, listenerVector[index], index);
      listenerVector := Erase(listenerVector, index);
      isSub := subVector != [];
      if isSub {
        handle := subVector[index];
        subVector := Erase(subVector, index);
      } else {
        handle := queryVector[index];
        queryVector := Erase(queryVector, index);
      }
    }

    method ClearSubscribers()
      modifies this
      ensures View() == Entry([], old(queryVector), [])
    {
      listenerVector := [];
      subVector := [];
    }
  }

  lemma FirstPosition(s: seq<Listener>, x: Listener, i: nat)
    requires i < |s| && s[i] == x && x !in s[..i]
    ensures IndexOf(s, x) == i
  {
  }

  ghost function EntriesOf(containers: map<Key, ListenerContainer>): map<Key, Entry>
    reads containers.Values
  {
    map k | k in containers :: containers[k].View()
  }

  /** Replacing one container's contents replaces one entry. */
  lemma OneEntryChanged(containers: map<Key, ListenerContainer>, before: map<Key, Entry>, key: Key)
    requires key in containers && containers.Keys == before.Keys + {key}
    requires forall k :: k in before && k != key ==> containers[k].View() == before[k]
    ensures EntriesOf(containers) == before[key := containers[key].View()]
  {
  }

  /** The two parser calls every handler of incoming messages makes. */
  method ReadHeader(index: ZBytes) returns (attributes: Option<UAttributes>)
    requires Parseable(index) && index.start.Some?
    ensures attributes == AttributesIn(index)
  {
    var allTlv := MessageParser.GetAllTlv(index.start, index.len);
    if allTlv.None? {
      return None;
    }
    attributes := MessageParser.GetAttributes(allTlv.value);
  }

  class ZenohUTransport {
    var pubHandleMap: map<Key, Handle>
    var listenerMap: map<Key, ListenerContainer>
    var queryMap: map<Uuid, QueryId>
    /** Zenoh's side: what it has declared and delivered. Not a field of the object itself. */
    var world: World

    /** No two keys share a container. */
    ghost predicate Valid()
      reads this
    {
      forall k :: k in listenerMap ==> listenerMap[k].key == k
    }

    ghost function View(): State
      reads this, listenerMap.Values
    {
      State(pubHandleMap, EntriesOf(listenerMap), queryMap, world)
    }

    constructor ()
      ensures Valid() && View() == FRESH
    {
      pubHandleMap, listenerMap, queryMap := map[], map[], map[];
      world := NO_ENTITIES;
    }

    method RegisterListener(uri: UUri, listener: Listener, declared: Option<Handle>) returns (status: UCode)
      requires Valid()
      modifies this, listenerMap.Values
      ensures Valid() && fresh(listenerMap.Values - old(listenerMap.Values))
      ensures (View(), status) == Register(old(View()), uri, listener, declared)
    {
      hide Appended, Declare;
      ghost var before := View();
      var container: ListenerContainer? := null;
      if uri.key in listenerMap {
        container := listenerMap[uri.key];
        var found := Contains(container.listenerVector, listener);
        if found {
          return INVALID_ARGUMENT;
        }
        assert container.View() == before.entries[uri.key];
      }
      if container == null {
        container := new ListenerContainer(uri.key);
      }
      ghost var e := container.View();
      assert e == EntryAt(before, uri.key);
      if declared.None? {
        assert EntriesOf(listenerMap) == before.entries;
        return INTERNAL;
      }
      container.PushBack(uri.rpc, declared.value, listener);
      world := Declare(world, uri.rpc, declared.value, Callback(uri.key, uri, listener));
      listenerMap := listenerMap[uri.key := container];
      OneEntryChanged(listenerMap, before.entries, uri.key);
      hide EntriesOf;
      status := OK;
    }

    static method Contains(listeners: seq<Listener>, listener: Listener) returns (found: bool)
      ensures found <==> listener in listeners
    {
      for i := 0 to |listeners|
        invariant listener !in listeners[..i]
      {
        if listeners[i] == listener {
          return true;
        }
      }
      assert listeners[..|listeners|] == listeners;
      return false;
    }

    method UnregisterListener(uri: UUri, listener: Listener) returns (status: UCode)
      requires Valid() && Erasable(EntryAt(View(), uri.key), listener)
      modifies this, listenerMap.Values
      ensures Valid() && listenerMap == old(listenerMap)
      ensures (View(), status) == Unregister(old(View()), uri, listener)
    {
      ghost var before := View();
      if uri.key !in listenerMap {
        return INVALID_ARGUMENT;
      }
      var container := listenerMap[uri.key];
      ghost var e := container.View();
      var index := 0;
      while index < |container.listenerVector|
        invariant index <= |container.listenerVector|
        invariant listener !in container.listenerVector[..index]
        invariant View() == before && container.View() == e
      {
        if container.listenerVector[index] == listener {
          var isSub, handle := container.EraseAt(index);
          world := Undeclare(world, !isSub, handle);
          OneEntryChanged(listenerMap, before.entries, uri.key);
          return OK;
        }
        index := index + 1;
      }
      assert container.listenerVector[..index] == e.listeners;
      assert EntriesOf(listenerMap) == before.entries;
      return OK;
    }

    method Send(uri: UUri, payload: UPayload, attributes: UAttributes, fate: Fate) returns (status: UCode)
      requires Valid() && CanSend(View(), uri, payload, attributes, fate)
      modifies this
      ensures Valid() && listenerMap == old(listenerMap)
      ensures (View(), status) == Transport.Send(old(View()), uri, payload, attributes, fate)
    {
      if payload.Empty() {
        return UNAVAILABLE;
      }
      if !uri.rpc {
        status := SendPublish(uri, payload, attributes, fate);
      } else {
        status := SendQueryable(uri, payload, attributes, fate.accepted);
      }
    }

    method SendPublish(uri: UUri, payload: UPayload, attributes: UAttributes, fate: Fate) returns (status: UCode)
      requires Valid() && CanPublish(View(), uri, payload, attributes, fate)
      modifies this
      ensures Valid() && listenerMap == old(listenerMap)
      ensures (View(), status) == Transport.SendPublish(old(View()), uri, payload, attributes, fate)
    {
      hide EntriesOf, HeaderBytes, RunsOf, Wired, ParseableSample, CallbacksOf;
      status := UNAVAILABLE;
      if attributes.kind != PUBLISH {
        return INVALID_ARGUMENT;
      }
      var pub;
      if uri.key !in pubHandleMap {
        if fate.declared.None? {
          return;
        }
        pub := fate.declared.value;
        world := world.(publishers := world.publishers[pub := uri.key]);
        pubHandleMap := pubHandleMap[uri.key := pub];
      } else {
        pub := pubHandleMap[uri.key];
      }
      var header, _ := MessageBuilder.BuildHeader(attributes);
      var encoding := EncodingFor(attributes.hint);
      if encoding.None? {
        return;
      }
      if !fate.accepted {
        return;
      }
      world := WithPut(world, Put(pub, uri.key, payload.Bytes(), header[..], encoding.value));
      Deliver(Wired(payload.Bytes(), header[..], fate.beyond), fate.order);
      status := OK;
    }

    /** What a put makes Zenoh do: call the handler of each subscriber with the sample. */
    method Deliver(sample: Sample, order: seq<Handle>)
      requires ParseableSample(sample) && forall h :: h in order ==> h in world.subscribers
      modifies this`world
      ensures world == WithRuns(old(world), sample, order)
    {
      hide Handled, ParseableSample;
      ghost var callbacks := CallbacksOf(world.subscribers, order);
      for i := 0 to |order|
        invariant world == old(world).(received := world.received)
        invariant world.received + RunsOf(sample, callbacks[i..]) == old(world).received + RunsOf(sample, callbacks)
      {
        assert callbacks[i..][0] == world.subscribers[order[i]] && callbacks[i..][1..] == callbacks[i + 1..];
        var run := SubHandler(Some(sample), Some(world.subscribers[order[i]]));
        if run.Some? {
          world := Ran(world, run.value);
        }
      }
    }

    method SendQueryable(uri: UUri, payload: UPayload, attributes: UAttributes, accepted: bool) returns (status: UCode)
      requires Valid() && Addressable(attributes)
      modifies this
      ensures Valid() && listenerMap == old(listenerMap)
      ensures (View(), status) == Transport.SendQueryable(old(View()), payload, attributes, accepted)
    {
      hide EntriesOf, HeaderBytes;
      if attributes.kind != RESPONSE {
        return INVALID_ARGUMENT;
      }
      if attributes.id !in queryMap {
        return UNAVAILABLE;
      }
      var query := queryMap[attributes.id];
      var encoding := EncodingFor(attributes.hint);
      if encoding.None? {
        return INTERNAL;
      }
      var header, _ := MessageBuilder.BuildHeader(attributes);
      if !accepted {
        return INTERNAL;
      }
      world := WithReply(world, Reply(query, payload.Bytes(), attributes, header[..], encoding.value));
      queryMap := queryMap - {attributes.id};
      return OK;
    }

    /** The callback of a subscriber: what, if anything, its listener is run with. */
    static method SubHandler(sample: Option<Sample>, arg: Option<Callback>) returns (run: Option<Event>)
      requires sample.Some? ==> ParseableSample(sample.value)
      ensures run == if sample.None? || arg.None? then None else Handled(sample.value, arg.value)
    {
      if sample.None? || arg.None? {
        return None;
      }
      if sample.value.attachment.NoAttachment? {
        return None;
      }
      var index := sample.value.attachment.header;
      if index.len == 0 || index.start.None? {
        return None;
      }
      var header := ReadHeader(index);
      if header.None? {
        return None;
      }
      return Some(Event(arg.value.listener, arg.value.uri, sample.value.payload, header.value));
    }

    /** The callback of a queryable. `oquery` is the clone Zenoh makes of the query. */
    method QueryHandler(query: Sample, arg: Callback, oquery: QueryId)
      requires Valid() && ParseableSample(query) && oquery == world.clones
      modifies this
      ensures Valid() && listenerMap == old(listenerMap)
      ensures View() == Query(old(View()), query, arg)
    {
      hide EntriesOf, AttributesIn, Parseable, Answered, Unread, Recorded, Ran;
      if query.attachment.NoAttachment? {
        return;
      }
      var index := query.attachment.header;
      if index.len == 0 || index.start.None? {
        return;
      }
      var attributes := ReadHeader(index);
      if attributes.None? {
        world := Recorded(world, Unread(Queries(queryMap, world)));
        return;
      }
      var id := attributes.value.id;
      world := Recorded(world, File(Queries(queryMap, world), id));
      queryMap := queryMap[id := oquery];
      if attributes.value.kind != REQUEST {
        return;
      }
      world := Ran(world, Event(arg.listener, arg.uri, query.payload, attributes.value));
    }

    /** The destructor. An undeclared entity is gone whatever status Zenoh reports. */
    method Destroy()
      requires Valid()
      modifies this, listenerMap.Values
      ensures View() == Destroyed(old(View()))
      ensures forall c :: c in old(listenerMap.Values) ==>
                c.listenerVector == [] && c.subVector == [] && c.queryVector == old(c.queryVector)
    {
      hide WithoutPublishers, WithoutSubscribers;
      ghost var before := View();
      UndeclarePublishers();
      SweepListeners();
      forall c | c in listenerMap.Values
        ensures c.listenerVector == [] && c.subVector == [] && c.queryVector == old(c.queryVector)
      {
        assert Swept(listenerMap[c.key], before.entries[c.key], true);
      }
      listenerMap := map[];
    }

    method SweepListeners()
      requires Valid()
      modifies this`world, listenerMap.Values
      ensures world == WithoutSubscribers(old(world), AllSubs(old(View())))
      ensures forall k :: k in listenerMap ==> Swept(listenerMap[k], old(View()).entries[k], true)
    {
      hide WithoutPublishers, WithoutSubscribers, SubsOf, AllSubs, Elements;
      ghost var before := View();
      ghost var gone: set<Handle> := {};
      NoSubs(before.entries);
      DropTwice(world, {}, {});
      var keys := listenerMap.Keys;
      assert listenerMap.Keys - keys == {};
      while keys != {}
        invariant keys <= listenerMap.Keys
        invariant world == WithoutSubscribers(old(world), gone)
        invariant gone == SubsOf(before.entries, listenerMap.Keys - keys)
        invariant forall k :: k in listenerMap ==> Swept(listenerMap[k], before.entries[k], k !in keys)
      {
        var k :| k in keys;
        var container := listenerMap[k];
        assert Swept(container, before.entries[k], false);
        UndeclareSubscribers(container.subVector);
        SubsOfOneMore(before.entries, listenerMap.Keys - keys, k);
        DropTwice(old(world), gone, Elements(container.subVector));
        gone := gone + Elements(container.subVector);
        container.ClearSubscribers();
        assert listenerMap.Keys - (keys - {k}) == listenerMap.Keys - keys + {k};
        keys := keys - {k};
      }
      assert listenerMap.Keys - keys == before.entries.Keys;
      EverySub(before);
    }

    method UndeclarePublishers()
      modifies this
      ensures pubHandleMap == map[] && listenerMap == old(listenerMap) && queryMap == old(queryMap)
      ensures world == WithoutPublishers(old(world), set k | k in old(pubHandleMap) :: old(pubHandleMap)[k])
    {
      DropTwice(world, {}, {});
      var keys := pubHandleMap.Keys;
      while keys != {}
        invariant keys <= pubHandleMap.Keys
        invariant pubHandleMap == old(pubHandleMap) && listenerMap == old(listenerMap) && queryMap == old(queryMap)
        invariant world == WithoutPublishers(old(world), set k | k in pubHandleMap && k !in keys :: pubHandleMap[k])
      {
        var k :| k in keys;
        ghost var gone := set j | j in pubHandleMap && j !in keys :: pubHandleMap[j];
        world := WithoutPublishers(world, {pubHandleMap[k]});
        DropTwice(old(world), gone, {pubHandleMap[k]});
        keys := keys - {k};
        assert (set j | j in pubHandleMap && j !in keys :: pubHandleMap[j]) == gone + {pubHandleMap[k]};
      }
      pubHandleMap := map[];
    }

    method UndeclareSubscribers(subs: seq<Handle>)
      modifies this`world
      ensures world == WithoutSubscribers(old(world), Elements(subs))
    {
      DropTwice(world, {}, {});
      for i := 0 to |subs|
        invariant world == WithoutSubscribers(old(world), Elements(subs[..i]))
      {
        world := WithoutSubscribers(world, {subs[i]});
        DropTwice(old(world), Elements(subs[..i]), {subs[i]});
        assert subs[..i + 1] == subs[..i] + [subs[i]];
        assert Elements(subs[..i + 1]) == Elements(subs[..i]) + {subs[i]};
      }
      assert subs[..|subs|] == subs;
    }
  }

  /** The container as the destructor leaves it, or still as it was. */
  ghost predicate Swept(c: ListenerContainer, before: Entry, swept: bool)
    reads c
  {
    c.View() == if swept then Entry([], before.qables, []) else before
  }

  lemma DropTwice(w: World, x: set<Handle>, y: set<Handle>)
    ensures WithoutSubscribers(WithoutSubscribers(w, x), y) == WithoutSubscribers(w, x + y)
    ensures WithoutPublishers(WithoutPublishers(w, x), y) == WithoutPublishers(w, x + y)
    ensures WithoutSubscribers(w, {}) == w && WithoutPublishers(w, {}) == w
  {
  }

  ghost function Elements(s: seq<Handle>): set<Handle> {
    set h | h in s
  }

  ghost function SubsOf(entries: map<Key, Entry>, keys: set<Key>): set<Handle> {
    set k, h | k in keys && k in entries && h in entries[k].subs :: h
  }

  lemma NoSubs(entries: map<Key, Entry>)
    ensures SubsOf(entries, {}) == {}
  {
  }

  lemma EverySub(s: State)
    ensures SubsOf(s.entries, s.entries.Keys) == AllSubs(s)
  {
  }

  lemma SubsOfOneMore(entries: map<Key, Entry>, keys: set<Key>, k: Key)
    requires k in entries
    ensures SubsOf(entries, keys + {k}) == SubsOf(entries, keys) + Elements(entries[k].subs)
  {
  }
}
