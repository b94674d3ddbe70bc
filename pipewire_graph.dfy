// PipeWire graph descriptors (src/util/pipewire/graph.rs): nodes and ports as
// announced by the registry, channel-name normalisation and the pairing of
// output ports with input ports used to build loopback links.
module PipewireGraph {
  import opened Base
  import Sorting

  const NODE_NAME_KEY: string := "node.name"
  const NODE_DESCRIPTION_KEY: string := "node.description"
  const MEDIA_NAME_KEY: string := "media.name"

  /** The value stored under `key`, if any. */
  function Lookup(props: map<string, string>, key: string): (r: Option<string>)
    ensures r.Some? <==> key in props
    ensures r.Some? ==> r.value == props[key]
  {
    if key in props then Some(props[key]) else None
  }

  /** GraphNode: a node id with its name and a human-readable description. */
  datatype GraphNode = GraphNode(id: nat, name: Option<string>, description: Option<string>)

  /**
   * from_props: the description is the node description, else the media
   * name, else the node name.
   */
  function NodeFromProps(id: nat, props: map<string, string>): (r: GraphNode)
    ensures r.id == id && r.name == Lookup(props, NODE_NAME_KEY)
    ensures r.description.Some? <==> (NODE_DESCRIPTION_KEY in props || MEDIA_NAME_KEY in props || NODE_NAME_KEY in props)
    ensures NODE_DESCRIPTION_KEY in props ==> r.description == Some(props[NODE_DESCRIPTION_KEY])
    ensures NODE_DESCRIPTION_KEY !in props && MEDIA_NAME_KEY in props ==> r.description == Some(props[MEDIA_NAME_KEY])
    ensures NODE_DESCRIPTION_KEY !in props && MEDIA_NAME_KEY !in props ==> r.description == r.name
  {
    var name := Lookup(props, NODE_NAME_KEY);
    var description := OptionOr(OptionOr(Lookup(props, NODE_DESCRIPTION_KEY), Lookup(props, MEDIA_NAME_KEY)), name);
    GraphNode(id, name, description)
  }

  /** matches_name: the candidate is the node's name or its description. */
  predicate MatchesName(node: GraphNode, candidate: string)
  {
    node.name == Some(candidate) || node.description == Some(candidate)
  }

  /** has_name: the candidate is the node's name. */
  predicate HasName(node: GraphNode, needle: string)
  {
    node.name == Some(needle)
  }

  /** A node that has a name matches it; a node matched only by its description does not have it. */
  lemma HasNameMatches(node: GraphNode, candidate: string)
    ensures HasName(node, candidate) ==> MatchesName(node, candidate)
    ensures MatchesName(node, candidate) && !HasName(node, candidate) ==> node.description == Some(candidate)
  {
  }

  datatype PortDirection = Input | Output | Unknown

  /** PortDirection::from_str: "in" and "out" in any ASCII case; anything else is unknown. */
  function DirectionFromStr(value: string): (r: PortDirection)
    ensures r == Input <==> EqIgnoreCase(value, "in")
    ensures r == Output <==> EqIgnoreCase(value, "out")
  {
    var lowered := ToLower(value);
    if lowered == "in" then Input else if lowered == "out" then Output else Unknown
  }

  /** The direction text is read without regard to case. */
  lemma DirectionIgnoresCase(value: string)
    ensures DirectionFromStr(ToUpper(value)) == DirectionFromStr(value)
  {
    CaseFolding(value);
  }

  /** GraphPort: a port of a node with its optional channel name. */
  datatype GraphPort = GraphPort(
    globalId: nat,
    portId: nat,
    nodeId: nat,
    name: Option<string>,
    channel: Option<string>,
    direction: PortDirection,
    isMonitor: bool)

  /** normalize_channel_name: trimmed and ASCII upper-cased. */
  function NormalizeChannelName(value: string): string
  {
    ToUpper(Trim(value))
  }

  /** A normalised name is trimmed and upper-case, so normalising twice is normalising once. */
  lemma NormalizeIdempotent(value: string)
    ensures IsTrimmed(NormalizeChannelName(value))
    ensures NormalizeChannelName(NormalizeChannelName(value)) == NormalizeChannelName(value)
  {
    var t := Trim(value);
    TrimIsTrimmed(value);
    UpperTrimmed(t);
    TrimTrimmed(ToUpper(t));
    CaseFolding(t);
  }

  // ---------------------------------------------------------------------
  // Pairing ports by channel

  /** Sort key of a source port: its channel ("" when absent), then its port id. */
  function SortChannel(p: GraphPort): string
  {
    if p.channel.Some? then p.channel.value else ""
  }

  predicate SourceLe(a: GraphPort, b: GraphPort)
  {
    var ca, cb := SortChannel(a), SortChannel(b);
    (Sorting.LexLe(ca, cb) && ca != cb) || (ca == cb && a.portId <= b.portId)
  }

  lemma SourceLeTotalPreorder()
    ensures Sorting.TotalPreorder(SourceLe)
  {
    forall a: GraphPort, b: GraphPort ensures SourceLe(a, b) || SourceLe(b, a) {
      Sorting.LexLeTotal(SortChannel(a), SortChannel(b));
    }
    forall a: GraphPort, b: GraphPort, c: GraphPort | SourceLe(a, b) && SourceLe(b, c) ensures SourceLe(a, c) {
      var ca, cb, cc := SortChannel(a), SortChannel(b), SortChannel(c);
      if ca != cb && cb != cc {
        Sorting.LexLeTrans(ca, cb, cc);
        if ca == cc { Sorting.LexLeAntisym(ca, cb); }
      }
    }
  }

  /** The sources in the order they are paired. */
  function SortedSources(sources: seq<GraphPort>): (r: seq<GraphPort>)
    ensures multiset(r) == multiset(sources) && |r| == |sources|
    ensures Sorting.SortedBy(r, SourceLe)
  {
    SourceLeTotalPreorder();
    Sorting.SortBySorted(sources, SourceLe);
    Sorting.SortBy(sources, SourceLe)
  }

  /** The queue of targets announced with one (normalised) channel. */
  datatype ChannelQueue = ChannelQueue(key: string, items: seq<GraphPort>)

  /**
   * Targets still available: one queue per channel, in the order the
   * channels first appeared, and the queue of targets without a channel.
   */
  datatype TargetPool = TargetPool(queues: seq<ChannelQueue>, fallback: seq<GraphPort>)

  const EMPTY_POOL: TargetPool := TargetPool([], [])

  function QueueItems(qs: seq<ChannelQueue>): seq<GraphPort>
  {
    if qs == [] then [] else QueueItems(qs[..|qs| - 1]) + qs[|qs| - 1].items
  }

  /** Every target held by the pool. */
  function PoolItems(pool: TargetPool): seq<GraphPort>
  {
    QueueItems(pool.queues) + pool.fallback
  }

  /** Every queue holds targets of its own channel, and the fallback queue those without one. */
  predicate WellFormed(pool: TargetPool)
  {
    && (forall i, j :: 0 <= i < j < |pool.queues| ==> pool.queues[i].key != pool.queues[j].key)
    && (forall i :: 0 <= i < |pool.queues| ==> QueueOf(pool.queues[i]))
    && (forall p :: p in pool.fallback ==> p.channel.None?)
  }

  predicate QueueOf(q: ChannelQueue)
  {
    forall p :: p in q.items ==> p.channel.Some? && NormalizeChannelName(p.channel.value) == q.key
  }

  /** The position of the queue for `key`. */
  function IndexOfKey(qs: seq<ChannelQueue>, key: string): (r: Option<nat>)
    ensures r.Some? ==> r.value < |qs| && qs[r.value].key == key
    ensures r.None? ==> forall i :: 0 <= i < |qs| ==> qs[i].key != key
  {
    if qs == [] then None
    else if qs[|qs| - 1].key == key then Some(|qs| - 1)
    else IndexOfKey(qs[..|qs| - 1], key)
  }

  /** The first queue that still holds a target. */
  function FirstNonEmpty(qs: seq<ChannelQueue>): (r: Option<nat>)
    ensures r.Some? ==> r.value < |qs| && |qs[r.value].items| > 0
    ensures r.None? ==> forall i :: 0 <= i < |qs| ==> qs[i].items == []
  {
    if qs == [] then None
    else if |qs[0].items| > 0 then Some(0)
    else
      var rest := FirstNonEmpty(qs[1..]);
      if rest.Some? then Some(rest.value + 1)
      else
        assert forall i :: 1 <= i < |qs| ==> qs[i] == qs[1..][i - 1];
        None
  }

  /** Add a target at the back of the queue for its channel, or of the fallback queue. */
  function Enqueue(pool: TargetPool, t: GraphPort): TargetPool
  {
    if t.channel.Some? then
      var key := NormalizeChannelName(t.channel.value);
      var idx := IndexOfKey(pool.queues, key);
      if idx.Some? then
        pool.(queues := pool.queues[idx.value := ChannelQueue(key, pool.queues[idx.value].items + [t])])
      else
        pool.(queues := pool.queues + [ChannelQueue(key, [t])])
    else
      pool.(fallback := pool.fallback + [t])
  }

  /** The pool built from the targets in the order given. */
  function BuildPool(targets: seq<GraphPort>): TargetPool
  {
    if targets == [] then EMPTY_POOL else Enqueue(BuildPool(targets[..|targets| - 1]), targets[|targets| - 1])
  }

  /** The queue at `i` with its front removed. */
  function PopQueue(qs: seq<ChannelQueue>, i: nat): seq<ChannelQueue>
    requires i < |qs| && |qs[i].items| > 0
  {
    qs[i := qs[i].(items := qs[i].items[1..])]
  }

  datatype Pick = Pick(target: Option<GraphPort>, pool: TargetPool)

  /**
   * The target chosen for one source: the front of its own channel's queue;
   * else the front of the channel-less queue; else the front of the first
   * channel queue that is not empty.
   */
  function PickFor(pool: TargetPool, source: GraphPort): Pick
  {
    var own := if source.channel.Some? then IndexOfKey(pool.queues, NormalizeChannelName(source.channel.value)) else None;
    if own.Some? && |pool.queues[own.value].items| > 0 then
      Pick(Some(pool.queues[own.value].items[0]), pool.(queues := PopQueue(pool.queues, own.value)))
    else if |pool.fallback| > 0 then
      Pick(Some(pool.fallback[0]), pool.(fallback := pool.fallback[1..]))
    else
      var any := FirstNonEmpty(pool.queues);
      if any.Some? then
        Pick(Some(pool.queues[any.value].items[0]), pool.(queues := PopQueue(pool.queues, any.value)))
      else Pick(None, pool)
  }

  /** The plans made for the sources in order, each picking from what the previous ones left. */
  function PairFrom(sources: seq<GraphPort>, pool: TargetPool): seq<(GraphPort, GraphPort)>
  {
    if sources == [] then []
    else
      var pick := PickFor(pool, sources[0]);
      var rest := PairFrom(sources[1..], pick.pool);
      if pick.target.Some? then [(sources[0], pick.target.value)] + rest else rest
  }

  function Sources(plans: seq<(GraphPort, GraphPort)>): (r: seq<GraphPort>)
    ensures |r| == |plans| && forall i :: 0 <= i < |plans| ==> r[i] == plans[i].0
  {
    seq(|plans|, i requires 0 <= i < |plans| => plans[i].0)
  }

  function Targets(plans: seq<(GraphPort, GraphPort)>): (r: seq<GraphPort>)
    ensures |r| == |plans| && forall i :: 0 <= i < |plans| ==> r[i] == plans[i].1
  {
    seq(|plans|, i requires 0 <= i < |plans| => plans[i].1)
  }

  // --- pool bookkeeping

  lemma {:induction false} QueueItemsUpdate(qs: seq<ChannelQueue>, i: nat, items: seq<GraphPort>)
    requires i < |qs|
    ensures multiset(QueueItems(qs[i := qs[i].(items := items)])) + multiset(qs[i].items)
      == multiset(QueueItems(qs)) + multiset(items)
  {
    var qs' := qs[i := qs[i].(items := items)];
    var n := |qs| - 1;
    var init, init' := QueueItems(qs[..n]), QueueItems(qs'[..n]);
    assert QueueItems(qs) == init + qs[n].items;
    assert QueueItems(qs') == init' + qs'[n].items;
    if i == n {
      assert qs'[..n] == qs[..n];
    } else {
      assert qs'[..n] == qs[..n][i := qs[i].(items := items)];
      assert qs[..n][i] == qs[i];
      QueueItemsUpdate(qs[..n], i, items);
      var a, b, c, d := multiset(init'), multiset(qs[i].items), multiset(init), multiset(items);
      var e := multiset(qs[n].items);
      assert a + b == c + d;
      assert qs'[n] == qs[n];
      calc {
        multiset(QueueItems(qs')) + b;
        a + e + b;
        (a + b) + e;
        (c + d) + e;
        (c + e) + d;
        multiset(QueueItems(qs)) + d;
      }
    }
  }

  lemma QueueItemsAppend(qs: seq<ChannelQueue>, q: ChannelQueue)
    ensures QueueItems(qs + [q]) == QueueItems(qs) + q.items
  {
    assert (qs + [q])[..|qs|] == qs;
  }

  lemma {:induction false} QueueItemsEmpty(qs: seq<ChannelQueue>)
    requires forall i :: 0 <= i < |qs| ==> qs[i].items == []
    ensures QueueItems(qs) == []
  {
    if qs != [] {
      QueueItemsEmpty(qs[..|qs| - 1]);
    }
  }

  lemma {:induction false} QueueItemsMember(qs: seq<ChannelQueue>, p: GraphPort)
    requires p in multiset(QueueItems(qs))
    ensures exists i :: 0 <= i < |qs| && p in qs[i].items
  {
    if qs != [] {
      var last := qs[|qs| - 1];
      if p in last.items {
        assert p in qs[|qs| - 1].items;
      } else {
        assert p in multiset(QueueItems(qs[..|qs| - 1]));
        QueueItemsMember(qs[..|qs| - 1], p);
        var i :| 0 <= i < |qs| - 1 && p in qs[..|qs| - 1][i].items;
        assert qs[..|qs| - 1][i] == qs[i];
      }
    }
  }

  lemma MultisetCancel<T>(a: multiset<T>, b: multiset<T>, c: multiset<T>)
    requires a + b == c + b
    ensures a == c
  {
    forall x ensures a[x] == c[x] {
      assert (a + b)[x] == (c + b)[x];
    }
  }

  /** Enqueuing adds exactly the target and keeps each queue to its channel. */
  lemma EnqueueKeeps(pool: TargetPool, t: GraphPort)
    requires WellFormed(pool)
    ensures WellFormed(Enqueue(pool, t))
    ensures multiset(PoolItems(Enqueue(pool, t))) == multiset(PoolItems(pool)) + multiset{t}
  {
    if t.channel.Some? {
      var key := NormalizeChannelName(t.channel.value);
      var idx := IndexOfKey(pool.queues, key);
      if idx.Some? {
        var i := idx.value;
        var qs := pool.queues[i := pool.queues[i].(items := pool.queues[i].items + [t])];
        assert Enqueue(pool, t) == pool.(queues := qs);
        EnqueueExisting(pool.queues, i, t);
        EnqueueWellFormed(pool, i, t);
        PoolItemsOfQueues(pool, qs, t);
      } else {
        var qs := pool.queues + [ChannelQueue(key, [t])];
        assert Enqueue(pool, t) == pool.(queues := qs);
        QueueItemsAppend(pool.queues, ChannelQueue(key, [t]));
        EnqueueNewQueue(pool, key, t);
        PoolItemsOfQueues(pool, qs, t);
      }
    } else {
      var r := pool.(fallback := pool.fallback + [t]);
      assert Enqueue(pool, t) == r;
      assert PoolItems(r) == PoolItems(pool) + [t];
    }
  }

  /** Replacing the queues by ones holding one more target adds that target to the pool. */
  lemma PoolItemsOfQueues(pool: TargetPool, qs: seq<ChannelQueue>, t: GraphPort)
    requires multiset(QueueItems(qs)) == multiset(QueueItems(pool.queues)) + multiset{t}
    ensures multiset(PoolItems(pool.(queues := qs))) == multiset(PoolItems(pool)) + multiset{t}
  {
  }

  /** Appending to one queue adds exactly that target. */
  lemma EnqueueExisting(qs: seq<ChannelQueue>, i: nat, t: GraphPort)
    requires i < |qs|
    ensures multiset(QueueItems(qs[i := qs[i].(items := qs[i].items + [t])])) == multiset(QueueItems(qs)) + multiset{t}
  {
    var old_items := qs[i].items;
    QueueItemsUpdate(qs, i, old_items + [t]);
    var a, b, c := multiset(QueueItems(qs[i := qs[i].(items := old_items + [t])])), multiset(old_items), multiset(QueueItems(qs));
    assert a + b == (c + multiset{t}) + b;
    MultisetCancel(a, b, c + multiset{t});
  }

  lemma EnqueueNewQueue(pool: TargetPool, key: string, t: GraphPort)
    requires WellFormed(pool) && t.channel.Some? && key == NormalizeChannelName(t.channel.value)
    requires forall i :: 0 <= i < |pool.queues| ==> pool.queues[i].key != key
    ensures WellFormed(pool.(queues := pool.queues + [ChannelQueue(key, [t])]))
  {
    var qs := pool.queues + [ChannelQueue(key, [t])];
    assert QueueOf(qs[|pool.queues|]);
    assert forall j :: 0 <= j < |pool.queues| ==> qs[j] == pool.queues[j];
  }

  lemma EnqueueWellFormed(pool: TargetPool, i: nat, t: GraphPort)
    requires WellFormed(pool) && i < |pool.queues| && t.channel.Some?
    requires pool.queues[i].key == NormalizeChannelName(t.channel.value)
    ensures WellFormed(pool.(queues := pool.queues[i := pool.queues[i].(items := pool.queues[i].items + [t])]))
  {
    var qs := pool.queues[i := pool.queues[i].(items := pool.queues[i].items + [t])];
    assert QueueOf(qs[i]);
    assert forall j :: 0 <= j < |qs| && j != i ==> qs[j] == pool.queues[j];
  }

  lemma MultisetSnoc<T>(s: seq<T>)
    requires s != []
    ensures multiset(s) == multiset(s[..|s| - 1]) + multiset{s[|s| - 1]}
  {
    assert s == s[..|s| - 1] + [s[|s| - 1]];
  }

  /** The pool holds exactly the targets, each queue holding its own channel. */
  lemma {:induction false} BuildPoolHolds(targets: seq<GraphPort>)
    ensures WellFormed(BuildPool(targets))
    ensures multiset(PoolItems(BuildPool(targets))) == multiset(targets)
  {
    if targets != [] {
      var init, last := targets[..|targets| - 1], targets[|targets| - 1];
      BuildPoolHolds(init);
      EnqueueKeeps(BuildPool(init), last);
      MultisetSnoc(targets);
    }
  }

  /** A pick removes exactly the target it returns; there is none only when the pool is empty. */
  lemma PickRemoves(pool: TargetPool, source: GraphPort)
    requires WellFormed(pool)
    ensures WellFormed(PickFor(pool, source).pool)
    ensures PickFor(pool, source).target.None? <==> |PoolItems(pool)| == 0
    ensures PickFor(pool, source).target.None? ==> PickFor(pool, source).pool == pool
    ensures PickFor(pool, source).target.Some? ==>
      multiset(PoolItems(pool)) == multiset(PoolItems(PickFor(pool, source).pool)) + multiset{PickFor(pool, source).target.value}
  {
    var pick := PickFor(pool, source);
    var own := if source.channel.Some? then IndexOfKey(pool.queues, NormalizeChannelName(source.channel.value)) else None;
    if own.Some? && |pool.queues[own.value].items| > 0 {
      PopKeeps(pool, own.value);
    } else if |pool.fallback| > 0 {
      assert pool.fallback == [pool.fallback[0]] + pool.fallback[1..];
    } else {
      var any := FirstNonEmpty(pool.queues);
      if any.Some? {
        PopKeeps(pool, any.value);
      } else {
        QueueItemsEmpty(pool.queues);
      }
    }
  }

  lemma PopKeeps(pool: TargetPool, i: nat)
    requires WellFormed(pool) && i < |pool.queues| && |pool.queues[i].items| > 0
    ensures WellFormed(pool.(queues := PopQueue(pool.queues, i)))
    ensures multiset(PoolItems(pool))
      == multiset(PoolItems(pool.(queues := PopQueue(pool.queues, i)))) + multiset{pool.queues[i].items[0]}
  {
    var items := pool.queues[i].items;
    var qs := PopQueue(pool.queues, i);
    QueueItemsUpdate(pool.queues, i, items[1..]);
    assert items == [items[0]] + items[1..];
    var a, b, c := multiset(QueueItems(qs)), multiset(items), multiset(QueueItems(pool.queues));
    var d := multiset(items[1..]);
    assert b == multiset{items[0]} + d;
    assert a + b == c + d;
    assert (a + multiset{items[0]}) + d == c + d;
    MultisetCancel(a + multiset{items[0]}, d, c);
    PopWellFormed(pool, i);
  }

  lemma PopWellFormed(pool: TargetPool, i: nat)
    requires WellFormed(pool) && i < |pool.queues| && |pool.queues[i].items| > 0
    ensures WellFormed(pool.(queues := PopQueue(pool.queues, i)))
  {
    var items := pool.queues[i].items;
    var qs := PopQueue(pool.queues, i);
    assert QueueOf(qs[i]) by {
      forall p | p in qs[i].items ensures p.channel.Some? && NormalizeChannelName(p.channel.value) == qs[i].key {
        assert p in items;
      }
    }
    assert forall j :: 0 <= j < |qs| && j != i ==> qs[j] == pool.queues[j];
  }

  /** Some port in `ports` carries a channel that normalises to `key`. */
  predicate HasChannel(ports: seq<GraphPort>, key: string)
  {
    exists p :: p in ports && p.channel.Some? && NormalizeChannelName(p.channel.value) == key
  }

  /**
   * A source whose channel still has a queued target gets one of that
   * channel; otherwise a channel-less target comes first.
   */
  lemma PickPrefersChannel(pool: TargetPool, source: GraphPort)
    requires WellFormed(pool)
    ensures source.channel.Some? && HasChannel(PoolItems(pool), NormalizeChannelName(source.channel.value)) ==>
      && PickFor(pool, source).target.Some?
      && PickFor(pool, source).target.value.channel.Some?
      && NormalizeChannelName(PickFor(pool, source).target.value.channel.value) == NormalizeChannelName(source.channel.value)
    ensures (source.channel.None? || !HasChannel(PoolItems(pool), NormalizeChannelName(source.channel.value)))
              && |pool.fallback| > 0 ==>
      PickFor(pool, source).target == Some(pool.fallback[0])
  {
    if source.channel.Some? {
      var key := NormalizeChannelName(source.channel.value);
      if HasChannel(PoolItems(pool), key) {
        var p :| p in PoolItems(pool) && p.channel.Some? && NormalizeChannelName(p.channel.value) == key;
        assert p !in pool.fallback;
        assert p in multiset(QueueItems(pool.queues));
        QueueItemsMember(pool.queues, p);
        var i :| 0 <= i < |pool.queues| && p in pool.queues[i].items;
        assert pool.queues[i].key == key;
        var own := IndexOfKey(pool.queues, key);
        assert own == Some(i) by {
          if own.None? || own.value != i {
            assert false;
          }
        }
        assert pool.queues[i].items[0] in pool.queues[i].items;
      } else {
        var own := IndexOfKey(pool.queues, key);
        if own.Some? && |pool.queues[own.value].items| > 0 {
          QueueItemsHas(pool.queues, own.value, pool.queues[own.value].items[0]);
        }
      }
    }
  }

  lemma {:induction false} QueueItemsHas(qs: seq<ChannelQueue>, i: nat, p: GraphPort)
    requires i < |qs| && p in qs[i].items
    ensures p in multiset(QueueItems(qs))
  {
    if i < |qs| - 1 {
      assert qs[..|qs| - 1][i] == qs[i];
      QueueItemsHas(qs[..|qs| - 1], i, p);
    }
  }

  /** A pick that finds a target leaves one target fewer. */
  lemma PickCount(pool: TargetPool, source: GraphPort)
    requires WellFormed(pool) && PickFor(pool, source).target.Some?
    ensures |PoolItems(PickFor(pool, source).pool)| + 1 == |PoolItems(pool)|
  {
    PickRemoves(pool, source);
    var pick := PickFor(pool, source);
    assert |multiset(PoolItems(pool))| == |multiset(PoolItems(pick.pool))| + 1;
  }

  /**
   * Sources are paired in order while targets remain, so the first
   * min(#sources, #targets) sources get a target each.
   */
  lemma {:induction false} PairFromLength(sources: seq<GraphPort>, pool: TargetPool)
    requires WellFormed(pool)
    ensures |PairFrom(sources, pool)| == Min(|sources|, |PoolItems(pool)|)
  {
    if sources != [] {
      var pick := PickFor(pool, sources[0]);
      PickRemoves(pool, sources[0]);
      PairFromLength(sources[1..], pick.pool);
      if pick.target.Some? {
        PickCount(pool, sources[0]);
      }
    }
  }

  /** The pairs keep the order of the sources: the pairs are made for a prefix of them. */
  lemma {:induction false} PairFromSources(sources: seq<GraphPort>, pool: TargetPool)
    requires WellFormed(pool)
    ensures |PairFrom(sources, pool)| <= |sources|
    ensures Sources(PairFrom(sources, pool)) == sources[..|PairFrom(sources, pool)|]
  {
    if sources != [] {
      var pick := PickFor(pool, sources[0]);
      PickRemoves(pool, sources[0]);
      PairFromSources(sources[1..], pick.pool);
      if pick.target.None? {
        PairFromLength(sources[1..], pick.pool);
      }
      SourcesStep(sources, pick.target, PairFrom(sources[1..], pick.pool));
    }
  }

  lemma SourcesStep(sources: seq<GraphPort>, t: Option<GraphPort>, rest: seq<(GraphPort, GraphPort)>)
    requires sources != [] && |rest| < |sources| && Sources(rest) == sources[1..][..|rest|]
    requires t.None? ==> rest == []
    ensures var all := if t.Some? then [(sources[0], t.value)] + rest else rest;
      |all| <= |sources| && Sources(all) == sources[..|all|]
  {
    if t.Some? {
      var all := [(sources[0], t.value)] + rest;
      assert Sources(all) == [sources[0]] + Sources(rest);
      assert sources[..|all|] == [sources[0]] + sources[1..][..|rest|];
    }
  }

  /** No target is used twice, and every target used was offered. */
  lemma {:induction false} PairFromTargets(sources: seq<GraphPort>, pool: TargetPool)
    requires WellFormed(pool)
    ensures multiset(Targets(PairFrom(sources, pool))) <= multiset(PoolItems(pool))
  {
    if sources != [] {
      var pick := PickFor(pool, sources[0]);
      PickRemoves(pool, sources[0]);
      PairFromTargets(sources[1..], pick.pool);
      if pick.target.Some? {
        var rest := PairFrom(sources[1..], pick.pool);
        TargetsCons(sources[0], pick.target.value, rest);
        SubMultisetStep(multiset(PoolItems(pool)), multiset(PoolItems(pick.pool)), pick.target.value, multiset(Targets(rest)));
      }
    }
  }

  lemma TargetsCons(s: GraphPort, t: GraphPort, rest: seq<(GraphPort, GraphPort)>)
    ensures multiset(Targets([(s, t)] + rest)) == multiset{t} + multiset(Targets(rest))
  {
    assert Targets([(s, t)] + rest) == [t] + Targets(rest);
  }

  lemma SubMultisetStep<T>(m: multiset<T>, m': multiset<T>, t: T, x: multiset<T>)
    requires m == m' + multiset{t} && x <= m'
    ensures multiset{t} + x <= m
  {
  }

  /**
   * pair_ports_by_channel: queue the targets by normalised channel, sort
   * the sources by (channel, port id) and give each source a target:
   * same channel first, then a channel-less one, then any left.
   */
  method PairPortsByChannel(sources: seq<GraphPort>, targets: seq<GraphPort>) returns (plans: seq<(GraphPort, GraphPort)>)
    ensures plans == PairFrom(SortedSources(sources), BuildPool(targets))
    ensures |plans| == Min(|sources|, |targets|)
    ensures forall i :: 0 <= i < |plans| ==> plans[i].0 == SortedSources(sources)[i]
    ensures multiset(Targets(plans)) <= multiset(targets)
  {
    var pool := BuildTargetPool(targets);
    var sorted := SortedSources(sources);
    plans := PairInOrder(sorted, pool);
    PairingShape(sorted, targets);
  }

  /** The target pool filled one target at a time. */
  method BuildTargetPool(targets: seq<GraphPort>) returns (pool: TargetPool)
    ensures pool == BuildPool(targets)
  {
    pool := EMPTY_POOL;
    for i := 0 to |targets|
      invariant pool == BuildPool(targets[..i])
    {
      assert targets[..i + 1][..i] == targets[..i];
      pool := Enqueue(pool, targets[i]);
    }
    assert targets[..|targets|] == targets;
  }

  /** Each source in turn takes its pick from what is left of the pool. */
  method PairInOrder(sorted: seq<GraphPort>, pool0: TargetPool) returns (plans: seq<(GraphPort, GraphPort)>)
    ensures plans == PairFrom(sorted, pool0)
  {
    var pool := pool0;
    plans := [];
    for i := 0 to |sorted|
      invariant plans + PairFrom(sorted[i..], pool) == PairFrom(sorted, pool0)
    {
      var pick := PickFor(pool, sorted[i]);
      assert sorted[i..][1..] == sorted[i + 1..];
      if pick.target.Some? {
        plans := plans + [(sorted[i], pick.target.value)];
      }
      pool := pick.pool;
    }
  }

  /** The pairing over the pool of all targets: its length, order and target use. */
  lemma PairingShape(sorted: seq<GraphPort>, targets: seq<GraphPort>)
    ensures |PairFrom(sorted, BuildPool(targets))| == Min(|sorted|, |targets|)
    ensures forall i :: 0 <= i < |PairFrom(sorted, BuildPool(targets))| ==> PairFrom(sorted, BuildPool(targets))[i].0 == sorted[i]
    ensures multiset(Targets(PairFrom(sorted, BuildPool(targets)))) <= multiset(targets)
  {
    var pool := BuildPool(targets);
    BuildPoolHolds(targets);
    assert |PoolItems(pool)| == |multiset(PoolItems(pool))| == |targets|;
    PairFromLength(sorted, pool);
    PairFromSources(sorted, pool);
    var pairs := PairFrom(sorted, pool);
    forall i | 0 <= i < |pairs|
      ensures pairs[i].0 == sorted[i]
    {
      assert Sources(pairs)[i] == sorted[..|pairs|][i];
    }
    PairFromTargets(sorted, pool);
  }
}
