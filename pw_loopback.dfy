// The loopback controller (src/audio/pw_loopback.rs): it tracks the graph's
// nodes and ports, follows the default audio sink announced through
// metadata, and keeps passive links from the OpenMeters sink's output ports
// to the default sink's input ports. Creating a link in the PipeWire core
// is a call into the daemon; its outcome is the parameter `create`.
module PwLoopback {
  import opened Base
  import opened PipewireGraph
  import opened PipewireMetadata

  /** The node name of the virtual sink OpenMeters captures from. */
  const OPENMETERS_SINK_NAME: string := "openmeters.sink"

  /** LinkKey: one link from an output port to an input port. */
  datatype LinkKey = LinkKey(outputNode: nat, outputPort: nat, inputNode: nat, inputPort: nat)

  /** A set's elements, one at a time, in an order the model leaves open (a HashMap's iteration order). */
  method Enumerate<T(!new)>(s: set<T>) returns (r: seq<T>)
    ensures NoDup(r) && |r| == |s|
    ensures forall x :: x in r <==> x in s
  {
    var rest := s;
    r := [];
    while rest != {}
      invariant rest <= s && NoDup(r) && |r| + |rest| == |s|
      invariant forall x :: x in r <==> x in s && x !in rest
      decreases |rest|
    {
      var x :| x in rest;
      assert multiset(r + [x]) == multiset(r) + multiset{x};
      r := r + [x];
      rest := rest - {x};
    }
  }

  // ---------------------------------------------------------------------
  // TrackedNode

  /** TrackedNode: the node's descriptor once announced, and its ports by port id. */
  datatype TrackedNode = TrackedNode(info: Option<GraphNode>, ports: map<nat, GraphPort>)

  /** A node seen only through its ports so far. */
  const UNANNOUNCED: TrackedNode := TrackedNode(None, map[])

  /** Every port is stored under its own port id. */
  predicate PortsKeyed(t: TrackedNode)
  {
    forall k | k in t.ports :: t.ports[k].portId == k
  }

  /** matches_name: an announced node whose name or description is the candidate. */
  predicate TrackedMatchesName(t: TrackedNode, candidate: string)
  {
    t.info.Some? && MatchesName(t.info.value, candidate)
  }

  /** has_name: an announced node whose name is the candidate. */
  predicate TrackedHasName(t: TrackedNode, name: string)
  {
    t.info.Some? && HasName(t.info.value, name)
  }

  /** upsert_port: the port replaces any port with its id; the descriptor stays. */
  function TrackedWithPort(t: TrackedNode, p: GraphPort): (r: TrackedNode)
    ensures r.info == t.info && p.portId in r.ports && r.ports[p.portId] == p
    ensures forall k | k in t.ports && k != p.portId :: k in r.ports && r.ports[k] == t.ports[k]
    ensures r.ports.Keys == t.ports.Keys + {p.portId}
    ensures PortsKeyed(t) ==> PortsKeyed(r)
  {
    t.(ports := t.ports[p.portId := p])
  }

  /** remove_port: the port with that id goes; the rest stays. */
  function TrackedWithoutPort(t: TrackedNode, portId: nat): (r: TrackedNode)
    ensures r.info == t.info && portId !in r.ports
    ensures forall k | k in r.ports :: k in t.ports && r.ports[k] == t.ports[k]
    ensures r.ports.Keys == t.ports.Keys - {portId}
    ensures PortsKeyed(t) ==> PortsKeyed(r)
  {
    t.(ports := t.ports - {portId})
  }

  /** A stored port is the one stored under its own id. */
  lemma ValueAtOwnId(t: TrackedNode, p: GraphPort)
    requires PortsKeyed(t) && p in t.ports.Values
    ensures p.portId in t.ports && t.ports[p.portId] == p
  {
    var k :| k in t.ports && t.ports[k] == p;
  }

  // --- port selection for the loopback

  function MonitorOutputs(ports: set<GraphPort>): set<GraphPort>
  {
    set p | p in ports && p.direction == Output && p.isMonitor
  }

  function AllOutputs(ports: set<GraphPort>): set<GraphPort>
  {
    set p | p in ports && p.direction == Output
  }

  function PlaybackInputs(ports: set<GraphPort>): set<GraphPort>
  {
    set p | p in ports && p.direction == Input && !p.isMonitor
  }

  function AllInputs(ports: set<GraphPort>): set<GraphPort>
  {
    set p | p in ports && p.direction == Input
  }

  /**
   * output_ports_for_loopback: the monitor outputs if there are any, else
   * the outputs, else every port. A node with ports always offers some.
   */
  function LoopbackOutputs(ports: set<GraphPort>): (r: set<GraphPort>)
    ensures r <= ports
    ensures r == {} <==> ports == {}
    ensures (exists p :: p in ports && p.direction == Output && p.isMonitor) ==>
      forall p :: p in r <==> p in ports && p.direction == Output && p.isMonitor
    ensures (exists p :: p in ports && p.direction == Output) ==> forall p | p in r :: p.direction == Output
    ensures (forall p | p in ports :: p.direction != Output) ==> r == ports
  {
    var monitors := MonitorOutputs(ports);
    if monitors != {} then monitors
    else
      assert forall p | p in ports && p.direction == Output && p.isMonitor :: p in monitors;
      var outputs := AllOutputs(ports);
      assert forall p | p in ports && p.direction == Output :: p in outputs;
      if outputs != {} then outputs else ports
  }

  /**
   * input_ports_for_loopback: the non-monitor inputs if there are any, else
   * the inputs, else every port. A node with ports always offers some.
   */
  function LoopbackInputs(ports: set<GraphPort>): (r: set<GraphPort>)
    ensures r <= ports
    ensures r == {} <==> ports == {}
    ensures (exists p :: p in ports && p.direction == Input && !p.isMonitor) ==>
      forall p :: p in r <==> p in ports && p.direction == Input && !p.isMonitor
    ensures (exists p :: p in ports && p.direction == Input) ==> forall p | p in r :: p.direction == Input
    ensures (forall p | p in ports :: p.direction != Input) ==> r == ports
  {
    var playback := PlaybackInputs(ports);
    if playback != {} then playback
    else
      assert forall p | p in ports && p.direction == Input && !p.isMonitor :: p in playback;
      var inputs := AllInputs(ports);
      assert forall p | p in ports && p.direction == Input :: p in inputs;
      if inputs != {} then inputs else ports
  }

  /** The ports a node offers as link sources (`output`) or link targets. */
  function Selection(t: TrackedNode, output: bool): set<GraphPort>
  {
    if output then LoopbackOutputs(t.ports.Values) else LoopbackInputs(t.ports.Values)
  }

  /** output_ports_for_loopback / input_ports_for_loopback, collected in the ports' iteration order. */
  method PortsForLoopback(t: TrackedNode, output: bool) returns (r: seq<GraphPort>)
    ensures NoDup(r) && |r| == |Selection(t, output)|
    ensures forall p :: p in r <==> p in Selection(t, output)
  {
    r := Enumerate(Selection(t, output));
  }

  // ---------------------------------------------------------------------
  // Links

  /** The link a plan asks for between the two nodes. */
  function PlanKey(source: nat, target: nat, plan: (GraphPort, GraphPort)): (r: LinkKey)
    ensures r.outputNode == source && r.inputNode == target
    ensures r.outputPort == plan.0.portId && r.inputPort == plan.1.portId
  {
    LinkKey(source, plan.0.portId, target, plan.1.portId)
  }

  /** desired_keys: the links the plans ask for. */
  function DesiredKeys(source: nat, target: nat, plans: seq<(GraphPort, GraphPort)>): (r: set<LinkKey>)
    ensures forall i | 0 <= i < |plans| :: PlanKey(source, target, plans[i]) in r
    decreases |plans|
  {
    if plans == [] then {}
    else
      var front := plans[..|plans| - 1];
      var rest := DesiredKeys(source, target, front);
      assert forall i | 0 <= i < |front| :: front[i] == plans[i];
      rest + {PlanKey(source, target, plans[|plans| - 1])}
  }

  /** Every desired link comes from some plan: the index of one such plan. */
  lemma {:induction false} PlanOf(source: nat, target: nat, plans: seq<(GraphPort, GraphPort)>, k: LinkKey) returns (i: nat)
    requires k in DesiredKeys(source, target, plans)
    ensures i < |plans| && k == PlanKey(source, target, plans[i])
    decreases |plans|
  {
    var front := plans[..|plans| - 1];
    if k in DesiredKeys(source, target, front) {
      i := PlanOf(source, target, front, k);
      assert front[i] == plans[i];
    } else {
      i := |plans| - 1;
    }
  }

  /** Plans whose output ports differ ask for as many links as there are plans. */
  lemma {:induction false} DesiredCount(source: nat, target: nat, plans: seq<(GraphPort, GraphPort)>)
    requires forall i, j | 0 <= i < j < |plans| :: plans[i].0.portId != plans[j].0.portId
    ensures |DesiredKeys(source, target, plans)| == |plans|
    decreases |plans|
  {
    if plans != [] {
      var n := |plans| - 1;
      var front := plans[..n];
      var last := PlanKey(source, target, plans[n]);
      assert forall i, j | 0 <= i < j < |front| :: front[i] == plans[i] && front[j] == plans[j];
      DesiredCount(source, target, front);
      var rest := DesiredKeys(source, target, front);
      if last in rest {
        var i := PlanOf(source, target, front, last);
        assert false;
      }
    }
  }

  /** No two links share an output port or an input port. */
  predicate OneToOne(links: set<LinkKey>)
  {
    forall k1, k2 | k1 in links && k2 in links ::
      (k1.outputPort == k2.outputPort || k1.inputPort == k2.inputPort) ==> k1 == k2
  }

  /**
   * A link from the OpenMeters node to the default sink's node, between
   * ports each node currently offers for the loopback.
   */
  predicate LinkInSelection(source: Option<nat>, target: Option<nat>, nodes: map<nat, TrackedNode>, k: LinkKey)
  {
    source == Some(k.outputNode) && target == Some(k.inputNode)
    && k.outputNode in nodes && k.inputNode in nodes
    && k.outputPort in nodes[k.outputNode].ports && nodes[k.outputNode].ports[k.outputPort] in Selection(nodes[k.outputNode], true)
    && k.inputPort in nodes[k.inputNode].ports && nodes[k.inputNode].ports[k.inputPort] in Selection(nodes[k.inputNode], false)
  }

  /** Every active link runs between selected ports of the two tracked nodes, one link per port. */
  predicate LinksWellFormed(source: Option<nat>, target: Option<nat>, nodes: map<nat, TrackedNode>, links: set<LinkKey>)
  {
    (forall k | k in links :: LinkInSelection(source, target, nodes, k)) && OneToOne(links)
  }

  predicate AllKeyed(nodes: map<nat, TrackedNode>)
  {
    forall id | id in nodes :: PortsKeyed(nodes[id])
  }

  /**
   * The plans pair ports without repeating one: each plan's output port is
   * a distinct selected port of the source node, and each input port a
   * distinct selected port of the target node.
   */
  lemma PlanPortsDistinct(t: TrackedNode, u: TrackedNode, sources: seq<GraphPort>, targets: seq<GraphPort>,
                          plans: seq<(GraphPort, GraphPort)>)
    requires PortsKeyed(t) && PortsKeyed(u)
    requires NoDup(sources) && forall p :: p in sources <==> p in Selection(t, true)
    requires NoDup(targets) && forall p :: p in targets <==> p in Selection(u, false)
    requires |plans| <= |sources| && forall i | 0 <= i < |plans| :: plans[i].0 == SortedSources(sources)[i]
    requires multiset(Targets(plans)) <= multiset(targets)
    ensures forall i | 0 <= i < |plans| :: plans[i].0 in Selection(t, true) && plans[i].1 in Selection(u, false)
    ensures forall i, j | 0 <= i < j < |plans| :: plans[i].0.portId != plans[j].0.portId
    ensures forall i, j | 0 <= i < j < |plans| :: plans[i].1.portId != plans[j].1.portId
  {
    var sorted := SortedSources(sources);
    var ts := Targets(plans);
    assert NoDup(sorted) by {
      forall x ensures multiset(sorted)[x] <= 1 {
        assert multiset(sorted)[x] == multiset(sources)[x];
      }
    }
    assert NoDup(ts) by {
      forall x ensures multiset(ts)[x] <= 1 {
        assert multiset(ts)[x] <= multiset(targets)[x];
      }
    }
    forall i | 0 <= i < |plans|
      ensures plans[i].0 in Selection(t, true) && plans[i].1 in Selection(u, false)
    {
      assert sorted[i] in multiset(sources);
      assert ts[i] in multiset(ts);
    }
    forall i, j | 0 <= i < j < |plans|
      ensures plans[i].0.portId != plans[j].0.portId
    {
      NoDupIndices(sorted, i, j);
      ValueAtOwnId(t, plans[i].0);
      ValueAtOwnId(t, plans[j].0);
    }
    forall i, j | 0 <= i < j < |plans|
      ensures plans[i].1.portId != plans[j].1.portId
    {
      NoDupIndices(ts, i, j);
      ValueAtOwnId(u, plans[i].1);
      ValueAtOwnId(u, plans[j].1);
    }
  }

  /** Plans with distinct ports on each side are told apart by either port. */
  lemma SamePortSamePlan(plans: seq<(GraphPort, GraphPort)>, i: nat, j: nat)
    requires forall a, b | 0 <= a < b < |plans| :: plans[a].0.portId != plans[b].0.portId
    requires forall a, b | 0 <= a < b < |plans| :: plans[a].1.portId != plans[b].1.portId
    requires i < |plans| && j < |plans|
    requires plans[i].0.portId == plans[j].0.portId || plans[i].1.portId == plans[j].1.portId
    ensures i == j
  {
  }

  /** The links the plans ask for are well formed, and there is one per plan. */
  lemma DesiredWellFormed(source: nat, target: nat, nodes: map<nat, TrackedNode>, plans: seq<(GraphPort, GraphPort)>)
    requires source in nodes && target in nodes
    requires forall i | 0 <= i < |plans| :: plans[i].0 in Selection(nodes[source], true) && plans[i].1 in Selection(nodes[target], false)
    requires PortsKeyed(nodes[source]) && PortsKeyed(nodes[target])
    requires forall i, j | 0 <= i < j < |plans| :: plans[i].0.portId != plans[j].0.portId
    requires forall i, j | 0 <= i < j < |plans| :: plans[i].1.portId != plans[j].1.portId
    ensures LinksWellFormed(Some(source), Some(target), nodes, DesiredKeys(source, target, plans))
    ensures |DesiredKeys(source, target, plans)| == |plans|
  {
    var desired := DesiredKeys(source, target, plans);
    forall k | k in desired ensures LinkInSelection(Some(source), Some(target), nodes, k) {
      var i := PlanOf(source, target, plans, k);
      ValueAtOwnId(nodes[source], plans[i].0);
      ValueAtOwnId(nodes[target], plans[i].1);
    }
    forall k1, k2 | k1 in desired && k2 in desired && (k1.outputPort == k2.outputPort || k1.inputPort == k2.inputPort)
      ensures k1 == k2
    {
      var i := PlanOf(source, target, plans, k1);
      var j := PlanOf(source, target, plans, k2);
      SamePortSamePlan(plans, i, j);
    }
    DesiredCount(source, target, plans);
  }

  /** Well-formedness holds of every subset of well-formed links. */
  lemma WellFormedSubset(source: Option<nat>, target: Option<nat>, nodes: map<nat, TrackedNode>, links: set<LinkKey>, sub: set<LinkKey>)
    requires LinksWellFormed(source, target, nodes, links) && sub <= links
    ensures LinksWellFormed(source, target, nodes, sub)
  {
  }

  /** retain on the port index: the entries owned by another node. */
  function PurgeOwner(index: map<nat, (nat, nat)>, owner: nat): (r: map<nat, (nat, nat)>)
    ensures forall g :: g in r <==> g in index && index[g].0 != owner
    ensures forall g | g in r :: r[g] == index[g]
  {
    map g | g in index && index[g].0 != owner :: index[g]
  }

  /** The entry for a node, or an unannounced one (entry().or_insert_with(default)). */
  function EntryOf(nodes: map<nat, TrackedNode>, id: nat): (r: TrackedNode)
    ensures id in nodes ==> r == nodes[id]
    ensures id !in nodes ==> r.info.None? && r.ports == map[]
  {
    if id in nodes then nodes[id] else UNANNOUNCED
  }

  /** Some known node carries the name. */
  predicate NameKnown(nodes: map<nat, TrackedNode>, name: string)
  {
    exists id :: id in nodes && TrackedMatchesName(nodes[id], name)
  }

  /**
   * resolve_default_sink_node: a node id that is still known is kept;
   * otherwise, when a known node carries the sink's name, its id is taken;
   * otherwise the id is left as it was.
   */
  predicate ResolvedFrom(before: Option<nat>, after: Option<nat>, name: Option<string>, nodes: map<nat, TrackedNode>)
  {
    if before.Some? && before.value in nodes then after == before
    else if name.Some? && NameKnown(nodes, name.value) then
      after.Some? && after.value in nodes && TrackedMatchesName(nodes[after.value], name.value)
    else after == before
  }

  /** Every link `create` is asked for comes into being. */
  ghost predicate AlwaysCreates(create: LinkKey -> bool)
  {
    forall k :: create(k)
  }

  /** Both tracked nodes are known and offer ports, so the controller links them. */
  ghost predicate LinkableIn(nodes: map<nat, TrackedNode>, source: Option<nat>, target: Option<nat>)
  {
    source.Some? && target.Some? && source.value in nodes && target.value in nodes
    && Selection(nodes[source.value], true) != {}
    && Selection(nodes[target.value], false) != {}
  }

  /** The enumerated selections hold, once each, exactly the selected ports of the two linkable nodes. */
  ghost predicate SelectionsCurrentIn(nodes: map<nat, TrackedNode>, source: Option<nat>, target: Option<nat>,
                                      ports: (seq<GraphPort>, seq<GraphPort>))
  {
    LinkableIn(nodes, source, target) ==>
      && NoDup(ports.0) && (forall p :: p in ports.0 <==> p in Selection(nodes[source.value], true))
      && NoDup(ports.1) && (forall p :: p in ports.1 <==> p in Selection(nodes[target.value], false))
  }

  /**
   * The links refresh_links asks for: the channel pairing of the
   * enumerated outputs with the enumerated inputs, or none when the two
   * nodes are not linkable.
   */
  ghost function DesiredIn(nodes: map<nat, TrackedNode>, source: Option<nat>, target: Option<nat>,
                           ports: (seq<GraphPort>, seq<GraphPort>)): set<LinkKey>
  {
    if LinkableIn(nodes, source, target) then
      DesiredKeys(source.value, target.value, PairFrom(SortedSources(ports.0), BuildPool(ports.1)))
    else {}
  }

  /**
   * The selections are current and every link is one the channel pairing
   * asks for, and all of them when every creation succeeds.
   */
  ghost predicate PairedIn(nodes: map<nat, TrackedNode>, source: Option<nat>, target: Option<nat>,
                           ports: (seq<GraphPort>, seq<GraphPort>), links: set<LinkKey>, create: LinkKey -> bool)
  {
    SelectionsCurrentIn(nodes, source, target, ports)
    && links <= DesiredIn(nodes, source, target, ports)
    && (AlwaysCreates(create) ==> links == DesiredIn(nodes, source, target, ports))
  }

  // ---------------------------------------------------------------------
  // LoopbackState

  class LoopbackState {
    var nodes: map<nat, TrackedNode>
    var portIndex: map<nat, (nat, nat)>
    var defaultSink: DefaultTarget
    var openmetersNodeId: Option<nat>
    var activeLinks: set<LinkKey>
    /** The two port selections, in the order the last refresh_links enumerated them. */
    ghost var selectedPorts: (seq<GraphPort>, seq<GraphPort>)

    ghost predicate Valid()
      reads this, defaultSink
    {
      AllKeyed(nodes) && LinksWellFormed(openmetersNodeId, defaultSink.nodeId, nodes, activeLinks)
    }

    /** Both tracked nodes are known and offer ports, so the controller links them. */
    ghost predicate Linkable()
      reads this`nodes, this`openmetersNodeId, this`defaultSink, defaultSink`nodeId
    {
      LinkableIn(nodes, openmetersNodeId, defaultSink.nodeId)
    }

    /**
     * What refresh_links leaves behind: every link was active before or
     * has just been created; the selections are current and the links lie
     * inside the channel pairing, covering it when every creation succeeds
     * (PairedIn); nothing is linked unless both nodes are linkable; then there
     * are at most as many links as the smaller port selection, and exactly
     * that many when every creation succeeds.
     */
    ghost predicate Refreshed(before: set<LinkKey>, create: LinkKey -> bool)
      reads this, defaultSink
    {
      (forall k | k in activeLinks :: k in before || create(k))
      && PairedIn(nodes, openmetersNodeId, defaultSink.nodeId, selectedPorts, activeLinks, create)
      && (!Linkable() ==> activeLinks == {})
      && (Linkable() ==>
            |activeLinks| <= Min(|Selection(nodes[openmetersNodeId.value], true)|, |Selection(nodes[defaultSink.nodeId.value], false)|))
      && (Linkable() && AlwaysCreates(create) ==>
            |activeLinks| == Min(|Selection(nodes[openmetersNodeId.value], true)|, |Selection(nodes[defaultSink.nodeId.value], false)|))
    }

    /** The last enumerated selections are the current selections of the two linkable nodes. */
    ghost predicate SelectionsCurrent()
      reads this`nodes, this`openmetersNodeId, this`defaultSink, defaultSink`nodeId, this`selectedPorts
    {
      SelectionsCurrentIn(nodes, openmetersNodeId, defaultSink.nodeId, selectedPorts)
    }

    /**
     * The links refresh_links asks for: the channel pairing of the
     * OpenMeters node's outputs with the default sink's inputs, or none
     * when the two nodes are not linkable.
     */
    ghost function Desired(): set<LinkKey>
      reads this`nodes, this`openmetersNodeId, this`defaultSink, defaultSink`nodeId, this`selectedPorts
    {
      DesiredIn(nodes, openmetersNodeId, defaultSink.nodeId, selectedPorts)
    }

    /** is_tracked_node: the OpenMeters sink or the default sink's node. */
    predicate IsTrackedNode(nodeId: nat)
      reads this, defaultSink
    {
      openmetersNodeId == Some(nodeId) || defaultSink.nodeId == Some(nodeId)
    }

    constructor ()
      ensures Valid() && fresh(defaultSink)
      ensures nodes == map[] && portIndex == map[] && openmetersNodeId.None? && activeLinks == {}
      ensures defaultSink.Value() == EMPTY_TARGET
    {
      nodes, portIndex, openmetersNodeId, activeLinks := map[], map[], None, {};
      defaultSink := new DefaultTarget();
    }

    /** clear_links: no link stays. */
    method ClearLinks()
      modifies this`activeLinks
      ensures activeLinks == {}
    {
      activeLinks := {};
    }

    /**
     * select_ports: the node's loopback ports, or nothing (and every link
     * dropped) when the node is unknown or has no ports.
     */
    method SelectPorts(nodeId: nat, output: bool) returns (ports: Option<seq<GraphPort>>)
      modifies this`activeLinks
      ensures ports.None? <==> nodeId !in nodes || Selection(nodes[nodeId], output) == {}
      ensures ports.None? ==> activeLinks == {}
      ensures ports.Some? ==> activeLinks == old(activeLinks) && NoDup(ports.value)
      ensures ports.Some? ==> |ports.value| == |Selection(nodes[nodeId], output)|
      ensures ports.Some? ==> forall p :: p in ports.value <==> p in Selection(nodes[nodeId], output)
    {
      if nodeId !in nodes {
        ClearLinks();
        return None;
      }
      var selected := PortsForLoopback(nodes[nodeId], output);
      if selected == [] {
        ClearLinks();
        return None;
      }
      ports := Some(selected);
    }

    /**
     * refresh_links: pair the OpenMeters node's output ports with the
     * default sink's input ports, drop every active link the pairing does
     * not ask for, and create the missing ones.
     */
    method RefreshLinks(create: LinkKey -> bool)
      requires AllKeyed(nodes)
      modifies this`activeLinks, this`selectedPorts
      ensures Valid() && Refreshed(old(activeLinks), create)
    {
      if openmetersNodeId.None? || defaultSink.nodeId.None? {
        ClearLinks();
        return;
      }
      var sourceId := openmetersNodeId.value;
      var targetId := defaultSink.nodeId.value;
      var sources := SelectPorts(sourceId, true);
      if sources.None? {
        return;
      }
      var targets := SelectPorts(targetId, false);
      if targets.None? {
        return;
      }
      Relink(sourceId, targetId, sources.value, targets.value, create);
    }

    /** The second half of refresh_links, once both nodes offer ports: pair them and bring the links in line. */
    method Relink(sourceId: nat, targetId: nat, sources: seq<GraphPort>, targets: seq<GraphPort>, create: LinkKey -> bool)
      requires AllKeyed(nodes) && openmetersNodeId == Some(sourceId) && defaultSink.nodeId == Some(targetId)
      requires sourceId in nodes && targetId in nodes && sources != [] && targets != []
      requires NoDup(sources) && |sources| == |Selection(nodes[sourceId], true)|
      requires forall p :: p in sources <==> p in Selection(nodes[sourceId], true)
      requires NoDup(targets) && |targets| == |Selection(nodes[targetId], false)|
      requires forall p :: p in targets <==> p in Selection(nodes[targetId], false)
      modifies this`activeLinks, this`selectedPorts
      ensures Valid() && Refreshed(old(activeLinks), create)
    {
      var kept := ReconcileLinks(nodes, sourceId, targetId, sources, targets, activeLinks, create);
      selectedPorts := (sources, targets);
      activeLinks := kept;
    }

    /** resolve_default_sink_node. */
    method ResolveDefaultSinkNode()
      modifies defaultSink`nodeId
      ensures ResolvedFrom(old(defaultSink.nodeId), defaultSink.nodeId, defaultSink.name, nodes)
    {
      if defaultSink.nodeId.Some? && defaultSink.nodeId.value in nodes {
        return;
      }
      if defaultSink.name.Some? {
        var name := defaultSink.name.value;
        if NameKnown(nodes, name) {
          var id :| id in nodes && TrackedMatchesName(nodes[id], name);
          defaultSink.nodeId := Some(id);
        }
      }
    }

    /**
     * upsert_node: store the descriptor (keeping the node's ports), follow
     * the OpenMeters sink by name, re-resolve the default sink and refresh
     * the links.
     */
    method UpsertNode(node: GraphNode, create: LinkKey -> bool)
      requires Valid()
      modifies this`nodes, this`openmetersNodeId, this`activeLinks, this`selectedPorts, defaultSink`nodeId
      ensures Valid()
      ensures nodes == old(nodes)[node.id := EntryOf(old(nodes), node.id).(info := Some(node))]
      ensures HasName(node, OPENMETERS_SINK_NAME) ==> openmetersNodeId == Some(node.id)
      ensures !HasName(node, OPENMETERS_SINK_NAME) && old(openmetersNodeId) == Some(node.id) ==> openmetersNodeId.None?
      ensures !HasName(node, OPENMETERS_SINK_NAME) && old(openmetersNodeId) != Some(node.id) ==> openmetersNodeId == old(openmetersNodeId)
      ensures ResolvedFrom(old(defaultSink.nodeId), defaultSink.nodeId, defaultSink.name, nodes)
      ensures Refreshed(old(activeLinks), create)
    {
      var entry := EntryOf(nodes, node.id).(info := Some(node));
      nodes := nodes[node.id := entry];
      if TrackedHasName(entry, OPENMETERS_SINK_NAME) {
        openmetersNodeId := Some(node.id);
      } else if openmetersNodeId == Some(node.id) {
        openmetersNodeId := None;
      }
      ResolveDefaultSinkNode();
      RefreshLinks(create);
    }

    /**
     * remove_node: an unknown node changes nothing; otherwise its ports
     * leave the index, it stops being the OpenMeters node or the default
     * sink's node, the sink is re-resolved and the links refreshed.
     */
    method RemoveNode(nodeId: nat, create: LinkKey -> bool) returns (existed: bool)
      requires Valid()
      modifies this`nodes, this`portIndex, this`openmetersNodeId, this`activeLinks, this`selectedPorts, defaultSink`nodeId
      ensures Valid()
      ensures existed <==> nodeId in old(nodes)
      ensures !existed ==> nodes == old(nodes) && portIndex == old(portIndex) && openmetersNodeId == old(openmetersNodeId)
      ensures !existed ==> activeLinks == old(activeLinks) && defaultSink.nodeId == old(defaultSink.nodeId)
      ensures existed ==> nodes == old(nodes) - {nodeId} && portIndex == PurgeOwner(old(portIndex), nodeId)
      ensures existed ==> openmetersNodeId == (if old(openmetersNodeId) == Some(nodeId) then None else old(openmetersNodeId))
      ensures existed ==> ResolvedFrom(if old(defaultSink.nodeId) == Some(nodeId) then None else old(defaultSink.nodeId),
                                       defaultSink.nodeId, defaultSink.name, nodes)
      ensures existed ==> defaultSink.nodeId != Some(nodeId) && Refreshed(old(activeLinks), create)
    {
      if nodeId !in nodes {
        return false;
      }
      ForgetNode(nodeId);
      ResolveDefaultSinkNode();
      RefreshLinks(create);
      existed := true;
    }

    /** The bookkeeping half of remove_node for a known node: it leaves the nodes, the index and both tracked ids. */
    method ForgetNode(nodeId: nat)
      requires AllKeyed(nodes) && nodeId in nodes
      modifies this`nodes, this`portIndex, this`openmetersNodeId, defaultSink`nodeId
      ensures AllKeyed(nodes)
      ensures nodes == old(nodes) - {nodeId} && portIndex == PurgeOwner(old(portIndex), nodeId)
      ensures openmetersNodeId == (if old(openmetersNodeId) == Some(nodeId) then None else old(openmetersNodeId))
      ensures defaultSink.nodeId == (if old(defaultSink.nodeId) == Some(nodeId) then None else old(defaultSink.nodeId))
    {
      nodes := nodes - {nodeId};
      portIndex := PurgeOwner(portIndex, nodeId);
      if openmetersNodeId == Some(nodeId) {
        openmetersNodeId := None;
      }
      if defaultSink.nodeId == Some(nodeId) {
        defaultSink.nodeId := None;
      }
    }

    /**
     * upsert_port: the port joins its node (announced or not) and the index;
     * the links are refreshed only when the node is tracked.
     */
    method UpsertPort(port: GraphPort, create: LinkKey -> bool)
      requires Valid()
      modifies this`nodes, this`portIndex, this`activeLinks, this`selectedPorts
      ensures Valid()
      ensures nodes == old(nodes)[port.nodeId := TrackedWithPort(EntryOf(old(nodes), port.nodeId), port)]
      ensures portIndex == old(portIndex)[port.globalId := (port.nodeId, port.portId)]
      ensures IsTrackedNode(port.nodeId) ==> Refreshed(old(activeLinks), create)
      ensures !IsTrackedNode(port.nodeId) ==> activeLinks == old(activeLinks)
    {
      TrackPort(port);
      if IsTrackedNode(port.nodeId) {
        RefreshLinks(create);
      }
    }

    /** The bookkeeping half of upsert_port: the port joins its node and the index, the links stay. */
    method TrackPort(port: GraphPort)
      requires Valid()
      modifies this`nodes, this`portIndex
      ensures AllKeyed(nodes)
      ensures nodes == old(nodes)[port.nodeId := TrackedWithPort(EntryOf(old(nodes), port.nodeId), port)]
      ensures portIndex == old(portIndex)[port.globalId := (port.nodeId, port.portId)]
      ensures !IsTrackedNode(port.nodeId) ==> Valid()
    {
      nodes := nodes[port.nodeId := TrackedWithPort(EntryOf(nodes, port.nodeId), port)];
      portIndex := portIndex[port.globalId := (port.nodeId, port.portId)];
    }

    /**
     * remove_port_by_global: an unindexed global id changes nothing and
     * answers false; otherwise the port leaves the index and its node, and
     * the links are refreshed when the node is tracked.
     */
    method RemovePortByGlobal(globalId: nat, create: LinkKey -> bool) returns (removed: bool)
      requires Valid()
      modifies this`nodes, this`portIndex, this`activeLinks, this`selectedPorts
      ensures Valid()
      ensures removed <==> globalId in old(portIndex)
      ensures !removed ==> nodes == old(nodes) && portIndex == old(portIndex) && activeLinks == old(activeLinks)
      ensures removed ==> portIndex == old(portIndex) - {globalId}
      ensures removed && old(portIndex)[globalId].0 in old(nodes) ==>
        nodes == old(nodes)[old(portIndex)[globalId].0 := TrackedWithoutPort(old(nodes)[old(portIndex)[globalId].0], old(portIndex)[globalId].1)]
      ensures removed && old(portIndex)[globalId].0 !in old(nodes) ==> nodes == old(nodes)
      ensures removed && IsTrackedNode(old(portIndex)[globalId].0) ==> Refreshed(old(activeLinks), create)
      ensures removed && !IsTrackedNode(old(portIndex)[globalId].0) ==> activeLinks == old(activeLinks)
    {
      if globalId !in portIndex {
        return false;
      }
      var nodeId := portIndex[globalId].0;
      UntrackPort(globalId);
      if IsTrackedNode(nodeId) {
        RefreshLinks(create);
      }
      removed := true;
    }

    /** The bookkeeping half of remove_port_by_global for an indexed port: it leaves the index and its node, the links stay. */
    method UntrackPort(globalId: nat)
      requires Valid() && globalId in portIndex
      modifies this`nodes, this`portIndex
      ensures AllKeyed(nodes)
      ensures portIndex == old(portIndex) - {globalId}
      ensures old(portIndex)[globalId].0 in old(nodes) ==>
        nodes == old(nodes)[old(portIndex)[globalId].0 := TrackedWithoutPort(old(nodes)[old(portIndex)[globalId].0], old(portIndex)[globalId].1)]
      ensures old(portIndex)[globalId].0 !in old(nodes) ==> nodes == old(nodes)
      ensures !IsTrackedNode(old(portIndex)[globalId].0) ==> Valid()
    {
      var (nodeId, portId) := portIndex[globalId];
      portIndex := portIndex - {globalId};
      if nodeId in nodes {
        nodes := nodes[nodeId := TrackedWithoutPort(nodes[nodeId], portId)];
      }
    }

    /**
     * update_default_sink: the sink slot takes the announcement (the value
     * parsed into a name), is re-resolved, and the links are refreshed.
     */
    method UpdateDefaultSink(metadataId: nat, subject: nat, typeHint: Option<string>, value: Option<string>,
                             parse: string -> Json, create: LinkKey -> bool)
      requires Valid()
      modifies defaultSink, this`activeLinks, this`selectedPorts
      ensures Valid()
      ensures defaultSink.metadataId == Some(metadataId) && defaultSink.typeHint == typeHint
      ensures defaultSink.name == ParseMetadataName(typeHint, value, parse)
      ensures ResolvedFrom(if subject != 0 then Some(subject) else None, defaultSink.nodeId, defaultSink.name, nodes)
      ensures Refreshed(old(activeLinks), create)
    {
      var parsedName := ParseMetadataName(typeHint, value, parse);
      AnnounceDefaultSink(metadataId, subject, typeHint, parsedName);
      ghost var resolved := defaultSink.Value();
      RefreshLinks(create);
      assert defaultSink.Value() == resolved;
    }

    /** The sink slot takes the announcement and is re-resolved against the known nodes. */
    method AnnounceDefaultSink(metadataId: nat, subject: nat, typeHint: Option<string>, name: Option<string>)
      modifies defaultSink
      ensures defaultSink.metadataId == Some(metadataId) && defaultSink.typeHint == typeHint && defaultSink.name == name
      ensures ResolvedFrom(if subject != 0 then Some(subject) else None, defaultSink.nodeId, defaultSink.name, nodes)
    {
      var _ := defaultSink.Update(metadataId, subject, typeHint, name);
      assert defaultSink.metadataId == Some(metadataId) && defaultSink.typeHint == typeHint && defaultSink.name == name;
      ResolveDefaultSinkNode();
    }

    /** handle_metadata_property: only the default sink key is followed. */
    method HandleMetadataProperty(metadataId: nat, subject: nat, key: Option<string>, typeHint: Option<string>,
                                  value: Option<string>, parse: string -> Json, create: LinkKey -> bool)
      requires Valid()
      modifies defaultSink, this`activeLinks, this`selectedPorts
      ensures Valid()
      ensures key != Some(DEFAULT_AUDIO_SINK_KEY) ==> defaultSink.Value() == old(defaultSink.Value()) && activeLinks == old(activeLinks)
      ensures key == Some(DEFAULT_AUDIO_SINK_KEY) ==> defaultSink.metadataId == Some(metadataId) && Refreshed(old(activeLinks), create)
    {
      if key != Some(DEFAULT_AUDIO_SINK_KEY) {
        return;
      }
      UpdateDefaultSink(metadataId, subject, typeHint, value, parse, create);
    }

    /**
     * clear_metadata: when the sink was announced by that metadata object,
     * the slot is emptied and, with no sink node left, every link goes.
     */
    method ClearMetadata(metadataId: nat, create: LinkKey -> bool)
      requires Valid()
      modifies defaultSink, this`activeLinks, this`selectedPorts
      ensures Valid()
      ensures old(defaultSink.metadataId) == Some(metadataId) ==> defaultSink.Value() == EMPTY_TARGET && activeLinks == {}
      ensures old(defaultSink.metadataId) != Some(metadataId) ==>
        defaultSink.Value() == old(defaultSink.Value()) && activeLinks == old(activeLinks)
    {
      if defaultSink.metadataId == Some(metadataId) {
        defaultSink.Clear();
        RefreshLinks(create);
      }
    }

    /**
     * handle_global_removed: a removed global is a port if indexed, else a
     * node if known, else a bound metadata object, whose binding is dropped.
     */
    method HandleGlobalRemoved(id: nat, bound: set<nat>, create: LinkKey -> bool) returns (remaining: set<nat>)
      requires Valid()
      modifies this`nodes, this`portIndex, this`openmetersNodeId, this`activeLinks, this`selectedPorts, defaultSink
      ensures Valid()
      ensures id in old(portIndex) ==> portIndex == old(portIndex) - {id} && remaining == bound
      ensures id in old(portIndex) ==> openmetersNodeId == old(openmetersNodeId) && defaultSink.Value() == old(defaultSink.Value())
      ensures id !in old(portIndex) && id in old(nodes) ==> nodes == old(nodes) - {id} && remaining == bound
      ensures id !in old(portIndex) && id !in old(nodes) ==> nodes == old(nodes) && remaining == bound - {id}
      ensures id !in old(portIndex) && id !in old(nodes) && id in bound && old(defaultSink.metadataId) == Some(id) ==>
        defaultSink.Value() == EMPTY_TARGET && activeLinks == {}
    {
      remaining := bound;
      var wasPort := RemovePortByGlobal(id, create);
      if wasPort {
        return;
      }
      var wasNode := RemoveNode(id, create);
      if wasNode {
        return;
      }
      if id in bound {
        remaining := bound - {id};
        ClearMetadata(id, create);
      }
    }
  }

  /**
   * The links the pairing of the two nodes' selected ports asks for: well
   * formed, and as many as the smaller selection.
   */
  /**
   * The link work of refresh_links on values: plan the channel pairing,
   * keep the active links it still asks for and create the missing ones.
   */
  method ReconcileLinks(nodes: map<nat, TrackedNode>, sourceId: nat, targetId: nat, sources: seq<GraphPort>, targets: seq<GraphPort>,
                        active: set<LinkKey>, create: LinkKey -> bool) returns (kept: set<LinkKey>)
    requires AllKeyed(nodes) && sourceId in nodes && targetId in nodes && sources != [] && targets != []
    requires NoDup(sources) && |sources| == |Selection(nodes[sourceId], true)|
    requires forall p :: p in sources <==> p in Selection(nodes[sourceId], true)
    requires NoDup(targets) && |targets| == |Selection(nodes[targetId], false)|
    requires forall p :: p in targets <==> p in Selection(nodes[targetId], false)
    ensures LinkableIn(nodes, Some(sourceId), Some(targetId))
    ensures forall k | k in kept :: k in active || create(k)
    ensures PairedIn(nodes, Some(sourceId), Some(targetId), (sources, targets), kept, create)
    ensures LinksWellFormed(Some(sourceId), Some(targetId), nodes, kept)
    ensures |kept| <= Min(|Selection(nodes[sourceId], true)|, |Selection(nodes[targetId], false)|)
    ensures AlwaysCreates(create) ==> |kept| == Min(|Selection(nodes[sourceId], true)|, |Selection(nodes[targetId], false)|)
  {
    var desired, plans := PlanLinks(nodes, sourceId, targetId, sources, targets);
    kept := RemoveUndesired(active, desired);
    kept := CreateMissing(sourceId, targetId, plans, desired, active, kept, create);
    WellFormedSubset(Some(sourceId), Some(targetId), nodes, desired, kept);
    if AlwaysCreates(create) {
      AllPlannedKept(sourceId, targetId, plans, kept);
    }
    SubsetCard(kept, desired);
    assert sources[0] in Selection(nodes[sourceId], true) && targets[0] in Selection(nodes[targetId], false);
    assert DesiredIn(nodes, Some(sourceId), Some(targetId), (sources, targets)) == desired;
  }

  method PlanLinks(nodes: map<nat, TrackedNode>, sourceId: nat, targetId: nat, sources: seq<GraphPort>, targets: seq<GraphPort>)
    returns (desired: set<LinkKey>, plans: seq<(GraphPort, GraphPort)>)
    requires AllKeyed(nodes) && sourceId in nodes && targetId in nodes
    requires NoDup(sources) && |sources| == |Selection(nodes[sourceId], true)|
    requires forall p :: p in sources <==> p in Selection(nodes[sourceId], true)
    requires NoDup(targets) && |targets| == |Selection(nodes[targetId], false)|
    requires forall p :: p in targets <==> p in Selection(nodes[targetId], false)
    ensures plans == PairFrom(SortedSources(sources), BuildPool(targets))
    ensures desired == DesiredKeys(sourceId, targetId, plans)
    ensures LinksWellFormed(Some(sourceId), Some(targetId), nodes, desired)
    ensures |desired| == Min(|Selection(nodes[sourceId], true)|, |Selection(nodes[targetId], false)|)
  {
    plans := PairPortsByChannel(sources, targets);
    PlanPortsDistinct(nodes[sourceId], nodes[targetId], sources, targets, plans);
    DesiredWellFormed(sourceId, targetId, nodes, plans);
    desired := DesiredKeys(sourceId, targetId, plans);
  }

  lemma SubsetCard<T>(a: set<T>, b: set<T>)
    requires a <= b
    ensures |a| <= |b|
  {
    assert b == a + (b - a);
  }

  /** The first pass of refresh_links: the active links the plans no longer ask for are dropped. */
  method RemoveUndesired(active: set<LinkKey>, desired: set<LinkKey>) returns (kept: set<LinkKey>)
    ensures kept == active * desired
  {
    var existing := active;
    kept := active;
    while existing != {}
      invariant existing <= active
      invariant kept == (active - existing) * desired + existing
      decreases |existing|
    {
      var k :| k in existing;
      if k !in desired {
        kept := kept - {k};
      }
      existing := existing - {k};
    }
  }

  /** The second pass of refresh_links: each planned link not yet active is created, if `create` allows. */
  method CreateMissing(source: nat, target: nat, plans: seq<(GraphPort, GraphPort)>, desired: set<LinkKey>,
                       active: set<LinkKey>, kept0: set<LinkKey>, create: LinkKey -> bool) returns (kept: set<LinkKey>)
    requires forall i | 0 <= i < |plans| :: PlanKey(source, target, plans[i]) in desired
    requires kept0 == active * desired
    ensures kept <= desired
    ensures forall k | k in kept :: k in active || create(k)
    ensures forall k | k in desired && k in active :: k in kept
    ensures forall i | 0 <= i < |plans| && create(PlanKey(source, target, plans[i])) :: PlanKey(source, target, plans[i]) in kept
  {
    kept := kept0;
    for i := 0 to |plans|
      invariant kept <= desired
      invariant forall k | k in kept :: k in active || create(k)
      invariant forall k | k in desired && k in active :: k in kept
      invariant forall j | 0 <= j < i && create(PlanKey(source, target, plans[j])) :: PlanKey(source, target, plans[j]) in kept
    {
      var key := PlanKey(source, target, plans[i]);
      if key !in kept && create(key) {
        kept := kept + {key};
      }
    }
  }

  /** Links kept for every plan are all the links the plans ask for. */
  lemma AllPlannedKept(source: nat, target: nat, plans: seq<(GraphPort, GraphPort)>, kept: set<LinkKey>)
    requires kept <= DesiredKeys(source, target, plans)
    requires forall i | 0 <= i < |plans| :: PlanKey(source, target, plans[i]) in kept
    ensures kept == DesiredKeys(source, target, plans)
  {
    forall k | k in DesiredKeys(source, target, plans) ensures k in kept {
      var i := PlanOf(source, target, plans, k);
    }
  }
}
