// The registry's bookkeeping (src/audio/pw_registry/state.rs): nodes by id,
// the port index, the device count and the metadata defaults, with a serial
// number that moves exactly when something changed.
module RegistryState {
  import opened Base
  import opened PipewireMetadata
  import opened RegistryTypes

  // --- ports of a node

  /** The position of the first port with `portId`. */
  function PortPosition(ports: seq<RegistryPort>, portId: nat): (r: Option<nat>)
    ensures r.Some? ==> r.value < |ports| && ports[r.value].portId == portId
    ensures r.Some? ==> forall j :: 0 <= j < r.value ==> ports[j].portId != portId
    ensures r.None? ==> forall j :: 0 <= j < |ports| ==> ports[j].portId != portId
  {
    if ports == [] then None
    else if ports[0].portId == portId then Some(0)
    else
      var rest := PortPosition(ports[1..], portId);
      if rest.Some? then Some(rest.value + 1) else None
  }

  /** The ports after an upsert: the first port with the same id is replaced, else the port is appended. */
  function UpsertedPorts(ports: seq<RegistryPort>, port: RegistryPort): seq<RegistryPort>
  {
    var pos := PortPosition(ports, port.portId);
    if pos.Some? then ports[pos.value := port] else ports + [port]
  }

  /**
   * An upsert makes the port the first one with its id, keeps every port
   * with another id where it was, and adds at most one entry.
   */
  lemma UpsertFindsPort(ports: seq<RegistryPort>, port: RegistryPort)
    ensures PortPosition(UpsertedPorts(ports, port), port.portId).Some?
    ensures UpsertedPorts(ports, port)[PortPosition(UpsertedPorts(ports, port), port.portId).value] == port
    ensures |ports| <= |UpsertedPorts(ports, port)| <= |ports| + 1
    ensures forall i :: 0 <= i < |ports| && ports[i].portId != port.portId ==> UpsertedPorts(ports, port)[i] == ports[i]
  {
    var r := UpsertedPorts(ports, port);
    var pos := PortPosition(ports, port.portId);
    if pos.Some? {
      var p := PortPosition(r, port.portId);
      assert r[pos.value].portId == port.portId;
      assert p.Some? && p.value <= pos.value;
      assert p.value == pos.value;
    } else {
      var p := PortPosition(r, port.portId);
      assert r[|ports|].portId == port.portId;
      assert p.Some? && p.value == |ports|;
    }
  }

  /** `retain`: the ports without `portId`, in their order. */
  function WithoutPort(ports: seq<RegistryPort>, portId: nat): (r: seq<RegistryPort>)
    ensures |r| <= |ports|
    ensures forall p :: p in r <==> p in ports && p.portId != portId
  {
    if ports == [] then []
    else
      var rest := WithoutPort(ports[1..], portId);
      assert forall p :: p in ports <==> p == ports[0] || p in ports[1..];
      if ports[0].portId != portId then [ports[0]] + rest else rest
  }

  // --- snapshots

  /** Strictly increasing node ids. */
  predicate SortedById(nodes: seq<NodeInfo>)
  {
    forall i, j :: 0 <= i < j < |nodes| ==> nodes[i].id < nodes[j].id
  }

  /** Insert a node with a new id into an id-sorted sequence. */
  function InsertById(nodes: seq<NodeInfo>, n: NodeInfo): (r: seq<NodeInfo>)
    requires SortedById(nodes)
    requires forall m :: m in nodes ==> m.id != n.id
    ensures SortedById(r)
    ensures forall m :: m in r <==> m in nodes || m == n
    ensures |r| == |nodes| + 1
  {
    if nodes == [] || n.id < nodes[0].id then
      ConsSorted(n, nodes);
      [n] + nodes
    else
      var rest := InsertById(nodes[1..], n);
      assert nodes == [nodes[0]] + nodes[1..];
      HeadBelowTail(nodes);
      ConsSorted(nodes[0], rest);
      [nodes[0]] + rest
  }

  /** In an id-sorted sequence the first id is below every later one. */
  lemma HeadBelowTail(nodes: seq<NodeInfo>)
    requires SortedById(nodes) && nodes != []
    ensures forall m :: m in nodes[1..] ==> nodes[0].id < m.id
  {
    forall m | m in nodes[1..]
      ensures nodes[0].id < m.id
    {
      var j :| 0 <= j < |nodes[1..]| && nodes[1..][j] == m;
      assert nodes[j + 1] == m;
    }
  }

  /** A node below every id of a sorted sequence can go in front of it. */
  lemma ConsSorted(x: NodeInfo, rest: seq<NodeInfo>)
    requires SortedById(rest) && forall m :: m in rest ==> x.id < m.id
    ensures SortedById([x] + rest)
  {
    var all := [x] + rest;
    forall i, j | 0 <= i < j < |all|
      ensures all[i].id < all[j].id
    {
      assert all[j] == rest[j - 1];
      if i > 0 {
        assert all[i] == rest[i - 1];
      } else {
        assert rest[j - 1] in rest;
      }
    }
  }

  /** RegistryState: what the registry thread knows about the graph. */
  class RegistryState {
    var serial: nat
    var nodes: map<nat, NodeInfo>
    var deviceCount: nat
    var portIndex: map<nat, (nat, nat)>
    var defaults: MetadataDefaults

    /** The serial is a u64 and every node is filed under its own id. */
    ghost predicate Valid()
      reads this
    {
      serial <= U64_MAX && forall id :: id in nodes ==> nodes[id].id == id
    }

    constructor ()
      ensures Valid()
      ensures serial == 0 && nodes == map[] && deviceCount == 0 && portIndex == map[]
      ensures defaults.Value() == Defaults(None, None)
    {
      serial, nodes, deviceCount, portIndex := 0, map[], 0, map[];
      defaults := new MetadataDefaults();
    }

    /** snapshot: the nodes sorted by id, with the serial, device count and defaults. */
    method Snapshot() returns (s: RegistrySnapshot)
      requires Valid()
      ensures s.serial == serial && s.deviceCount == deviceCount && s.defaults == defaults.Value()
      ensures SortedById(s.nodes)
      ensures |s.nodes| == |nodes|
      ensures forall n :: n in s.nodes <==> n.id in nodes && nodes[n.id] == n
    {
      var all := nodes;
      var keys := all.Keys;
      var acc: seq<NodeInfo> := [];
      while keys != {}
        invariant keys <= all.Keys
        invariant SortedById(acc)
        invariant |acc| + |keys| == |all.Keys|
        invariant forall n :: n in acc <==> n.id in all && n.id !in keys && all[n.id] == n
        decreases |keys|
      {
        var k :| k in keys;
        acc := InsertById(acc, all[k]);
        keys := keys - {k};
      }
      assert |all.Keys| == |all|;
      s := RegistrySnapshot(serial, acc, deviceCount, defaults.Value());
    }

    /**
     * upsert_node: an identical node changes nothing; otherwise the node is
     * stored, the defaults are reconciled and the serial moves.
     */
    method UpsertNode(info: NodeInfo) returns (changed: bool)
      requires Valid()
      modifies this, defaults
      ensures Valid() && defaults == old(defaults)
      ensures changed <==> !(info.id in old(nodes) && old(nodes)[info.id] == info)
      ensures changed <==> serial != old(serial)
      ensures changed ==> nodes == old(nodes)[info.id := info] && serial == Bump(old(serial))
      ensures !changed ==> nodes == old(nodes) && defaults.Value() == old(defaults.Value())
      ensures changed ==> NodeKnown(defaults.audioSink, nodes.Keys) && NodeKnown(defaults.audioSource, nodes.Keys)
      ensures deviceCount == old(deviceCount) && portIndex == old(portIndex)
    {
      if info.id in nodes && nodes[info.id] == info {
        return false;
      }
      nodes := nodes[info.id := info];
      defaults.ReconcileWithNodes(NodeNames(nodes));
      serial := Bump(serial);
      changed := true;
    }

    /**
     * remove_node: an unknown id changes nothing; otherwise the node goes,
     * the defaults forget it (keeping its name or description), and the
     * serial moves.
     */
    method RemoveNode(id: nat) returns (removed: bool)
      requires Valid()
      modifies this, defaults
      ensures Valid() && defaults == old(defaults)
      ensures removed <==> id in old(nodes)
      ensures removed <==> serial != old(serial)
      ensures !removed ==> nodes == old(nodes) && defaults.Value() == old(defaults.Value())
      ensures removed ==> nodes == old(nodes) - {id} && serial == Bump(old(serial))
      ensures removed ==> !OnNode(defaults.audioSink, id) && !OnNode(defaults.audioSource, id)
      ensures deviceCount == old(deviceCount) && portIndex == old(portIndex)
    {
      if id !in nodes {
        return false;
      }
      var info := nodes[id];
      nodes := nodes - {id};
      var fallback := OptionOr(info.name, info.description);
      ClearNodeForgets(defaults.audioSink, id, fallback);
      ClearNodeForgets(defaults.audioSource, id, fallback);
      var cleared := defaults.ClearNode(id, fallback);
      if cleared {
        defaults.ReconcileWithNodes(NodeNames(nodes));
      }
      serial := Bump(serial);
      removed := true;
    }

    /** add_device: one more device, and the serial moves. */
    method AddDevice()
      requires Valid()
      modifies this`deviceCount, this`serial
      ensures Valid()
      ensures deviceCount == old(deviceCount) + 1 && serial == Bump(old(serial))
    {
      deviceCount := deviceCount + 1;
      serial := Bump(serial);
    }

    /**
     * upsert_port: a port of an unknown node is refused; otherwise the
     * port replaces the one with its port id, or is appended. Only a real
     * change updates the port index and moves the serial.
     */
    method UpsertPort(port: RegistryPort) returns (changed: bool)
      requires Valid()
      modifies this`nodes, this`portIndex, this`serial
      ensures Valid()
      ensures port.nodeId !in old(nodes) ==> !changed
      ensures changed <==> port.nodeId in old(nodes) && UpsertedPorts(old(nodes)[port.nodeId].ports, port) != old(nodes)[port.nodeId].ports
      ensures changed <==> serial != old(serial)
      ensures changed ==> nodes == old(nodes)[port.nodeId := old(nodes)[port.nodeId].(ports := UpsertedPorts(old(nodes)[port.nodeId].ports, port))]
      ensures changed ==> portIndex == old(portIndex)[port.globalId := (port.nodeId, port.portId)] && serial == Bump(old(serial))
      ensures !changed ==> nodes == old(nodes) && portIndex == old(portIndex)
    {
      if port.nodeId !in nodes {
        return false;
      }
      var node := nodes[port.nodeId];
      var pos := PortPosition(node.ports, port.portId);
      var ports := node.ports;
      if pos.Some? {
        if ports[pos.value] != port {
          ports := ports[pos.value := port];
          changed := true;
        } else {
          assert ports[pos.value := port] == ports;
          changed := false;
        }
      } else {
        ports := ports + [port];
        changed := true;
      }
      if changed {
        nodes := nodes[port.nodeId := node.(ports := ports)];
        portIndex := portIndex[port.globalId := (port.nodeId, port.portId)];
        serial := Bump(serial);
      }
    }

    /**
     * remove_port: an unindexed global id changes nothing. Otherwise its
     * index entry goes; if its node is still known, the node's ports with
     * that port id go too and the serial moves.
     */
    method RemovePort(globalId: nat) returns (removed: bool)
      requires Valid()
      modifies this`nodes, this`portIndex, this`serial
      ensures Valid()
      ensures portIndex == old(portIndex) - {globalId}
      ensures removed <==> globalId in old(portIndex) && old(portIndex)[globalId].0 in old(nodes)
      ensures removed <==> serial != old(serial)
      ensures !removed ==> nodes == old(nodes)
      ensures removed ==> serial == Bump(old(serial))
      ensures removed ==> (var (nodeId, portId) := old(portIndex)[globalId];
        nodes == old(nodes)[nodeId := old(nodes)[nodeId].(ports := WithoutPort(old(nodes)[nodeId].ports, portId))])
    {
      if globalId !in portIndex {
        return false;
      }
      var (nodeId, portId) := portIndex[globalId];
      portIndex := portIndex - {globalId};
      if nodeId !in nodes {
        return false;
      }
      var node := nodes[nodeId];
      nodes := nodes[nodeId := node.(ports := WithoutPort(node.ports, portId))];
      serial := Bump(serial);
      removed := true;
    }

    /**
     * apply_metadata_property: a key updates its default slot; no key
     * clears what that metadata object announced. A change reconciles the
     * defaults with the nodes and moves the serial.
     */
    method ApplyMetadataProperty(metadataId: nat, subject: nat, key: Option<string>, typeHint: Option<string>,
                                 value: Option<string>, parse: string -> Json) returns (changed: bool)
      requires Valid()
      modifies this`serial, defaults
      ensures Valid()
      ensures changed <==> serial != old(serial)
      ensures changed ==> serial == Bump(old(serial))
      ensures !changed ==> defaults.Value() == old(defaults.Value())
      ensures key.Some? && key.value != DEFAULT_AUDIO_SINK_KEY && key.value != DEFAULT_AUDIO_SOURCE_KEY ==> !changed
      ensures key.None? ==> (changed <==> FromMetadata(old(defaults.audioSink), metadataId) || FromMetadata(old(defaults.audioSource), metadataId))
      ensures key.None? ==> !FromMetadata(defaults.audioSink, metadataId) && !FromMetadata(defaults.audioSource, metadataId)
    {
      if key.Some? {
        changed := defaults.ApplyUpdate(metadataId, subject, key.value, typeHint, value, parse);
      } else {
        changed := defaults.ClearMetadata(metadataId);
      }
      if changed {
        defaults.ReconcileWithNodes(NodeNames(nodes));
        serial := Bump(serial);
      }
    }
  }
}
