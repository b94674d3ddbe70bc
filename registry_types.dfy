// Registry value types (src/audio/pw_registry/types.rs): node and port
// records, default-target bookkeeping, target-metadata formatting and the
// helpers a registry snapshot offers to its readers.
module RegistryTypes {
  import opened Base
  import PipewireGraph
  import opened PipewireMetadata

  type PortDirection = PipewireGraph.PortDirection

  /** Property keys read from a node's property map. */
  const APP_NAME_KEY: string := "application.name"
  const OBJECT_SERIAL_KEY: string := "object.serial"

  /** NodeDirection: whether a node consumes or produces audio. */
  datatype NodeDirection = NodeInput | NodeOutput | NodeUnknown

  /** GraphPort (registry flavour): a port without a name. */
  datatype RegistryPort = RegistryPort(globalId: nat, portId: nat, nodeId: nat, channel: Option<string>,
                                       direction: PortDirection, isMonitor: bool)

  /** The serial after one more change: u64 wrap-around. */
  function Bump(serial: nat): (r: nat)
    requires serial <= U64_MAX
    ensures r <= U64_MAX && r != serial
    ensures serial < U64_MAX ==> r == serial + 1
    ensures serial == U64_MAX ==> r == 0
  {
    WrappingAdd64(serial, 1)
  }

  // --- node direction

  /** The lower-cased media class contains `needle`. */
  predicate ClassHas(mediaClass: Option<string>, needle: string)
  {
    mediaClass.Some? && Contains(ToLower(mediaClass.value), needle)
  }

  predicate ClassSaysOutput(mediaClass: Option<string>)
  {
    ClassHas(mediaClass, "sink") || ClassHas(mediaClass, "output")
  }

  predicate ClassSaysInput(mediaClass: Option<string>)
  {
    ClassHas(mediaClass, "source") || ClassHas(mediaClass, "input")
  }

  /**
   * derive_node_direction: a sink or output media class makes an output
   * node, else a source or input class an input node; otherwise the
   * node's port-direction property ("in"/"out", any case) decides.
   */
  function DeriveNodeDirection(mediaClass: Option<string>, portDirection: Option<string>): (r: NodeDirection)
    ensures ClassSaysOutput(mediaClass) ==> r == NodeOutput
    ensures !ClassSaysOutput(mediaClass) && ClassSaysInput(mediaClass) ==> r == NodeInput
    ensures !ClassSaysOutput(mediaClass) && !ClassSaysInput(mediaClass) ==>
      (r == NodeInput <==> portDirection.Some? && EqIgnoreCase(portDirection.value, "in"))
      && (r == NodeOutput <==> portDirection.Some? && EqIgnoreCase(portDirection.value, "out"))
  {
    if ClassSaysOutput(mediaClass) then NodeOutput
    else if ClassSaysInput(mediaClass) then NodeInput
    else if portDirection.Some? && EqIgnoreCase(portDirection.value, "in") then NodeInput
    else if portDirection.Some? && EqIgnoreCase(portDirection.value, "out") then NodeOutput
    else NodeUnknown
  }

  /** The media class is matched without regard to ASCII case. */
  lemma DirectionIgnoresClassCase(mediaClass: string, portDirection: Option<string>)
    ensures DeriveNodeDirection(Some(ToUpper(mediaClass)), portDirection) == DeriveNodeDirection(Some(mediaClass), portDirection)
  {
    CaseFolding(mediaClass);
  }

  // --- route target metadata

  /**
   * format_target_metadata: the target object is the trimmed object
   * serial when it is not blank, else the node id; the target node is the
   * node id, both as text.
   */
  function FormatTargetMetadata(objectSerial: Option<string>, nodeId: nat): (r: (string, string))
    ensures r.1 == NatToString(nodeId)
    ensures objectSerial.Some? && Trim(objectSerial.value) != [] ==> r.0 == Trim(objectSerial.value)
    ensures objectSerial.None? || Trim(objectSerial.value) == [] ==> r.0 == NatToString(nodeId)
  {
    var fromSerial := if objectSerial.Some? && Trim(objectSerial.value) != [] then Some(Trim(objectSerial.value)) else None;
    (if fromSerial.Some? then fromSerial.value else NatToString(nodeId), NatToString(nodeId))
  }

  /** The target object is never blank and never padded. */
  lemma TargetObjectNeverBlank(objectSerial: Option<string>, nodeId: nat)
    ensures FormatTargetMetadata(objectSerial, nodeId).0 != []
    ensures IsTrimmed(FormatTargetMetadata(objectSerial, nodeId).0)
  {
    if objectSerial.Some? && Trim(objectSerial.value) != [] {
      TrimIsTrimmed(objectSerial.value);
    } else {
      DigitsTrimmed(nodeId);
    }
  }

  lemma {:induction false} DigitsTrimmed(n: nat)
    ensures IsTrimmed(NatToString(n))
    ensures !IsWhitespace(NatToString(n)[0])
    decreases n
  {
    if n >= 10 {
      DigitsTrimmed(n / 10);
    }
  }

  // --- nodes

  /** NodeInfo: a node as the registry knows it, with the ports seen so far. */
  datatype NodeInfo = NodeInfo(id: nat, name: Option<string>, description: Option<string>, mediaClass: Option<string>,
                               direction: NodeDirection, isVirtual: bool, properties: map<string, string>,
                               ports: seq<RegistryPort>)

  function AppName(n: NodeInfo): Option<string>
  {
    PipewireGraph.Lookup(n.properties, APP_NAME_KEY)
  }

  function ObjectSerial(n: NodeInfo): Option<string>
  {
    PipewireGraph.Lookup(n.properties, OBJECT_SERIAL_KEY)
  }

  /** display_name: the name, else the description, else "node#<id>". */
  function DisplayName(n: NodeInfo): (r: string)
    ensures n.name.Some? ==> r == n.name.value
    ensures n.name.None? && n.description.Some? ==> r == n.description.value
    ensures n.name.None? && n.description.None? ==> r == "node#" + NatToString(n.id)
  {
    if n.name.Some? then n.name.value
    else if n.description.Some? then n.description.value
    else "node#" + NatToString(n.id)
  }

  /** matches_label: the name or the description equals the query up to ASCII case. */
  predicate MatchesLabel(n: NodeInfo, query: string)
  {
    (n.name.Some? && EqIgnoreCase(n.name.value, query))
    || (n.description.Some? && EqIgnoreCase(n.description.value, query))
  }

  /** The query is matched without regard to ASCII case. */
  lemma LabelIgnoresCase(n: NodeInfo, query: string)
    ensures MatchesLabel(n, ToUpper(query)) <==> MatchesLabel(n, query)
  {
    CaseFolding(query);
  }

  /** An application's audio output stream. */
  predicate IsAudioApplicationOutput(n: NodeInfo)
  {
    n.direction == NodeOutput && ClassHas(n.mediaClass, "audio") && AppName(n).Some?
  }

  /** should_route_to: another node that is an application's audio output. */
  predicate ShouldRouteTo(n: NodeInfo, sink: NodeInfo)
  {
    n.id != sink.id && IsAudioApplicationOutput(n)
  }

  // --- port selection

  /** A port of the direction and, when given, of the monitor flag. */
  predicate PortMatches(p: RegistryPort, dir: PortDirection, monitor: Option<bool>)
  {
    p.direction == dir && (monitor.Some? ==> p.isMonitor == monitor.value)
  }

  predicate HasPort(ports: seq<RegistryPort>, dir: PortDirection, monitor: Option<bool>)
  {
    exists i :: 0 <= i < |ports| && PortMatches(ports[i], dir, monitor)
  }

  /** The matching ports, in their order. */
  function FilterPorts(ports: seq<RegistryPort>, dir: PortDirection, monitor: Option<bool>): (r: seq<RegistryPort>)
    ensures |r| <= |ports|
    ensures forall p :: p in r <==> p in ports && PortMatches(p, dir, monitor)
  {
    if ports == [] then []
    else
      var rest := FilterPorts(ports[1..], dir, monitor);
      assert forall p :: p in ports <==> p == ports[0] || p in ports[1..];
      if PortMatches(ports[0], dir, monitor) then [ports[0]] + rest else rest
  }

  /** The filter is empty exactly when no port matches. */
  lemma FilterEmpty(ports: seq<RegistryPort>, dir: PortDirection, monitor: Option<bool>)
    ensures FilterPorts(ports, dir, monitor) == [] <==> !HasPort(ports, dir, monitor)
  {
    var r := FilterPorts(ports, dir, monitor);
    if HasPort(ports, dir, monitor) {
      var i :| 0 <= i < |ports| && PortMatches(ports[i], dir, monitor);
      assert ports[i] in r;
    }
  }

  /**
   * ports_for_loopback: the ports of the direction whose monitor flag is
   * the preferred one; if there are none, the ports of the direction; if
   * there are none either, every port.
   */
  function PortsForLoopback(n: NodeInfo, dir: PortDirection, preferMonitor: bool): (r: seq<RegistryPort>)
    ensures HasPort(n.ports, dir, Some(preferMonitor)) ==> r == FilterPorts(n.ports, dir, Some(preferMonitor))
    ensures !HasPort(n.ports, dir, Some(preferMonitor)) && HasPort(n.ports, dir, None) ==> r == FilterPorts(n.ports, dir, None)
    ensures !HasPort(n.ports, dir, None) ==> r == n.ports
  {
    var primary := FilterPorts(n.ports, dir, Some(preferMonitor));
    FilterEmpty(n.ports, dir, Some(preferMonitor));
    if primary != [] then primary
    else
      var secondary := FilterPorts(n.ports, dir, None);
      FilterEmpty(n.ports, dir, None);
      if secondary != [] then secondary else n.ports
  }

  /** Every chosen port is one of the node's, and some port is chosen whenever the node has one. */
  lemma LoopbackPortsFromNode(n: NodeInfo, dir: PortDirection, preferMonitor: bool)
    ensures forall p :: p in PortsForLoopback(n, dir, preferMonitor) ==> p in n.ports
    ensures PortsForLoopback(n, dir, preferMonitor) == [] <==> n.ports == []
  {
    FilterEmpty(n.ports, dir, Some(preferMonitor));
    FilterEmpty(n.ports, dir, None);
    if n.ports != [] && !HasPort(n.ports, dir, None) {
      assert PortsForLoopback(n, dir, preferMonitor) == n.ports;
    }
  }

  /** A port of the direction with the preferred monitor flag is always chosen. */
  lemma PreferredPortChosen(n: NodeInfo, dir: PortDirection, preferMonitor: bool, p: RegistryPort)
    requires p in n.ports && PortMatches(p, dir, Some(preferMonitor))
    ensures p in PortsForLoopback(n, dir, preferMonitor)
  {
    var i :| 0 <= i < |n.ports| && n.ports[i] == p;
    assert HasPort(n.ports, dir, Some(preferMonitor));
  }

  /** output_ports_for_loopback: monitor outputs first. */
  function OutputPortsForLoopback(n: NodeInfo): (r: seq<RegistryPort>)
    ensures HasPort(n.ports, PipewireGraph.Output, Some(true)) ==>
      forall p :: p in r ==> p.direction == PipewireGraph.Output && p.isMonitor
  {
    PortsForLoopback(n, PipewireGraph.Output, true)
  }

  /** input_ports_for_loopback: non-monitor inputs first. */
  function InputPortsForLoopback(n: NodeInfo): (r: seq<RegistryPort>)
    ensures HasPort(n.ports, PipewireGraph.Input, Some(false)) ==>
      forall p :: p in r ==> p.direction == PipewireGraph.Input && !p.isMonitor
  {
    PortsForLoopback(n, PipewireGraph.Input, false)
  }

  // --- default targets

  /** DefaultTarget::update on a value: the announcement replaces the target when it differs. */
  function UpdateTarget(t: Target, metadataId: nat, subject: nat, typeHint: Option<string>, name: Option<string>): (r: (Target, bool))
    ensures r.0 == Announced(metadataId, subject, typeHint, name)
    ensures r.1 <==> t != r.0
  {
    var announced := Announced(metadataId, subject, typeHint, name);
    var changed := t != announced;
    (if changed then announced else t, changed)
  }

  /** Repeating an update reports no change. */
  lemma UpdateSettles(t: Target, metadataId: nat, subject: nat, typeHint: Option<string>, name: Option<string>)
    ensures !UpdateTarget(UpdateTarget(t, metadataId, subject, typeHint, name).0, metadataId, subject, typeHint, name).1
  {
  }

  /** Both default slots, as one value. */
  datatype Defaults = Defaults(audioSink: Option<Target>, audioSource: Option<Target>)

  /** The name stored for an announced value: the parsed name, else the raw value. */
  function StoredName(typeHint: Option<string>, value: string, parse: string -> Json): Option<string>
  {
    OptionOr(ParseMetadataName(typeHint, Some(value), parse), Some(value))
  }

  /**
   * apply_update on one slot: a value (re)fills the slot from the
   * announcement; no value empties the slot if it came from the same
   * metadata object. The flag tells whether the slot changed.
   */
  function ApplyToSlot(slot: Option<Target>, metadataId: nat, subject: nat, typeHint: Option<string>,
                       value: Option<string>, parse: string -> Json): (r: (Option<Target>, bool))
    ensures r.1 <==> r.0 != slot
    ensures value.Some? ==> r.0 == Some(Announced(metadataId, subject, typeHint, StoredName(typeHint, value.value, parse)))
    ensures value.None? ==> (r.1 <==> slot.Some? && slot.value.metadataId == Some(metadataId))
    ensures value.None? && r.1 ==> r.0.None?
  {
    if value.Some? then
      var inserted := slot.None?;
      var target := if slot.Some? then slot.value else EMPTY_TARGET;
      var (updated, changed) := UpdateTarget(target, metadataId, subject, typeHint, StoredName(typeHint, value.value, parse));
      (Some(updated), inserted || changed)
    else if slot.Some? && slot.value.metadataId == Some(metadataId) then (None, true)
    else (slot, false)
  }

  /**
   * clear_slots on one slot: a matching target is mutated, then dropped if
   * it names neither a node nor a name. The flag tells whether it matched.
   */
  function ClearSlot(slot: Option<Target>, matches: Target -> bool, mutate: Target -> Target): (r: (Option<Target>, bool))
    ensures r.1 <==> slot.Some? && matches(slot.value)
    ensures !r.1 ==> r.0 == slot
    ensures r.1 ==> (r.0.None? <==> mutate(slot.value).nodeId.None? && mutate(slot.value).name.None?)
    ensures r.1 && r.0.Some? ==> r.0.value == mutate(slot.value)
  {
    if slot.Some? && matches(slot.value) then
      var t := mutate(slot.value);
      (if t.nodeId.None? && t.name.None? then None else Some(t), true)
    else (slot, false)
  }

  /** clear_node on one slot: forget the node, keeping the name or taking the fallback. */
  function ClearNodeSlot(slot: Option<Target>, nodeId: nat, fallbackName: Option<string>): (r: (Option<Target>, bool))
  {
    ClearSlot(slot, (t: Target) => t.nodeId == Some(nodeId), (t: Target) => t.(nodeId := None, name := if t.name.None? then fallbackName else t.name))
  }

  /**
   * After clear_node no slot refers to the node; a slot that did keeps its
   * name (or takes the fallback), and disappears only when it has neither.
   */
  lemma ClearNodeForgets(slot: Option<Target>, nodeId: nat, fallbackName: Option<string>)
    ensures ClearNodeSlot(slot, nodeId, fallbackName).0.Some? ==> ClearNodeSlot(slot, nodeId, fallbackName).0.value.nodeId != Some(nodeId)
    ensures ClearNodeSlot(slot, nodeId, fallbackName).1 <==> slot.Some? && slot.value.nodeId == Some(nodeId)
    ensures ClearNodeSlot(slot, nodeId, fallbackName).1 ==>
      (ClearNodeSlot(slot, nodeId, fallbackName).0.None? <==> slot.value.name.None? && fallbackName.None?)
    ensures ClearNodeSlot(slot, nodeId, fallbackName).1 && ClearNodeSlot(slot, nodeId, fallbackName).0.Some? ==>
      ClearNodeSlot(slot, nodeId, fallbackName).0.value.name == OptionOr(slot.value.name, fallbackName)
  {
  }

  /** clear_metadata on one slot, as written: the matching target passes through clear_slots unchanged. */
  function ClearMetadataSlotAsWritten(slot: Option<Target>, metadataId: nat): (r: (Option<Target>, bool))
  {
    ClearSlot(slot, (t: Target) => t.metadataId == Some(metadataId), (t: Target) => t)
  }

  /**
   * As written, clearing a metadata object reports a change yet keeps a
   * target from that object that names a node or a name.
   */
  lemma ClearMetadataKeepsTarget()
    ensures var slot := Some(Target(Some(5), Some(3), Some("alsa_output"), None));
      ClearMetadataSlotAsWritten(slot, 5) == (slot, true)
  {
  }

  /** clear_metadata on one slot, as intended: a target from that metadata object is dropped. */
  function ClearMetadataSlot(slot: Option<Target>, metadataId: nat): (r: (Option<Target>, bool))
    ensures r.1 <==> slot.Some? && slot.value.metadataId == Some(metadataId)
    ensures r.1 <==> r.0 != slot
    ensures r.0.Some? ==> r.0.value.metadataId != Some(metadataId)
  {
    if slot.Some? && slot.value.metadataId == Some(metadataId) then (None, true) else (slot, false)
  }

  /** The metadata object's targets are gone after clearing, and clearing twice changes nothing. */
  lemma ClearMetadataSettles(slot: Option<Target>, metadataId: nat)
    ensures !ClearMetadataSlot(ClearMetadataSlot(slot, metadataId).0, metadataId).1
  {
  }

  /** A slot that holds a target announced by the metadata object. */
  predicate FromMetadata(slot: Option<Target>, metadataId: nat)
  {
    slot.Some? && slot.value.metadataId == Some(metadataId)
  }

  /** A slot that holds a target on the node. */
  predicate OnNode(slot: Option<Target>, nodeId: nat)
  {
    slot.Some? && slot.value.nodeId == Some(nodeId)
  }

  /** A slot whose node id, if any, is a known node. */
  predicate NodeKnown(slot: Option<Target>, ids: set<nat>)
  {
    slot.Some? && slot.value.nodeId.Some? ==> slot.value.nodeId.value in ids
  }

  /** A node named `name`, by id. */
  predicate NamedIn(names: map<nat, Option<string>>, name: string)
  {
    exists id :: id in names && names[id] == Some(name)
  }

  /**
   * `r` is a reconciliation of `slot` against the known node names: the slot
   * keeps its presence and every field but the node id; a known node id stays;
   * an unknown or missing one is replaced by the id of a node carrying the
   * slot's name, and left empty exactly when no node carries it.
   */
  ghost predicate Reconciled(slot: Option<Target>, r: Option<Target>, names: map<nat, Option<string>>)
  {
    && (slot.None? <==> r.None?)
    && (slot.Some? ==>
          && r.value == slot.value.(nodeId := r.value.nodeId)
          && (slot.value.nodeId.Some? && slot.value.nodeId.value in names ==> r.value.nodeId == slot.value.nodeId)
          && (r.value.nodeId.Some? ==> r.value.nodeId.value in names)
          && (r.value.nodeId != slot.value.nodeId && r.value.nodeId.Some? ==>
                slot.value.name.Some? && names[r.value.nodeId.value] == slot.value.name)
          && (slot.value.nodeId.None? || slot.value.nodeId.value !in names ==>
                (r.value.nodeId.None? <==> slot.value.name.None? || !NamedIn(names, slot.value.name.value))))
  }

  /**
   * reconcile_with_nodes on one slot: a node id that is no longer known is
   * dropped; a slot without a node id takes the id of some node carrying
   * its name, if there is one.
   */
  method ReconcileSlot(slot: Option<Target>, names: map<nat, Option<string>>) returns (r: Option<Target>)
    ensures slot.None? ==> r.None?
    ensures slot.Some? ==> r.Some? && r.value == slot.value.(nodeId := r.value.nodeId)
    ensures slot.Some? && slot.value.nodeId.Some? && slot.value.nodeId.value in names ==> r.value.nodeId == slot.value.nodeId
    ensures slot.Some? && r.value.nodeId.Some? ==> r.value.nodeId.value in names
    ensures slot.Some? && r.value.nodeId != slot.value.nodeId && r.value.nodeId.Some? ==>
      slot.value.name.Some? && names[r.value.nodeId.value] == slot.value.name
    ensures slot.Some? && (slot.value.nodeId.None? || slot.value.nodeId.value !in names) ==>
      (r.value.nodeId.None? <==> slot.value.name.None? || !NamedIn(names, slot.value.name.value))
    ensures Reconciled(slot, r, names)
  {
    if slot.None? {
      return None;
    }
    var t := slot.value;
    if t.nodeId.Some? && t.nodeId.value !in names {
      t := t.(nodeId := None);
    }
    if t.nodeId.None? && t.name.Some? && NamedIn(names, t.name.value) {
      var id :| id in names && names[id] == Some(t.name.value);
      t := t.(nodeId := Some(id));
    }
    r := Some(t);
  }

  /** The node names by id, as reconcile_with_nodes reads them. */
  function NodeNames(nodes: map<nat, NodeInfo>): (r: map<nat, Option<string>>)
    ensures r.Keys == nodes.Keys
    ensures forall id :: id in r ==> r[id] == nodes[id].name
  {
    map id | id in nodes :: nodes[id].name
  }

  /** MetadataDefaults: the default sink and source as announced through metadata. */
  class MetadataDefaults {
    var audioSink: Option<Target>
    var audioSource: Option<Target>

    function Value(): Defaults
      reads this
    {
      Defaults(audioSink, audioSource)
    }

    constructor ()
      ensures Value() == Defaults(None, None)
    {
      audioSink, audioSource := None, None;
    }

    /**
     * apply_update: the sink and source keys address their slot; any other
     * key changes nothing. The flag tells whether the defaults changed.
     */
    method ApplyUpdate(metadataId: nat, subject: nat, key: string, typeHint: Option<string>,
                       value: Option<string>, parse: string -> Json) returns (changed: bool)
      modifies this`audioSink, this`audioSource
      ensures key == DEFAULT_AUDIO_SINK_KEY ==>
        audioSink == ApplyToSlot(old(audioSink), metadataId, subject, typeHint, value, parse).0 && audioSource == old(audioSource)
      ensures key == DEFAULT_AUDIO_SOURCE_KEY ==>
        audioSource == ApplyToSlot(old(audioSource), metadataId, subject, typeHint, value, parse).0 && audioSink == old(audioSink)
      ensures key != DEFAULT_AUDIO_SINK_KEY && key != DEFAULT_AUDIO_SOURCE_KEY ==> Value() == old(Value())
      ensures changed <==> Value() != old(Value())
    {
      assert |DEFAULT_AUDIO_SINK_KEY| != |DEFAULT_AUDIO_SOURCE_KEY|;
      if key == DEFAULT_AUDIO_SINK_KEY {
        var r := ApplyToSlot(audioSink, metadataId, subject, typeHint, value, parse);
        changed := SetSink(r.0, r.1);
      } else if key == DEFAULT_AUDIO_SOURCE_KEY {
        var r := ApplyToSlot(audioSource, metadataId, subject, typeHint, value, parse);
        changed := SetSource(r.0, r.1);
      } else {
        changed := false;
      }
    }

    /** Store a new sink slot whose change flag is exact. */
    method SetSink(slot: Option<Target>, flag: bool) returns (changed: bool)
      requires flag <==> slot != audioSink
      modifies this`audioSink
      ensures audioSink == slot && changed == flag
      ensures changed <==> Value() != old(Value())
    {
      audioSink := slot;
      changed := flag;
    }

    /** Store a new source slot whose change flag is exact. */
    method SetSource(slot: Option<Target>, flag: bool) returns (changed: bool)
      requires flag <==> slot != audioSource
      modifies this`audioSource
      ensures audioSource == slot && changed == flag
      ensures changed <==> Value() != old(Value())
    {
      audioSource := slot;
      changed := flag;
    }

    /** reconcile_with_nodes: both slots reconciled against the known nodes. */
    method ReconcileWithNodes(names: map<nat, Option<string>>)
      modifies this
      ensures audioSink.Some? <==> old(audioSink).Some?
      ensures audioSource.Some? <==> old(audioSource).Some?
      ensures audioSink.Some? ==> audioSink.value == old(audioSink).value.(nodeId := audioSink.value.nodeId)
      ensures audioSource.Some? ==> audioSource.value == old(audioSource).value.(nodeId := audioSource.value.nodeId)
      ensures audioSink.Some? && audioSink.value.nodeId.Some? ==> audioSink.value.nodeId.value in names
      ensures audioSource.Some? && audioSource.value.nodeId.Some? ==> audioSource.value.nodeId.value in names
      ensures Reconciled(old(audioSink), audioSink, names) && Reconciled(old(audioSource), audioSource, names)
    {
      audioSink := ReconcileSlot(audioSink, names);
      audioSource := ReconcileSlot(audioSource, names);
    }

    /** clear_metadata: the targets announced by that metadata object are dropped. */
    method ClearMetadata(metadataId: nat) returns (changed: bool)
      modifies this
      ensures Value() == Defaults(ClearMetadataSlot(old(audioSink), metadataId).0, ClearMetadataSlot(old(audioSource), metadataId).0)
      ensures changed <==> Value() != old(Value())
    {
      var sink := ClearMetadataSlot(audioSink, metadataId);
      var source := ClearMetadataSlot(audioSource, metadataId);
      audioSink, audioSource := sink.0, source.0;
      changed := sink.1 || source.1;
    }

    /** clear_node: targets on that node forget it, keeping a name where they can. */
    method ClearNode(nodeId: nat, fallbackName: Option<string>) returns (changed: bool)
      modifies this
      ensures Value() == Defaults(ClearNodeSlot(old(audioSink), nodeId, fallbackName).0, ClearNodeSlot(old(audioSource), nodeId, fallbackName).0)
      ensures changed <==> Value() != old(Value())
    {
      var sink := ClearNodeSlot(audioSink, nodeId, fallbackName);
      var source := ClearNodeSlot(audioSource, nodeId, fallbackName);
      ClearNodeForgets(audioSink, nodeId, fallbackName);
      ClearNodeForgets(audioSource, nodeId, fallbackName);
      audioSink, audioSource := sink.0, source.0;
      changed := sink.1 || source.1;
    }
  }

  // --- snapshot readers

  /** A target as shown to the user, with the raw name it came from. */
  datatype TargetDescription = TargetDescription(display: string, raw: string)

  /** RegistrySnapshot: the registry as handed to readers. */
  datatype RegistrySnapshot = RegistrySnapshot(serial: nat, nodes: seq<NodeInfo>, deviceCount: nat, defaults: Defaults)

  /** The position of the first node satisfying `p`. */
  function FirstNode(nodes: seq<NodeInfo>, p: NodeInfo -> bool): (r: Option<nat>)
    ensures r.Some? ==> r.value < |nodes| && p(nodes[r.value]) && forall j :: 0 <= j < r.value ==> !p(nodes[j])
    ensures r.None? ==> forall j :: 0 <= j < |nodes| ==> !p(nodes[j])
  {
    if nodes == [] then None
    else if p(nodes[0]) then Some(0)
    else
      var rest := FirstNode(nodes[1..], p);
      if rest.Some? then Some(rest.value + 1) else None
  }

  /** find_node_by_label: the first node whose name or description matches. */
  function FindNodeByLabel(s: RegistrySnapshot, query: string): (r: Option<NodeInfo>)
    ensures r.Some? ==> r.value in s.nodes && MatchesLabel(r.value, query)
    ensures r.None? <==> forall n :: n in s.nodes ==> !MatchesLabel(n, query)
  {
    var i := FirstNode(s.nodes, (n: NodeInfo) => MatchesLabel(n, query));
    if i.Some? then Some(s.nodes[i.value]) else None
  }

  /** resolve_default_target: the node with the target's id, else one matching its name. */
  function ResolveDefaultTarget(s: RegistrySnapshot, t: Target): (r: Option<NodeInfo>)
    ensures r.Some? ==> r.value in s.nodes
    ensures r.Some? ==> (t.nodeId.Some? && r.value.id == t.nodeId.value) || (t.name.Some? && MatchesLabel(r.value, t.name.value))
    ensures t.nodeId.Some? && (exists n :: n in s.nodes && n.id == t.nodeId.value) ==> r.Some? && r.value.id == t.nodeId.value
    ensures r.None? ==> t.name.None? || forall n :: n in s.nodes ==> !MatchesLabel(n, t.name.value)
  {
    var byId := if t.nodeId.Some? then FirstNode(s.nodes, (n: NodeInfo) => n.id == t.nodeId.value) else None;
    if byId.Some? then Some(s.nodes[byId.value])
    else if t.name.Some? then FindNodeByLabel(s, t.name.value)
    else None
  }

  /**
   * describe_default_target: the raw text is the target's name or
   * "(none)"; the display text is the resolved node's display name, else
   * the raw text.
   */
  function DescribeDefaultTarget(s: RegistrySnapshot, t: Option<Target>): (r: TargetDescription)
    ensures r.raw == (if t.Some? && t.value.name.Some? then t.value.name.value else "(none)")
    ensures t.None? ==> r.display == "(none)"
    ensures t.Some? && ResolveDefaultTarget(s, t.value).Some? ==> r.display == DisplayName(ResolveDefaultTarget(s, t.value).value)
    ensures t.Some? && ResolveDefaultTarget(s, t.value).None? ==> r.display == r.raw
  {
    var raw := if t.Some? && t.value.name.Some? then t.value.name.value else "(none)";
    var node := if t.Some? then ResolveDefaultTarget(s, t.value) else None;
    TargetDescription(if node.Some? then DisplayName(node.value) else raw, raw)
  }

  /** route_candidates: the nodes that should be routed to the sink, in snapshot order. */
  function RouteCandidates(nodes: seq<NodeInfo>, sink: NodeInfo): (r: seq<NodeInfo>)
    ensures forall n :: n in r <==> n in nodes && ShouldRouteTo(n, sink)
    ensures sink !in r
  {
    if nodes == [] then []
    else
      var rest := RouteCandidates(nodes[1..], sink);
      assert forall n :: n in nodes <==> n == nodes[0] || n in nodes[1..];
      if ShouldRouteTo(nodes[0], sink) then [nodes[0]] + rest else rest
  }
}
