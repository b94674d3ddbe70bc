// The earlier registry bookkeeping (src/audio/pw_registry.rs): nodes and
// devices by id, the metadata defaults, a wrapping serial, and the
// direction a node is given from its media class.
module RegistryLegacy {
  import opened Base
  import opened PipewireMetadata
  import opened RegistryTypes

  /** NodeInfo of the earlier registry: no ports, but a media role and parent device. */
  datatype LegacyNode = LegacyNode(id: nat, name: Option<string>, description: Option<string>, mediaClass: Option<string>,
                                   mediaRole: Option<string>, direction: NodeDirection, isVirtual: bool,
                                   parentDevice: Option<nat>, properties: map<string, string>)

  /** DeviceInfo: a device as announced by the registry. */
  datatype DeviceInfo = DeviceInfo(id: nat, name: Option<string>, description: Option<string>, properties: map<string, string>)

  /**
   * derive_direction: the same rule as the registry's node direction
   * (a lower-cased "in"/"out" test is an ASCII-case-insensitive match).
   * The source's test of the fallback: without a media class the port
   * direction decides.
   */
  lemma PortDirectionDecides()
    ensures DeriveNodeDirection(None, Some("in")) == NodeInput
    ensures DeriveNodeDirection(None, Some("out")) == NodeOutput
    ensures DeriveNodeDirection(None, Some("OUT")) == NodeOutput
  {
    assert ToLower("in") == "in";
    assert ToLower("out") == "out";
    assert ToLower("OUT") == "out";
  }

  /** clear_node of the earlier registry: a target on the node forgets it but is never dropped. */
  function LegacyClearNodeSlot(slot: Option<Target>, nodeId: nat, fallbackName: Option<string>): (r: (Option<Target>, bool))
    ensures r.1 <==> slot.Some? && slot.value.nodeId == Some(nodeId)
    ensures r.0.Some? <==> slot.Some?
    ensures r.0.Some? ==> r.0.value.nodeId != Some(nodeId)
    ensures r.1 ==> r.0.value == slot.value.(nodeId := None, name := OptionOr(slot.value.name, fallbackName))
    ensures !r.1 ==> r.0 == slot
  {
    if slot.Some? && slot.value.nodeId == Some(nodeId) then
      var t := slot.value;
      (Some(t.(nodeId := None, name := if t.name.None? then fallbackName else t.name)), true)
    else (slot, false)
  }

  /** MetadataDefaults of the earlier registry. */
  class LegacyDefaults {
    var audioSink: Option<Target>
    var audioSource: Option<Target>

    function Value(): Defaults
      reads this
    {
      Defaults(audioSink, audioSource)
    }

    constructor (sink: Option<Target>, source: Option<Target>)
      ensures Value() == Defaults(sink, source)
    {
      audioSink, audioSource := sink, source;
    }

    /** apply_update: as in the registry types, one slot per default key. */
    method ApplyUpdate(metadataId: nat, subject: nat, key: string, typeHint: Option<string>,
                       value: Option<string>, parse: string -> Json) returns (changed: bool)
      modifies this
      ensures key == DEFAULT_AUDIO_SINK_KEY ==>
        audioSink == ApplyToSlot(old(audioSink), metadataId, subject, typeHint, value, parse).0 && audioSource == old(audioSource)
      ensures key == DEFAULT_AUDIO_SOURCE_KEY ==>
        audioSource == ApplyToSlot(old(audioSource), metadataId, subject, typeHint, value, parse).0 && audioSink == old(audioSink)
      ensures key != DEFAULT_AUDIO_SINK_KEY && key != DEFAULT_AUDIO_SOURCE_KEY ==> Value() == old(Value())
      ensures changed <==> Value() != old(Value())
    {
      if key == DEFAULT_AUDIO_SINK_KEY {
        var r := ApplyToSlot(audioSink, metadataId, subject, typeHint, value, parse);
        audioSink := r.0;
        changed := r.1;
      } else if key == DEFAULT_AUDIO_SOURCE_KEY {
        var r := ApplyToSlot(audioSource, metadataId, subject, typeHint, value, parse);
        audioSource := r.0;
        changed := r.1;
      } else {
        changed := false;
      }
    }

    /** reconcile_with_nodes: both slots reconciled against the node names. */
    method ReconcileWithNodes(names: map<nat, Option<string>>)
      modifies this
      ensures audioSink.Some? <==> old(audioSink).Some?
      ensures audioSource.Some? <==> old(audioSource).Some?
      ensures audioSink.Some? ==> audioSink.value == old(audioSink).value.(nodeId := audioSink.value.nodeId)
      ensures audioSource.Some? ==> audioSource.value == old(audioSource).value.(nodeId := audioSource.value.nodeId)
      ensures audioSink.Some? && audioSink.value.nodeId.Some? ==> audioSink.value.nodeId.value in names
      ensures audioSource.Some? && audioSource.value.nodeId.Some? ==> audioSource.value.nodeId.value in names
      ensures Reconciled(old(audioSink), audioSink, names) && Reconciled(old(audioSource), audioSource, names)
    {
      audioSink := ReconcileSlot(audioSink, names);
      audioSource := ReconcileSlot(audioSource, names);
    }

    /** clear_metadata: every slot announced by that metadata object is emptied. */
    method ClearMetadata(metadataId: nat) returns (changed: bool)
      modifies this
      ensures Value() == Defaults(ClearMetadataSlot(old(audioSink), metadataId).0, ClearMetadataSlot(old(audioSource), metadataId).0)
      ensures changed <==> Value() != old(Value())
    {
      var sink := ClearMetadataSlot(audioSink, metadataId);
      var source := ClearMetadataSlot(audioSource, metadataId);
      audioSink, audioSource := sink.0, source.0;
      changed := sink.1 || source.1;
    }

    /** clear_node: targets on the node forget it. */
    method ClearNode(nodeId: nat, fallbackName: Option<string>) returns (changed: bool)
      modifies this
      ensures Value() == Defaults(LegacyClearNodeSlot(old(audioSink), nodeId, fallbackName).0,
                                  LegacyClearNodeSlot(old(audioSource), nodeId, fallbackName).0)
      ensures changed <==> Value() != old(Value())
    {
      var sink := LegacyClearNodeSlot(audioSink, nodeId, fallbackName);
      var source := LegacyClearNodeSlot(audioSource, nodeId, fallbackName);
      audioSink, audioSource := sink.0, source.0;
      changed := sink.1 || source.1;
    }
  }

  /** The source's reconcile test: a sink slot named "node.main" resolves to node 42. */
  method ReconcileByName() returns (nodeId: Option<nat>)
    ensures nodeId == Some(42)
  {
    var names: map<nat, Option<string>> := map[42 := Some("node.main")];
    assert NamedIn(names, "node.main") by {
      assert 42 in names && names[42] == Some("node.main");
    }
    var sink := ReconcileSlot(Some(Target(Some(7), None, Some("node.main"), None)), names);
    nodeId := sink.value.nodeId;
  }

  /** The node names by id. */
  function LegacyNames(nodes: map<nat, LegacyNode>): (r: map<nat, Option<string>>)
    ensures r.Keys == nodes.Keys
  {
    map id | id in nodes :: nodes[id].name
  }

  /** RegistryState of the earlier registry. */
  class LegacyRegistry {
    var serial: nat
    var nodes: map<nat, LegacyNode>
    var devices: map<nat, DeviceInfo>
    var defaults: LegacyDefaults

    ghost predicate Valid()
      reads this
    {
      serial <= U64_MAX
    }

    constructor ()
      ensures Valid() && serial == 0 && nodes == map[] && devices == map[]
      ensures defaults.Value() == Defaults(None, None)
    {
      serial, nodes, devices := 0, map[], map[];
      defaults := new LegacyDefaults(None, None);
    }

    /** upsert_node: an equal node is a no-op; otherwise store, reconcile, bump. */
    method UpsertNode(info: LegacyNode) returns (changed: bool)
      requires Valid()
      modifies this, defaults
      ensures Valid() && defaults == old(defaults) && devices == old(devices)
      ensures changed <==> !(info.id in old(nodes) && old(nodes)[info.id] == info)
      ensures changed <==> serial != old(serial)
      ensures changed ==> nodes == old(nodes)[info.id := info] && serial == Bump(old(serial))
      ensures !changed ==> nodes == old(nodes) && defaults.Value() == old(defaults.Value())
    {
      changed := !(info.id in nodes && nodes[info.id] == info);
      if changed {
        nodes := nodes[info.id := info];
        defaults.ReconcileWithNodes(LegacyNames(nodes));
        serial := Bump(serial);
      }
    }

    /** remove_node: an unknown id is refused; otherwise drop it, clear it from the defaults, bump. */
    method RemoveNode(id: nat) returns (removed: bool)
      requires Valid()
      modifies this, defaults
      ensures Valid() && defaults == old(defaults) && devices == old(devices)
      ensures removed <==> id in old(nodes)
      ensures removed <==> serial != old(serial)
      ensures !removed ==> nodes == old(nodes) && defaults.Value() == old(defaults.Value())
      ensures removed ==> nodes == old(nodes) - {id} && serial == Bump(old(serial))
    {
      if id in nodes {
        var info := nodes[id];
        nodes := nodes - {id};
        var cleared := defaults.ClearNode(id, OptionOr(info.name, info.description));
        if cleared {
          defaults.ReconcileWithNodes(LegacyNames(nodes));
        }
        serial := Bump(serial);
        removed := true;
      } else {
        removed := false;
      }
    }

    /** upsert_device: an equal device is a no-op; otherwise store and bump. */
    method UpsertDevice(info: DeviceInfo) returns (changed: bool)
      requires Valid()
      modifies this`devices, this`serial
      ensures Valid()
      ensures changed <==> !(info.id in old(devices) && old(devices)[info.id] == info)
      ensures changed <==> serial != old(serial)
      ensures changed ==> devices == old(devices)[info.id := info] && serial == Bump(old(serial))
      ensures !changed ==> devices == old(devices)
    {
      changed := !(info.id in devices && devices[info.id] == info);
      if changed {
        devices := devices[info.id := info];
        serial := Bump(serial);
      }
    }

    /** remove_device: true exactly when the device was known; then it goes and the serial moves. */
    method RemoveDevice(id: nat) returns (removed: bool)
      requires Valid()
      modifies this`devices, this`serial
      ensures Valid()
      ensures removed <==> id in old(devices)
      ensures removed <==> serial != old(serial)
      ensures devices == old(devices) - {id}
      ensures removed ==> serial == Bump(old(serial))
    {
      removed := id in devices;
      devices := devices - {id};
      if removed {
        serial := Bump(serial);
      }
    }

    /** apply_metadata_property: a key updates its slot, no key clears the metadata object's slots. */
    method ApplyMetadataProperty(metadataId: nat, subject: nat, key: Option<string>, typeHint: Option<string>,
                                 value: Option<string>, parse: string -> Json) returns (changed: bool)
      requires Valid()
      modifies this`serial, defaults
      ensures Valid()
      ensures changed <==> serial != old(serial)
      ensures changed ==> serial == Bump(old(serial))
      ensures !changed ==> defaults.Value() == old(defaults.Value())
      ensures key.None? ==> !FromMetadata(defaults.audioSink, metadataId) && !FromMetadata(defaults.audioSource, metadataId)
    {
      if key.Some? {
        changed := defaults.ApplyUpdate(metadataId, subject, key.value, typeHint, value, parse);
      } else {
        changed := defaults.ClearMetadata(metadataId);
      }
      if changed {
        defaults.ReconcileWithNodes(LegacyNames(nodes));
        serial := Bump(serial);
      }
    }

    /** clear_metadata_defaults: clear one metadata object's slots; reconcile and bump on a change. */
    method ClearMetadataDefaults(metadataId: nat) returns (changed: bool)
      requires Valid()
      modifies this`serial, defaults
      ensures Valid()
      ensures changed <==> serial != old(serial)
      ensures changed <==> FromMetadata(old(defaults.audioSink), metadataId) || FromMetadata(old(defaults.audioSource), metadataId)
      ensures !FromMetadata(defaults.audioSink, metadataId) && !FromMetadata(defaults.audioSource, metadataId)
    {
      changed := defaults.ClearMetadata(metadataId);
      if changed {
        defaults.ReconcileWithNodes(LegacyNames(nodes));
        serial := Bump(serial);
      }
    }
  }
}
