// The owner of the visual modules (src/ui/visualization/visual_manager.rs):
// one entry per kind of visual, with an id, an enabled flag and layout
// metadata, kept in the order the user arranged them. The modules behind
// the entries (their processors, state and rendering) are opaque here.
module VisualManager {
  import opened Base

  datatype VisualKind = Loudness | Oscilloscope | Waveform | Spectrogram | Spectrum | Stereometer

  /** VisualMetadata: layout hints; a maximum width of None is unbounded (f32::INFINITY). */
  datatype VisualMetadata = VisualMetadata(displayName: string, preferredWidth: real, preferredHeight: real,
                                           fillHorizontal: bool, fillVertical: bool, minWidth: real, maxWidth: Option<real>)

  const DEFAULT_METADATA: VisualMetadata := VisualMetadata("", 200.0, 200.0, true, true, 100.0, None)

  /** Descriptor: a kind of visual and its metadata. */
  datatype Descriptor = Descriptor(kind: VisualKind, meta: VisualMetadata)

  /** The metadata the descriptor table gives: name, preferred size and minimum width over the defaults. */
  function Meta(name: string, width: real, height: real, minWidth: real, maxWidth: Option<real>): VisualMetadata
  {
    DEFAULT_METADATA.(displayName := name, preferredWidth := width, preferredHeight := height, minWidth := minWidth, maxWidth := maxWidth)
  }

  /** DESCRIPTORS: every kind of visual, in its default order. */
  const DESCRIPTORS: seq<Descriptor> := [
    Descriptor(Loudness, Meta("Loudness", 140.0, 300.0, 80.0, Some(140.0))),
    Descriptor(Oscilloscope, Meta("Oscilloscope", 150.0, 160.0, 100.0, None)),
    Descriptor(Waveform, Meta("Waveform", 220.0, 180.0, 220.0, None)),
    Descriptor(Spectrogram, Meta("Spectrogram", 320.0, 220.0, 300.0, None)),
    Descriptor(Spectrum, Meta("Spectrum analyzer", 400.0, 180.0, 400.0, None)),
    Descriptor(Stereometer, Meta("Stereometer", 150.0, 220.0, 100.0, None))
  ]

  /** Entry: one visual slot (its module and rendered content are not modelled). */
  datatype Entry = Entry(id: nat, kind: VisualKind, enabled: bool, meta: VisualMetadata)

  /** VisualSlotSnapshot: what the UI sees of an entry. */
  datatype VisualSlotSnapshot = VisualSlotSnapshot(id: nat, kind: VisualKind, enabled: bool, metadata: VisualMetadata)

  /** No two entries share an id. */
  predicate IdsDistinct(entries: seq<Entry>)
  {
    forall a, b | 0 <= a < b < |entries| :: entries[a].id != entries[b].id
  }

  /** The ids present. */
  function Ids(entries: seq<Entry>): set<nat>
  {
    set e | e in entries :: e.id
  }

  /** Entry::new for each descriptor in turn, with ids counted from 1. */
  function DefaultEntries(): (r: seq<Entry>)
    ensures |r| == |DESCRIPTORS| && IdsDistinct(r)
    ensures forall i | 0 <= i < |r| :: r[i].id == i + 1 && r[i].kind == DESCRIPTORS[i].kind && !r[i].enabled
  {
    seq(|DESCRIPTORS|, i requires 0 <= i < |DESCRIPTORS| => Entry(i + 1, DESCRIPTORS[i].kind, false, DESCRIPTORS[i].meta))
  }

  /** The snapshot of each entry, in order. */
  function Slots(entries: seq<Entry>): (r: seq<VisualSlotSnapshot>)
    ensures |r| == |entries|
    ensures forall i | 0 <= i < |r| ::
      r[i] == VisualSlotSnapshot(entries[i].id, entries[i].kind, entries[i].enabled, entries[i].meta)
  {
    seq(|entries|, i requires 0 <= i < |entries| =>
      VisualSlotSnapshot(entries[i].id, entries[i].kind, entries[i].enabled, entries[i].meta))
  }

  /** The source's descriptor-defaults test: one slot per descriptor, each of its kind and disabled. */
  lemma SnapshotReflectsDescriptorDefaults()
    ensures |Slots(DefaultEntries())| == |DESCRIPTORS|
    ensures forall d | d in DESCRIPTORS :: exists s | s in Slots(DefaultEntries()) :: s.kind == d.kind && !s.enabled
  {
    var slots := Slots(DefaultEntries());
    forall d | d in DESCRIPTORS ensures exists s | s in slots :: s.kind == d.kind && !s.enabled {
      var i :| 0 <= i < |DESCRIPTORS| && DESCRIPTORS[i] == d;
      assert slots[i] in slots;
    }
  }

  /** by_kind: the index of the first entry of the kind. */
  function ByKind(entries: seq<Entry>, k: VisualKind): (r: Option<nat>)
    ensures r.Some? <==> exists i | 0 <= i < |entries| :: entries[i].kind == k
    ensures r.Some? ==> r.value < |entries| && entries[r.value].kind == k
    ensures r.Some? ==> forall j | 0 <= j < r.value :: entries[j].kind != k
  {
    if entries == [] then None
    else if entries[0].kind == k then Some(0)
    else
      var rest := ByKind(entries[1..], k);
      if rest.Some? then Some(rest.value + 1)
      else
        assert forall i | 1 <= i < |entries| :: entries[i] == entries[1..][i - 1];
        None
  }

  /** iter().position(|e| e.id == id): the index of the first entry with the id. */
  function IndexOfId(entries: seq<Entry>, id: nat): (r: Option<nat>)
    ensures r.Some? <==> id in Ids(entries)
    ensures r.Some? ==> r.value < |entries| && entries[r.value].id == id
    ensures r.Some? ==> forall j | 0 <= j < r.value :: entries[j].id != id
  {
    if entries == [] then None
    else if entries[0].id == id then Some(0)
    else
      var rest := IndexOfId(entries[1..], id);
      assert Ids(entries) == Ids(entries[1..]) + {entries[0].id} by {
        assert entries == [entries[0]] + entries[1..];
      }
      if rest.Some? then Some(rest.value + 1) else None
  }

  /** slice::swap. */
  function Swap(s: seq<Entry>, i: nat, j: nat): (r: seq<Entry>)
    requires i < |s| && j < |s|
    ensures |r| == |s| && r[i] == s[j] && r[j] == s[i]
    ensures forall k | 0 <= k < |s| && k != i && k != j :: r[k] == s[k]
    ensures multiset(r) == multiset(s)
    ensures IdsDistinct(s) ==> IdsDistinct(r)
  {
    s[i := s[j]][j := s[i]]
  }

  /** Entry::apply as far as the manager sees it: a setting with an enabled flag sets it. */
  function Applied(e: Entry, enabled: Option<bool>): (r: Entry)
    ensures r.id == e.id && r.kind == e.kind && r.meta == e.meta
    ensures r.enabled == (if enabled.Some? then enabled.value else e.enabled)
  {
    if enabled.Some? then e.(enabled := enabled.value) else e
  }

  /** The ids of the first entries of the listed kinds, skipping kinds without one (filter_map over by_kind). */
  function KindIds(entries: seq<Entry>, kinds: seq<VisualKind>): (r: seq<nat>)
    ensures |r| <= |kinds|
    ensures forall i | 0 <= i < |r| :: r[i] in Ids(entries)
  {
    if kinds == [] then []
    else
      var found := ByKind(entries, kinds[0]);
      var rest := KindIds(entries, kinds[1..]);
      if found.Some? then
        assert entries[found.value] in entries;
        [entries[found.value].id] + rest
      else rest
  }

  /** Taking an entry out keeps the other ids distinct, and none of them is the removed entry's. */
  lemma RemoveKeepsDistinct(s: seq<Entry>, from: nat)
    requires from < |s| && IdsDistinct(s)
    ensures IdsDistinct(RemoveAt(s, from))
    ensures forall k | 0 <= k < |s| - 1 :: RemoveAt(s, from)[k].id != s[from].id
  {
    var r := RemoveAt(s, from);
    forall a, b | 0 <= a < b < |r| ensures r[a].id != r[b].id {
      var ia := if a < from then a else a + 1;
      var ib := if b < from then b else b + 1;
      assert r[a] == s[ia] && r[b] == s[ib] && ia < ib;
    }
    forall k | 0 <= k < |r| ensures r[k].id != s[from].id {
      var ik := if k < from then k else k + 1;
      assert r[k] == s[ik];
    }
  }

  /** Putting in an entry whose id is new keeps the ids distinct. */
  lemma InsertKeepsDistinct(s: seq<Entry>, at: nat, x: Entry)
    requires at <= |s| && IdsDistinct(s)
    requires forall k | 0 <= k < |s| :: s[k].id != x.id
    ensures IdsDistinct(InsertAt(s, at, x))
  {
    var r := InsertAt(s, at, x);
    forall a, b | 0 <= a < b < |r| ensures r[a].id != r[b].id {
      if a != at && b != at {
        var ia := if a < at then a else a - 1;
        var ib := if b < at then b else b - 1;
        assert r[a] == s[ia] && r[b] == s[ib] && ia < ib;
      } else if a == at {
        assert r[b] == s[b - 1];
      } else {
        assert r[a] == s[a];
      }
    }
  }

  /**
   * One step of the reorder loop: the entry with the id, when there is one,
   * is swapped to `pos`. The entries are permuted, and earlier positions
   * holding other ids are untouched.
   */
  function PlaceAt(s: seq<Entry>, pos: nat, id: nat): (r: seq<Entry>)
    requires pos < |s| && IdsDistinct(s)
    ensures |r| == |s| && IdsDistinct(r) && multiset(r) == multiset(s)
    ensures id in Ids(s) ==> r[pos].id == id
    ensures id !in Ids(s) ==> r == s
    ensures forall q | 0 <= q < pos && s[q].id != id :: r[q] == s[q]
  {
    var cur := IndexOfId(s, id);
    if cur.Some? && cur.value != pos then Swap(s, pos, cur.value) else s
  }

  class VisualManager {
    var entries: seq<Entry>
    var nextId: nat

    ghost predicate Valid()
      reads this
    {
      IdsDistinct(entries) && nextId <= U32_MAX
    }

    /** new: an entry per descriptor, ids 1, 2, … and every entry disabled. */
    constructor ()
      ensures Valid() && entries == DefaultEntries() && nextId == |DESCRIPTORS| + 1
    {
      var built, next := BuildEntries();
      entries, nextId := built, next;
    }

    /** snapshot: a slot per entry, in order. */
    function Snapshot(): (r: seq<VisualSlotSnapshot>)
      reads this
      ensures |r| == |entries|
      ensures forall i | 0 <= i < |r| :: r[i].id == entries[i].id && r[i].kind == entries[i].kind && r[i].enabled == entries[i].enabled
    {
      Slots(entries)
    }

    /**
     * module_settings: for a kind that has an entry, the exported settings'
     * enabled flag (the module's own, else the entry's); nothing otherwise.
     */
    function ModuleSettingsEnabled(k: VisualKind, exported: Option<bool>): (r: Option<bool>)
      reads this
      ensures r.Some? <==> ByKind(entries, k).Some?
      ensures r.Some? && exported.None? ==> r.value == entries[ByKind(entries, k).value].enabled
      ensures r.Some? && exported.Some? ==> r == exported
    {
      var i := ByKind(entries, k);
      if i.None? then None else Some(OptionOr(exported, Some(entries[i.value].enabled)).value)
    }

    /** apply_module_settings: the first entry of the kind takes the setting; false when there is none. */
    method ApplyModuleSettings(k: VisualKind, enabled: Option<bool>) returns (found: bool)
      requires Valid()
      modifies this`entries
      ensures Valid()
      ensures found <==> ByKind(old(entries), k).Some?
      ensures !found ==> entries == old(entries)
      ensures found ==> entries == old(entries)[ByKind(old(entries), k).value := Applied(old(entries)[ByKind(old(entries), k).value], enabled)]
    {
      var i := ByKind(entries, k);
      if i.None? {
        return false;
      }
      entries := entries[i.value := Applied(entries[i.value], enabled)];
      found := true;
    }

    /** set_enabled_by_kind: the first entry of the kind takes the flag; nothing else changes. */
    method SetEnabledByKind(k: VisualKind, enabled: bool)
      requires Valid()
      modifies this`entries
      ensures Valid()
      ensures ByKind(old(entries), k).None? ==> entries == old(entries)
      ensures ByKind(old(entries), k).Some? ==>
        entries == old(entries)[ByKind(old(entries), k).value := old(entries)[ByKind(old(entries), k).value].(enabled := enabled)]
    {
      var i := ByKind(entries, k);
      if i.Some? && entries[i.value].enabled != enabled {
        entries := entries[i.value := entries[i.value].(enabled := enabled)];
      }
    }

    /**
     * reorder: two ids swap those two entries (when both are present);
     * otherwise each listed id in turn is swapped into its position. The
     * entries are only ever permuted; listing distinct present ids puts
     * them, in that order, at the front.
     */
    method Reorder(order: seq<nat>)
      requires Valid()
      modifies this`entries
      ensures Valid()
      ensures multiset(entries) == multiset(old(entries))
      ensures |order| == 2 && order[0] in Ids(old(entries)) && order[1] in Ids(old(entries)) ==>
        entries == Swap(old(entries), IndexOfId(old(entries), order[0]).value, IndexOfId(old(entries), order[1]).value)
      ensures |order| == 2 && !(order[0] in Ids(old(entries)) && order[1] in Ids(old(entries))) ==> entries == old(entries)
      ensures |order| != 2 && NoDup(order) && (forall id | id in order :: id in Ids(old(entries))) ==>
        forall q | 0 <= q < Min(|order|, |entries|) :: entries[q].id == order[q]
    {
      if |order| == 2 {
        var i := IndexOfId(entries, order[0]);
        var j := IndexOfId(entries, order[1]);
        if i.Some? && j.Some? {
          entries := Swap(entries, i.value, j.value);
        }
        return;
      }
      var placed := PlaceIds(entries, order);
      entries := placed;
    }

    /**
     * restore_position: an unknown id changes nothing; otherwise the entry
     * is moved to the target index, clamped to the last index.
     */
    method RestorePosition(id: nat, target: nat)
      requires Valid()
      modifies this`entries
      ensures Valid()
      ensures multiset(entries) == multiset(old(entries))
      ensures id !in Ids(old(entries)) ==> entries == old(entries)
      ensures id in Ids(old(entries)) ==>
        var t := Min(target, SaturatingSub(|old(entries)|, 1));
        entries == InsertAt(RemoveAt(old(entries), IndexOfId(old(entries), id).value), t, old(entries)[IndexOfId(old(entries), id).value])
        && entries[t].id == id
    {
      var cur := IndexOfId(entries, id);
      if cur.None? {
        return;
      }
      var t := Min(target, SaturatingSub(|entries|, 1));
      var e := entries[cur.value];
      var rest := RemoveAt(entries, cur.value);
      RemoveKeepsDistinct(entries, cur.value);
      InsertKeepsDistinct(rest, t, e);
      assert e in multiset(entries);
      entries := InsertAt(rest, t, e);
    }

    /**
     * apply_visual_settings: every entry takes its kind's enabled setting
     * (none for kinds without settings); then a non-empty order, as ids of
     * the kinds' entries, is applied when some kind has an entry.
     */
    method ApplyVisualSettings(modules: map<VisualKind, Option<bool>>, order: seq<VisualKind>)
      requires Valid()
      modifies this`entries
      ensures Valid()
      ensures multiset(entries) == multiset(ApplyAll(old(entries), modules))
      ensures order == [] ==> entries == ApplyAll(old(entries), modules)
      ensures var applied := ApplyAll(old(entries), modules);
        var ids := if order == [] then [] else KindIds(applied, order);
        && (ids == [] ==> entries == applied)
        && (|ids| == 2 ==> entries == Swap(applied, IndexOfId(applied, ids[0]).value, IndexOfId(applied, ids[1]).value))
        && ((|ids| > 2 || |ids| == 1) && NoDup(ids) ==> forall q | 0 <= q < Min(|ids|, |entries|) :: entries[q].id == ids[q])
    {
      var applied := ApplyAll(entries, modules);
      entries := applied;
      if order != [] {
        var ids := KindIds(entries, order);
        if ids != [] {
          Reorder(ids);
        }
      }
    }

    /** ingest_samples: nothing for an empty block; otherwise the enabled entries' modules, in order, take it. */
    method IngestSamples(samples: seq<real>) returns (fed: seq<nat>)
      ensures samples == [] ==> fed == []
      ensures samples != [] ==> fed == EnabledIds(entries)
    {
      if samples == [] {
        return [];
      }
      fed := [];
      for i := 0 to |entries|
        invariant fed == EnabledIds(entries[..i])
      {
        assert entries[..i + 1] == entries[..i] + [entries[i]];
        EnabledIdsSnoc(entries[..i], entries[i]);
        if entries[i].enabled {
          fed := fed + [entries[i].id];
        }
      }
      assert entries[..|entries|] == entries;
    }
  }

  /**
   * The reorder loop: each listed id in turn is swapped into its position.
   * With distinct ids that are all present, the listed ids end up at the
   * front, in order.
   */
  method PlaceIds(entries: seq<Entry>, order: seq<nat>) returns (r: seq<Entry>)
    requires IdsDistinct(entries)
    ensures IdsDistinct(r) && multiset(r) == multiset(entries)
    ensures NoDup(order) && (forall id | id in order :: id in Ids(entries)) ==>
      forall q | 0 <= q < Min(|order|, |r|) :: r[q].id == order[q]
  {
    r := entries;
    ghost var placing := NoDup(order) && (forall id | id in order :: id in Ids(entries));
    var pos := 0;
    while pos < |order| && pos < |r|
      invariant pos <= |order| && pos <= |r| && |r| == |entries|
      invariant IdsDistinct(r) && multiset(r) == multiset(entries)
      invariant placing ==> forall q | 0 <= q < pos :: r[q].id == order[q]
      decreases |order| - pos
    {
      if placing {
        SameIds(entries, r);
        assert order[pos] in Ids(r);
        forall q | 0 <= q < pos ensures r[q].id != order[pos] {
          NoDupIndices(order, q, pos);
        }
      }
      r := PlaceAt(r, pos, order[pos]);
      pos := pos + 1;
    }
  }

  /** The entries built one descriptor at a time, with a saturating u32 id counter. */
  method BuildEntries() returns (entries: seq<Entry>, nextId: nat)
    ensures entries == DefaultEntries() && nextId == |DESCRIPTORS| + 1 && nextId <= U32_MAX
  {
    entries := [];
    nextId := 1;
    for i := 0 to |DESCRIPTORS|
      invariant nextId == i + 1 && entries == DefaultEntries()[..i]
    {
      var id := nextId;
      nextId := SaturatingAdd(nextId, 1, U32_MAX);
      entries := entries + [Entry(id, DESCRIPTORS[i].kind, false, DESCRIPTORS[i].meta)];
    }
  }

  /** Every entry with its kind's setting applied. */
  function ApplyAll(entries: seq<Entry>, modules: map<VisualKind, Option<bool>>): (r: seq<Entry>)
    ensures |r| == |entries|
    ensures forall i | 0 <= i < |r| :: r[i] == Applied(entries[i], if entries[i].kind in modules then modules[entries[i].kind] else None)
    ensures IdsDistinct(entries) ==> IdsDistinct(r)
  {
    seq(|entries|, i requires 0 <= i < |entries| =>
      Applied(entries[i], if entries[i].kind in modules then modules[entries[i].kind] else None))
  }

  /** The ids of the enabled entries, in order. */
  function EnabledIds(entries: seq<Entry>): (r: seq<nat>)
    ensures |r| <= |entries|
  {
    if entries == [] then []
    else (if entries[0].enabled then [entries[0].id] else []) + EnabledIds(entries[1..])
  }

  lemma {:induction false} EnabledIdsSnoc(entries: seq<Entry>, e: Entry)
    ensures EnabledIds(entries + [e]) == EnabledIds(entries) + (if e.enabled then [e.id] else [])
  {
    if entries != [] {
      assert (entries + [e])[1..] == entries[1..] + [e];
      EnabledIdsSnoc(entries[1..], e);
    } else {
      assert EnabledIds([e]) == (if e.enabled then [e.id] else []) + EnabledIds([]);
    }
  }

  /** Entries with the same multiset carry the same ids. */
  lemma SameIds(a: seq<Entry>, b: seq<Entry>)
    requires multiset(a) == multiset(b)
    ensures Ids(a) == Ids(b)
  {
    SameElements(a, b);
  }
}
