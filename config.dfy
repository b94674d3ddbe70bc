// The configuration page (src/ui/app/config.rs): the list of applications
// routed into the meter sink with their on/off preferences, the choice of
// capture device, and the hardware sink label. Rendering, the settings file
// and the visual toggles (which the visual manager handles) are not
// modelled; the routing channel is a log of the commands sent.
module Config {
  import opened Base
  import Sorting
  import opened RegistryTypes
  import opened ApplicationRows

  const MAX_DEVICE_NAME_LEN: nat := 48

  /** The name of the meter's own virtual sink node. */
  const VIRTUAL_SINK_NAME: string := "openmeters.sink"

  // ---------------------------------------------------------------------
  // Labels

  /**
   * What truncate_label computes: with a zero budget nothing, truncated
   * when the text is not empty; a text within the budget whole;
   * a longer one cut to three characters less than the budget.
   */
  function Truncated(text: string, maxLen: nat): (string, bool)
  {
    if maxLen == 0 then ("", text != [])
    else if |text| <= maxLen then (text, false)
    else (text[..SaturatingSub(maxLen, 3)], true)
  }

  /**
   * truncate_label: walks the characters, remembering where the cut goes
   * and stopping at the first character past the budget.
   */
  method TruncateLabel(text: string, maxLen: nat) returns (trimmed: string, truncated: bool)
    ensures (trimmed, truncated) == Truncated(text, maxLen)
  {
    if maxLen == 0 {
      return "", text != [];
    }
    var cutoff := |text|;
    var truncAt := SaturatingSub(maxLen, 3);
    for count := 0 to |text|
      invariant count <= maxLen
      invariant cutoff == (if truncAt < count then truncAt else |text|)
    {
      if count == truncAt {
        cutoff := count;
      }
      if count == maxLen {
        return text[..cutoff], true;
      }
    }
    return text, false;
  }

  /** The truncated text is a prefix of the text, shorter exactly when it was truncated (for a non-zero budget). */
  lemma TruncatedIsPrefix(text: string, maxLen: nat)
    ensures |Truncated(text, maxLen).0| <= |text|
    ensures Truncated(text, maxLen).0 == text[..|Truncated(text, maxLen).0|]
    ensures maxLen > 0 ==> (Truncated(text, maxLen).1 <==> |text| > maxLen)
    ensures maxLen > 0 && Truncated(text, maxLen).1 ==> |Truncated(text, maxLen).0| < |text|
  {
  }

  /** A device option as shown: its label, or its truncated part followed by "...". */
  function DeviceLabelText(text: string): string
  {
    var t := Truncated(text, MAX_DEVICE_NAME_LEN);
    if t.1 then t.0 + "..." else t.0
  }

  /** The shown text never exceeds the budget, and a text that fits is shown whole. */
  lemma DeviceLabelFits(text: string)
    ensures |DeviceLabelText(text)| <= MAX_DEVICE_NAME_LEN
    ensures |text| <= MAX_DEVICE_NAME_LEN ==> DeviceLabelText(text) == text
    ensures |text| > MAX_DEVICE_NAME_LEN ==> DeviceLabelText(text) == text[..MAX_DEVICE_NAME_LEN - 3] + "..."
  {
  }

  // ---------------------------------------------------------------------
  // Capture devices

  datatype CaptureMode = Applications | Device

  datatype DeviceSelection = DefaultDevice | NodeDevice(id: nat)

  /** DeviceOption: a capture choice (its label is `text` here), the token it is remembered by, and what it selects. */
  datatype DeviceOption = DeviceOption(text: string, token: Option<string>, selection: DeviceSelection)

  /** The optional text, lower-cased, contains the pattern. */
  predicate ContainsLower(text: Option<string>, pattern: string)
  {
    text.Some? && Contains(ToLower(text.value), pattern)
  }

  /**
   * is_capture_candidate: never a virtual node or an application's node;
   * otherwise an audio media class, or "monitor" in the name or the
   * description (ignoring ASCII case).
   */
  function IsCaptureCandidate(node: NodeInfo): (r: bool)
    ensures node.isVirtual || AppName(node).Some? ==> !r
    ensures r ==> ContainsLower(node.mediaClass, "audio") || ContainsLower(node.name, "monitor") || ContainsLower(node.description, "monitor")
  {
    if node.isVirtual || AppName(node).Some? then false
    else ContainsLower(node.mediaClass, "audio") || ContainsLower(node.name, "monitor") || ContainsLower(node.description, "monitor")
  }

  /** The capture candidates, in snapshot order. */
  function Candidates(nodes: seq<NodeInfo>): (r: seq<NodeInfo>)
    ensures forall n :: n in r <==> n in nodes && IsCaptureCandidate(n)
    ensures |r| <= |nodes|
  {
    if nodes == [] then []
    else
      var rest := Candidates(nodes[1..]);
      assert forall n :: n in nodes <==> n == nodes[0] || n in nodes[1..];
      if IsCaptureCandidate(nodes[0]) then [nodes[0]] + rest else rest
  }

  /** Candidates are ordered by their display names, lower-cased. */
  predicate NameLe(a: NodeInfo, b: NodeInfo)
  {
    Sorting.LexLe(ToLower(DisplayName(a)), ToLower(DisplayName(b)))
  }

  lemma NameLeTotalPreorder()
    ensures Sorting.TotalPreorder(NameLe)
  {
    forall a: NodeInfo, b: NodeInfo ensures NameLe(a, b) || NameLe(b, a) {
      Sorting.LexLeTotal(ToLower(DisplayName(a)), ToLower(DisplayName(b)));
    }
    forall a: NodeInfo, b: NodeInfo, c: NodeInfo | NameLe(a, b) && NameLe(b, c) ensures NameLe(a, c) {
      Sorting.LexLeTrans(ToLower(DisplayName(a)), ToLower(DisplayName(b)), ToLower(DisplayName(c)));
    }
  }

  /** The option for a node: its display name, remembered by its name, description or display name. */
  function OptionFor(node: NodeInfo): (r: DeviceOption)
    ensures r.selection == NodeDevice(node.id) && r.text == DisplayName(node) && r.token.Some?
    ensures node.name.Some? ==> r.token == node.name
    ensures node.name.None? && node.description.Some? ==> r.token == node.description
  {
    DeviceOption(DisplayName(node), OptionOr(node.name, OptionOr(node.description, Some(DisplayName(node)))), NodeDevice(node.id))
  }

  function OptionsFor(nodes: seq<NodeInfo>): (r: seq<DeviceOption>)
    ensures |r| == |nodes| && forall i | 0 <= i < |nodes| :: r[i] == OptionFor(nodes[i])
  {
    seq(|nodes|, i requires 0 <= i < |nodes| => OptionFor(nodes[i]))
  }

  /** The default choice, labelled with the hardware sink. */
  function DefaultOption(sinkLabel: string): DeviceOption
  {
    DeviceOption("Default sink - " + sinkLabel, None, DefaultDevice)
  }

  /** The node options of build_device_choices: the capture candidates, ordered by lower-cased display name. */
  function NodeOptions(nodes: seq<NodeInfo>): seq<DeviceOption>
  {
    NameLeTotalPreorder();
    OptionsFor(Sorting.SortBy(Candidates(nodes), NameLe))
  }

  /** The candidates in the order of their options. */
  function SortedCandidates(nodes: seq<NodeInfo>): (r: seq<NodeInfo>)
    ensures multiset(r) == multiset(Candidates(nodes)) && |r| == |Candidates(nodes)|
    ensures Sorting.SortedBy(r, NameLe)
    ensures NodeOptions(nodes) == OptionsFor(r)
  {
    NameLeTotalPreorder();
    Sorting.SortBySorted(Candidates(nodes), NameLe);
    Sorting.SortBy(Candidates(nodes), NameLe)
  }

  /** The node options come in order of lower-cased label. */
  lemma NodeOptionsSorted(nodes: seq<NodeInfo>)
    ensures forall i, j | 0 <= i < j < |NodeOptions(nodes)| ::
      Sorting.LexLe(ToLower(NodeOptions(nodes)[i].text), ToLower(NodeOptions(nodes)[j].text))
  {
    var sorted := SortedCandidates(nodes);
    forall i, j | 0 <= i < j < |sorted| ensures NameLe(sorted[i], sorted[j]) {
    }
  }

  /** Nodes whose options carry equal lower-cased labels keep their snapshot order. */
  lemma NodeOptionsStable(nodes: seq<NodeInfo>, n: NodeInfo)
    ensures Sorting.KeyClass(SortedCandidates(nodes), n, NameLe) == Sorting.KeyClass(Candidates(nodes), n, NameLe)
  {
    NameLeTotalPreorder();
    Sorting.SortByStable(Candidates(nodes), NameLe, n);
  }

  /** Every capture candidate has its option. */
  lemma NodeOptionsCoverCandidates(nodes: seq<NodeInfo>, n: NodeInfo)
    requires n in nodes && IsCaptureCandidate(n)
    ensures OptionFor(n) in NodeOptions(nodes)
  {
    var sorted := SortedCandidates(nodes);
    assert n in multiset(sorted);
    var k :| 0 <= k < |sorted| && sorted[k] == n;
    assert OptionsFor(sorted)[k] == OptionFor(n);
  }

  /** Every node option is a capture candidate's: it selects that node and has a token. */
  lemma NodeOptionsFromCandidates(nodes: seq<NodeInfo>, i: nat)
    requires i < |NodeOptions(nodes)|
    ensures exists n | n in nodes && IsCaptureCandidate(n) :: NodeOptions(nodes)[i] == OptionFor(n)
    ensures NodeOptions(nodes)[i].selection.NodeDevice? && NodeOptions(nodes)[i].token.Some?
  {
    var sorted := SortedCandidates(nodes);
    assert sorted[i] in multiset(Candidates(nodes));
    assert NodeOptions(nodes)[i] == OptionFor(sorted[i]);
  }

  /** build_device_choices: the default sink first, then the node options. */
  function BuildDeviceChoices(sinkLabel: string, snapshot: RegistrySnapshot): (r: seq<DeviceOption>)
    ensures |r| >= 1 && r[0] == DefaultOption(sinkLabel) && r[1..] == NodeOptions(snapshot.nodes)
  {
    [DefaultOption(sinkLabel)] + NodeOptions(snapshot.nodes)
  }

  /** Some choice selects this. */
  predicate Offers(choices: seq<DeviceOption>, selection: DeviceSelection)
  {
    exists i | 0 <= i < |choices| :: choices[i].selection == selection
  }

  /** The first choice remembered by the token, or labelled with it. */
  function FindByToken(choices: seq<DeviceOption>, token: string): (r: Option<nat>)
    ensures r.Some? ==> r.value < |choices| && (choices[r.value].token == Some(token) || choices[r.value].text == token)
    ensures r.Some? ==> forall j | 0 <= j < r.value :: choices[j].token != Some(token) && choices[j].text != token
    ensures r.None? ==> forall j | 0 <= j < |choices| :: choices[j].token != Some(token) && choices[j].text != token
  {
    if choices == [] then None
    else if choices[0].token == Some(token) || choices[0].text == token then Some(0)
    else
      var rest := FindByToken(choices[1..], token);
      if rest.Some? then Some(rest.value + 1) else None
  }

  /** device_token_for: the token of the first choice with that selection. */
  function DeviceTokenFor(choices: seq<DeviceOption>, selection: DeviceSelection): (r: Option<string>)
    ensures r.Some? ==> exists i | 0 <= i < |choices| :: choices[i].selection == selection && choices[i].token == r
    ensures !Offers(choices, selection) ==> r.None?
  {
    if choices == [] then None
    else if choices[0].selection == selection then choices[0].token
    else
      var r := DeviceTokenFor(choices[1..], selection);
      assert r.Some? ==> exists i | 1 <= i < |choices| :: choices[i].selection == selection && choices[i].token == r by {
        if r.Some? {
          var i :| 0 <= i < |choices[1..]| && choices[1..][i].selection == selection && choices[1..][i].token == r;
          assert choices[i + 1] == choices[1..][i];
        }
      }
      assert !Offers(choices, selection) ==> !Offers(choices[1..], selection) by {
        if Offers(choices[1..], selection) {
          var i :| 0 <= i < |choices[1..]| && choices[1..][i].selection == selection;
          assert choices[i + 1].selection == selection;
        }
      }
      r
  }

  /** resolve_pending_device's lookup: the first choice a pending device name matches, by token or label. */
  function PendingMatch(choices: seq<DeviceOption>, pending: Option<string>): (r: Option<nat>)
    ensures pending.None? ==> r.None?
    ensures r.Some? ==> r.value < |choices| && (choices[r.value].token == pending || choices[r.value].text == pending.value)
    ensures pending.Some? && r.None? ==> forall j | 0 <= j < |choices| :: choices[j].token != pending && choices[j].text != pending.value
  {
    if pending.None? then None else FindByToken(choices, pending.value)
  }

  /**
   * The selection apply_snapshot ends with: the choice a pending name
   * matches; otherwise the old selection while it is still offered, and the
   * default sink when it is not.
   */
  function SelectionAfter(choices: seq<DeviceOption>, selected: DeviceSelection, pending: Option<string>): (r: DeviceSelection)
    ensures PendingMatch(choices, pending).Some? ==> r == choices[PendingMatch(choices, pending).value].selection
    ensures PendingMatch(choices, pending).None? && Offers(choices, selected) ==> r == selected
    ensures PendingMatch(choices, pending).None? && !Offers(choices, selected) ==> r == DefaultDevice
    ensures |choices| > 0 && choices[0].selection == DefaultDevice ==> Offers(choices, r)
  {
    var m := PendingMatch(choices, pending);
    if m.Some? then choices[m.value].selection
    else if Offers(choices, selected) then selected
    else DefaultDevice
  }

  /**
   * update_hardware_sink_label as (label, last known sink): a known sink is
   * shown and remembered; a "(none)" summary shows the remembered sink, or
   * "(none)" when none is remembered.
   */
  function SinkLabel(snapshot: RegistrySnapshot, lastKnown: Option<string>): (r: (string, Option<string>))
    ensures r.1.Some? ==> r.0 == r.1.value
    ensures var summary := DescribeDefaultTarget(snapshot, snapshot.defaults.audioSink);
      if summary.display != "(none)" || summary.raw != "(none)" then r == (summary.display, Some(summary.display))
      else r.1 == lastKnown && r.0 == (if lastKnown.Some? then lastKnown.value else "(none)")
  {
    var summary := DescribeDefaultTarget(snapshot, snapshot.defaults.audioSink);
    if summary.display != "(none)" || summary.raw != "(none)" then (summary.display, Some(summary.display))
    else if lastKnown.Some? then (lastKnown.value, lastKnown)
    else (summary.display, None)
  }

  // ---------------------------------------------------------------------
  // Application rows

  /** The order of sort_key: lower-cased primary text, then lower-cased secondary text, then node id. */
  predicate KeyLe(a: (string, string, nat), b: (string, string, nat))
  {
    (Sorting.LexLe(a.0, b.0) && a.0 != b.0)
    || (a.0 == b.0 && ((Sorting.LexLe(a.1, b.1) && a.1 != b.1) || (a.1 == b.1 && a.2 <= b.2)))
  }

  predicate RowLe(a: ApplicationRow, b: ApplicationRow)
  {
    KeyLe(SortKey(a), SortKey(b))
  }

  /** Strict-or-equal steps on strings compose, and stay strict when either step was. */
  lemma StringStrictTrans(x: string, y: string, z: string)
    requires (Sorting.LexLe(x, y) && x != y) || x == y
    requires (Sorting.LexLe(y, z) && y != z) || y == z
    requires x != y || y != z
    ensures Sorting.LexLe(x, z) && x != z
  {
    Sorting.LexLeTotal(x, x);
    Sorting.LexLeTotal(y, y);
    Sorting.LexLeTrans(x, y, z);
    if x == z { Sorting.LexLeAntisym(x, y); }
  }

  lemma KeyLeTotalPreorder()
    ensures Sorting.TotalPreorder(KeyLe)
  {
    forall a: (string, string, nat), b: (string, string, nat) ensures KeyLe(a, b) || KeyLe(b, a) {
      Sorting.LexLeTotal(a.0, b.0);
      Sorting.LexLeTotal(a.1, b.1);
    }
    forall a: (string, string, nat), b: (string, string, nat), c: (string, string, nat) | KeyLe(a, b) && KeyLe(b, c)
      ensures KeyLe(a, c)
    {
      if a.0 != b.0 || b.0 != c.0 {
        StringStrictTrans(a.0, b.0, c.0);
      } else if a.1 != b.1 || b.1 != c.1 {
        StringStrictTrans(a.1, b.1, c.1);
      }
    }
  }

  lemma RowLeTotalPreorder()
    ensures Sorting.TotalPreorder(RowLe)
  {
    KeyLeTotalPreorder();
  }

  /** The stored preference for the node, on by default. */
  function PreferenceOf(preferences: map<nat, bool>, id: nat): bool
  {
    if id in preferences then preferences[id] else true
  }

  /** A row per node routed to the sink, each with the node's preference. */
  function RowsFor(nodes: seq<NodeInfo>, preferences: map<nat, bool>): (r: seq<ApplicationRow>)
    ensures |r| == |nodes| && forall i | 0 <= i < |nodes| :: r[i] == FromNode(nodes[i], PreferenceOf(preferences, nodes[i].id))
  {
    seq(|nodes|, i requires 0 <= i < |nodes| => FromNode(nodes[i], PreferenceOf(preferences, nodes[i].id)))
  }

  /** One more node adds its row and its id. */
  lemma RowsStep(nodes: seq<NodeInfo>, i: nat, preferences: map<nat, bool>)
    requires i < |nodes|
    ensures RowsFor(nodes[..i + 1], preferences) == RowsFor(nodes[..i], preferences) + [FromNode(nodes[i], PreferenceOf(preferences, nodes[i].id))]
    ensures IdsOf(nodes[..i + 1]) == IdsOf(nodes[..i]) + {nodes[i].id}
  {
    assert nodes[..i + 1] == nodes[..i] + [nodes[i]];
  }

  /** The nodes routed to the meter's sink, when the snapshot has it. */
  function Routed(snapshot: RegistrySnapshot): seq<NodeInfo>
  {
    var sink := FindNodeByLabel(snapshot, VIRTUAL_SINK_NAME);
    if sink.Some? then RouteCandidates(snapshot.nodes, sink.value) else []
  }

  function IdsOf(nodes: seq<NodeInfo>): set<nat>
  {
    set n | n in nodes :: n.id
  }

  /** The application rows of apply_snapshot: one per routed node, in sort-key order. */
  function ApplicationRowsOf(snapshot: RegistrySnapshot, preferences: map<nat, bool>): (r: seq<ApplicationRow>)
    ensures Sorting.SortedBy(r, RowLe)
    ensures multiset(r) == multiset(RowsFor(Routed(snapshot), preferences))
  {
    RowLeTotalPreorder();
    Sorting.SortBySorted(RowsFor(Routed(snapshot), preferences), RowLe);
    SortRows(RowsFor(Routed(snapshot), preferences))
  }

  /** Every routed node has its row, enabled as its stored preference says, or on when none is stored. */
  lemma EveryRoutedNodeListed(snapshot: RegistrySnapshot, preferences: map<nat, bool>, n: NodeInfo)
    requires n in Routed(snapshot)
    ensures FromNode(n, PreferenceOf(preferences, n.id)) in ApplicationRowsOf(snapshot, preferences)
    ensures n.id !in preferences ==> FromNode(n, true) in ApplicationRowsOf(snapshot, preferences)
  {
    var nodes := Routed(snapshot);
    var k :| 0 <= k < |nodes| && nodes[k] == n;
    var rows := RowsFor(nodes, preferences);
    assert rows[k] in multiset(rows);
  }

  /** The first row of the node, with its enabled flag set. */
  function SetRowEnabled(rows: seq<ApplicationRow>, id: nat, enabled: bool): (r: seq<ApplicationRow>)
    ensures |r| == |rows|
    ensures forall i | 0 <= i < |rows| :: r[i].nodeId == rows[i].nodeId && r[i].primary == rows[i].primary && r[i].secondary == rows[i].secondary
    ensures forall i | 0 <= i < |rows| && rows[i].nodeId != id :: r[i] == rows[i]
    ensures (exists i | 0 <= i < |rows| :: rows[i].nodeId == id) ==> exists i | 0 <= i < |r| :: r[i].nodeId == id && r[i].enabled == enabled
  {
    if rows == [] then []
    else if rows[0].nodeId == id then [rows[0].(enabled := enabled)] + rows[1..]
    else
      var rest := SetRowEnabled(rows[1..], id, enabled);
      SetRowCons(rows[0], rows[1..], id, enabled, rest);
      assert rows == [rows[0]] + rows[1..];
      [rows[0]] + rest
  }

  /** A row of another node in front keeps what the rest of the rows promise. */
  lemma SetRowCons(head: ApplicationRow, tail: seq<ApplicationRow>, id: nat, enabled: bool, rest: seq<ApplicationRow>)
    requires head.nodeId != id && |rest| == |tail|
    requires forall i | 0 <= i < |tail| :: rest[i].nodeId == tail[i].nodeId && rest[i].primary == tail[i].primary && rest[i].secondary == tail[i].secondary
    requires forall i | 0 <= i < |tail| && tail[i].nodeId != id :: rest[i] == tail[i]
    requires (exists i | 0 <= i < |tail| :: tail[i].nodeId == id) ==> exists i | 0 <= i < |rest| :: rest[i].nodeId == id && rest[i].enabled == enabled
    ensures var rows, r := [head] + tail, [head] + rest;
      && (forall i | 0 <= i < |rows| :: r[i].nodeId == rows[i].nodeId && r[i].primary == rows[i].primary && r[i].secondary == rows[i].secondary)
      && (forall i | 0 <= i < |rows| && rows[i].nodeId != id :: r[i] == rows[i])
      && ((exists i | 0 <= i < |rows| :: rows[i].nodeId == id) ==> exists i | 0 <= i < |r| :: r[i].nodeId == id && r[i].enabled == enabled)
  {
    var rows, r := [head] + tail, [head] + rest;
    assert forall i | 1 <= i < |r| :: r[i] == rest[i - 1] && rows[i] == tail[i - 1];
    if i :| 0 <= i < |rows| && rows[i].nodeId == id {
      assert tail[i - 1].nodeId == id;
      var j :| 0 <= j < |rest| && rest[j].nodeId == id && rest[j].enabled == enabled;
      assert r[j + 1] == rest[j];
    }
  }

  // ---------------------------------------------------------------------
  // The page

  datatype RoutingCommand =
    | SetApplicationEnabled(nodeId: nat, enabled: bool)
    | SetCaptureMode(mode: CaptureMode)
    | SelectCaptureDevice(selection: DeviceSelection)

  datatype ConfigMessage =
    | RegistryUpdated(snapshot: RegistrySnapshot)
    | ToggleChanged(nodeId: nat, enabled: bool)
    | ToggleApplicationsVisibility
    | CaptureModeChanged(mode: CaptureMode)
    | CaptureDeviceChanged(selection: DeviceSelection)

  const DETECTING_LABEL: string := "(detecting hardware sink...)"

  class ConfigPage {
    var preferences: map<nat, bool>
    var applications: seq<ApplicationRow>
    var hardwareSinkLabel: string
    var hardwareSinkLastKnown: Option<string>
    var registryReady: bool
    var applicationsExpanded: bool
    var captureMode: CaptureMode
    var deviceChoices: seq<DeviceOption>
    var selectedDevice: DeviceSelection
    var pendingDeviceName: Option<string>
    /** What the settings hold for the capture mode and the last device. */
    var savedCaptureMode: CaptureMode
    var savedDeviceName: Option<string>
    /** The commands sent to the router, oldest first. */
    var sent: seq<RoutingCommand>

    /** A remembered hardware sink is what the label shows. */
    ghost predicate Valid()
      reads this
    {
      hardwareSinkLastKnown.Some? ==> hardwareSinkLabel == hardwareSinkLastKnown.value
    }

    /** new: nothing known yet; the capture mode and the device to look for come from the settings. */
    constructor (captureMode: CaptureMode, lastDeviceName: Option<string>)
      ensures Valid()
      ensures preferences == map[] && applications == [] && deviceChoices == [] && sent == []
      ensures hardwareSinkLabel == DETECTING_LABEL && hardwareSinkLastKnown.None?
      ensures !registryReady && !applicationsExpanded && selectedDevice == DefaultDevice
      ensures this.captureMode == captureMode && savedCaptureMode == captureMode
      ensures pendingDeviceName == lastDeviceName && savedDeviceName == lastDeviceName
    {
      preferences, applications := map[], [];
      hardwareSinkLabel, hardwareSinkLastKnown := DETECTING_LABEL, None;
      registryReady, applicationsExpanded := false, false;
      this.captureMode, savedCaptureMode := captureMode, captureMode;
      deviceChoices, selectedDevice := [], DefaultDevice;
      pendingDeviceName, savedDeviceName := lastDeviceName, lastDeviceName;
      sent := [];
    }

    /** update: one message handled. */
    method Update(msg: ConfigMessage)
      requires Valid()
      modifies this
      ensures Valid()
      ensures msg.ToggleChanged? ==>
        preferences == old(preferences)[msg.nodeId := msg.enabled]
        && applications == SetRowEnabled(old(applications), msg.nodeId, msg.enabled)
        && sent == old(sent) + [SetApplicationEnabled(msg.nodeId, msg.enabled)]
      ensures msg.ToggleApplicationsVisibility? ==> applicationsExpanded == !old(applicationsExpanded) && sent == old(sent)
      ensures msg.CaptureModeChanged? && msg.mode == old(captureMode) ==> sent == old(sent) && captureMode == old(captureMode)
      ensures msg.CaptureModeChanged? && msg.mode != old(captureMode) ==>
        captureMode == msg.mode && savedCaptureMode == msg.mode
        && sent == old(sent) + [SetCaptureMode(msg.mode), SelectCaptureDevice(old(selectedDevice))]
      ensures msg.CaptureDeviceChanged? && msg.selection == old(selectedDevice) ==> sent == old(sent) && savedDeviceName == old(savedDeviceName)
      ensures msg.CaptureDeviceChanged? && msg.selection != old(selectedDevice) ==>
        selectedDevice == msg.selection && savedDeviceName == DeviceTokenFor(old(deviceChoices), msg.selection)
        && sent == old(sent) + [SetCaptureMode(old(captureMode)), SelectCaptureDevice(msg.selection)]
      ensures msg.RegistryUpdated? ==> registryReady && sent == old(sent)
      ensures msg.RegistryUpdated? ==> deviceChoices == BuildDeviceChoices(hardwareSinkLabel, msg.snapshot) && Offers(deviceChoices, selectedDevice)
      ensures msg.RegistryUpdated? ==> applications == ApplicationRowsOf(msg.snapshot, old(preferences))
      ensures msg.RegistryUpdated? ==> preferences.Keys == old(preferences).Keys * IdsOf(Routed(msg.snapshot))
      ensures msg.RegistryUpdated? ==>
        && (hardwareSinkLabel, hardwareSinkLastKnown) == SinkLabel(msg.snapshot, old(hardwareSinkLastKnown))
        && selectedDevice == SelectionAfter(deviceChoices, old(selectedDevice), old(pendingDeviceName))
        && unchanged(this`captureMode, this`savedCaptureMode, this`applicationsExpanded)
      ensures msg.ToggleChanged? ==>
        unchanged(this`hardwareSinkLabel, this`hardwareSinkLastKnown, this`registryReady, this`applicationsExpanded,
                  this`captureMode, this`deviceChoices, this`selectedDevice, this`pendingDeviceName,
                  this`savedCaptureMode, this`savedDeviceName)
      ensures msg.ToggleApplicationsVisibility? ==>
        unchanged(this`preferences, this`applications, this`hardwareSinkLabel, this`hardwareSinkLastKnown, this`registryReady,
                  this`captureMode, this`deviceChoices, this`selectedDevice, this`pendingDeviceName,
                  this`savedCaptureMode, this`savedDeviceName)
      ensures msg.CaptureModeChanged? ==>
        unchanged(this`preferences, this`applications, this`hardwareSinkLabel, this`hardwareSinkLastKnown, this`registryReady,
                  this`applicationsExpanded, this`deviceChoices, this`selectedDevice, this`pendingDeviceName, this`savedDeviceName)
      ensures msg.CaptureDeviceChanged? ==>
        unchanged(this`preferences, this`applications, this`hardwareSinkLabel, this`hardwareSinkLastKnown, this`registryReady,
                  this`applicationsExpanded, this`captureMode, this`deviceChoices, this`pendingDeviceName, this`savedCaptureMode)
    {
      match msg {
        case RegistryUpdated(snapshot) =>
          OnRegistryUpdated(snapshot);
        case ToggleChanged(nodeId, enabled) =>
          ToggleApplication(nodeId, enabled);
        case ToggleApplicationsVisibility =>
          applicationsExpanded := !applicationsExpanded;
        case CaptureModeChanged(mode) =>
          ChangeCaptureMode(mode);
        case CaptureDeviceChanged(selection) =>
          ChangeCaptureDevice(selection);
      }
    }

    /** RegistryUpdated: the registry is ready and the snapshot applied. */
    method OnRegistryUpdated(snapshot: RegistrySnapshot)
      requires Valid()
      modifies this`registryReady, this`hardwareSinkLabel, this`hardwareSinkLastKnown, this`selectedDevice, this`pendingDeviceName,
        this`savedDeviceName, this`deviceChoices, this`preferences, this`applications
      ensures Valid() && registryReady
      ensures deviceChoices == BuildDeviceChoices(hardwareSinkLabel, snapshot) && Offers(deviceChoices, selectedDevice)
      ensures applications == ApplicationRowsOf(snapshot, old(preferences))
      ensures preferences.Keys == old(preferences).Keys * IdsOf(Routed(snapshot))
      ensures forall id | id in preferences :: preferences[id] == old(preferences)[id]
      ensures (hardwareSinkLabel, hardwareSinkLastKnown) == SinkLabel(snapshot, old(hardwareSinkLastKnown))
      ensures selectedDevice == SelectionAfter(deviceChoices, old(selectedDevice), old(pendingDeviceName))
      ensures PendingMatch(deviceChoices, old(pendingDeviceName)).None? ==>
        pendingDeviceName == old(pendingDeviceName) && savedDeviceName == old(savedDeviceName)
      ensures PendingMatch(deviceChoices, old(pendingDeviceName)).Some? ==>
        pendingDeviceName.None? && savedDeviceName == deviceChoices[PendingMatch(deviceChoices, old(pendingDeviceName)).value].token
    {
      registryReady := true;
      ApplySnapshot(snapshot);
    }

    /** ToggleChanged: the preference is stored, the row follows, the router is told. */
    method ToggleApplication(nodeId: nat, enabled: bool)
      modifies this`preferences, this`applications, this`sent
      ensures preferences == old(preferences)[nodeId := enabled]
      ensures applications == SetRowEnabled(old(applications), nodeId, enabled)
      ensures sent == old(sent) + [SetApplicationEnabled(nodeId, enabled)]
    {
      preferences := preferences[nodeId := enabled];
      applications := SetRowEnabled(applications, nodeId, enabled);
      sent := sent + [SetApplicationEnabled(nodeId, enabled)];
    }

    /** CaptureModeChanged: a new mode is stored, sent with the selected device and saved. */
    method ChangeCaptureMode(mode: CaptureMode)
      modifies this`captureMode, this`savedCaptureMode, this`sent
      ensures mode == old(captureMode) ==> sent == old(sent) && captureMode == old(captureMode) && savedCaptureMode == old(savedCaptureMode)
      ensures mode != old(captureMode) ==>
        captureMode == mode && savedCaptureMode == mode
        && sent == old(sent) + [SetCaptureMode(mode), SelectCaptureDevice(selectedDevice)]
    {
      if captureMode != mode {
        captureMode := mode;
        DispatchCaptureState(selectedDevice);
        savedCaptureMode := mode;
      }
    }

    /** CaptureDeviceChanged: a new selection is stored, sent with the capture mode and saved by token. */
    method ChangeCaptureDevice(selection: DeviceSelection)
      modifies this`selectedDevice, this`savedDeviceName, this`sent
      ensures selection == old(selectedDevice) ==> sent == old(sent) && savedDeviceName == old(savedDeviceName) && selectedDevice == old(selectedDevice)
      ensures selection != old(selectedDevice) ==>
        selectedDevice == selection && savedDeviceName == DeviceTokenFor(deviceChoices, selection)
        && sent == old(sent) + [SetCaptureMode(captureMode), SelectCaptureDevice(selection)]
    {
      if selectedDevice != selection {
        selectedDevice := selection;
        DispatchCaptureState(selection);
        savedDeviceName := DeviceTokenFor(deviceChoices, selection);
      }
    }

    /** dispatch_capture_state: the capture mode, then the selected device, sent to the router. */
    method DispatchCaptureState(selection: DeviceSelection)
      modifies this`sent
      ensures sent == old(sent) + [SetCaptureMode(captureMode), SelectCaptureDevice(selection)]
    {
      sent := sent + [SetCaptureMode(captureMode), SelectCaptureDevice(selection)];
    }

    /**
     * update_hardware_sink_label: a known sink is shown and remembered; a
     * "(none)" summary shows the remembered sink, else "(none)".
     */
    method UpdateHardwareSinkLabel(snapshot: RegistrySnapshot)
      requires Valid()
      modifies this`hardwareSinkLabel, this`hardwareSinkLastKnown
      ensures Valid()
      ensures var summary := DescribeDefaultTarget(snapshot, snapshot.defaults.audioSink);
        if summary.display != "(none)" || summary.raw != "(none)" then
          hardwareSinkLabel == summary.display && hardwareSinkLastKnown == Some(summary.display)
        else
          hardwareSinkLastKnown == old(hardwareSinkLastKnown)
          && hardwareSinkLabel == (if old(hardwareSinkLastKnown).Some? then old(hardwareSinkLastKnown).value else summary.display)
      ensures (hardwareSinkLabel, hardwareSinkLastKnown) == SinkLabel(snapshot, old(hardwareSinkLastKnown))
    {
      var summary := DescribeDefaultTarget(snapshot, snapshot.defaults.audioSink);
      if summary.display != "(none)" || summary.raw != "(none)" {
        hardwareSinkLastKnown := Some(summary.display);
        hardwareSinkLabel := summary.display;
      } else if hardwareSinkLastKnown.Some? {
        hardwareSinkLabel := hardwareSinkLastKnown.value;
      } else {
        hardwareSinkLabel := summary.display;
      }
    }

    /**
     * resolve_pending_device: a device name still looked for selects the
     * first choice remembered by it or labelled with it, and is then
     * forgotten; the settings take that choice's token.
     */
    method ResolvePendingDevice(choices: seq<DeviceOption>)
      modifies this`selectedDevice, this`pendingDeviceName, this`savedDeviceName
      ensures old(pendingDeviceName).None? ==> selectedDevice == old(selectedDevice) && pendingDeviceName.None? && savedDeviceName == old(savedDeviceName)
      ensures old(pendingDeviceName).Some? && FindByToken(choices, old(pendingDeviceName).value).None? ==>
        selectedDevice == old(selectedDevice) && pendingDeviceName == old(pendingDeviceName) && savedDeviceName == old(savedDeviceName)
      ensures old(pendingDeviceName).Some? && FindByToken(choices, old(pendingDeviceName).value).Some? ==>
        var opt := choices[FindByToken(choices, old(pendingDeviceName).value).value];
        selectedDevice == opt.selection && pendingDeviceName.None? && savedDeviceName == opt.token
    {
      if pendingDeviceName.None? {
        return;
      }
      var found := FindByToken(choices, pendingDeviceName.value);
      if found.Some? {
        var opt := choices[found.value];
        selectedDevice := opt.selection;
        pendingDeviceName := None;
        savedDeviceName := opt.token;
      }
    }

    /**
     * apply_snapshot: the devices are refreshed, then the application rows
     * are rebuilt.
     */
    method ApplySnapshot(snapshot: RegistrySnapshot)
      requires Valid()
      modifies this`hardwareSinkLabel, this`hardwareSinkLastKnown, this`selectedDevice, this`pendingDeviceName,
        this`savedDeviceName, this`deviceChoices, this`preferences, this`applications
      ensures Valid()
      ensures deviceChoices == BuildDeviceChoices(hardwareSinkLabel, snapshot)
      ensures Offers(deviceChoices, selectedDevice)
      ensures Offers(deviceChoices, old(selectedDevice)) && old(pendingDeviceName).None? ==> selectedDevice == old(selectedDevice)
      ensures applications == ApplicationRowsOf(snapshot, old(preferences))
      ensures preferences.Keys == old(preferences).Keys * IdsOf(Routed(snapshot))
      ensures forall id | id in preferences :: preferences[id] == old(preferences)[id]
      ensures (hardwareSinkLabel, hardwareSinkLastKnown) == SinkLabel(snapshot, old(hardwareSinkLastKnown))
      ensures selectedDevice == SelectionAfter(deviceChoices, old(selectedDevice), old(pendingDeviceName))
      ensures PendingMatch(deviceChoices, old(pendingDeviceName)).None? ==>
        pendingDeviceName == old(pendingDeviceName) && savedDeviceName == old(savedDeviceName)
      ensures PendingMatch(deviceChoices, old(pendingDeviceName)).Some? ==>
        pendingDeviceName.None? && savedDeviceName == deviceChoices[PendingMatch(deviceChoices, old(pendingDeviceName)).value].token
    {
      RefreshDevices(snapshot);
      RefreshApplications(snapshot);
    }

    /**
     * The device half of apply_snapshot: the hardware label and the
     * choices are rebuilt, a pending device resolved, and a selection no
     * longer offered reset to the default.
     */
    method RefreshDevices(snapshot: RegistrySnapshot)
      requires Valid()
      modifies this`hardwareSinkLabel, this`hardwareSinkLastKnown, this`selectedDevice, this`pendingDeviceName,
        this`savedDeviceName, this`deviceChoices
      ensures Valid()
      ensures deviceChoices == BuildDeviceChoices(hardwareSinkLabel, snapshot)
      ensures Offers(deviceChoices, selectedDevice)
      ensures Offers(deviceChoices, old(selectedDevice)) && old(pendingDeviceName).None? ==> selectedDevice == old(selectedDevice)
      ensures (hardwareSinkLabel, hardwareSinkLastKnown) == SinkLabel(snapshot, old(hardwareSinkLastKnown))
      ensures selectedDevice == SelectionAfter(deviceChoices, old(selectedDevice), old(pendingDeviceName))
      ensures PendingMatch(deviceChoices, old(pendingDeviceName)).None? ==>
        pendingDeviceName == old(pendingDeviceName) && savedDeviceName == old(savedDeviceName)
      ensures PendingMatch(deviceChoices, old(pendingDeviceName)).Some? ==>
        pendingDeviceName.None? && savedDeviceName == deviceChoices[PendingMatch(deviceChoices, old(pendingDeviceName)).value].token
    {
      UpdateHardwareSinkLabel(snapshot);
      var choices := BuildDeviceChoices(hardwareSinkLabel, snapshot);
      ChooseDevice(choices);
      deviceChoices := choices;
    }

    /** apply_snapshot's selection step: a pending device is resolved, then a selection no longer offered falls back to the default. */
    method ChooseDevice(choices: seq<DeviceOption>)
      requires |choices| > 0 && choices[0].selection == DefaultDevice
      modifies this`selectedDevice, this`pendingDeviceName, this`savedDeviceName
      ensures Offers(choices, selectedDevice)
      ensures selectedDevice == SelectionAfter(choices, old(selectedDevice), old(pendingDeviceName))
      ensures PendingMatch(choices, old(pendingDeviceName)).None? ==>
        pendingDeviceName == old(pendingDeviceName) && savedDeviceName == old(savedDeviceName)
      ensures PendingMatch(choices, old(pendingDeviceName)).Some? ==>
        pendingDeviceName.None? && savedDeviceName == choices[PendingMatch(choices, old(pendingDeviceName)).value].token
    {
      ResolvePendingDevice(choices);
      if !Offers(choices, selectedDevice) {
        assert choices[0].selection == DefaultDevice;
        selectedDevice := DefaultDevice;
      }
    }

    /**
     * The application half of apply_snapshot: a row per node routed to the
     * meter's sink, sorted by sort key; preferences of nodes no longer
     * routed are dropped.
     */
    method RefreshApplications(snapshot: RegistrySnapshot)
      modifies this`preferences, this`applications
      ensures applications == ApplicationRowsOf(snapshot, old(preferences))
      ensures preferences.Keys == old(preferences).Keys * IdsOf(Routed(snapshot))
      ensures forall id | id in preferences :: preferences[id] == old(preferences)[id]
    {
      var rows, seen := CollectRows(Routed(snapshot), preferences);
      applications := SortRows(rows);
      preferences := map id | id in preferences && id in seen :: preferences[id];
    }
  }

  /** entries.sort_by_key(sort_key), stable. */
  function SortRows(rows: seq<ApplicationRow>): seq<ApplicationRow>
  {
    Sorting.SortBy(rows, RowLe)
  }

  /** The loop of apply_snapshot over the routed nodes: a row each, and the ids seen. */
  method CollectRows(nodes: seq<NodeInfo>, preferences: map<nat, bool>) returns (rows: seq<ApplicationRow>, seen: set<nat>)
    ensures rows == RowsFor(nodes, preferences) && seen == IdsOf(nodes)
  {
    rows, seen := [], {};
    for i := 0 to |nodes|
      invariant rows == RowsFor(nodes[..i], preferences) && seen == IdsOf(nodes[..i])
    {
      var node := nodes[i];
      RowsStep(nodes, i, preferences);
      rows := rows + [FromNode(node, PreferenceOf(preferences, node.id))];
      seen := seen + {node.id};
    }
    assert nodes[..|nodes|] == nodes;
  }
}
