// A row of the applications list (src/ui/application_row.rs): the name an
// application node is shown under, the node's own label when that says
// something more, and the key the rows are sorted by.
module ApplicationRows {
  import opened Base
  import opened RegistryTypes

  datatype ApplicationRow = ApplicationRow(nodeId: nat, primary: string, secondary: Option<string>, enabled: bool)

  /** The application name, when it has more than whitespace. */
  predicate HasAppName(node: NodeInfo)
  {
    AppName(node).Some? && Trim(AppName(node).value) != ""
  }

  /**
   * from_node: the primary text is the non-blank application name, else
   * the node's display name; the display name is added as secondary text
   * unless it equals the primary one up to ASCII case.
   */
  function FromNode(node: NodeInfo, enabled: bool): (r: ApplicationRow)
    ensures r.nodeId == node.id && r.enabled == enabled
    ensures HasAppName(node) ==> r.primary == AppName(node).value
    ensures !HasAppName(node) ==> r.primary == DisplayName(node)
    ensures r.secondary.None? <==> EqIgnoreCase(r.primary, DisplayName(node))
    ensures r.secondary.Some? ==> r.secondary.value == DisplayName(node)
  {
    var primary := if HasAppName(node) then AppName(node).value else DisplayName(node);
    var nodeLabel := DisplayName(node);
    ApplicationRow(node.id, primary, if EqIgnoreCase(primary, nodeLabel) then None else Some(nodeLabel), enabled)
  }

  /** A node without an application name of its own gets no secondary text. */
  lemma NoAppNameNoSecondary(node: NodeInfo, enabled: bool)
    requires !HasAppName(node)
    ensures FromNode(node, enabled).secondary.None?
    ensures FromNode(node, enabled).primary == DisplayName(node)
  {
  }

  /** display_label: the primary text, followed by the secondary in parentheses when there is one. */
  function DisplayLabel(row: ApplicationRow): (r: string)
    ensures row.secondary.None? ==> r == row.primary
    ensures row.secondary.Some? ==> r == row.primary + " (" + row.secondary.value + ")"
  {
    match row.secondary
    case Some(secondary) => row.primary + " (" + secondary + ")"
    case None => row.primary
  }

  /** The label always starts with the primary text and is longer exactly when there is secondary text. */
  lemma DisplayLabelExtendsPrimary(row: ApplicationRow)
    ensures DisplayLabel(row)[..|row.primary|] == row.primary
    ensures |DisplayLabel(row)| > |row.primary| <==> row.secondary.Some?
  {
  }

  /** sort_key: the lower-cased primary text, the lower-cased secondary text (empty when none), the node id. */
  function SortKey(row: ApplicationRow): (r: (string, string, nat))
    ensures r.0 == ToLower(row.primary) && r.2 == row.nodeId
    ensures r.1 == ToLower(if row.secondary.Some? then row.secondary.value else "")
  {
    (ToLower(row.primary), ToLower(if row.secondary.Some? then row.secondary.value else ""), row.nodeId)
  }

  /** Rows that differ only in the ASCII case of their texts sort together. */
  lemma SortKeyIgnoresCase(a: ApplicationRow, b: ApplicationRow)
    requires EqIgnoreCase(a.primary, b.primary) && a.nodeId == b.nodeId
    requires a.secondary.Some? == b.secondary.Some?
    requires a.secondary.Some? ==> EqIgnoreCase(a.secondary.value, b.secondary.value)
    ensures SortKey(a) == SortKey(b)
  {
  }
}
