// Default-device metadata (src/util/pipewire/metadata.rs): the default sink
// or source announced through PipeWire metadata, and the parsing of the
// metadata value into a node name.
module PipewireMetadata {
  import opened Base

  /** Metadata key naming the default audio sink. */
  const DEFAULT_AUDIO_SINK_KEY: string := "default.audio.sink"
  /** Metadata key naming the default audio source. */
  const DEFAULT_AUDIO_SOURCE_KEY: string := "default.audio.source"
  /** Type hint announcing a JSON value. */
  const JSON_TYPE_HINT: string := "Spa:String:JSON"

  /** The four fields of a default target, as one value. */
  datatype Target = Target(metadataId: Option<nat>, nodeId: Option<nat>, name: Option<string>, typeHint: Option<string>)

  /** The default (empty) target. */
  const EMPTY_TARGET: Target := Target(None, None, None, None)

  /** The target a metadata update describes: subject 0 means "no node". */
  function Announced(metadataId: nat, subject: nat, typeHint: Option<string>, name: Option<string>): (r: Target)
    ensures r.metadataId == Some(metadataId)
    ensures r.nodeId.None? <==> subject == 0
    ensures r.nodeId.Some? ==> r.nodeId.value == subject
    ensures r.typeHint == typeHint && r.name == name
  {
    Target(Some(metadataId), if subject != 0 then Some(subject) else None, name, typeHint)
  }

  /** DefaultTarget: the last metadata seen for one default device. */
  class DefaultTarget {
    var metadataId: Option<nat>
    var nodeId: Option<nat>
    var name: Option<string>
    var typeHint: Option<string>

    function Value(): Target
      reads this
    {
      Target(metadataId, nodeId, name, typeHint)
    }

    /** Default: every field unset. */
    constructor ()
      ensures Value() == EMPTY_TARGET
    {
      metadataId, nodeId, name, typeHint := None, None, None, None;
    }

    /**
     * update: each field that differs from the announcement is overwritten;
     * the result tells whether any did.
     */
    method Update(newMetadataId: nat, subject: nat, newTypeHint: Option<string>, newName: Option<string>) returns (changed: bool)
      modifies this
      ensures Value() == Announced(newMetadataId, subject, newTypeHint, newName)
      ensures changed <==> old(Value()) != Value()
    {
      changed := false;
      if metadataId != Some(newMetadataId) {
        metadataId := Some(newMetadataId);
        changed := true;
      }
      var newNodeId := if subject != 0 then Some(subject) else None;
      if nodeId != newNodeId {
        nodeId := newNodeId;
        changed := true;
      }
      if typeHint != newTypeHint {
        typeHint := newTypeHint;
        changed := true;
      }
      if name != newName {
        name := newName;
        changed := true;
      }
    }

    /** clear: back to the default target. */
    method Clear()
      modifies this
      ensures Value() == EMPTY_TARGET
    {
      metadataId, nodeId, name, typeHint := None, None, None, None;
    }
  }

  /**
   * The same announcement applied twice reports no change the second time:
   * the second update starts from the first one's result.
   */
  method UpdateTwice(t: DefaultTarget, metadataId: nat, subject: nat, typeHint: Option<string>, name: Option<string>)
    returns (first: bool, second: bool)
    modifies t
    ensures !second
    ensures t.Value() == Announced(metadataId, subject, typeHint, name)
  {
    first := t.Update(metadataId, subject, typeHint, name);
    second := t.Update(metadataId, subject, typeHint, name);
  }

  // --- metadata values

  /** A JSON scalar as a metadata object field. */
  datatype JsonField = JsonText(text: string) | JsonNonText

  /** The outcome of parsing a metadata value as JSON. */
  datatype Json = JsonObject(fields: map<string, JsonField>) | JsonString(s: string) | JsonOther | JsonError

  /** A JSON type hint, compared without regard to ASCII case. */
  predicate IsJsonHint(typeHint: Option<string>)
  {
    typeHint.Some? && EqIgnoreCase(typeHint.value, JSON_TYPE_HINT)
  }

  /** Whether a trimmed value is treated as JSON. */
  predicate ExpectsJson(typeHint: Option<string>, trimmed: string)
  {
    IsJsonHint(typeHint) || StartsWith(trimmed, "{")
  }

  /** The name carried by a parsed JSON value: an object's text "name" field, or a bare string. */
  function JsonName(j: Json): (r: Option<string>)
    ensures j.JsonObject? ==> (r.Some? <==> "name" in j.fields && j.fields["name"].JsonText?)
    ensures j.JsonString? ==> r == Some(j.s)
    ensures j.JsonOther? || j.JsonError? ==> r.None?
  {
    match j
    case JsonObject(fields) =>
      if "name" in fields && fields["name"].JsonText? then Some(fields["name"].text) else None
    case JsonString(s) => Some(s)
    case _ => None
  }

  /**
   * parse_metadata_name: a missing value gives nothing; a JSON value (by
   * hint or a leading brace) gives its name; plain text gives itself,
   * trimmed, unless it is blank. The JSON parser is a parameter.
   */
  function ParseMetadataName(typeHint: Option<string>, value: Option<string>, parse: string -> Json): (r: Option<string>)
    ensures value.None? ==> r.None?
    ensures value.Some? && ExpectsJson(typeHint, Trim(value.value)) ==> r == JsonName(parse(Trim(value.value)))
    ensures value.Some? && !ExpectsJson(typeHint, Trim(value.value)) ==>
      (r.None? <==> Trim(value.value) == []) && (r.Some? ==> r.value == Trim(value.value))
  {
    if value.None? then None
    else
      var trimmed := Trim(value.value);
      if ExpectsJson(typeHint, trimmed) then JsonName(parse(trimmed))
      else if trimmed == [] then None
      else Some(trimmed)
  }

  /** A plain-text name never carries surrounding whitespace. */
  lemma PlainNameTrimmed(typeHint: Option<string>, value: string, parse: string -> Json)
    requires !ExpectsJson(typeHint, Trim(value))
    ensures ParseMetadataName(typeHint, Some(value), parse).Some? ==> IsTrimmed(ParseMetadataName(typeHint, Some(value), parse).value)
  {
    TrimIsTrimmed(value);
  }

  /** Surrounding whitespace never changes the parsed name. */
  lemma ParseIgnoresPadding(typeHint: Option<string>, value: string, parse: string -> Json)
    ensures ParseMetadataName(typeHint, Some(Trim(value)), parse) == ParseMetadataName(typeHint, Some(value), parse)
  {
    TrimIsTrimmed(value);
    TrimTrimmed(Trim(value));
  }

  /** Blank text that is not JSON names nothing. */
  lemma BlankNamesNothing(typeHint: Option<string>, value: string, parse: string -> Json)
    requires !IsJsonHint(typeHint)
    requires forall i :: 0 <= i < |value| ==> IsWhitespace(value[i])
    ensures ParseMetadataName(typeHint, Some(value), parse).None?
  {
    BlankTrims(value);
  }

  /** An em space in front of a plain name is trimmed like any other Unicode white space. */
  lemma EmSpaceTrimmed(parse: string -> Json)
    ensures ParseMetadataName(None, Some("\U{2003}Speakers"), parse) == Some("Speakers")
  {
    var v := "\U{2003}Speakers";
    assert IsWhitespace(v[0]) && v[1..] == "Speakers";
    assert TrimStart(v) == TrimStart("Speakers") == "Speakers";
    assert TrimEnd("Speakers") == "Speakers";
    assert !StartsWith("Speakers", "{");
  }

  lemma {:induction false} BlankTrims(s: string)
    requires forall i :: 0 <= i < |s| ==> IsWhitespace(s[i])
    ensures Trim(s) == []
  {
    BlankTrimStart(s);
  }

  lemma {:induction false} BlankTrimStart(s: string)
    requires forall i :: 0 <= i < |s| ==> IsWhitespace(s[i])
    ensures TrimStart(s) == []
  {
    if s != [] {
      BlankTrimStart(s[1..]);
    }
  }
}
