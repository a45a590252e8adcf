/** overview.adoc: title, optional version and description of the Info object. */
module Overview {
  import opened Json

  const DefaultTitle := "API Documentation"
  const DefaultDescription := "No description provided."

  /** The info Hash, or an empty Hash when info is absent, nil or false. */
  function Info(doc: Value): Value
  {
    var info := Get(doc, "info");
    if Truthy(info) then info else Object([])
  }

  /** The documents the script renders without failing: the document and its
      info are Hashes (or info is absent) and the three fields are scalars. */
  predicate Shaped(doc: Value)
  {
    && doc.Object?
    && HashOrFalsy(Get(doc, "info"))
    && IsScalar(Get(Info(doc), "title"))
    && IsScalar(Get(Info(doc), "version"))
    && IsScalar(Get(Info(doc), "description"))
  }

  /** The overview lines: a title heading, a blank line, the version line when
      there is a version, a blank line and the description. */
  function OverviewLines(doc: Value): (lines: seq<string>)
    ensures |lines| == if Truthy(Get(Info(doc), "version")) then 5 else 4
    ensures lines[0] == "= " + OrDefault(Get(Info(doc), "title"), DefaultTitle)
    ensures lines[1] == "" && lines[|lines| - 2] == ""
    ensures Truthy(Get(Info(doc), "version")) ==> lines[2] == "Version: " + ToS(Get(Info(doc), "version"))
    ensures lines[|lines| - 1] == OrDefault(Get(Info(doc), "description"), DefaultDescription)
  {
    var info := Info(doc);
    var version := Get(info, "version");
    ["= " + OrDefault(Get(info, "title"), DefaultTitle), ""]
      + (if Truthy(version) then ["Version: " + ToS(version)] else [])
      + ["", OrDefault(Get(info, "description"), DefaultDescription)]
  }

  /** Builds the overview line by line, as the script appends to its array. */
  method RenderOverview(doc: Value) returns (lines: seq<string>)
    requires Shaped(doc)
    ensures lines == OverviewLines(doc)
  {
    var info := Get(doc, "info");
    if !Truthy(info) {
      info := Object([]);
    }
    lines := [];
    lines := lines + ["= " + OrDefault(Get(info, "title"), DefaultTitle)];
    lines := lines + [""];
    if Truthy(Get(info, "version")) {
      lines := lines + ["Version: " + ToS(Get(info, "version"))];
    }
    lines := lines + [""];
    lines := lines + [OrDefault(Get(info, "description"), DefaultDescription)];
  }

  /** A document without info gets the default title and description and no
      version line. */
  lemma MissingInfo(doc: Value)
    requires !Truthy(Get(doc, "info"))
    ensures OverviewLines(doc) == ["= API Documentation", "", "", "No description provided."]
  {
    assert Info(doc) == Object([]);
    assert "= " + DefaultTitle == "= API Documentation";
  }
}
