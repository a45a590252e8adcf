/** definitions.adoc: one block per schema under components.schemas, with a
    Property/Type table when the schema declares properties. */
module Definitions {
  import opened Json
  import Text

  const Header: seq<string> := ["== Definitions", ""]
  const TableHead: seq<string> := ["[cols=\"1,1\", options=\"header\"]", "|===", "| Property | Type"]
  const TableTail: seq<string> := ["|===", ""]

  /** A schema whose description is a scalar and whose properties, when
      present, are Hashes with a scalar type. */
  predicate SchemaShaped(schema: Value)
  {
    && schema.Object?
    && IsScalar(Get(schema, "description"))
    && HashOrFalsy(Get(schema, "properties"))
    && forall i {:trigger Members(Get(schema, "properties"))[i]} :: 0 <= i < |Members(Get(schema, "properties"))| ==>
         Members(Get(schema, "properties"))[i].1.Object?
         && IsScalar(Get(Members(Get(schema, "properties"))[i].1, "type"))
  }

  /** The documents the script renders without failing: components is a Hash
      or absent, schemas a Hash or falsy, every schema shaped. */
  predicate Shaped(doc: Value)
  {
    && doc.Object?
    && HashOrNull(Get(doc, "components"))
    && HashOrFalsy(Get(Get(doc, "components"), "schemas"))
    && forall i {:trigger SchemaShaped(Schemas(doc)[i].1)} :: 0 <= i < |Schemas(doc)| ==> SchemaShaped(Schemas(doc)[i].1)
  }

  /** The schemas under components, in document order; none when components
      or its schemas are absent, nil or false. */
  function Schemas(doc: Value): seq<(string, Value)>
  {
    Members(Get(Get(doc, "components"), "schemas"))
  }

  /** One table row: the property name and its type, `object` when absent. */
  function PropertyRow(prop: string, meta: Value): string
  {
    "| " + prop + " | " + OrDefault(Get(meta, "type"), "object")
  }

  function PropertyRows(ps: seq<(string, Value)>): seq<string>
  {
    if ps == [] then [] else PropertyRows(ps[..|ps| - 1]) + [PropertyRow(ps[|ps| - 1].0, ps[|ps| - 1].1)]
  }

  /** Exactly one row per property, in document order. */
  lemma {:induction false} PropertyRowsAt(ps: seq<(string, Value)>)
    ensures |PropertyRows(ps)| == |ps|
    ensures forall k :: 0 <= k < |ps| ==> PropertyRows(ps)[k] == PropertyRow(ps[k].0, ps[k].1)
  {
    if ps != [] {
      PropertyRowsAt(ps[..|ps| - 1]);
    }
  }

  /** The table, present only when the schema has truthy properties. */
  function PropertyTable(schema: Value): seq<string>
  {
    var props := Get(schema, "properties");
    if Truthy(props) then TableHead + PropertyRows(Members(props)) + TableTail else []
  }

  function SchemaBlock(name: string, schema: Value): seq<string>
  {
    ["=== " + name, OrDefault(Get(schema, "description"), ""), ""] + PropertyTable(schema)
  }

  function SchemaBlocks(ss: seq<(string, Value)>): seq<string>
  {
    if ss == [] then [] else SchemaBlocks(ss[..|ss| - 1]) + SchemaBlock(ss[|ss| - 1].0, ss[|ss| - 1].1)
  }

  function DefinitionsLines(doc: Value): (lines: seq<string>)
    ensures |lines| >= 2 && lines[..2] == ["== Definitions", ""]
  {
    Header + SchemaBlocks(Schemas(doc))
  }

  /** The table is present exactly when the schema declares properties; it is
      then the three header lines, one row per property in document order
      with `object` for a property without a type, and the two closing
      lines. */
  lemma {:induction false} TableLayout(schema: Value)
    ensures PropertyTable(schema) == [] <==> !Truthy(Get(schema, "properties"))
    ensures Truthy(Get(schema, "properties")) ==>
      var ps := Members(Get(schema, "properties"));
      var t := PropertyTable(schema);
      && |t| == 3 + |ps| + 2
      && t[..3] == ["[cols=\"1,1\", options=\"header\"]", "|===", "| Property | Type"]
      && (forall k :: 0 <= k < |ps| ==> t[3 + k] == "| " + ps[k].0 + " | " + OrDefault(Get(ps[k].1, "type"), "object"))
      && t[|t| - 2..] == ["|===", ""]
  {
    var ps := Members(Get(schema, "properties"));
    PropertyRowsAt(ps);
    if Truthy(Get(schema, "properties")) {
      var rows := PropertyRows(ps);
      var t := TableHead + rows + TableTail;
      assert PropertyTable(schema) == t;
      forall k | 0 <= k < |ps|
        ensures t[3 + k] == PropertyRow(ps[k].0, ps[k].1)
      {
        assert t[3 + k] == rows[k];
      }
    }
  }

  /** A schema's block: its name, its description (empty by default) and a
      blank line, followed by its property table. */
  lemma SchemaLayout(name: string, schema: Value)
    ensures |SchemaBlock(name, schema)| >= 3
    ensures SchemaBlock(name, schema)[0] == "=== " + name
    ensures SchemaBlock(name, schema)[1] == OrDefault(Get(schema, "description"), "")
    ensures SchemaBlock(name, schema)[2] == ""
    ensures SchemaBlock(name, schema)[3..] == PropertyTable(schema)
  {
  }

  /** A property without a type is listed as `object`. */
  lemma MissingTypeIsObject(prop: string, meta: Value)
    requires !Truthy(Get(meta, "type"))
    ensures PropertyRow(prop, meta) == "| " + prop + " | object"
  {
  }

  lemma SchemaBlocksSnoc(ss: seq<(string, Value)>, i: nat)
    requires i < |ss|
    ensures SchemaBlocks(ss[..i + 1]) == SchemaBlocks(ss[..i]) + SchemaBlock(ss[i].0, ss[i].1)
  {
    assert ss[..i + 1][..i] == ss[..i];
  }

  /** The rows of a property table, appended one at a time. */
  method AppendRows(lines: seq<string>, props: seq<(string, Value)>) returns (out: seq<string>)
    ensures out == lines + PropertyRows(props)
  {
    out := lines;
    var k := 0;
    while k < |props|
      invariant 0 <= k <= |props|
      invariant out == lines + PropertyRows(props[..k])
    {
      assert props[..k + 1][..k] == props[..k];
      Text.AppendAssoc(lines, PropertyRows(props[..k]), [PropertyRow(props[k].0, props[k].1)]);
      out := out + [PropertyRow(props[k].0, props[k].1)];
      k := k + 1;
    }
    assert props[..k] == props;
  }

  /** The lines of one schema. */
  method RenderSchema(name: string, schema: Value) returns (block: seq<string>)
    requires SchemaShaped(schema)
    ensures block == SchemaBlock(name, schema)
  {
    block := ["=== " + name, OrDefault(Get(schema, "description"), ""), ""];
    var props := Get(schema, "properties");
    if Truthy(props) {
      block := block + ["[cols=\"1,1\", options=\"header\"]", "|===", "| Property | Type"];
      block := AppendRows(block, props.members);
      block := block + ["|===", ""];
    }
  }

  /** definitions.adoc as the script builds it. */
  method RenderDefinitions(doc: Value) returns (lines: seq<string>)
    requires Shaped(doc)
    ensures lines == DefinitionsLines(doc)
  {
    var schemas := Schemas(doc);
    lines := ["== Definitions", ""];
    var i := 0;
    assert schemas[..i] == [];
    while i < |schemas|
      invariant 0 <= i <= |schemas|
      invariant lines == Header + SchemaBlocks(schemas[..i])
    {
      assert SchemaShaped(schemas[i].1);
      var block := RenderSchema(schemas[i].0, schemas[i].1);
      SchemaBlocksSnoc(schemas, i);
      Text.AppendAssoc(Header, SchemaBlocks(schemas[..i]), block);
      lines := lines + block;
      i := i + 1;
    }
    assert schemas[..i] == schemas;
  }
}
