/** security.adoc: four lines per security scheme under
    components.securitySchemes. */
module Security {
  import opened Json
  import Text

  const Header: seq<string> := ["== Security", ""]

  predicate SchemeShaped(scheme: Value)
  {
    && scheme.Object?
    && IsScalar(Get(scheme, "type"))
    && IsScalar(Get(scheme, "description"))
  }

  /** The documents the script renders without failing. */
  predicate Shaped(doc: Value)
  {
    && doc.Object?
    && HashOrNull(Get(doc, "components"))
    && HashOrFalsy(Get(Get(doc, "components"), "securitySchemes"))
    && forall i {:trigger SchemeShaped(Schemes(doc)[i].1)} :: 0 <= i < |Schemes(doc)| ==> SchemeShaped(Schemes(doc)[i].1)
  }

  /** The security schemes under components, in document order; none when
      components or its securitySchemes are absent, nil or false. */
  function Schemes(doc: Value): seq<(string, Value)>
  {
    Members(Get(Get(doc, "components"), "securitySchemes"))
  }

  /** The name, the type (nil reads as nothing), the description (empty by
      default) and a blank line. */
  function SchemeBlock(name: string, scheme: Value): seq<string>
  {
    ["=== " + name, "* Type: " + ToS(Get(scheme, "type")), OrDefault(Get(scheme, "description"), ""), ""]
  }

  function SchemeBlocks(ss: seq<(string, Value)>): seq<string>
  {
    if ss == [] then [] else SchemeBlocks(ss[..|ss| - 1]) + SchemeBlock(ss[|ss| - 1].0, ss[|ss| - 1].1)
  }

  function SecurityLines(doc: Value): seq<string>
  {
    Header + SchemeBlocks(Schemes(doc))
  }

  /** The four lines of scheme k start at line 4k. */
  predicate BlockAt(lines: seq<string>, at: int, name: string, scheme: Value)
  {
    && 0 <= at && at + 4 <= |lines|
    && lines[at] == "=== " + name
    && lines[at + 1] == "* Type: " + ToS(Get(scheme, "type"))
    && lines[at + 2] == OrDefault(Get(scheme, "description"), "")
    && lines[at + 3] == ""
  }

  /** A block stays where it is when lines are appended after it. */
  lemma BlockAtExtend(lines: seq<string>, more: seq<string>, at: int, name: string, scheme: Value)
    requires BlockAt(lines, at, name, scheme)
    ensures BlockAt(lines + more, at, name, scheme)
  {
    assert forall i :: 0 <= i < |lines| ==> (lines + more)[i] == lines[i];
  }

  /** A block moves down by the length of lines put in front of it. */
  lemma BlockAtShift(front: seq<string>, lines: seq<string>, at: int, name: string, scheme: Value)
    requires BlockAt(lines, at, name, scheme)
    ensures BlockAt(front + lines, |front| + at, name, scheme)
  {
    assert forall i :: 0 <= i < |lines| ==> (front + lines)[|front| + i] == lines[i];
  }

  /** Exactly four lines per scheme, in document order. */
  lemma {:induction false} SchemeBlocksAt(ss: seq<(string, Value)>)
    ensures |SchemeBlocks(ss)| == 4 * |ss|
    ensures forall k :: 0 <= k < |ss| ==> BlockAt(SchemeBlocks(ss), 4 * k, ss[k].0, ss[k].1)
  {
    if ss != [] {
      var n := |ss| - 1;
      SchemeBlocksAt(ss[..n]);
      var prefix := SchemeBlocks(ss[..n]);
      var last := SchemeBlock(ss[n].0, ss[n].1);
      assert SchemeBlocks(ss) == prefix + last;
      forall k | 0 <= k < |ss|
        ensures BlockAt(prefix + last, 4 * k, ss[k].0, ss[k].1)
      {
        if k < n {
          assert ss[..n][k] == ss[k];
          BlockAtExtend(prefix, last, 4 * k, ss[k].0, ss[k].1);
        } else {
          assert 4 * k == |prefix|;
        }
      }
    }
  }

  /** security.adoc is the header and then, for scheme k, the lines 2 + 4k to
      5 + 4k: the name heading, the Type bullet, the description and a blank
      line; 2 + 4 * (number of schemes) lines in all. */
  lemma SecurityLayout(doc: Value)
    ensures |SecurityLines(doc)| == 2 + 4 * |Schemes(doc)|
    ensures SecurityLines(doc)[..2] == ["== Security", ""]
    ensures forall k :: 0 <= k < |Schemes(doc)| ==>
              BlockAt(SecurityLines(doc), 2 + 4 * k, Schemes(doc)[k].0, Schemes(doc)[k].1)
  {
    var ss := Schemes(doc);
    var blocks := SchemeBlocks(ss);
    SchemeBlocksAt(ss);
    forall k | 0 <= k < |ss|
      ensures BlockAt(Header + blocks, 2 + 4 * k, ss[k].0, ss[k].1)
    {
      BlockAtShift(Header, blocks, 4 * k, ss[k].0, ss[k].1);
    }
  }

  /** security.adoc as the script builds it, four appends per scheme. */
  method RenderSecurity(doc: Value) returns (lines: seq<string>)
    requires Shaped(doc)
    ensures lines == SecurityLines(doc)
  {
    var schemes := Schemes(doc);
    lines := ["== Security", ""];
    var i := 0;
    assert schemes[..i] == [];
    while i < |schemes|
      invariant 0 <= i <= |schemes|
      invariant lines == Header + SchemeBlocks(schemes[..i])
    {
      var name := schemes[i].0;
      var scheme := schemes[i].1;
      var schemeType := Get(scheme, "type");
      var desc := OrDefault(Get(scheme, "description"), "");
      assert schemes[..i + 1][..i] == schemes[..i];
      Text.AppendAssoc(Header, SchemeBlocks(schemes[..i]), SchemeBlock(name, scheme));
      lines := lines + ["=== " + name, "* Type: " + ToS(schemeType), desc, ""];
      i := i + 1;
    }
    assert schemes[..i] == schemes;
  }
}
