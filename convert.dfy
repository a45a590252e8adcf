/** The whole conversion: the four renderers over one parsed document, each
    output joined with newlines into the body of its file. */
module Convert {
  import opened Json
  import Text
  import Overview
  import Paths
  import Definitions
  import Security

  /** The body written to a file: the lines with a newline between
      consecutive ones. */
  function FileBody(lines: seq<string>): string
  {
    Text.Join(lines, "\n")
  }

  /** The bodies of overview.adoc, paths.adoc, definitions.adoc and
      security.adoc, in the order the script writes them. */
  method ConvertDocument(doc: Value, pretty: Value -> string)
    returns (overview: string, paths: string, definitions: string, security: string)
    requires Overview.Shaped(doc) && Paths.Shaped(doc) && Definitions.Shaped(doc) && Security.Shaped(doc)
    ensures overview == FileBody(Overview.OverviewLines(doc))
    ensures paths == FileBody(Paths.PathsLines(doc, pretty))
    ensures definitions == FileBody(Definitions.DefinitionsLines(doc))
    ensures security == FileBody(Security.SecurityLines(doc))
  {
    var lines := Overview.RenderOverview(doc);
    overview := FileBody(lines);
    lines := Paths.RenderPaths(doc, pretty);
    paths := FileBody(lines);
    lines := Definitions.RenderDefinitions(doc);
    definitions := FileBody(lines);
    lines := Security.RenderSecurity(doc);
    security := FileBody(lines);
  }

  /** A file body gives its lines back when cut at newlines, provided no line
      holds a newline of its own (a multi-line description or a pretty-printed
      example does). */
  lemma BodyDeterminesLines(lines: seq<string>)
    requires |lines| > 0
    requires forall k :: 0 <= k < |lines| ==> '\n' !in lines[k]
    ensures Text.SplitOn(FileBody(lines), '\n') == lines
  {
    Text.SplitJoin(lines, '\n');
  }
}
