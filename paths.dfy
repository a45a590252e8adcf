/** paths.adoc: one block per (path, method) pair of the Paths object, in
    document order, with its Consumes, Responses and Example Response parts. */
module Paths {
  import opened Json
  import opened Text

  const Header: seq<string> := ["== API Paths", ""]

  // ---------------------------------------------------------------------
  // The inputs the script renders without failing
  // ---------------------------------------------------------------------

  /** A Response object: a Hash whose description is a scalar. The script
      reads the description of every response (line 56). */
  predicate ResponseShaped(resp: Value)
  {
    resp.Object? && IsScalar(Get(resp, "description"))
  }

  /** The content of a response the example scan reaches can be read: content
      is a Hash or absent, and its first media type (and that one's examples
      and first example) are Hashes or falsy. */
  predicate ContentShaped(resp: Value)
  {
    && HashOrNull(Get(resp, "content"))
    && HashOrFalsy(FirstContent(resp))
    && HashOrFalsy(Get(FirstContent(resp), "examples"))
    && HashOrFalsy(FirstValue(Get(FirstContent(resp), "examples")))
  }

  /** Every response is shaped; only the responses up to the first one with a
      truthy example are read by the scan, so only their content must be. */
  predicate ResponsesShaped(responses: Value)
  {
    && HashOrFalsy(responses)
    && (forall i {:trigger ResponseShaped(Members(responses)[i].1)} ::
          0 <= i < |Members(responses)| ==> ResponseShaped(Members(responses)[i].1))
    && (forall k {:trigger ContentShaped(Members(responses)[k].1)} ::
          0 <= k < |Members(responses)|
          && (forall j {:trigger Candidate(Members(responses)[j].1)} :: 0 <= j < k ==> !Truthy(Candidate(Members(responses)[j].1)))
          ==> ContentShaped(Members(responses)[k].1))
  }

  /** tags is absent or an array of scalars (`&.join` fails on anything else). */
  predicate TagsShaped(tags: Value)
  {
    tags.Null? || (tags.Array? && forall i :: 0 <= i < |tags.items| ==> IsScalar(tags.items[i]))
  }

  predicate OperationShaped(op: Value)
  {
    && op.Object?
    && IsScalar(Get(op, "operationId"))
    && IsScalar(Get(op, "description"))
    && TagsShaped(Get(op, "tags"))
    && HashOrNull(Get(op, "requestBody"))
    && HashOrFalsy(Get(Get(op, "requestBody"), "content"))
    && ResponsesShaped(Get(op, "responses"))
  }

  /** Every value under a path is an Operation object. */
  predicate PathItemShaped(methods: Value)
  {
    && methods.Object?
    && forall j {:trigger OperationShaped(methods.members[j].1)} ::
         0 <= j < |methods.members| ==> OperationShaped(methods.members[j].1)
  }

  predicate Shaped(doc: Value)
  {
    && doc.Object?
    && HashOrFalsy(Get(doc, "paths"))
    && forall i {:trigger PathItemShaped(Members(Get(doc, "paths"))[i].1)} ::
         0 <= i < |Members(Get(doc, "paths"))| ==> PathItemShaped(Members(Get(doc, "paths"))[i].1)
  }

  // ---------------------------------------------------------------------
  // The lines of one operation
  // ---------------------------------------------------------------------

  /** operationId, or the upper-cased method and the path. */
  function OperationId(path: string, httpMethod: string, op: Value): string
  {
    OrDefault(Get(op, "operationId"), Upcase(httpMethod) + " " + path)
  }

  /** The tags joined with ", " when tags is an Array (an empty Array gives
      the empty string), and "none" when tags is absent. */
  function TagsText(op: Value): string
  {
    var tags := Get(op, "tags");
    if tags.Array? then Join(Strings(tags.items), ", ") else "none"
  }

  /** Heading, Method, Path and Tags bullets, and the description between
      blank lines. */
  function Intro(path: string, httpMethod: string, op: Value): seq<string>
  {
    [ "=== " + OperationId(path, httpMethod, op),
      "* Method: `" + Upcase(httpMethod) + "`",
      "* Path: `" + path + "`",
      "* Tags: " + TagsText(op),
      "",
      OrDefault(Get(op, "description"), ""),
      "" ]
  }

  /** The media types of `requestBody.content`, in document order. */
  function MimeTypes(op: Value): seq<string>
  {
    var content := Get(Get(op, "requestBody"), "content");
    if Truthy(content) then Keys(Members(content)) else []
  }

  function MimeBullet(mimeType: string): string
  {
    "* `" + mimeType + "`"
  }

  /** One bullet per media type. */
  function MimeBullets(types: seq<string>): seq<string>
  {
    if types == [] then [] else MimeBullets(types[..|types| - 1]) + [MimeBullet(types[|types| - 1])]
  }

  /** Exactly one bullet per media type, in document order. */
  lemma {:induction false} MimeBulletsAt(types: seq<string>)
    ensures |MimeBullets(types)| == |types|
    ensures forall k :: 0 <= k < |types| ==> MimeBullets(types)[k] == MimeBullet(types[k])
  {
    if types != [] {
      MimeBulletsAt(types[..|types| - 1]);
    }
  }

  function ConsumesSection(types: seq<string>): seq<string>
  {
    if |types| == 0 then [] else ["==== Consumes"] + MimeBullets(types) + [""]
  }

  /** The responses of an operation in document order; none when responses
      is absent, nil or false. */
  function Responses(op: Value): seq<(string, Value)>
  {
    Members(Get(op, "responses"))
  }

  function ResponseBullet(status: string, resp: Value): string
  {
    "* `" + status + "`: " + ToS(Get(resp, "description"))
  }

  /** One bullet per status code. */
  function ResponseBullets(rs: seq<(string, Value)>): seq<string>
  {
    if rs == [] then [] else ResponseBullets(rs[..|rs| - 1]) + [ResponseBullet(rs[|rs| - 1].0, rs[|rs| - 1].1)]
  }

  /** Exactly one bullet per status code, in document order. */
  lemma {:induction false} ResponseBulletsAt(rs: seq<(string, Value)>)
    ensures |ResponseBullets(rs)| == |rs|
    ensures forall k :: 0 <= k < |rs| ==> ResponseBullets(rs)[k] == ResponseBullet(rs[k].0, rs[k].1)
  {
    if rs != [] {
      var init := rs[..|rs| - 1];
      ResponseBulletsAt(init);
      forall k | 0 <= k < |init|
        ensures ResponseBullets(rs)[k] == ResponseBullet(rs[k].0, rs[k].1)
      {
        assert init[k] == rs[k];
      }
    }
  }

  lemma ResponseBulletsSnoc(rs: seq<(string, Value)>, k: nat)
    requires k < |rs|
    ensures ResponseBullets(rs[..k + 1]) == ResponseBullets(rs[..k]) + [ResponseBullet(rs[k].0, rs[k].1)]
  {
    assert rs[..k + 1][..k] == rs[..k];
  }

  function ResponsesSection(rs: seq<(string, Value)>): seq<string>
  {
    if |rs| == 0 then [] else ["==== Responses"] + ResponseBullets(rs) + [""]
  }

  /** The Consumes part is present exactly when requestBody.content has a
      media type; it is then a heading, one bullet per media type in document
      order, and a blank line. */
  lemma ConsumesLayout(types: seq<string>)
    ensures ConsumesSection(types) == [] <==> |types| == 0
    ensures |types| > 0 ==>
      && |ConsumesSection(types)| == |types| + 2
      && ConsumesSection(types)[0] == "==== Consumes"
      && ConsumesSection(types)[|types| + 1] == ""
      && forall k :: 0 <= k < |types| ==> ConsumesSection(types)[k + 1] == "* `" + types[k] + "`"
  {
    MimeBulletsAt(types);
  }

  /** The Responses part is present exactly when there is a response; it is
      then a heading, one bullet per status code in document order, and a
      blank line. */
  lemma ResponsesLayout(rs: seq<(string, Value)>)
    ensures ResponsesSection(rs) == [] <==> |rs| == 0
    ensures |rs| > 0 ==>
      && |ResponsesSection(rs)| == |rs| + 2
      && ResponsesSection(rs)[0] == "==== Responses"
      && ResponsesSection(rs)[|rs| + 1] == ""
      && forall k :: 0 <= k < |rs| ==>
           ResponsesSection(rs)[k + 1] == "* `" + rs[k].0 + "`: " + ToS(Get(rs[k].1, "description"))
  {
    ResponseBulletsAt(rs);
  }

  // ---------------------------------------------------------------------
  // The example scan
  // ---------------------------------------------------------------------

  /** The entry of the first media type of a response's content; nil when
      the content is absent or empty. */
  function FirstContent(resp: Value): Value
  {
    FirstValue(Get(resp, "content"))
  }

  /** What one step of the scan assigns to `example` for this response, and
      Null when it assigns nothing: the `value` of the first entry of
      `examples` when `examples` is present (`example` is then not looked at),
      else `example`. */
  function Candidate(resp: Value): Value
  {
    var content := FirstContent(resp);
    if Truthy(content) && Truthy(Get(content, "examples")) then
      var exampleObj := FirstValue(Get(content, "examples"));
      if Truthy(exampleObj) then Get(exampleObj, "value") else Null
    else if Truthy(content) && Truthy(Get(content, "example")) then
      Get(content, "example")
    else
      Null
  }

  /** The example the scan settles on: the candidate of the first response, in
      document order, whose candidate is neither nil nor false; Null if no
      response has one. */
  function FirstExample(rs: seq<(string, Value)>): Value
  {
    if rs == [] then Null
    else if Truthy(Candidate(rs[0].1)) then Candidate(rs[0].1)
    else FirstExample(rs[1..])
  }

  /** FirstExample is the first match: it is falsy exactly when no response
      yields a truthy example (and is then Null), and otherwise it is the
      example of the earliest response that yields one. */
  lemma {:induction false} FirstExampleIsFirstMatch(rs: seq<(string, Value)>)
    ensures !Truthy(FirstExample(rs)) <==> forall k :: 0 <= k < |rs| ==> !Truthy(Candidate(rs[k].1))
    ensures !Truthy(FirstExample(rs)) ==> FirstExample(rs) == Null
    ensures forall k :: 0 <= k < |rs| && Truthy(Candidate(rs[k].1))
                          && (forall j :: 0 <= j < k ==> !Truthy(Candidate(rs[j].1))) ==>
              FirstExample(rs) == Candidate(rs[k].1)
  {
    if rs != [] {
      FirstExampleIsFirstMatch(rs[1..]);
      assert forall j :: 0 <= j < |rs| - 1 ==> rs[1..][j] == rs[j + 1];
      if !Truthy(Candidate(rs[0].1)) {
        forall k | 0 < k < |rs| && Truthy(Candidate(rs[k].1)) && (forall j :: 0 <= j < k ==> !Truthy(Candidate(rs[j].1)))
          ensures FirstExample(rs) == Candidate(rs[k].1)
        {
          assert rs[1..][k - 1] == rs[k];
        }
      }
    }
  }

  /** The response scan reads only the first media-type entry of a response:
      two responses whose first entries agree yield the same example. */
  lemma OnlyFirstContentConsulted(r1: Value, r2: Value)
    requires FirstContent(r1) == FirstContent(r2)
    ensures Candidate(r1) == Candidate(r2)
  {
  }

  /** When the first media-type entry has an `examples` map, its `example`
      field is never consulted: entries that agree on `examples` yield the
      same example, which is the `value` of the first entry of `examples`. */
  lemma ExamplesTakePrecedence(r1: Value, r2: Value)
    requires Truthy(FirstContent(r1)) && Truthy(FirstContent(r2))
    requires Truthy(Get(FirstContent(r1), "examples"))
    requires Get(FirstContent(r1), "examples") == Get(FirstContent(r2), "examples")
    ensures Candidate(r1) == Candidate(r2)
    ensures Truthy(Candidate(r1)) ==> Candidate(r1) == Get(FirstValue(Get(FirstContent(r1), "examples")), "value")
  {
  }

  /** A response with no content, or an empty content map, yields nothing, so
      the scan goes on to the next response. */
  lemma ContentlessResponseSkipped(rs: seq<(string, Value)>)
    requires |rs| > 0
    requires Get(rs[0].1, "content") == Null || Get(rs[0].1, "content") == Object([])
    ensures FirstExample(rs) == FirstExample(rs[1..])
  {
  }

  function ExampleSection(example: Value, pretty: Value -> string): seq<string>
  {
    if Truthy(example) then
      ["==== Example Response", "[source,json]", "----", pretty(example), "----", ""]
    else
      []
  }

  /** The scan over the responses, in document order, that stops at the first
      truthy example. */
  method FindExample(responses: seq<(string, Value)>) returns (example: Value)
    ensures Truthy(example) <==> Truthy(FirstExample(responses))
    ensures Truthy(example) ==> example == FirstExample(responses)
  {
    example := Null;
    var i := 0;
    while i < |responses|
      invariant 0 <= i <= |responses|
      invariant !Truthy(example)
      invariant FirstExample(responses[i..]) == FirstExample(responses)
    {
      var content := FirstContent(responses[i].1);
      if Truthy(content) && Truthy(Get(content, "examples")) {
        var exampleObj := FirstValue(Get(content, "examples"));
        if Truthy(exampleObj) {
          example := Get(exampleObj, "value");
        }
      } else if Truthy(content) && Truthy(Get(content, "example")) {
        example := Get(content, "example");
      }
      if Truthy(example) {
        assert example == Candidate(responses[i].1);
        break;
      }
      assert !Truthy(Candidate(responses[i].1));
      assert responses[i..][1..] == responses[i + 1..];
      i := i + 1;
    }
  }

  // ---------------------------------------------------------------------
  // Blocks
  // ---------------------------------------------------------------------

  /** Everything one (path, method) pair contributes. */
  function OperationBlock(path: string, httpMethod: string, op: Value, pretty: Value -> string): seq<string>
  {
    Intro(path, httpMethod, op)
      + ConsumesSection(MimeTypes(op))
      + ResponsesSection(Responses(op))
      + ExampleSection(FirstExample(Responses(op)), pretty)
  }

  /** The blocks of the methods of one path, in document order. */
  function MethodBlocks(path: string, ms: seq<(string, Value)>, pretty: Value -> string): seq<string>
  {
    if ms == [] then []
    else MethodBlocks(path, ms[..|ms| - 1], pretty) + OperationBlock(path, ms[|ms| - 1].0, ms[|ms| - 1].1, pretty)
  }

  /** The blocks of all paths, in document order. */
  function PathBlocks(ps: seq<(string, Value)>, pretty: Value -> string): seq<string>
  {
    if ps == [] then []
    else PathBlocks(ps[..|ps| - 1], pretty) + MethodBlocks(ps[|ps| - 1].0, Members(ps[|ps| - 1].1), pretty)
  }

  lemma MethodBlocksSnoc(path: string, ms: seq<(string, Value)>, j: nat, pretty: Value -> string)
    requires j < |ms|
    ensures MethodBlocks(path, ms[..j + 1], pretty)
         == MethodBlocks(path, ms[..j], pretty) + OperationBlock(path, ms[j].0, ms[j].1, pretty)
  {
    assert ms[..j + 1][..j] == ms[..j];
  }

  lemma PathBlocksSnoc(ps: seq<(string, Value)>, i: nat, pretty: Value -> string)
    requires i < |ps|
    ensures PathBlocks(ps[..i + 1], pretty) == PathBlocks(ps[..i], pretty) + MethodBlocks(ps[i].0, Members(ps[i].1), pretty)
  {
    assert ps[..i + 1][..i] == ps[..i];
  }

  function PathsLines(doc: Value, pretty: Value -> string): (lines: seq<string>)
    ensures |lines| >= 2 && lines[..2] == ["== API Paths", ""]
  {
    Header + PathBlocks(Members(Get(doc, "paths")), pretty)
  }

  /** An operation's block starts with its seven intro lines. */
  lemma OperationBlockStartsWithIntro(path: string, httpMethod: string, op: Value, pretty: Value -> string)
    ensures |OperationBlock(path, httpMethod, op, pretty)| >= 7
    ensures OperationBlock(path, httpMethod, op, pretty)[..7] == Intro(path, httpMethod, op)
  {
  }

  /** The heading of an operation's block is its operationId or, when there
      is none, the upper-cased method and the path; then come the Method and
      Path bullets, and the description between blank lines after the Tags
      bullet. */
  lemma OperationHeading(path: string, httpMethod: string, op: Value, pretty: Value -> string)
    ensures |OperationBlock(path, httpMethod, op, pretty)| >= 7
    ensures Truthy(Get(op, "operationId")) ==>
      OperationBlock(path, httpMethod, op, pretty)[0] == "=== " + ToS(Get(op, "operationId"))
    ensures !Truthy(Get(op, "operationId")) ==>
      OperationBlock(path, httpMethod, op, pretty)[0] == "=== " + Upcase(httpMethod) + " " + path
    ensures OperationBlock(path, httpMethod, op, pretty)[1] == "* Method: `" + Upcase(httpMethod) + "`"
    ensures OperationBlock(path, httpMethod, op, pretty)[2] == "* Path: `" + path + "`"
    ensures OperationBlock(path, httpMethod, op, pretty)[4] == ""
    ensures OperationBlock(path, httpMethod, op, pretty)[5] == OrDefault(Get(op, "description"), "")
    ensures OperationBlock(path, httpMethod, op, pretty)[6] == ""
  {
    OperationBlockStartsWithIntro(path, httpMethod, op, pretty);
    var b := OperationBlock(path, httpMethod, op, pretty);
    var intro := Intro(path, httpMethod, op);
    assert forall i :: 0 <= i < 7 ==> b[i] == b[..7][i];
    assert intro[0] == "=== " + OperationId(path, httpMethod, op);
  }

  /** The Tags bullet: absent tags read `none`; present tags are joined with
      ", ", so a present but empty list reads as nothing. */
  lemma TagsBullet(path: string, httpMethod: string, op: Value, pretty: Value -> string)
    ensures |OperationBlock(path, httpMethod, op, pretty)| >= 7
    ensures Get(op, "tags") == Null ==> OperationBlock(path, httpMethod, op, pretty)[3] == "* Tags: none"
    ensures Get(op, "tags") == Array([]) ==> OperationBlock(path, httpMethod, op, pretty)[3] == "* Tags: "
    ensures Get(op, "tags").Array? ==>
      OperationBlock(path, httpMethod, op, pretty)[3] == "* Tags: " + Join(Strings(Get(op, "tags").items), ", ")
  {
    OperationBlockStartsWithIntro(path, httpMethod, op, pretty);
    assert Strings([]) == [];
  }

  /** The Example Response part is present exactly when some response yields
      a truthy example, and then shows the example of the first such
      response, pretty-printed inside a source block. */
  lemma ExampleLayout(rs: seq<(string, Value)>, pretty: Value -> string)
    ensures ExampleSection(FirstExample(rs), pretty) == [] <==>
              forall k :: 0 <= k < |rs| ==> !Truthy(Candidate(rs[k].1))
    ensures forall k :: 0 <= k < |rs| && Truthy(Candidate(rs[k].1))
                          && (forall j :: 0 <= j < k ==> !Truthy(Candidate(rs[j].1))) ==>
              ExampleSection(FirstExample(rs), pretty)
                == ["==== Example Response", "[source,json]", "----", pretty(Candidate(rs[k].1)), "----", ""]
  {
    FirstExampleIsFirstMatch(rs);
  }

  // ---------------------------------------------------------------------
  // Document order
  // ---------------------------------------------------------------------

  /** The (path, method, operation) triples under one path. */
  function PathOperations(path: string, ms: seq<(string, Value)>): (r: seq<(string, string, Value)>)
    ensures |r| == |ms|
    ensures forall j :: 0 <= j < |ms| ==> r[j] == (path, ms[j].0, ms[j].1)
  {
    seq(|ms|, j requires 0 <= j < |ms| => (path, ms[j].0, ms[j].1))
  }

  /** Every (path, method, operation) triple of the document: the paths in
      document order and, within a path, its methods in document order. */
  function Operations(ps: seq<(string, Value)>): seq<(string, string, Value)>
  {
    if ps == [] then []
    else Operations(ps[..|ps| - 1]) + PathOperations(ps[|ps| - 1].0, Members(ps[|ps| - 1].1))
  }

  /** One block per triple, in the order given. */
  function OperationBlocks(ts: seq<(string, string, Value)>, pretty: Value -> string): seq<string>
  {
    if ts == [] then []
    else OperationBlocks(ts[..|ts| - 1], pretty) + OperationBlock(ts[|ts| - 1].0, ts[|ts| - 1].1, ts[|ts| - 1].2, pretty)
  }

  lemma {:induction false} OperationBlocksAppend(a: seq<(string, string, Value)>, b: seq<(string, string, Value)>, pretty: Value -> string)
    ensures OperationBlocks(a + b, pretty) == OperationBlocks(a, pretty) + OperationBlocks(b, pretty)
    decreases |b|
  {
    if b == [] {
      assert a + b == a;
    } else {
      var n := |b| - 1;
      assert (a + b)[..|a + b| - 1] == a + b[..n];
      OperationBlocksAppend(a, b[..n], pretty);
      Text.AppendAssoc(OperationBlocks(a, pretty), OperationBlocks(b[..n], pretty), OperationBlock(b[n].0, b[n].1, b[n].2, pretty));
    }
  }

  lemma {:induction false} MethodBlocksAsOperations(path: string, ms: seq<(string, Value)>, pretty: Value -> string)
    ensures MethodBlocks(path, ms, pretty) == OperationBlocks(PathOperations(path, ms), pretty)
  {
    if ms != [] {
      var n := |ms| - 1;
      MethodBlocksAsOperations(path, ms[..n], pretty);
      assert PathOperations(path, ms)[..n] == PathOperations(path, ms[..n]);
    }
  }

  /** paths.adoc visits the operations in document order: its blocks are the
      blocks of Operations, one after the other. */
  lemma {:induction false} PathsInDocumentOrder(ps: seq<(string, Value)>, pretty: Value -> string)
    ensures PathBlocks(ps, pretty) == OperationBlocks(Operations(ps), pretty)
  {
    if ps != [] {
      var n := |ps| - 1;
      PathsInDocumentOrder(ps[..n], pretty);
      MethodBlocksAsOperations(ps[n].0, Members(ps[n].1), pretty);
      OperationBlocksAppend(Operations(ps[..n]), PathOperations(ps[n].0, Members(ps[n].1)), pretty);
    }
  }

  // ---------------------------------------------------------------------
  // The renderer
  // ---------------------------------------------------------------------

  /** The Consumes part: a heading, one bullet per media type and a blank
      line, and nothing at all when there is no media type. */
  method AppendConsumes(lines: seq<string>, mimeTypes: seq<string>) returns (out: seq<string>)
    ensures out == lines + ConsumesSection(mimeTypes)
  {
    out := lines;
    if |mimeTypes| > 0 {
      out := out + ["==== Consumes"];
      ghost var before := out;
      var k := 0;
      while k < |mimeTypes|
        invariant 0 <= k <= |mimeTypes|
        invariant out == before + MimeBullets(mimeTypes[..k])
      {
        assert mimeTypes[..k + 1][..k] == mimeTypes[..k];
        Text.AppendAssoc(before, MimeBullets(mimeTypes[..k]), [MimeBullet(mimeTypes[k])]);
        out := out + [MimeBullet(mimeTypes[k])];
        k := k + 1;
      }
      assert mimeTypes[..k] == mimeTypes;
      ghost var bullets := MimeBullets(mimeTypes);
      out := out + [""];
      Text.AppendAssoc(lines, ["==== Consumes"], bullets);
      Text.AppendAssoc(lines, ["==== Consumes"] + bullets, [""]);
    }
  }

  /** The Responses part: a heading, one bullet per status code and a blank
      line, and nothing at all when there is no response. */
  method AppendResponses(lines: seq<string>, responses: seq<(string, Value)>) returns (out: seq<string>)
    ensures out == lines + ResponsesSection(responses)
  {
    out := lines;
    if |responses| > 0 {
      out := out + ["==== Responses"];
      ghost var before := out;
      var k := 0;
      while k < |responses|
        invariant 0 <= k <= |responses|
        invariant out == before + ResponseBullets(responses[..k])
      {
        ResponseBulletsSnoc(responses, k);
        Text.AppendAssoc(before, ResponseBullets(responses[..k]), [ResponseBullet(responses[k].0, responses[k].1)]);
        out := out + [ResponseBullet(responses[k].0, responses[k].1)];
        k := k + 1;
      }
      assert responses[..k] == responses;
      ghost var bullets := ResponseBullets(responses);
      out := out + [""];
      Text.AppendAssoc(lines, ["==== Responses"], bullets);
      Text.AppendAssoc(lines, ["==== Responses"] + bullets, [""]);
    }
  }

  /** The lines of one (path, method) pair, appended one at a time. */
  method RenderOperation(path: string, httpMethod: string, op: Value, pretty: Value -> string)
    returns (block: seq<string>)
    requires OperationShaped(op)
    ensures block == OperationBlock(path, httpMethod, op, pretty)
  {
    var verb := Upcase(httpMethod);
    var operationId := OrDefault(Get(op, "operationId"), verb + " " + path);
    var description := OrDefault(Get(op, "description"), "");
    var tags := TagsText(op);

    block := [ "=== " + operationId,
               "* Method: `" + verb + "`",
               "* Path: `" + path + "`",
               "* Tags: " + tags,
               "",
               description,
               "" ];
    assert block == Intro(path, httpMethod, op);

    block := AppendConsumes(block, MimeTypes(op));
    var responses := Responses(op);
    block := AppendResponses(block, responses);

    var example := FindExample(responses);
    if Truthy(example) {
      block := block + ["==== Example Response", "[source,json]", "----", pretty(example), "----", ""];
    }
    assert ExampleSection(example, pretty) == ExampleSection(FirstExample(responses), pretty);
  }

  /** The blocks of the operations under one path, in document order. */
  method RenderPathItem(path: string, methods: seq<(string, Value)>, pretty: Value -> string)
    returns (blocks: seq<string>)
    requires forall j {:trigger OperationShaped(methods[j].1)} :: 0 <= j < |methods| ==> OperationShaped(methods[j].1)
    ensures blocks == MethodBlocks(path, methods, pretty)
  {
    blocks := [];
    var j := 0;
    while j < |methods|
      invariant 0 <= j <= |methods|
      invariant blocks == MethodBlocks(path, methods[..j], pretty)
    {
      assert OperationShaped(methods[j].1);
      var block := RenderOperation(path, methods[j].0, methods[j].1, pretty);
      MethodBlocksSnoc(path, methods, j, pretty);
      blocks := blocks + block;
      j := j + 1;
    }
    assert methods[..j] == methods;
  }

  /** paths.adoc as the script builds it: the header, then every operation of
      every path. */
  method RenderPaths(doc: Value, pretty: Value -> string) returns (lines: seq<string>)
    requires Shaped(doc)
    ensures lines == PathsLines(doc, pretty)
  {
    var paths := Members(Get(doc, "paths"));
    lines := ["== API Paths", ""];
    lines := AppendPaths(lines, paths, pretty);
  }

  /** The loop over the paths and, under each, over its operations. */
  method AppendPaths(lines: seq<string>, paths: seq<(string, Value)>, pretty: Value -> string)
    returns (out: seq<string>)
    requires forall i {:trigger PathItemShaped(paths[i].1)} :: 0 <= i < |paths| ==> PathItemShaped(paths[i].1)
    ensures out == lines + PathBlocks(paths, pretty)
  {
    out := lines;
    var i := 0;
    assert paths[..i] == [];
    while i < |paths|
      invariant 0 <= i <= |paths|
      invariant out == lines + PathBlocks(paths[..i], pretty)
    {
      assert PathItemShaped(paths[i].1);
      var blocks := RenderPathItem(paths[i].0, paths[i].1.members, pretty);
      PathBlocksSnoc(paths, i, pretty);
      Text.AppendAssoc(lines, PathBlocks(paths[..i], pretty), blocks);
      out := out + blocks;
      i := i + 1;
    }
    assert paths[..i] == paths;
  }
}
