/** Whole-document instances of the renderers' behaviour. */
module Scenarios {
  import opened Json
  import Overview
  import Paths
  import Text

  /** The one response of the smallest document: a description, no content. */
  const OkResponse: Value := Object([("description", Str("ok"))])

  /** The one operation of the smallest document. */
  const GetX: Value :=
    Object([("operationId", Str("getX")), ("responses", Object([("200", OkResponse)]))])

  /** The lines written for GetX on GET /x: the intro with "none" for the
      absent tags and an empty description, then the one response bullet; no
      Consumes and no Example part. */
  const GetXLines: seq<string> :=
    [ "=== getX", "* Method: `GET`", "* Path: `/x`", "* Tags: none", "", "", "",
      "==== Responses", "* `200`: ok", "" ]

  /** The smallest complete document: a title, a version and one operation
      with one response and no example. */
  const Small: Value :=
    Object([
      ("info", Object([("title", Str("T")), ("version", Str("1.0"))])),
      ("paths", Object([("/x", Object([("get", GetX)]))]))
    ])

  lemma SmallOverview()
    ensures Overview.OverviewLines(Small) == ["= T", "", "Version: 1.0", "", "No description provided."]
  {
    var info := Object([("title", Str("T")), ("version", Str("1.0"))]);
    assert Get(Small, "info") == info;
    assert Get(info, "title") == Str("T");
    assert "version" != "title";
    assert Get(info, "version") == Str("1.0");
    assert "description" != "title" && "description" != "version";
    assert Get(info, "description") == Null;
    assert Overview.Info(Small) == info;
    assert "= " + "T" == "= T";
    assert "Version: " + "1.0" == "Version: 1.0";
  }

  /** Looking up a key in the operation: its two members, else Null. */
  lemma GetXMember(key: string)
    ensures Get(GetX, key)
         == if key == "operationId" then Str("getX")
            else if key == "responses" then Object([("200", OkResponse)])
            else Null
  {
    var ms := GetX.members;
    if key != "operationId" {
      assert Lookup(ms, key) == Lookup(ms[1..], key);
      if key != "responses" {
        assert Lookup(ms[1..], key) == Lookup(ms[1..][1..], key);
        assert ms[1..][1..] == [];
      }
    }
  }

  /** The operation's fields as the intro reads them. */
  lemma GetXFields()
    ensures Paths.OperationId("/x", "get", GetX) == "getX"
    ensures Paths.TagsText(GetX) == "none"
    ensures Get(GetX, "description") == Null
    ensures Text.Upcase("get") == "GET"
  {
    GetXMember("operationId");
    GetXMember("tags");
    GetXMember("description");
  }

  /** Without tags or description the intro reads "none" and a blank line. */
  lemma SmallIntro()
    ensures Paths.Intro("/x", "get", GetX)
         == ["=== getX", "* Method: `GET`", "* Path: `/x`", "* Tags: none", "", "", ""]
  {
    GetXFields();
    assert "=== " + "getX" == "=== getX";
    assert "* Method: `" + "GET" + "`" == "* Method: `GET`";
    assert "* Path: `" + "/x" + "`" == "* Path: `/x`";
    assert "* Tags: " + "none" == "* Tags: none";
  }

  /** One response without content: one bullet and no example. */
  lemma SmallResponses()
    ensures Paths.Responses(GetX) == [("200", OkResponse)]
    ensures Paths.ResponsesSection(Paths.Responses(GetX)) == ["==== Responses", "* `200`: ok", ""]
    ensures Paths.FirstExample(Paths.Responses(GetX)) == Null
  {
    var responses := [("200", OkResponse)];
    assert "responses" != "operationId";
    GetXMember("responses");
    assert Get(GetX, "responses") == Object(responses);
    assert "content" != "description";
    assert Get(OkResponse, "content") == Null;
    assert Get(OkResponse, "description") == Str("ok");
    assert Paths.Candidate(OkResponse) == Null;
    assert responses[..0] == [];
    assert "* `" + "200" + "`: " + "ok" == "* `200`: ok";
    assert Paths.ResponseBullet("200", OkResponse) == "* `200`: ok";
    assert Paths.ResponseBullets(responses) == ["* `200`: ok"];
  }

  /** The operation's block: its intro and its responses, nothing else. */
  lemma SmallBlock(pretty: Value -> string)
    ensures Paths.OperationBlock("/x", "get", GetX, pretty) == GetXLines
  {
    GetXMember("requestBody");
    assert Paths.MimeTypes(GetX) == [];
    SmallIntro();
    SmallResponses();
  }

  /** One path with one method: its blocks are that operation's block. */
  lemma SmallPathBlocks(pretty: Value -> string)
    ensures Paths.PathBlocks(Members(Get(Small, "paths")), pretty)
         == Paths.OperationBlock("/x", "get", GetX, pretty)
  {
    var ps := [("/x", Object([("get", GetX)]))];
    assert Lookup(Small.members, "paths") == Lookup(Small.members[1..], "paths");
    assert Get(Small, "paths") == Object(ps);
    var block := Paths.OperationBlock("/x", "get", GetX, pretty);
    assert [("get", GetX)][..0] == [];
    assert Paths.MethodBlocks("/x", [("get", GetX)], pretty) == [] + block;
    assert ps[..0] == [];
    assert Members(ps[0].1) == [("get", GetX)];
    assert Paths.PathBlocks(ps, pretty) == [] + block;
  }

  /** The paths file of the small document: its header and the one block. */
  lemma SmallPaths(pretty: Value -> string)
    ensures Paths.PathsLines(Small, pretty) == ["== API Paths", ""] + GetXLines
  {
    SmallPathBlocks(pretty);
    SmallBlock(pretty);
  }

  /** A response without content ahead of one with an example: the scan
      passes over the first and takes the example of the second. */
  lemma ScanSkipsContentless()
    ensures Paths.FirstExample([
              ("404", Object([("description", Str("missing"))])),
              ("200", Object([("content", Object([("application/json",
                        Object([("example", Object([("ok", Bool(true))]))]))]))]))
            ]) == Object([("ok", Bool(true))])
  {
  }

  /** A 200 response with an example ahead of a 500 response whose content is
      `false`: the scan stops at the 200 and never reads the 500's content, so
      the responses are accepted and the example is the 200's. */
  lemma ScanStopsBeforeMalformed()
    ensures Paths.ResponsesShaped(Object([
              ("200", Object([("content", Object([("application/json",
                        Object([("example", Number(1))]))]))])),
              ("500", Object([("content", Bool(false))]))
            ]))
    ensures Paths.FirstExample([
              ("200", Object([("content", Object([("application/json",
                        Object([("example", Number(1))]))]))])),
              ("500", Object([("content", Bool(false))]))
            ]) == Number(1)
  {
    var ok := Object([("content", Object([("application/json", Object([("example", Number(1))]))]))]);
    var bad := Object([("content", Bool(false))]);
    var rs := [("200", ok), ("500", bad)];
    assert Paths.Candidate(rs[0].1) == Number(1);
    assert Paths.ContentShaped(ok);
    forall k | 0 <= k < |rs| && (forall j :: 0 <= j < k ==> !Truthy(Paths.Candidate(rs[j].1)))
      ensures Paths.ContentShaped(rs[k].1)
    {
      if k == 1 {
        assert false;
      }
    }
    assert rs[1..] == [("500", bad)];
  }
}
