/**
  The dual-schema Qdrant vector store (helpers/qdrant_setup.py): every point
  of a search response becomes a text node. The metadata is the payload
  without its reserved keys, with a `_node_metadata` dict merged in; the text
  is the table data for a table point and the summary, or else the node
  content, for any other point.
 */
module QdrantStore {
  import opened Wrappers
  import opened PyStr
  import opened Json
  import opened Schema

  /** The payload keys that never become metadata. */
  const ReservedKeys: seq<string> := ["text", "_node_content", "table_data", "_node_type", "_node_info", "_node_metadata", "_node_relationships"]

  /** A Qdrant point id: an unsigned integer or a UUID, kept in its canonical text form. */
  datatype PointId = IntId(n: nat) | UuidId(uuid: string)

  /** A payload, a dict from key to JSON value, as its items in order. */
  type Payload = seq<(string, Json)>

  /** A point of a search response; a point may have no payload, no vector or no score. */
  datatype ScoredPoint = ScoredPoint(id: PointId, payload: Option<Payload>, vector: Option<seq<Score>>, score: Option<Score>)

  /** `VectorStoreQueryResult`: the nodes, their ids and their similarities. */
  datatype QueryResult = QueryResult(nodes: seq<TextNode>, ids: seq<string>, similarities: seq<Option<Score>>)

  /** `str(point.id)`. */
  function PointIdStr(id: PointId): string
  {
    match id
    case IntId(n) => NatToString(n)
    case UuidId(u) => u
  }

  /** Different integer ids print differently, so the node ids are distinct when the point ids are. */
  lemma IntIdsDistinct(a: nat, b: nat)
    requires a != b
    ensures PointIdStr(IntId(a)) != PointIdStr(IntId(b))
  {
    NatToStringRoundTrip(a);
    NatToStringRoundTrip(b);
  }

  /** `point.payload or {}`. */
  function PayloadOf(p: ScoredPoint): Payload
  {
    if p.payload.Some? then p.payload.value else []
  }

  /** Some item of `items` has key `k`. */
  predicate HasKey(items: seq<(string, Json)>, k: string)
  {
    exists j :: 0 <= j < |items| && items[j].0 == k
  }

  /** `d.get(k)`: the value of the last item with key `k`, as a dict built from the items holds it. */
  function Get(items: seq<(string, Json)>, k: string): (r: Option<Json>)
    ensures r.None? <==> !HasKey(items, k)
    ensures r.Some? ==> exists j :: 0 <= j < |items| && items[j] == (k, r.value) && LastWith(items, k, j)
  {
    if items == [] then None
    else if items[|items| - 1].0 == k then Some(items[|items| - 1].1)
    else
      var init := items[..|items| - 1];
      var r := Get(init, k);
      assert forall j :: 0 <= j < |init| ==> init[j] == items[j];
      assert forall j :: 0 <= j < |init| && LastWith(init, k, j) ==> LastWith(items, k, j);
      r
  }

  /** No item after index `j` has key `k`. */
  predicate LastWith(items: seq<(string, Json)>, k: string, j: nat)
  {
    forall j' :: j < j' < |items| ==> items[j'].0 != k
  }

  /** `d.get(k, default)`. */
  function GetOr(items: seq<(string, Json)>, k: string, default: Json): Json
  {
    match Get(items, k)
    case Some(v) => v
    case None => default
  }

  /** `m.update(d)` with the items of a dict: each item overwrites, left to right. */
  function Update(m: map<string, Json>, items: seq<(string, Json)>): map<string, Json>
  {
    if items == [] then m
    else Update(m, items[..|items| - 1])[items[|items| - 1].0 := items[|items| - 1].1]
  }

  /** A key is in the updated map exactly when it was in the map or is a key of the items. */
  lemma {:induction false} UpdateKeys(m: map<string, Json>, items: seq<(string, Json)>, k: string)
    ensures k in Update(m, items) <==> k in m || HasKey(items, k)
  {
    if items != [] {
      var init := items[..|items| - 1];
      UpdateKeys(m, init, k);
      assert forall j :: 0 <= j < |init| ==> init[j] == items[j];
      if HasKey(items, k) && items[|items| - 1].0 != k {
        var j :| 0 <= j < |items| && items[j].0 == k;
        assert init[j].0 == k;
      }
    }
  }

  /** The metadata the items build, one item at a time. */
  function Metadata(items: seq<(string, Json)>): map<string, Json>
  {
    if items == [] then map[]
    else
      var m := Metadata(items[..|items| - 1]);
      var (key, value) := items[|items| - 1];
      var m1 := if key !in ReservedKeys then m[key := value] else m;
      if key == "_node_metadata" && value.JObj? then Update(m1, value.members) else m1
  }

  /** The payload holds a `_node_metadata` dict whose items include key `k`. */
  predicate MergedKey(items: seq<(string, Json)>, k: string)
  {
    exists j :: 0 <= j < |items| && items[j].0 == "_node_metadata" && items[j].1.JObj? && HasKey(items[j].1.members, k)
  }

  /**
    The metadata keys are exactly the payload's keys that are not reserved,
    together with the keys of a `_node_metadata` dict.
   */
  lemma {:induction false} MetadataKeys(items: seq<(string, Json)>, k: string)
    ensures k in Metadata(items) <==> (k !in ReservedKeys && HasKey(items, k)) || MergedKey(items, k)
  {
    if items != [] {
      var init := items[..|items| - 1];
      var (key, value) := items[|items| - 1];
      MetadataKeys(init, k);
      assert forall j :: 0 <= j < |init| ==> init[j] == items[j];
      var m1 := if key !in ReservedKeys then Metadata(init)[key := value] else Metadata(init);
      if key == "_node_metadata" && value.JObj? {
        UpdateKeys(m1, value.members, k);
      }
      if HasKey(items, k) && key != k {
        var j :| 0 <= j < |items| && items[j].0 == k;
        assert init[j].0 == k;
      }
      if MergedKey(items, k) && !(key == "_node_metadata" && value.JObj? && HasKey(value.members, k)) {
        var j :| 0 <= j < |items| && items[j].0 == "_node_metadata" && items[j].1.JObj? && HasKey(items[j].1.members, k);
        assert j < |init|;
        assert MergedKey(init, k);
      }
    }
  }

  /** Without a `_node_metadata` dict, a key that is not reserved holds its value in the payload. */
  lemma {:induction false} MetadataValue(items: seq<(string, Json)>, k: string)
    requires forall j :: 0 <= j < |items| ==> !(items[j].0 == "_node_metadata" && items[j].1.JObj?)
    requires k !in ReservedKeys && HasKey(items, k)
    ensures k in Metadata(items) && Metadata(items)[k] == Get(items, k).value
  {
    var init := items[..|items| - 1];
    if items[|items| - 1].0 != k {
      assert forall j :: 0 <= j < |init| ==> init[j] == items[j];
      var j :| 0 <= j < |items| && items[j].0 == k;
      assert init[j].0 == k;
      MetadataValue(init, k);
    }
  }

  /**
    The value `update` leaves under a key: the dict's last value for it when
    the dict carries it, and otherwise the map's own value.
   */
  lemma {:induction false} UpdateValue(m: map<string, Json>, items: seq<(string, Json)>, k: string)
    ensures HasKey(items, k) ==> k in Update(m, items) && Update(m, items)[k] == Get(items, k).value
    ensures !HasKey(items, k) ==> (k in Update(m, items) <==> k in m) && (k in m ==> Update(m, items)[k] == m[k])
  {
    if items != [] {
      var init := items[..|items| - 1];
      UpdateValue(m, init, k);
      assert forall j :: 0 <= j < |init| ==> init[j] == items[j];
      if items[|items| - 1].0 != k {
        if HasKey(items, k) {
          var j :| 0 <= j < |items| && items[j].0 == k;
          assert init[j].0 == k;
        }
        if HasKey(init, k) {
          var j :| 0 <= j < |init| && init[j].0 == k;
          assert items[j].0 == k;
        }
      }
    }
  }

  /** A `_node_metadata` dict merges into the metadata built so far. */
  lemma MetadataMergedLast(items: seq<(string, Json)>, d: seq<(string, Json)>)
    ensures Metadata(items + [("_node_metadata", JObj(d))]) == Update(Metadata(items), d)
  {
    assert (items + [("_node_metadata", JObj(d))])[..|items|] == items;
  }

  /** An item that is not reserved sets its key in the metadata built so far. */
  lemma MetadataPlainLast(items: seq<(string, Json)>, k: string, v: Json)
    requires k !in ReservedKeys
    ensures Metadata(items + [(k, v)]) == Metadata(items)[k := v]
  {
    assert (items + [(k, v)])[..|items|] == items;
  }

  /** Item order decides: a `_node_metadata` dict after a payload item overrides it. */
  lemma MergedOverridesItem(items: seq<(string, Json)>, k: string, v: Json, d: seq<(string, Json)>)
    requires k !in ReservedKeys && HasKey(d, k)
    ensures var m := Metadata(items + [(k, v)] + [("_node_metadata", JObj(d))]);
              k in m && m[k] == Get(d, k).value
  {
    MetadataMergedLast(items + [(k, v)], d);
    UpdateValue(Metadata(items + [(k, v)]), d, k);
  }

  /** Item order decides: a payload item after a `_node_metadata` dict overrides the merged key. */
  lemma ItemOverridesMerged(items: seq<(string, Json)>, d: seq<(string, Json)>, k: string, v: Json)
    requires k !in ReservedKeys
    ensures var m := Metadata(items + [("_node_metadata", JObj(d))] + [(k, v)]);
              k in m && m[k] == v
  {
    MetadataPlainLast(items + [("_node_metadata", JObj(d))], k, v);
  }

  /**
    The metadata loop: every item that is not reserved is copied, and a
    `_node_metadata` dict is merged in where it stands.
   */
  method ExtractMetadata(payload: Payload) returns (metadata: map<string, Json>)
    ensures metadata == Metadata(payload)
  {
    metadata := map[];
    var i := 0;
    while i < |payload|
      invariant 0 <= i <= |payload|
      invariant metadata == Metadata(payload[..i])
    {
      var (key, value) := payload[i];
      assert payload[..i + 1][..i] == payload[..i];
      if key !in ReservedKeys {
        metadata := metadata[key := value];
      }
      if key == "_node_metadata" && value.JObj? {
        metadata := Update(metadata, value.members);
      }
      i := i + 1;
    }
    assert payload[..i] == payload;
  }

  /** Python truthiness of `d.get(k)`: `None` is falsy. */
  predicate PyTruthy(v: Option<Json>)
  {
    v.Some? && Truthy(v.value)
  }

  /** `str(v)` of an optional value: `None` prints as `None`. */
  function StrOf(v: Option<Json>, repr: Json -> string): string
  {
    match v
    case None => "None"
    case Some(x) => Str(x, repr)
  }

  /** The summary is not usable: missing, falsy, or whitespace only. */
  predicate Unusable(summary: Option<Json>)
  {
    !PyTruthy(summary) || (summary.value.JStr? && IsSpaceStr(summary.value.s))
  }

  /**
    The node text of a payload. A table point (`doc_type` defaults to
    `"point"`) has its table data dumped as JSON, or `""` without table data;
    any other point has its summary, or its `_node_content` when the summary
    is unusable, converted to a string when it is not one.
   */
  function TextContent(items: Payload, dumps: Json -> string, repr: Json -> string): string
  {
    if GetOr(items, "doc_type", JStr("point")) == JStr("table") then
      var tableData := GetOr(items, "table_data", JObj([]));
      if Truthy(tableData) then dumps(tableData) else ""
    else
      var summary := Get(items, "summary");
      StrOf(if Unusable(summary) then Get(items, "_node_content") else summary, repr)
  }

  /** The node a point becomes. */
  function NodeOf(p: ScoredPoint, dumps: Json -> string, repr: Json -> string): TextNode
  {
    TextNode(PointIdStr(p.id), TextContent(PayloadOf(p), dumps, repr), Metadata(PayloadOf(p)), p.vector)
  }

  // ---------------------------------------------------------------------------
  // The text rules

  lemma TableText(items: Payload, dumps: Json -> string, repr: Json -> string)
    requires Get(items, "doc_type") == Some(JStr("table"))
    ensures PyTruthy(Get(items, "table_data")) ==> TextContent(items, dumps, repr) == dumps(Get(items, "table_data").value)
    ensures !PyTruthy(Get(items, "table_data")) ==> TextContent(items, dumps, repr) == ""
  {
  }

  /**
    A point that is not a table, whether its `doc_type` is missing (and so
    `"point"`) or any other value, has its usable summary as its text.
   */
  lemma PointUsesSummary(items: Payload, dumps: Json -> string, repr: Json -> string, s: string)
    requires GetOr(items, "doc_type", JStr("point")) != JStr("table")
    requires Get(items, "summary") == Some(JStr(s)) && s != "" && !IsSpaceStr(s)
    ensures TextContent(items, dumps, repr) == s
  {
  }

  /** An unusable summary gives way to the node content. */
  lemma UnusableSummaryFallsBack(items: Payload, dumps: Json -> string, repr: Json -> string)
    requires Get(items, "doc_type") != Some(JStr("table"))
    requires Unusable(Get(items, "summary"))
    ensures TextContent(items, dumps, repr) == StrOf(Get(items, "_node_content"), repr)
  {
  }

  /** A whitespace-only summary is unusable, whatever the node content. */
  lemma WhitespaceSummaryIsUnusable(s: string)
    requires IsSpaceStr(s)
    ensures Unusable(Some(JStr(s)))
  {
  }

  /** With neither a usable summary nor a node content, the text is the string `None`. */
  lemma NoTextIsNone(items: Payload, dumps: Json -> string, repr: Json -> string)
    requires Get(items, "doc_type") != Some(JStr("table"))
    requires !HasKey(items, "summary") && !HasKey(items, "_node_content")
    ensures TextContent(items, dumps, repr) == "None"
  {
  }

  // ---------------------------------------------------------------------------
  // The similarities

  /** `[s for s in similarities if s is not None]`. */
  function Present(ss: seq<Option<Score>>): (r: seq<Option<Score>>)
    ensures |r| <= |ss|
    ensures forall k :: 0 <= k < |r| ==> r[k].Some?
    ensures forall x :: x in r <==> x in ss && x.Some?
  {
    if ss == [] then []
    else if ss[0].None? then Present(ss[1..])
    else [ss[0]] + Present(ss[1..])
  }

  /** The filter keeps order across concatenation. */
  lemma {:induction false} PresentAppend(a: seq<Option<Score>>, b: seq<Option<Score>>)
    ensures Present(a + b) == Present(a) + Present(b)
  {
    if a == [] {
      assert a + b == b;
    } else {
      assert (a + b)[0] == a[0] && (a + b)[1..] == a[1..] + b;
      PresentAppend(a[1..], b);
    }
  }

  /** One more score is kept at the end when present and dropped when missing. */
  lemma PresentSnoc(ss: seq<Option<Score>>, s: Option<Score>)
    ensures Present(ss + [s]) == Present(ss) + (if s.Some? then [s] else [])
  {
    PresentAppend(ss, [s]);
  }

  /** Filtering loses nothing exactly when every score is present, and then changes nothing. */
  lemma {:induction false} PresentAll(ss: seq<Option<Score>>)
    ensures |Present(ss)| == |ss| <==> forall k :: 0 <= k < |ss| ==> ss[k].Some?
    ensures |Present(ss)| == |ss| ==> Present(ss) == ss
  {
    if ss != [] {
      PresentAll(ss[1..]);
      assert forall k :: 1 <= k < |ss| ==> ss[k] == ss[1..][k - 1];
    }
  }

  /** The body of the loop of `parse_to_query_result` for one point: its node, and its id as a string. */
  method PointToNode(point: ScoredPoint, dumps: Json -> string, repr: Json -> string)
    returns (node: TextNode, pointIdStr: string)
    ensures node == NodeOf(point, dumps, repr) && pointIdStr == PointIdStr(point.id) == node.id
  {
    pointIdStr := PointIdStr(point.id);
    var payload := if point.payload.Some? then point.payload.value else [];
    var embedding := point.vector;
    var metadata := ExtractMetadata(payload);
    var docType := GetOr(payload, "doc_type", JStr("point"));
    var textContent: Option<Json> := Some(JStr(""));
    if docType == JStr("table") {
      var tableData := GetOr(payload, "table_data", JObj([]));
      if Truthy(tableData) {
        textContent := Some(JStr(dumps(tableData)));
      }
    } else {
      textContent := Get(payload, "summary");
      if !PyTruthy(textContent) || (textContent.value.JStr? && IsSpaceStr(textContent.value.s)) {
        textContent := Get(payload, "_node_content");
      }
    }
    var text := StrOf(textContent, repr);
    node := TextNode(pointIdStr, text, metadata, embedding);
  }

  /**
    `parse_to_query_result`: one node, one id and one similarity per point,
    in response order. The id is `str(point.id)`, and the similarities are
    the points' scores, `None` where one has none, whichever list is chosen.
   */
  method ParseToQueryResult(response: seq<ScoredPoint>, dumps: Json -> string, repr: Json -> string)
    returns (r: QueryResult)
    ensures |r.nodes| == |response| && |r.ids| == |response| && |r.similarities| == |response|
    ensures forall k :: 0 <= k < |response| ==>
              && r.nodes[k] == NodeOf(response[k], dumps, repr)
              && r.ids[k] == PointIdStr(response[k].id) == r.nodes[k].id
              && r.similarities[k] == response[k].score
  {
    var nodes: seq<TextNode> := [];
    var ids: seq<string> := [];
    var similarities: seq<Option<Score>> := [];
    var i := 0;
    while i < |response|
      invariant 0 <= i <= |response|
      invariant |nodes| == i && |ids| == i && |similarities| == i
      invariant forall k :: 0 <= k < i ==>
                  && nodes[k] == NodeOf(response[k], dumps, repr)
                  && ids[k] == PointIdStr(response[k].id)
                  && similarities[k] == response[k].score
    {
      var point := response[i];
      var node, pointIdStr := PointToNode(point, dumps, repr);
      nodes := nodes + [node];
      ids := ids + [pointIdStr];
      similarities := similarities + [point.score];
      i := i + 1;
    }
    var validSimilarities := Present(similarities);
    PresentAll(similarities);
    r := QueryResult(nodes, ids, if |validSimilarities| == |nodes| then validSimilarities else similarities);
  }
}
