/**
  The relevance filter shared by the two RAG front ends
  (core/src/rag_workflow.py and core/src/rag/rag_workflow.py): retrieved
  nodes are listed for an LLM as `"id": """text"""` entries, the LLM replies
  with a JSON array of the relevant ids, and the texts of those ids become the
  context.
 */
module Relevance {
  import opened Wrappers
  import opened PyStr
  import opened Json
  import opened JsonExtractor
  import opened Schema
  import opened Services

  /** The context a relevance check yields: `False`, or a context string. */
  datatype ContextPayload = NoContext | Context(text: string)

  /** Python truthiness of the payload: `False` and `""` are both falsy. */
  predicate ContextTruthy(p: ContextPayload)
  {
    p.Context? && p.text != ""
  }

  /** Why the filter's answer cannot be turned into a context: the exception that escapes. */
  datatype Fault =
    | ExtractFault(error: ExtractError)  // a `ValueError` or decode error from the extractor
    | KeyError(key: Json)                // an id that is not a retrieved node's id
    | Unhashable(key: Json)              // a list or dict used as a key (`TypeError`)

  // ---------------------------------------------------------------------------
  // The candidate listing

  /** One node as the LLM sees it: `"id": """text"""`. */
  function Entry(n: NodeWithScore): string
  {
    "\"" + n.node.id + "\": \"\"\"" + n.node.text + "\"\"\""
  }

  function Entries(nodes: seq<NodeWithScore>): (r: seq<string>)
    ensures |r| == |nodes| && forall k :: 0 <= k < |nodes| ==> r[k] == Entry(nodes[k])
  {
    seq(|nodes|, k requires 0 <= k < |nodes| => Entry(nodes[k]))
  }

  /** The listing: the entries in node order, one per line, with no newline after the last. */
  function CandidateListing(nodes: seq<NodeWithScore>): string
  {
    Join("\n", Entries(nodes))
  }

  /**
    The loop that builds the listing: every entry but the last is followed by
    a newline.
   */
  method BuildCandidateListing(nodes: seq<NodeWithScore>) returns (s: string)
    ensures s == CandidateListing(nodes)
  {
    ghost var es := Entries(nodes);
    s := "";
    var i := 0;
    while i < |nodes|
      invariant 0 <= i <= |nodes|
      invariant s == if i == 0 then "" else Join("\n", es[..i]) + (if i < |nodes| then "\n" else "")
    {
      var piece;
      if i == |nodes| - 1 {
        piece := "\"" + nodes[i].node.id + "\": \"\"\"" + nodes[i].node.text + "\"\"\"";
      } else {
        piece := "\"" + nodes[i].node.id + "\": \"\"\"" + nodes[i].node.text + "\"\"\"\n";
      }
      assert es[..i + 1] == es[..i] + [es[i]];
      if i > 0 {
        JoinSnoc("\n", es[..i], es[i]);
      }
      s := s + piece;
      i := i + 1;
    }
    assert es[..i] == es;
  }

  lemma ListingEmpty()
    ensures CandidateListing([]) == ""
  {
  }

  /** One more node adds a newline and its entry. */
  lemma ListingSnoc(nodes: seq<NodeWithScore>, n: NodeWithScore)
    requires nodes != []
    ensures CandidateListing(nodes + [n]) == CandidateListing(nodes) + "\n" + Entry(n)
  {
    assert Entries(nodes + [n]) == Entries(nodes) + [Entry(n)];
    JoinSnoc("\n", Entries(nodes), Entry(n));
  }

  /** A non-empty listing ends with the last entry's closing quotes, never with a newline. */
  lemma {:induction false} ListingEnd(nodes: seq<NodeWithScore>)
    requires nodes != []
    ensures |CandidateListing(nodes)| >= 3
    ensures CandidateListing(nodes)[|CandidateListing(nodes)| - 3..] == "\"\"\""
  {
    var last := nodes[|nodes| - 1];
    var e := Entry(last);
    assert e[|e| - 3..] == "\"\"\"";
    if |nodes| == 1 {
      assert Entries(nodes) == [e];
    } else {
      var init := nodes[..|nodes| - 1];
      assert nodes == init + [last];
      ListingSnoc(init, last);
      var l := CandidateListing(init) + "\n" + e;
      assert l[|l| - 3..] == e[|e| - 3..];
    }
  }

  // ---------------------------------------------------------------------------
  // The id → text map

  /** `dict([(node.id_, node.text) for node in nodes])`: built left to right, so a later node wins. */
  function IdMap(nodes: seq<NodeWithScore>): map<string, string>
  {
    if nodes == [] then map[]
    else IdMap(nodes[..|nodes| - 1])[nodes[|nodes| - 1].node.id := nodes[|nodes| - 1].node.text]
  }

  /** The map's keys are exactly the retrieved ids. */
  lemma {:induction false} IdMapKeys(nodes: seq<NodeWithScore>, id: string)
    ensures id in IdMap(nodes) <==> exists j :: 0 <= j < |nodes| && nodes[j].node.id == id
  {
    if nodes != [] {
      var init := nodes[..|nodes| - 1];
      IdMapKeys(init, id);
      if id in IdMap(init) {
        var j :| 0 <= j < |init| && init[j].node.id == id;
        assert nodes[j] == init[j];
      }
      if exists j :: 0 <= j < |nodes| && nodes[j].node.id == id {
        var j :| 0 <= j < |nodes| && nodes[j].node.id == id;
        if j < |init| {
          assert init[j] == nodes[j];
        }
      }
    }
  }

  /** An id maps to the text of the last node carrying it. */
  lemma {:induction false} IdMapLastWins(nodes: seq<NodeWithScore>, j: nat)
    requires j < |nodes|
    requires forall m :: j < m < |nodes| ==> nodes[m].node.id != nodes[j].node.id
    ensures nodes[j].node.id in IdMap(nodes) && IdMap(nodes)[nodes[j].node.id] == nodes[j].node.text
  {
    if j < |nodes| - 1 {
      var init := nodes[..|nodes| - 1];
      assert init[j] == nodes[j];
      IdMapLastWins(init, j);
    }
  }

  // ---------------------------------------------------------------------------
  // From the filter's ids to the context

  /** `retrieved_nodes_dict[node_id]` for one decoded id. */
  function LookupText(m: map<string, string>, id: Json): Result<string, Fault>
  {
    match id
    case JStr(s) => if s in m then Ok(m[s]) else Err(KeyError(id))
    case JArr(_) => Err(Unhashable(id))
    case JObj(_) => Err(Unhashable(id))
    case _ => Err(KeyError(id))
  }

  /** The same lookup for every id, in order; the first fault escapes. */
  function LookupTexts(m: map<string, string>, ids: seq<Json>): (r: Result<seq<string>, Fault>)
    ensures r.Ok? <==> forall k :: 0 <= k < |ids| ==> ids[k].JStr? && ids[k].s in m
    ensures r.Ok? ==> |r.value| == |ids| && forall k :: 0 <= k < |ids| ==> r.value[k] == m[ids[k].s]
    ensures r.Err? ==> exists k :: 0 <= k < |ids| && LookupText(m, ids[k]) == Err(r.error)
                                   && forall j :: 0 <= j < k ==> LookupText(m, ids[j]).Ok?
  {
    if ids == [] then Ok([])
    else
      match LookupText(m, ids[0])
      case Err(f) => Err(f)
      case Ok(t) =>
        match LookupTexts(m, ids[1..])
        case Err(f) =>
          assert forall j :: 1 <= j < |ids| ==> ids[j] == ids[1..][j - 1];
          Err(f)
        case Ok(ts) => Ok([t] + ts)
  }

  /** An empty id list means no context; otherwise the texts, in reply order, separated by a blank line. */
  function ContextFromIds(nodes: seq<NodeWithScore>, ids: seq<Json>): Result<ContextPayload, Fault>
  {
    if ids == [] then Ok(NoContext)
    else
      match LookupTexts(IdMap(nodes), ids)
      case Err(f) => Err(f)
      case Ok(texts) => Ok(Context(Join("\n\n", texts)))
  }

  /** What the filter's reply text makes: it is stripped, then its JSON array is extracted. */
  function ContextFromReply(nodes: seq<NodeWithScore>, reply: string): Result<ContextPayload, Fault>
  {
    match ExtractJsonArray(Strip(reply))
    case Err(e) => Err(ExtractFault(e))
    case Ok(ids) => ContextFromIds(nodes, ids)
  }

  /** `LLM_RELEVANCE_CHECK_PROMPT.format(question = query, context = listing)`. */
  function RelevancePrompt(query: string, listing: string): Prompt
  {
    Prompt(RelevanceCheckPrompt, [("question", query), ("context", listing)])
  }

  /**
    What a relevance check ends in, given what retrieval did and how the
    filter LLM completes prompts: a failed retrieval means no context;
    otherwise the filter is asked about the listing of the nodes.
   */
  function RelevanceOf(retrieved: Retrieved, complete: Prompt -> string, query: string): Result<ContextPayload, Fault>
  {
    match retrieved
    case RetrievalValueError => Ok(NoContext)
    case Retrieved(nodes) => ContextFromReply(nodes, complete(RelevancePrompt(query, CandidateListing(nodes))))
  }

  /** The texts of `ids`, in order, repeats kept. */
  function TextsOf(m: map<string, string>, ids: seq<string>): (r: seq<string>)
    requires forall k :: 0 <= k < |ids| ==> ids[k] in m
    ensures |r| == |ids| && forall k :: 0 <= k < |ids| ==> r[k] == m[ids[k]]
  {
    seq(|ids|, k requires 0 <= k < |ids| => m[ids[k]])
  }

  /** The reply with a JSON array of `ids` in it is read as those ids. */
  lemma ReplyReadsIds(nodes: seq<NodeWithScore>, p: string, ids: seq<string>, q: string)
    requires '[' !in p && ']' !in q
    ensures ContextFromReply(nodes, p + Dumps(ids) + q) == ContextFromIds(nodes, Strs(ids))
  {
    var reply := p + Dumps(ids) + q;
    StripKeepsExtraction(reply);
    ExtractRoundTrip(p, ids, q);
  }

  /** Decoded ids that are all retrieved give their texts, in order. */
  lemma KnownIdsContext(nodes: seq<NodeWithScore>, ids: seq<string>)
    requires forall k :: 0 <= k < |ids| ==> ids[k] in IdMap(nodes)
    ensures ContextFromIds(nodes, Strs(ids))
      == if ids == [] then Ok(NoContext) else Ok(Context(Join("\n\n", TextsOf(IdMap(nodes), ids))))
  {
    StrsIndex(ids);
    var m := IdMap(nodes);
    var r := LookupTexts(m, Strs(ids));
    assert r.Ok?;
    assert r.value == TextsOf(m, ids);
  }

  /** Among decoded ids, the first one that is not retrieved raises a `KeyError`. */
  lemma UnknownIdContext(nodes: seq<NodeWithScore>, ids: seq<string>, k: nat)
    requires k < |ids| && ids[k] !in IdMap(nodes)
    requires forall j :: 0 <= j < k ==> ids[j] in IdMap(nodes)
    ensures ContextFromIds(nodes, Strs(ids)) == Err(KeyError(JStr(ids[k])))
  {
    StrsIndex(ids);
    var m := IdMap(nodes);
    var r := LookupTexts(m, Strs(ids));
    assert LookupText(m, Strs(ids)[k]).Err?;
    assert r.Err?;
  }

  /**
    A reply that holds a JSON array of retrieved ids, with bracket-free text
    around it: no ids give no context; otherwise the context is the texts of
    those ids in reply order, separated by blank lines.
   */
  lemma ReplyNamesNodes(nodes: seq<NodeWithScore>, p: string, ids: seq<string>, q: string)
    requires '[' !in p && ']' !in q
    requires forall k :: 0 <= k < |ids| ==> ids[k] in IdMap(nodes)
    ensures ContextFromReply(nodes, p + Dumps(ids) + q)
      == if ids == [] then Ok(NoContext) else Ok(Context(Join("\n\n", TextsOf(IdMap(nodes), ids))))
  {
    ReplyReadsIds(nodes, p, ids, q);
    KnownIdsContext(nodes, ids);
  }

  /** The first id of the reply that no retrieved node carries raises a `KeyError`. */
  lemma ReplyUnknownId(nodes: seq<NodeWithScore>, p: string, ids: seq<string>, q: string, k: nat)
    requires '[' !in p && ']' !in q
    requires k < |ids| && ids[k] !in IdMap(nodes)
    requires forall j :: 0 <= j < k ==> ids[j] in IdMap(nodes)
    ensures ContextFromReply(nodes, p + Dumps(ids) + q) == Err(KeyError(JStr(ids[k])))
  {
    ReplyReadsIds(nodes, p, ids, q);
    UnknownIdContext(nodes, ids, k);
  }
}
