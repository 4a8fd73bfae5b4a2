/**
  Hybrid hierarchical chunking of Markdown sections (etl/md_chunker.py): a
  short section is kept as it is; a long one is replaced by the chunks a
  semantic splitter cuts it into, each given the section's metadata and its
  header path in front of its text.
 */
module MdChunker {
  import opened Json
  import opened Schema
  import opened Seqs

  /** A section or a chunk: its text and its metadata. */
  datatype Node = Node(text: string, metadata: map<string, Json>)

  /** Sections shorter than this many characters are kept whole. */
  const SplitThreshold: nat := 500

  /** The semantic splitter: a document's text and metadata in, its chunks out, in order. */
  type Splitter = (string, map<string, Json>) -> seq<Node>

  /** `metadata.get("header_path", "")` as the f-string prints it. */
  function HeaderContext(metadata: map<string, Json>, repr: Json -> string): string
  {
    if "header_path" in metadata then Str(metadata["header_path"], repr) else ""
  }

  /** A chunk of a long section: the section's metadata, and its header path in front of the text. */
  function Reprefix(child: Node, parent: Node, repr: Json -> string): Node
  {
    Node("Context: " + HeaderContext(parent.metadata, repr) + "\nContent: " + child.text, parent.metadata)
  }

  function Children(chunks: seq<Node>, parent: Node, repr: Json -> string): (r: seq<Node>)
    ensures |r| == |chunks| && forall k :: 0 <= k < |chunks| ==> r[k] == Reprefix(chunks[k], parent, repr)
  {
    seq(|chunks|, k requires 0 <= k < |chunks| => Reprefix(chunks[k], parent, repr))
  }

  /** What one section contributes to the output. */
  function Emitted(n: Node, split: Splitter, repr: Json -> string): seq<Node>
  {
    if |n.text| < SplitThreshold then [n] else Children(split(n.text, n.metadata), n, repr)
  }

  /** The output for a list of sections, section by section. */
  function Chunked(nodes: seq<Node>, split: Splitter, repr: Json -> string): seq<Node>
  {
    if nodes == [] then []
    else Chunked(nodes[..|nodes| - 1], split, repr) + Emitted(nodes[|nodes| - 1], split, repr)
  }

  /** The output follows the order of the sections: chunking a concatenation concatenates the outputs. */
  lemma {:induction false} ChunkedAppend(a: seq<Node>, b: seq<Node>, split: Splitter, repr: Json -> string)
    ensures Chunked(a + b, split, repr) == Chunked(a, split, repr) + Chunked(b, split, repr)
  {
    if b == [] {
      assert a + b == a;
    } else {
      var init := b[..|b| - 1];
      AppendDropLast(a, b);
      ChunkedAppend(a, init, split, repr);
      AppendAssoc(Chunked(a, split, repr), Chunked(init, split, repr), Emitted(b[|b| - 1], split, repr));
    }
  }

  /** A section shorter than the threshold is emitted unchanged and gets no prefix. */
  lemma ShortSectionKept(n: Node, split: Splitter, repr: Json -> string)
    requires |n.text| < SplitThreshold
    ensures Chunked([n], split, repr) == [n]
  {
    assert [n][..0] == [];
  }

  /**
    A section of the threshold's length or longer is replaced by its chunks,
    in splitter order; each has the section's metadata and, in front of its
    own text, the section's header path.
   */
  lemma LongSectionSplit(n: Node, split: Splitter, repr: Json -> string)
    requires |n.text| >= SplitThreshold
    ensures var out := Chunked([n], split, repr);
            var chunks := split(n.text, n.metadata);
            && |out| == |chunks|
            && forall k :: 0 <= k < |chunks| ==>
                 && out[k].metadata == n.metadata
                 && out[k].text == "Context: " + HeaderContext(n.metadata, repr) + "\nContent: " + chunks[k].text
  {
    assert [n][..0] == [];
  }

  /** Without a header path the prefix is just the two labels. */
  lemma MissingHeaderPath(child: Node, parent: Node, repr: Json -> string)
    requires "header_path" !in parent.metadata
    ensures Reprefix(child, parent, repr).text == "Context: \nContent: " + child.text
  {
  }

  /**
    `hybrid_hierarchical_chunking` after the Markdown parser: the sections
    are visited in order, and each one's output is appended.
   */
  method HybridHierarchicalChunking(baseNodes: seq<Node>, split: Splitter, repr: Json -> string)
    returns (finalNodes: seq<Node>)
    ensures finalNodes == Chunked(baseNodes, split, repr)
  {
    finalNodes := [];
    var i := 0;
    while i < |baseNodes|
      invariant 0 <= i <= |baseNodes|
      invariant finalNodes == Chunked(baseNodes[..i], split, repr)
    {
      var node := baseNodes[i];
      assert baseNodes[..i + 1][..i] == baseNodes[..i];
      if |node.text| < SplitThreshold {
        finalNodes := finalNodes + [node];
      } else {
        var semanticNodes := split(node.text, node.metadata);
        ghost var start := finalNodes;
        var j := 0;
        while j < |semanticNodes|
          invariant 0 <= j <= |semanticNodes|
          invariant finalNodes == start + Children(semanticNodes[..j], node, repr)
        {
          var child := semanticNodes[j];
          child := child.(metadata := node.metadata);
          var headerContext := if "header_path" in child.metadata then Str(child.metadata["header_path"], repr) else "";
          child := child.(text := "Context: " + headerContext + "\nContent: " + child.text);
          assert Children(semanticNodes[..j + 1], node, repr) == Children(semanticNodes[..j], node, repr) + [child];
          finalNodes := finalNodes + [child];
          j := j + 1;
        }
        assert semanticNodes[..j] == semanticNodes;
      }
      i := i + 1;
    }
    assert baseNodes[..i] == baseNodes;
  }
}
