/** The canvas side: how one analysis response is merged into the canvas
    state (nodes, edges, the suggestion panel and the set of highlighted
    node ids), and how a suggestion is dismissed.

    JSX rendering, colours and React's asynchronous state setters are left
    out; the state updates of one handler are applied in program order. */
module ThinkingMachine {
  import opened Seqs
  import opened Models
  import Logic

  /** Id prefixes the merge distinguishes edges by. */
  const SuggestEdgePrefix := "e-suggest-"
  const CrossEdgePrefix := "e-cross-"
  const InputEdgePrefix := "e-input-"

  /** The class name of a glowing node. */
  const HighlightClass := "node-highlighted"

  /** Node type used when the response gives none (an empty string). */
  const DefaultNodeType := "default"

  /** The `data` of a canvas node: `title` from the node's label, `body` from
      its content (the canvas calls it `label`). */
  datatype FlowNodeData = FlowNodeData(
    title: string,
    body: string,
    phase: Phase,
    category: Category,
    isAiSuggestion: bool)

  /** A node on the canvas. */
  datatype FlowNode = FlowNode(
    id: string,
    kind: string,
    position: Position,
    className: string,
    data: FlowNodeData)

  /** Which stroke an edge is drawn with: the default grey, the cross-link
      violet, or the dashed input indigo. */
  datatype EdgeStyle = Plain | Cross | Input

  /** An edge on the canvas. */
  datatype FlowEdge = FlowEdge(
    id: string,
    source: string,
    target: string,
    relation: string,
    animated: bool,
    style: EdgeStyle)

  /** An entry of the suggestion panel. */
  datatype Suggestion = Suggestion(
    id: string,
    title: string,
    content: string,
    category: Category,
    phase: Phase,
    relatedNodeId: Option<string>)

  /** JavaScript truthiness of a string-or-null: null and "" are false. */
  predicate Truthy(s: Option<string>)
  {
    s.Some? && s.value != ""
  }

  // ---------------------------------------------------------------------
  // Splitting the response
  // ---------------------------------------------------------------------

  predicate IsSuggestionNode(n: Node)
  {
    n.data.isAiGenerated
  }

  predicate IsSuggestEdge(e: Edge)
  {
    SuggestEdgePrefix <= e.id
  }

  /** The response nodes that are not AI generated, in response order. */
  function UserNodes(ns: seq<Node>): (r: seq<Node>)
    ensures forall i :: 0 <= i < |r| ==> r[i] in ns && !r[i].data.isAiGenerated
    ensures forall i :: 0 <= i < |ns| && !ns[i].data.isAiGenerated ==> ns[i] in r
  {
    Filter(Not(IsSuggestionNode), ns)
  }

  /** The user-node filter decides node by node, so the user nodes keep
      their response order: it distributes over concatenation, drops a
      single AI-generated node and keeps any other. */
  lemma UserNodesPointwise(a: seq<Node>, b: seq<Node>, n: Node)
    ensures UserNodes(a + b) == UserNodes(a) + UserNodes(b)
    ensures UserNodes([n]) == if n.data.isAiGenerated then [] else [n]
  {
    FilterAppend(Not(IsSuggestionNode), a, b);
    assert [n][1..] == [];
  }

  /** The first AI-generated response node, if any. */
  function SuggestionNodeOf(ns: seq<Node>): (r: Option<Node>)
    ensures r.None? <==> forall i :: 0 <= i < |ns| ==> !ns[i].data.isAiGenerated
    ensures r.Some? ==> exists i :: 0 <= i < |ns| && ns[i] == r.value && r.value.data.isAiGenerated &&
                                    forall k :: 0 <= k < i ==> !ns[k].data.isAiGenerated
  {
    Find(IsSuggestionNode, ns)
  }

  /** The response nodes are split without loss: the user nodes and the
      AI-generated nodes together are the response nodes, and the suggestion
      is the first of the AI-generated ones. */
  lemma {:induction false} NodeSplit(ns: seq<Node>)
    ensures |UserNodes(ns)| + |Filter(IsSuggestionNode, ns)| == |ns|
    ensures multiset(UserNodes(ns)) + multiset(Filter(IsSuggestionNode, ns)) == multiset(ns)
    ensures SuggestionNodeOf(ns) == if Filter(IsSuggestionNode, ns) == [] then None
                                    else Some(Filter(IsSuggestionNode, ns)[0])
  {
    FilterPartition(IsSuggestionNode, ns);
    FindIsFirstOfFilter(IsSuggestionNode, ns);
  }

  /** The node to highlight: the source of the first "e-suggest-" edge, or
      null when there is none. */
  function HighlightTarget(es: seq<Edge>): (r: Option<string>)
    ensures r.None? <==> forall i :: 0 <= i < |es| ==> !(SuggestEdgePrefix <= es[i].id)
    ensures r.Some? ==> exists i :: 0 <= i < |es| && SuggestEdgePrefix <= es[i].id &&
                                    r.value == es[i].source &&
                                    forall k :: 0 <= k < i ==> !(SuggestEdgePrefix <= es[k].id)
  {
    match Find(IsSuggestEdge, es)
    case None => None
    case Some(e) => Some(e.source)
  }

  // ---------------------------------------------------------------------
  // New canvas nodes
  // ---------------------------------------------------------------------

  /** A response node as a canvas node. */
  function ToFlowNode(n: Node, highlight: Option<string>): FlowNode
  {
    FlowNode(n.id,
             if n.kind == "" then DefaultNodeType else n.kind,
             n.position,
             if highlight == Some(n.id) then HighlightClass else "",
             FlowNodeData(n.data.title, n.data.content, n.data.phase, n.data.category, false))
  }

  /** One canvas node per user node, in order; a node glows exactly when its
      id is the highlighted id. */
  function NewFlowNodes(userNodes: seq<Node>, highlight: Option<string>): (r: seq<FlowNode>)
    ensures |r| == |userNodes|
    ensures forall i :: 0 <= i < |r| ==>
      && r[i].id == userNodes[i].id
      && r[i].position == userNodes[i].position
      && r[i].kind != ""
      && (userNodes[i].kind != "" ==> r[i].kind == userNodes[i].kind)
      && (userNodes[i].kind == "" ==> r[i].kind == DefaultNodeType)
      && (r[i].className == HighlightClass <==> highlight == Some(userNodes[i].id))
      && r[i].data.title == userNodes[i].data.title
      && r[i].data.body == userNodes[i].data.content
      && r[i].data.phase == userNodes[i].data.phase
      && r[i].data.category == userNodes[i].data.category
      && !r[i].data.isAiSuggestion
  {
    seq(|userNodes|, i requires 0 <= i < |userNodes| => ToFlowNode(userNodes[i], highlight))
  }

  /** The nodes already on the canvas, given the highlight class when their
      id is in `hs`; nothing else about them changes, and a node that glowed
      keeps glowing. */
  function Rehighlight(prior: seq<FlowNode>, hs: set<string>): (r: seq<FlowNode>)
    ensures |r| == |prior|
    ensures forall i :: 0 <= i < |r| ==> r[i] == prior[i].(className := r[i].className)
    ensures forall i :: 0 <= i < |r| ==>
      (r[i].className == HighlightClass <==> prior[i].id in hs || prior[i].className == HighlightClass)
    ensures forall i :: 0 <= i < |r| && prior[i].id !in hs ==> r[i] == prior[i]
  {
    seq(|prior|, i requires 0 <= i < |prior| =>
      prior[i].(className := if prior[i].id in hs then HighlightClass else prior[i].className))
  }

  // ---------------------------------------------------------------------
  // New canvas edges
  // ---------------------------------------------------------------------

  /** The response edges that do not start with "e-suggest-", in order. */
  function KeptEdges(es: seq<Edge>): (r: seq<Edge>)
    ensures forall i :: 0 <= i < |r| ==> r[i] in es && !(SuggestEdgePrefix <= r[i].id)
    ensures forall i :: 0 <= i < |es| && !(SuggestEdgePrefix <= es[i].id) ==> es[i] in r
  {
    Filter(Not(IsSuggestEdge), es)
  }

  /** The edge filter decides edge by edge: it distributes over
      concatenation, drops a single "e-suggest-" edge and keeps any other. */
  lemma KeptEdgesPointwise(a: seq<Edge>, b: seq<Edge>, e: Edge)
    ensures KeptEdges(a + b) == KeptEdges(a) + KeptEdges(b)
    ensures KeptEdges([e]) == if SuggestEdgePrefix <= e.id then [] else [e]
  {
    FilterAppend(Not(IsSuggestEdge), a, b);
    assert [e][1..] == [];
  }

  /** A kept response edge as a canvas edge, before restyling: animated, in
      the default stroke. */
  function ToFlowEdge(e: Edge): FlowEdge
  {
    FlowEdge(e.id, e.source, e.target, e.relation, true, Plain)
  }

  /** The restyling of one canvas edge by its id prefix. */
  function Restyle(fe: FlowEdge): FlowEdge
  {
    if CrossEdgePrefix <= fe.id then fe.(style := Cross, animated := false)
    else if InputEdgePrefix <= fe.id then fe.(style := Input, animated := false)
    else fe
  }

  /** No id starts with two of the three prefixes. */
  lemma PrefixesExclusive(id: string)
    ensures !(CrossEdgePrefix <= id && InputEdgePrefix <= id)
    ensures !(CrossEdgePrefix <= id && SuggestEdgePrefix <= id)
    ensures !(InputEdgePrefix <= id && SuggestEdgePrefix <= id)
  {
    if CrossEdgePrefix <= id {
      assert id[2] == CrossEdgePrefix[2];
    }
    if InputEdgePrefix <= id {
      assert id[2] == InputEdgePrefix[2];
    }
  }

  /** The edges a response adds to the canvas: the kept edges, in order,
      with id, endpoints and label unchanged; "e-cross-" edges drawn as cross
      links and "e-input-" edges as input links, both still; every other edge
      animated in the default stroke. */
  function NewFlowEdges(es: seq<Edge>): (r: seq<FlowEdge>)
    ensures |r| == |KeptEdges(es)|
    ensures forall i :: 0 <= i < |r| ==>
      var e := KeptEdges(es)[i];
      && r[i].id == e.id && r[i].source == e.source && r[i].target == e.target
      && r[i].relation == e.relation
      && (r[i].style == Cross <==> CrossEdgePrefix <= e.id)
      && (r[i].style == Input <==> InputEdgePrefix <= e.id)
      && (r[i].animated <==> r[i].style == Plain)
  {
    var kept := KeptEdges(es);
    forall i | 0 <= i < |kept| {
      PrefixesExclusive(kept[i].id);
    }
    seq(|kept|, i requires 0 <= i < |kept| => Restyle(ToFlowEdge(kept[i])))
  }

  /** The restyling pass over the freshly built edges, rewriting each slot
      in place. */
  method RestyleEdges(a: array<FlowEdge>)
    modifies a
    ensures forall i :: 0 <= i < a.Length ==> a[i] == Restyle(old(a[i]))
  {
    var i := 0;
    while i < a.Length
      invariant 0 <= i <= a.Length
      invariant forall k :: 0 <= k < i ==> a[k] == Restyle(old(a[k]))
      invariant forall k :: i <= k < a.Length ==> a[k] == old(a[k])
    {
      var e := a[i];
      if CrossEdgePrefix <= e.id {
        a[i] := e.(style := Cross, animated := false);
      } else if InputEdgePrefix <= e.id {
        a[i] := e.(style := Input, animated := false);
      }
      i := i + 1;
    }
  }

  // ---------------------------------------------------------------------
  // Suggestion panel and highlighted set
  // ---------------------------------------------------------------------

  /** The panel entry made from the suggestion node. */
  function NewSuggestion(id: string, n: Node, related: Option<string>): Suggestion
  {
    Suggestion(id, n.data.title, n.data.content, n.data.category, n.data.phase, related)
  }

  /** The panel after a response: a suggestion node, when there is one, is
      put in front of the existing entries; otherwise nothing changes. */
  function SuggestionsAfterSubmit(ss: seq<Suggestion>, suggestion: Option<Node>, id: string,
                                  related: Option<string>): (r: seq<Suggestion>)
    ensures suggestion.None? ==> r == ss
    ensures suggestion.Some? ==> |r| == |ss| + 1 && r[1..] == ss
    ensures suggestion.Some? ==>
      && r[0].id == id && r[0].relatedNodeId == related
      && r[0].title == suggestion.value.data.title
      && r[0].content == suggestion.value.data.content
      && r[0].category == suggestion.value.data.category
      && r[0].phase == suggestion.value.data.phase
  {
    if suggestion.Some? then [NewSuggestion(id, suggestion.value, related)] + ss else ss
  }

  /** The highlighted set after a response: it only grows, and it gains the
      highlighted id exactly when there is a suggestion and the id is
      truthy. */
  function HighlightedAfterSubmit(hs: set<string>, suggestion: Option<Node>,
                                  related: Option<string>): (r: set<string>)
    ensures hs <= r
    ensures forall x :: x in r && x !in hs ==> suggestion.Some? && related == Some(x) && x != ""
    ensures suggestion.Some? && Truthy(related) ==> related.value in r
  {
    if suggestion.Some? && Truthy(related) then hs + {related.value} else hs
  }

  predicate HasId(id: string, s: Suggestion)
  {
    s.id == id
  }

  /** The predicate "this entry has id `id`", as a value. */
  function IdIs(id: string): Suggestion -> bool
  {
    s => HasId(id, s)
  }

  /** The panel after dismissing `id`: every entry with that id goes, every
      other entry stays. */
  function SuggestionsAfterDismiss(ss: seq<Suggestion>, id: string): (r: seq<Suggestion>)
    ensures forall i :: 0 <= i < |r| ==> r[i] in ss && r[i].id != id
    ensures forall i :: 0 <= i < |ss| && ss[i].id != id ==> ss[i] in r
  {
    Filter(Not(IdIs(id)), ss)
  }

  /** Dismissal decides entry by entry, so the remaining entries keep their
      order: it distributes over concatenation, drops a single entry with
      the id and keeps any other. */
  lemma DismissPointwise(a: seq<Suggestion>, b: seq<Suggestion>, s: Suggestion, id: string)
    ensures SuggestionsAfterDismiss(a + b, id) == SuggestionsAfterDismiss(a, id) + SuggestionsAfterDismiss(b, id)
    ensures SuggestionsAfterDismiss([s], id) == if s.id == id then [] else [s]
  {
    FilterAppend(Not(IdIs(id)), a, b);
    assert [s][1..] == [];
  }

  /** The highlighted set after dismissing `id`: the related node of the
      first entry with that id is removed; an unknown id, or an entry with
      no related node, leaves the set unchanged. */
  function HighlightedAfterDismiss(ss: seq<Suggestion>, hs: set<string>, id: string): (r: set<string>)
    ensures r <= hs
    ensures (forall i :: 0 <= i < |ss| ==> ss[i].id != id) ==> r == hs
    ensures forall x :: x in hs && x !in r ==>
      exists i :: 0 <= i < |ss| && ss[i].id == id && ss[i].relatedNodeId == Some(x) &&
                  forall k :: 0 <= k < i ==> ss[k].id != id
    ensures forall i :: 0 <= i < |ss| && ss[i].id == id && (forall k :: 0 <= k < i ==> ss[k].id != id) ==>
      (ss[i].relatedNodeId.Some? ==> ss[i].relatedNodeId.value !in r)
  {
    match Find(IdIs(id), ss)
    case None => hs
    case Some(dismissed) =>
      if dismissed.relatedNodeId.Some? then hs - {dismissed.relatedNodeId.value} else hs
  }

  /** Dismissing a suggestion right after it was added undoes the addition:
      the panel and the highlighted set are back to what they were, provided
      its id was fresh and its related node was not already highlighted. */
  lemma {:induction false} DismissUndoesSubmit(ss: seq<Suggestion>, hs: set<string>, n: Node,
                                               id: string, related: Option<string>)
    requires forall i :: 0 <= i < |ss| ==> ss[i].id != id
    requires related.Some? ==> related.value !in hs
    ensures var ss' := SuggestionsAfterSubmit(ss, Some(n), id, related);
      && SuggestionsAfterDismiss(ss', id) == ss
      && HighlightedAfterDismiss(ss', HighlightedAfterSubmit(hs, Some(n), related), id) == hs
  {
    var s := NewSuggestion(id, n, related);
    var ss' := SuggestionsAfterSubmit(ss, Some(n), id, related);
    assert ss' == [s] + ss;
    FilterAppend(Not(IdIs(id)), [s], ss);
    assert [s][1..] == [];
    FilterKeepsAll(Not(IdIs(id)), ss);
    assert Find(IdIs(id), ss') == Some(s);
  }

  /** Two entries about the same node: dismissing the first one clears the
      node's highlight although the second entry is still on the panel. */
  lemma SharedHighlightCleared(s1: Suggestion, s2: Suggestion, hs: set<string>, x: string)
    requires s1.id != s2.id
    requires s1.relatedNodeId == Some(x) && s2.relatedNodeId == Some(x)
    ensures SuggestionsAfterDismiss([s1, s2], s1.id) == [s2]
    ensures x !in HighlightedAfterDismiss([s1, s2], hs, s1.id)
  {
    DismissPointwise([s1], [s2], s1, s1.id);
    DismissPointwise([s1], [s2], s2, s1.id);
    assert [s1] + [s2] == [s1, s2];
  }

  // ---------------------------------------------------------------------
  // The canvas state
  // ---------------------------------------------------------------------

  /** The state of the canvas component. */
  class Canvas {
    var nodes: seq<FlowNode>
    var edges: seq<FlowEdge>
    var suggestions: seq<Suggestion>
    var highlighted: set<string>

    /** An empty canvas with an empty panel. */
    constructor ()
      ensures nodes == [] && edges == [] && suggestions == [] && highlighted == {}
    {
      nodes, edges, suggestions, highlighted := [], [], [], {};
    }

    /** Dismissing panel entry `id`: the highlighted set is copied and the
        related node of the entry is deleted from the copy, then the panel
        drops every entry with that id. The canvas itself is untouched. */
    method DismissSuggestion(id: string)
      modifies this
      ensures suggestions == SuggestionsAfterDismiss(old(suggestions), id)
      ensures highlighted == HighlightedAfterDismiss(old(suggestions), old(highlighted), id)
      ensures nodes == old(nodes) && edges == old(edges)
    {
      var dismissed := Find(IdIs(id), suggestions);
      if dismissed.Some? {
        var next := highlighted;
        if dismissed.value.relatedNodeId.Some? {
          next := next - {dismissed.value.relatedNodeId.value};
        }
        highlighted := next;
      }
      suggestions := SuggestionsAfterDismiss(suggestions, id);
    }

    /** Merging one analysis response; `None` is a failed request, which
        changes nothing. `suggestionId` is the time-based id of the new panel
        entry. `highlightedAtRequest` is the highlighted set the handler
        captured when the input was submitted, before awaiting the response;
        a dismissal that ran during the wait has changed `highlighted` but
        not this copy. Existing nodes are re-highlighted with that copy; new
        user nodes and kept edges are appended. */
    method SubmitResponse(response: Option<Graph>, suggestionId: string, highlightedAtRequest: set<string>)
      modifies this
      ensures response.None? ==> nodes == old(nodes) && edges == old(edges) &&
                                 suggestions == old(suggestions) && highlighted == old(highlighted)
      ensures response.Some? ==>
        var g := response.value;
        var related := HighlightTarget(g.edges);
        var suggestion := SuggestionNodeOf(g.nodes);
        && nodes == Rehighlight(old(nodes), highlightedAtRequest) + NewFlowNodes(UserNodes(g.nodes), related)
        && edges == old(edges) + NewFlowEdges(g.edges)
        && suggestions == SuggestionsAfterSubmit(old(suggestions), suggestion, suggestionId, related)
        && highlighted == HighlightedAfterSubmit(old(highlighted), suggestion, related)
    {
      if response.None? {
        return;
      }
      var data := response.value;
      var suggestionNode := Find(IsSuggestionNode, data.nodes);
      var userNodes := Filter(Not(IsSuggestionNode), data.nodes);
      var related := HighlightTarget(data.edges);
      var newNodes := NewFlowNodes(userNodes, related);

      if suggestionNode.Some? {
        suggestions := [NewSuggestion(suggestionId, suggestionNode.value, related)] + suggestions;
        if Truthy(related) {
          highlighted := highlighted + {related.value};
        }
      }

      var kept := KeptEdges(data.edges);
      var newEdges := new FlowEdge[|kept|](i requires 0 <= i < |kept| => ToFlowEdge(kept[i]));
      RestyleEdges(newEdges);
      assert newEdges[..] == NewFlowEdges(data.edges);

      nodes := Rehighlight(nodes, highlightedAtRequest) + newNodes;
      edges := edges + newEdges[..];
    }
  }

  // ---------------------------------------------------------------------
  // The backend's own responses on the canvas
  // ---------------------------------------------------------------------

  /** Characters of a lower-case uuid string. */
  const UuidChars := "0123456789abcdef-"

  predicate UuidText(s: string)
  {
    forall i :: 0 <= i < |s| ==> s[i] in UuidChars
  }

  /** An edge id the backend builds from two uuid ids starts with none of
      the three prefixes the canvas distinguishes. */
  lemma UuidEdgeIdUnprefixed(userId: string, suggestId: string)
    requires UuidText(userId) && UuidText(suggestId)
    ensures var id := Logic.EdgeId(userId, suggestId);
      !(SuggestEdgePrefix <= id) && !(CrossEdgePrefix <= id) && !(InputEdgePrefix <= id)
  {
    var id := Logic.EdgeId(userId, suggestId);
    var tail := userId + "-" + suggestId;
    assert id == "e-" + tail;
    assert UuidText(tail) by {
      forall i | 0 <= i < |tail| ensures tail[i] in UuidChars {
        if i < |userId| {
          assert tail[i] == userId[i];
        } else if i > |userId| {
          assert tail[i] == suggestId[i - |userId| - 1];
        }
      }
    }
    assert |tail| >= 1 && id[2] == tail[0];
    assert 's' !in UuidChars && 'i' !in UuidChars && 'r' !in UuidChars;
    assert |id| >= |CrossEdgePrefix| ==> id[3] == tail[1] && tail[1] in UuidChars;
  }

  /** A graph built by the backend from two uuid ids: its user node goes on
      the canvas unhighlighted, its suggestion goes to the panel with no
      related node, and its one edge is kept, animated in the default
      stroke, pointing at a node id that this response does not put on the
      canvas. */
  lemma BackendGraphOnCanvas(r: Logic.AIAnalysisResult, userId: string, suggestId: string,
                             ju: Logic.Jitter, js: Logic.Jitter)
    requires UuidText(userId) && UuidText(suggestId) && userId != suggestId
    ensures var g := Logic.IdeaGraph(r, userId, suggestId, ju, js);
      && UserNodes(g.nodes) == [g.nodes[0]]
      && SuggestionNodeOf(g.nodes) == Some(g.nodes[1])
      && HighlightTarget(g.edges) == None
      && NewFlowNodes(UserNodes(g.nodes), None)[0].className == ""
      && NewFlowEdges(g.edges) == [FlowEdge(g.edges[0].id, userId, suggestId, r.connectionLabel, true, Plain)]
      && forall n :: n in NewFlowNodes(UserNodes(g.nodes), None) ==> n.id != suggestId
  {
    var g := Logic.IdeaGraph(r, userId, suggestId, ju, js);
    UuidEdgeIdUnprefixed(userId, suggestId);
    var e := g.edges[0];
    assert g.edges == [e];
    assert !IsSuggestEdge(e);
    assert Filter(Not(IsSuggestEdge), g.edges) == [e] by {
      assert g.edges[1..] == [];
    }
    assert Find(IsSuggestEdge, g.edges) == None;
    assert Filter(Not(IsSuggestionNode), g.nodes) == [g.nodes[0]] by {
      assert g.nodes[1..] == [g.nodes[1]];
      assert g.nodes[1..][1..] == [];
    }
    var fe := NewFlowEdges(g.edges);
    assert |fe| == 1;
    assert Restyle(ToFlowEdge(e)) == ToFlowEdge(e);
  }
}
