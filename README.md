# Visual Thinking Machine: graph synthesis and canvas merge, in Dafny

This project models the two deterministic parts of the Visual Thinking
Machine. Both turn a classified idea into canvas state.

- **Backend node/edge synthesis** (`backend/logic.py`). `calculate_position`
  places a node. The phase picks a horizontal zone: Problem is x 0–400 and
  Solution is x 600–1000. The node goes to the zone's centre plus a jitter in
  [-50, 50]. The category picks a fixed row: Why 0, Who 150, What 300,
  How 450, When 600, Where 750. Any other name gets row 300. The node goes to
  that row plus a jitter in [-10, 10]. The tail of `process_idea` takes the
  classifier's `AIAnalysisResult`. It builds a user node and an AI suggestion
  node. When the two share phase and category, it moves the suggestion by
  (+50, +50). It then joins the two with one labelled edge.
- **Canvas merge** (`components/ThinkingMachine.jsx`). `handleInputSubmit`
  merges an analysis response into the canvas:
  - It splits the response nodes into user nodes and the first AI-generated
    node.
  - It takes the source of the first `e-suggest-` edge as the node to
    highlight.
  - It drops the `e-suggest-` edges.
  - It draws `e-cross-` and `e-input-` edges still, in their own stroke. All
    other edges stay animated.
  - It appends the new nodes and edges after the existing ones.
  - It puts the suggestion at the front of the suggestion panel.

  `handleDismissSuggestion` removes a panel entry and un-highlights its
  related node.

Modules:

- `Seqs` (seqs.dfy) holds `Option` and the sequence operations the merge is
  built from. `Filter` and `Find` have the meaning of JavaScript's
  `Array.prototype.filter` and `find`. Lemmas state that filtering works
  element by element, that filtering by a predicate and by its negation
  partitions a sequence, and that `Find` returns the head of `Filter`.
- `Models` (models.dfy) holds the literal `Category` and `Phase` enumerations
  and the node/edge records.
- `Logic` (logic.dfy, modelling backend/logic.py): `CalculatePosition` and the layout lemmas. `IdeaGraph`
  is the graph `process_idea` returns, stated as a value. `ProcessIdea` builds
  the same graph step by step, moving the suggestion position in place.
- `ThinkingMachine` (thinking_machine.dfy, modelling
  components/ThinkingMachine.jsx): pure functions for each part of the
  merge, the restyling loop `RestyleEdges` over an array, and a `Canvas`
  class. The class holds the component's state as fields: nodes, edges,
  suggestions and the highlighted id set. `SubmitResponse` and
  `DismissSuggestion` are its methods.

The random jitter, the uuids and the time-based suggestion id are parameters.
Every coordinate the backend produces is a whole number: the zone centres are
200 and 800 and the jitter is an integer. Coordinates are therefore `int`.
`MidX` proves that halving the zone ends is exact.

Behaviour of the code that the model keeps on purpose:

- Existing canvas nodes get `node-highlighted` if their id is in the
  highlighted set the handler captured when the input was submitted
  (ThinkingMachine.jsx:168 reads the value captured at render time, before
  the `await` at line 63). `SubmitResponse` takes that set as a parameter.
  A suggestion dismissed while the request is pending still has its related
  node highlighted by the merge. A prior node named by this response's
  `e-suggest-` edge does not glow until the next response.
- Nothing ever removes the `node-highlighted` class from a canvas node.
  Dismissing a suggestion only changes the id set (`Rehighlight`).
- The highlighted set gains an id only when the id is truthy, so `""` is
  never added (line 136). New nodes compare ids directly (line 79).
- Dismissing one of two entries about the same node clears that node's
  highlight, although the other entry stays (`SharedHighlightCleared`).
- The backend ids are uuids: lower-case hex digits and `-`. So the one edge
  `process_idea` returns starts with none of the three prefixes the canvas
  tests (`BackendGraphOnCanvas`). As a result:
  - nothing is highlighted;
  - the panel entry has no related node;
  - the edge is kept, but it points at the suggestion node, and that node goes
    to the panel instead of the canvas.

The only collision handling is the fixed (+50, +50) shift of the
suggestion. `backend/logic.py` builds a `NodeData(label, content, category,
phase, is_ai_generated)` that `backend/models.py` does not define. The model
uses the shape `logic.py` builds. Dafny reserves `label`, so that field is
`title` in a node and `relation` in an edge.

## Model

| member | source | states |
|---|---|---|
| `Logic.MidX` | backend/logic.py:45-48 | the zone centre is exactly half the sum of the zone ends and lies strictly inside the zone |
| `Logic.CalculatePosition` | backend/logic.py:44-57 | for any jitter within the random bounds, x lies in the phase's zone (0–400 for Problem, 600–1000 otherwise) and y is nearest to the category's own row |
| `Logic.RowsEvenlySpaced` | backend/logic.py:20-27 | every category has an entry in the row map, and the rows are 150 apart in the order Why, Who, What, How, When, Where |
| `Logic.UnknownCategoryRow` | backend/logic.py:51 | a name missing from the row map falls back to row 300 |
| `Logic.PositionBounds` | backend/logic.py:45-52 | Problem x in [150, 250], Solution x in [750, 850], y within 10 of the category's row |
| `Logic.BandsDisjoint` | backend/logic.py:16-17 | every Problem node is strictly left of every Solution node, for all jitters |
| `Logic.RowsKeepOrder` | backend/logic.py:20-27 | a category above another always gets a strictly smaller y, whatever the phases and jitters: jitter never crosses rows |
| `Logic.BasePointsDistinct` | backend/logic.py:44-57 | with zero jitter the position is the zone centre and the category row, and distinct (phase, category) pairs get distinct points |
| `Logic.ProcessIdea` | backend/logic.py:85-137 | building the nodes step by step, with the in-place shift of the suggestion position, yields the graph `IdeaGraph`: two nodes and one edge |
| `Logic.IdeaGraphNodes` | backend/logic.py:86-124 | exactly two nodes, user first with `is_ai_generated` false and suggestion second with it true, each with its own label, content, category and phase from the record and type "default" |
| `Logic.IdeaGraphEdge` | backend/logic.py:126-136 | exactly one edge, from the user node to the suggestion, with id "e-" + userId + "-" + suggestId and the record's connection label |
| `Logic.SuggestionOffset` | backend/logic.py:105-111 | the user node sits at its computed position; the suggestion sits at its computed position moved by (+50, +50) exactly when phase and category both match, and unmoved otherwise |
| `Logic.IdeaGraphIdsDistinct` | backend/logic.py:86-103 | two distinct fresh ids give distinct node ids, an edge that is not a loop, and edge endpoints that are node ids |
| `Logic.IdeaGraphInZones` | backend/logic.py:106-111 | both nodes, the shifted suggestion included, stay inside their phase's zone and nearest to their own category's row |
| `Logic.NodesNeverCoincide` | backend/logic.py:108-111 | for all jitters the suggestion never lands on the user node's position |
| `ThinkingMachine.UserNodes` | components/ThinkingMachine.jsx:68 | the user nodes are exactly the response nodes that are not AI generated |
| `ThinkingMachine.UserNodesPointwise` | components/ThinkingMachine.jsx:68 | the user-node filter distributes over concatenation and decides each node alone, so the user nodes keep their response order |
| `ThinkingMachine.SuggestionNodeOf` | components/ThinkingMachine.jsx:67 | the suggestion is the first AI-generated response node, and absent exactly when there is none |
| `ThinkingMachine.NodeSplit` | components/ThinkingMachine.jsx:67-68 | the user nodes and the AI nodes together are the response nodes (same multiset, same count), and the suggestion is the first AI node |
| `ThinkingMachine.HighlightTarget` | components/ThinkingMachine.jsx:71-72 | the highlighted id is the source of the first edge whose id starts with "e-suggest-", and null exactly when no edge does |
| `ThinkingMachine.NewFlowNodes` | components/ThinkingMachine.jsx:75-103 | one canvas node per user node, in order, with id and position unchanged; its title is the label and its body the content; its type is the node's type, or "default" when that is empty; it is never an AI suggestion; its class is 'node-highlighted' if and only if its id is the highlighted id |
| `ThinkingMachine.Rehighlight` | components/ThinkingMachine.jsx:164-169 | prior nodes keep their order and everything but the class; the class is 'node-highlighted' if and only if the id was in the highlighted set or the node already glowed |
| `ThinkingMachine.KeptEdges` | components/ThinkingMachine.jsx:142-143 | the kept edges are exactly the response edges whose id does not start with "e-suggest-" |
| `ThinkingMachine.KeptEdgesPointwise` | components/ThinkingMachine.jsx:142-143 | the edge filter distributes over concatenation and decides each edge alone, so the kept edges keep their order |
| `ThinkingMachine.PrefixesExclusive` | components/ThinkingMachine.jsx:154-161 | no id starts with two of "e-suggest-", "e-cross-" and "e-input-" |
| `ThinkingMachine.NewFlowEdges` | components/ThinkingMachine.jsx:142-162 | one canvas edge per kept edge, in order, with id, source, target and label unchanged; cross style if and only if the id starts with "e-cross-", input style if and only if it starts with "e-input-"; animated if and only if neither |
| `ThinkingMachine.RestyleEdges` | components/ThinkingMachine.jsx:154-162 | the in-place loop leaves every array slot restyled by its id prefix |
| `ThinkingMachine.SuggestionsAfterSubmit` | components/ThinkingMachine.jsx:126-135 | with a suggestion node, a new entry with the given id, the node's fields and the highlighted id as related node is put in front of the unchanged old entries; without one the panel is unchanged |
| `ThinkingMachine.HighlightedAfterSubmit` | components/ThinkingMachine.jsx:126-138 | the set only grows, and it gains the highlighted id exactly when a suggestion exists and the id is truthy |
| `ThinkingMachine.SuggestionsAfterDismiss` | components/ThinkingMachine.jsx:42 | every entry with the dismissed id is removed and every other entry is kept |
| `ThinkingMachine.DismissPointwise` | components/ThinkingMachine.jsx:42 | dismissal distributes over concatenation and decides each entry alone, so the remaining entries keep their order |
| `ThinkingMachine.HighlightedAfterDismiss` | components/ThinkingMachine.jsx:34-41 | the set only shrinks; it loses only the related node of the first entry with the id, and does lose it; an unknown id leaves it unchanged |
| `ThinkingMachine.DismissUndoesSubmit` | components/ThinkingMachine.jsx:32-44 | dismissing a suggestion right after it was added (fresh id, related node not yet highlighted) restores both the panel and the highlighted set |
| `ThinkingMachine.SharedHighlightCleared` | components/ThinkingMachine.jsx:34-42 | of two entries about the same node, dismissing one clears the node's highlight although the other stays |
| `ThinkingMachine.Canvas.constructor` | components/ThinkingMachine.jsx:14-25 | the canvas starts with no nodes, no edges, no suggestions and no highlighted ids |
| `ThinkingMachine.Canvas.DismissSuggestion` | components/ThinkingMachine.jsx:32-44 | the panel and highlighted set become their dismissed forms; nodes and edges are unchanged |
| `ThinkingMachine.Canvas.SubmitResponse` | components/ThinkingMachine.jsx:66-179 | a failed request changes nothing; otherwise the nodes become the rehighlighted prior nodes followed by the new user nodes, the edges the prior edges followed by the new edges, and the panel and set their submitted forms; prior nodes are re-highlighted with the set captured when the input was submitted, which a dismissal during the wait does not change |
| `ThinkingMachine.UuidEdgeIdUnprefixed` | backend/logic.py:127-132 | an edge id built from two uuid ids starts with none of "e-suggest-", "e-cross-", "e-input-" |
| `ThinkingMachine.BackendGraphOnCanvas` | components/ThinkingMachine.jsx:66-172 | for a graph `process_idea` builds from uuid ids, the canvas receives only the user node, unhighlighted; the panel gets the suggestion; the one edge is kept, animated in the default stroke, and targets a node id the response does not put on the canvas |

## Left out

- The classifier call and its system prompt (backend/logic.py:59-83). The model starts from its `AIAnalysisResult` record.
- Loading `.env` files and the OpenAI client constructor (backend/logic.py:10-12, 40-42). These are configuration and a foreign call.
- `random.randint` and `uuid.uuid4`. The model takes the jitter draws and the ids as parameters. Uuid freshness is a precondition (`userId != suggestId`).
- Float coordinates. Every value the backend computes is a whole number, so the model uses `int`.
- backend/main.py (HTTP routing and CORS) and test_backend.py (a smoke test without assertions).
- The request payload built from the current nodes (ThinkingMachine.jsx:50-61), the HTTP post, `alert` and `console.error`. A failed request is modelled only as "nothing is merged".
- The `isAnalyzing` busy flag and `onConnect` (edges the user draws by hand). These are UI state outside the merge.
- JSX label rendering (ThinkingMachine.jsx:105-123), node style objects and stroke colours. Edges keep only their style class (default, cross, input), and every edge has the type `smoothstep`.
- `Date.now()` for the panel entry id. It is a parameter.
- React's asynchronous state setters. One handler's updates are applied in program order. The closure-captured highlighted set is modelled explicitly.
- Missing JSON fields (an `undefined` type or class name). The model handles only the empty string for the `||` fallbacks.
- `RestyleEdges`: the source mutates the edge objects in place. The model rewrites array slots of edge values, so object aliasing is not modelled.
- The other components (ChatDialog, SuggestionPanel, InputPanel, NodeMap) and the older ThinkingMachine.tsx. These are rendering code, or an earlier copy of the same merge.
