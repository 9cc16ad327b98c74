/** The backend's graph synthesis: where a node goes on the canvas, and the
    two nodes and one edge built from one classified idea.

    The random jitter and the fresh uuids of the backend are parameters here,
    so every function is deterministic. */
module Logic {
  import opened Seqs
  import opened Models

  // ---------------------------------------------------------------------
  // Layout configuration
  // ---------------------------------------------------------------------

  /** Horizontal zone of Problem nodes. */
  const ProblemXRange: (int, int) := (0, 400)
  /** Horizontal zone of Solution nodes. */
  const SolutionXRange: (int, int) := (600, 1000)

  /** Fixed vertical row of each category, keyed by its literal name. */
  const CategoryYMap: map<string, int> :=
    map["Why" := 0, "Who" := 150, "What" := 300, "How" := 450, "When" := 600, "Where" := 750]
  /** Row used for a name missing from `CategoryYMap`. */
  const DefaultY := 300

  /** Bounds of the uniform integer jitter: x in [-50, 50], y in [-10, 10]. */
  const MaxJitterX := 50
  const MaxJitterY := 10

  /** How far the suggestion moves (in x and in y) when it would share the
      user node's band and row. */
  const OverlapShift := 50

  /** Distance between two consecutive category rows. */
  const RowSpacing := 150

  // ---------------------------------------------------------------------
  // calculate_position
  // ---------------------------------------------------------------------

  /** One draw of the two jitter values. */
  datatype Jitter = Jitter(dx: int, dy: int)

  /** What the random source can return: both bounds are inclusive. */
  predicate ValidJitter(j: Jitter)
  {
    -MaxJitterX <= j.dx <= MaxJitterX && -MaxJitterY <= j.dy <= MaxJitterY
  }

  /** The zone of a phase: Problem selects the Problem zone, anything else
      the Solution zone. */
  function XRange(phase: Phase): (int, int)
  {
    if phase == Problem then ProblemXRange else SolutionXRange
  }

  /** Centre of a phase's zone. The zone ends have an even sum, so halving
      is exact and the source's float midpoint is a whole number. */
  function MidX(phase: Phase): (m: int)
    ensures 2 * m == XRange(phase).0 + XRange(phase).1
    ensures XRange(phase).0 < m < XRange(phase).1
  {
    (XRange(phase).0 + XRange(phase).1) / 2
  }

  /** `CATEGORY_Y_MAP.get(name, 300)`. */
  function BaseY(name: string): int
  {
    if name in CategoryYMap then CategoryYMap[name] else DefaultY
  }

  /** Position of the category rows from top to bottom. */
  function Rank(c: Category): nat
  {
    match c
    case Why => 0
    case Who => 1
    case What => 2
    case How => 3
    case When => 4
    case Where => 5
  }

  /** The category whose row is nearest to `y`, within half a row spacing,
      or None when `y` is beyond the first or last row. */
  function RowOf(y: int): Option<Category>
  {
    if y < -RowSpacing / 2 then None
    else if y < RowSpacing / 2 then Some(Why)
    else if y < RowSpacing + RowSpacing / 2 then Some(Who)
    else if y < 2 * RowSpacing + RowSpacing / 2 then Some(What)
    else if y < 3 * RowSpacing + RowSpacing / 2 then Some(How)
    else if y < 4 * RowSpacing + RowSpacing / 2 then Some(When)
    else if y < 5 * RowSpacing + RowSpacing / 2 then Some(Where)
    else None
  }

  /** The phase whose zone holds `x`, if any. */
  function PhaseAt(x: int): Option<Phase>
  {
    if ProblemXRange.0 <= x <= ProblemXRange.1 then Some(Problem)
    else if SolutionXRange.0 <= x <= SolutionXRange.1 then Some(Solution)
    else None
  }

  /** `calculate_position`: the centre of the phase's zone and the category's
      row, moved by the jitter. Whatever the jitter draws, the point stays in
      its phase's zone and nearest to its own category's row. */
  function CalculatePosition(phase: Phase, category: Category, j: Jitter): (p: Position)
    ensures ValidJitter(j) ==> PhaseAt(p.x) == Some(phase)
    ensures ValidJitter(j) ==> RowOf(p.y) == Some(category)
  {
    Position(MidX(phase) + j.dx, BaseY(CategoryName(category)) + j.dy)
  }

  /** Every category has an entry in `CATEGORY_Y_MAP`, and the rows are
      150 apart in the order Why, Who, What, How, When, Where. */
  lemma RowsEvenlySpaced(c: Category)
    ensures CategoryName(c) in CategoryYMap
    ensures BaseY(CategoryName(c)) == RowSpacing * Rank(c)
  {
  }

  /** A name outside the map falls back to row 300. */
  lemma UnknownCategoryRow(name: string)
    requires name !in CategoryYMap
    ensures BaseY(name) == DefaultY
  {
  }

  /** Problem nodes land in x in [150, 250], Solution nodes in [750, 850];
      y is the category's row moved by at most 10. */
  lemma PositionBounds(phase: Phase, category: Category, j: Jitter)
    requires ValidJitter(j)
    ensures var p := CalculatePosition(phase, category, j);
      && (phase == Problem ==> 150 <= p.x <= 250)
      && (phase == Solution ==> 750 <= p.x <= 850)
      && BaseY(CategoryName(category)) - MaxJitterY <= p.y <= BaseY(CategoryName(category)) + MaxJitterY
  {
  }

  /** Every Problem node is strictly left of every Solution node. */
  lemma BandsDisjoint(c1: Category, j1: Jitter, c2: Category, j2: Jitter)
    requires ValidJitter(j1) && ValidJitter(j2)
    ensures CalculatePosition(Problem, c1, j1).x < CalculatePosition(Solution, c2, j2).x
  {
  }

  /** Jitter never moves a node into another row: a category above another
      always yields a strictly smaller y, whatever the phases and jitters. */
  lemma RowsKeepOrder(p1: Phase, c1: Category, j1: Jitter, p2: Phase, c2: Category, j2: Jitter)
    requires ValidJitter(j1) && ValidJitter(j2)
    requires Rank(c1) < Rank(c2)
    ensures CalculatePosition(p1, c1, j1).y < CalculatePosition(p2, c2, j2).y
  {
  }

  /** Without jitter the position is the base point: the zone's centre and
      the category's row; distinct (phase, category) pairs get distinct base
      points. */
  lemma BasePointsDistinct(p1: Phase, c1: Category, p2: Phase, c2: Category)
    requires p1 != p2 || c1 != c2
    ensures CalculatePosition(p1, c1, Jitter(0, 0)) != CalculatePosition(p2, c2, Jitter(0, 0))
    ensures CalculatePosition(p1, c1, Jitter(0, 0)).x == MidX(p1)
    ensures CalculatePosition(p1, c1, Jitter(0, 0)).y == RowSpacing * Rank(c1)
  {
  }

  // ---------------------------------------------------------------------
  // process_idea (after the classifier call)
  // ---------------------------------------------------------------------

  /** The classifier's structured answer about one input. */
  datatype AIAnalysisResult = AIAnalysisResult(
    userLabel: string,
    userContent: string,
    userCategory: Category,
    userPhase: Phase,
    suggestionLabel: string,
    suggestionContent: string,
    suggestionCategory: Category,
    suggestionPhase: Phase,
    connectionLabel: string)

  /** The user node and the suggestion share band and row. */
  predicate SharesSlot(r: AIAnalysisResult)
  {
    r.userPhase == r.suggestionPhase && r.userCategory == r.suggestionCategory
  }

  /** Node type every backend node carries. */
  const DefaultNodeType := "default"

  /** Id of the edge from the user node to the suggestion. */
  function EdgeId(userId: string, suggestId: string): string
  {
    "e-" + userId + "-" + suggestId
  }

  /** The user's node: the record's user fields, marked as not AI generated. */
  function UserNode(r: AIAnalysisResult, userId: string, ju: Jitter): Node
  {
    Node(userId, DefaultNodeType,
         NodeData(r.userLabel, r.userContent, r.userCategory, r.userPhase, false),
         CalculatePosition(r.userPhase, r.userCategory, ju))
  }

  /** Where the suggestion goes: its own position, moved by the overlap
      shift in both directions when it shares the user node's slot. */
  function SuggestionPosition(r: AIAnalysisResult, js: Jitter): Position
  {
    var p := CalculatePosition(r.suggestionPhase, r.suggestionCategory, js);
    if SharesSlot(r) then Position(p.x + OverlapShift, p.y + OverlapShift) else p
  }

  /** The suggestion's node: the record's suggestion fields, marked as AI
      generated. */
  function SuggestionNode(r: AIAnalysisResult, suggestId: string, js: Jitter): Node
  {
    Node(suggestId, DefaultNodeType,
         NodeData(r.suggestionLabel, r.suggestionContent, r.suggestionCategory, r.suggestionPhase, true),
         SuggestionPosition(r, js))
  }

  /** The graph `process_idea` returns for a classifier record, two fresh ids
      and two jitter draws. */
  function IdeaGraph(r: AIAnalysisResult, userId: string, suggestId: string, ju: Jitter, js: Jitter): Graph
  {
    Graph([UserNode(r, userId, ju), SuggestionNode(r, suggestId, js)],
          [Edge(EdgeId(userId, suggestId), userId, suggestId, r.connectionLabel)])
  }

  /** `process_idea` from the classifier's answer on: builds the user node,
      then the suggestion position, which it moves in place when the two
      share a slot, then the suggestion node and the edge. */
  method ProcessIdea(r: AIAnalysisResult, userId: string, suggestId: string, ju: Jitter, js: Jitter)
    returns (g: Graph)
    ensures g == IdeaGraph(r, userId, suggestId, ju, js)
    ensures |g.nodes| == 2 && |g.edges| == 1
  {
    var userPos := CalculatePosition(r.userPhase, r.userCategory, ju);
    var userNode := Node(userId, DefaultNodeType,
                         NodeData(r.userLabel, r.userContent, r.userCategory, r.userPhase, false),
                         userPos);
    var suggestPos := CalculatePosition(r.suggestionPhase, r.suggestionCategory, js);
    if r.userPhase == r.suggestionPhase && r.userCategory == r.suggestionCategory {
      suggestPos := suggestPos.(x := suggestPos.x + OverlapShift);
      suggestPos := suggestPos.(y := suggestPos.y + OverlapShift);
    }
    var suggestNode := Node(suggestId, DefaultNodeType,
                            NodeData(r.suggestionLabel, r.suggestionContent, r.suggestionCategory,
                                     r.suggestionPhase, true),
                            suggestPos);
    var edge := Edge("e-" + userId + "-" + suggestId, userId, suggestId, r.connectionLabel);
    g := Graph([userNode, suggestNode], [edge]);
  }

  /** Exactly two nodes, user first and suggestion second, each carrying its
      own part of the record and its origin flag. */
  lemma IdeaGraphNodes(r: AIAnalysisResult, userId: string, suggestId: string, ju: Jitter, js: Jitter)
    ensures var g := IdeaGraph(r, userId, suggestId, ju, js);
      && |g.nodes| == 2
      && g.nodes[0].id == userId && g.nodes[1].id == suggestId
      && g.nodes[0].kind == DefaultNodeType && g.nodes[1].kind == DefaultNodeType
      && g.nodes[0].data == NodeData(r.userLabel, r.userContent, r.userCategory, r.userPhase, false)
      && g.nodes[1].data == NodeData(r.suggestionLabel, r.suggestionContent, r.suggestionCategory, r.suggestionPhase, true)
  {
  }

  /** Exactly one edge, from the user node to the suggestion, named after
      both ids and labelled with the classifier's relation. */
  lemma IdeaGraphEdge(r: AIAnalysisResult, userId: string, suggestId: string, ju: Jitter, js: Jitter)
    ensures var g := IdeaGraph(r, userId, suggestId, ju, js);
      && |g.edges| == 1
      && g.edges[0].source == g.nodes[0].id
      && g.edges[0].target == g.nodes[1].id
      && g.edges[0].id == "e-" + userId + "-" + suggestId
      && g.edges[0].relation == r.connectionLabel
  {
  }

  /** The user node sits at its computed position; the suggestion at its own
      computed position, moved by (+50, +50) exactly when both nodes have the
      same phase and category. */
  lemma SuggestionOffset(r: AIAnalysisResult, userId: string, suggestId: string, ju: Jitter, js: Jitter)
    ensures var g := IdeaGraph(r, userId, suggestId, ju, js);
      var p := CalculatePosition(r.suggestionPhase, r.suggestionCategory, js);
      && g.nodes[0].position == CalculatePosition(r.userPhase, r.userCategory, ju)
      && g.nodes[1].position.x - p.x == (if SharesSlot(r) then OverlapShift else 0)
      && g.nodes[1].position.y - p.y == (if SharesSlot(r) then OverlapShift else 0)
  {
  }

  /** Two fresh ids give two distinct nodes and an edge that is not a loop. */
  lemma IdeaGraphIdsDistinct(r: AIAnalysisResult, userId: string, suggestId: string, ju: Jitter, js: Jitter)
    requires userId != suggestId
    ensures var g := IdeaGraph(r, userId, suggestId, ju, js);
      && g.nodes[0].id != g.nodes[1].id
      && g.edges[0].source != g.edges[0].target
      && forall e :: e in g.edges ==> exists m, n :: m in g.nodes && n in g.nodes &&
                                        e.source == m.id && e.target == n.id
  {
  }

  /** Both nodes stay in their phase's zone and nearest to their own
      category's row, the moved suggestion included. */
  lemma IdeaGraphInZones(r: AIAnalysisResult, userId: string, suggestId: string, ju: Jitter, js: Jitter)
    requires ValidJitter(ju) && ValidJitter(js)
    ensures var g := IdeaGraph(r, userId, suggestId, ju, js);
      forall n :: n in g.nodes ==> PhaseAt(n.position.x) == Some(n.data.phase) &&
                                   RowOf(n.position.y) == Some(n.data.category)
  {
  }

  /** Whatever the jitter draws, the suggestion never lands on the user
      node: when they share a slot the shift keeps them 30 apart vertically,
      otherwise their zones or rows differ. */
  lemma NodesNeverCoincide(r: AIAnalysisResult, userId: string, suggestId: string, ju: Jitter, js: Jitter)
    requires ValidJitter(ju) && ValidJitter(js)
    ensures var g := IdeaGraph(r, userId, suggestId, ju, js);
      g.nodes[0].position != g.nodes[1].position
  {
  }
}
