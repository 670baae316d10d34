/** The study workflow graph: its five nodes, the entry point, the edges registered for each node,
    and a run of the graph, which applies each node's patch to the state and follows the route the
    node's edge function picks. The routing functions after the scheduler, the tutor and the
    analyzer are parameters: only their edge maps are known. */
module WorkflowGraph {
  import opened Wrappers
  import opened Strings
  import opened Messages
  import opened WorkflowState
  import WorkflowNodes

  datatype Node = IntentRouter | Tutor | Scheduler | Analyzer | Motivator

  /** Where an edge leads: a node, or the end of the run. */
  datatype Target = ToNode(node: Node) | End

  function NodeName(n: Node): string {
    match n
    case IntentRouter => "intent_router"
    case Tutor => "tutor"
    case Scheduler => "scheduler"
    case Analyzer => "analyzer"
    case Motivator => "motivator"
  }

  /** Every run starts at the intent router. */
  const Entry: Node := IntentRouter

  const EndLabel: string := "__end__"

  /** The labels each conditional edge may return and the targets they lead to. The motivator has
      a fixed edge to the end instead. */
  function EdgeMap(n: Node): map<string, Target> {
    match n
    case IntentRouter =>
      map["tutor" := ToNode(Tutor), "scheduler" := ToNode(Scheduler), "analyzer" := ToNode(Analyzer),
          "motivator" := ToNode(Motivator), EndLabel := End]
    case Scheduler => map["tutor" := ToNode(Tutor), "motivator" := ToNode(Motivator), EndLabel := End]
    case Tutor => map["analyzer" := ToNode(Analyzer), EndLabel := End]
    case Analyzer => map["scheduler" := ToNode(Scheduler), "motivator" := ToNode(Motivator), EndLabel := End]
    case Motivator => map[]
  }

  /** The targets a node may hand over to. */
  function Successors(n: Node): set<Target> {
    match n
    case IntentRouter => {ToNode(Tutor), ToNode(Scheduler), ToNode(Analyzer), ToNode(Motivator), End}
    case Scheduler => {ToNode(Tutor), ToNode(Motivator), End}
    case Tutor => {ToNode(Analyzer), End}
    case Analyzer => {ToNode(Scheduler), ToNode(Motivator), End}
    case Motivator => {End}
  }

  /** The edge maps lead exactly to the successors: every label to one of them, and each of them
      reached by some label (the motivator's fixed edge has none). */
  lemma EdgeMapReachesSuccessors(n: Node)
    ensures forall route :: route in EdgeMap(n) ==> EdgeMap(n)[route] in Successors(n)
    ensures n != Motivator ==>
              forall t :: t in Successors(n) ==> exists route :: route in EdgeMap(n) && EdgeMap(n)[route] == t
  {
    forall t | n != Motivator && t in Successors(n)
      ensures exists route :: route in EdgeMap(n) && EdgeMap(n)[route] == t
    {
      var route := if t.End? then EndLabel else NodeName(t.node);
      assert route in EdgeMap(n) && EdgeMap(n)[route] == t;
    }
  }

  const RouterTargets: set<string> := {"tutor", "scheduler", "analyzer", "motivator"}

  /** `route_after_intent`: the node the router named when it is one of the four handlers, and
      the end otherwise, including when no node is named. */
  function RouteAfterIntent(s: State): (route: string)
    ensures route in EdgeMap(IntentRouter)
    ensures s.nextAgent.Some? && s.nextAgent.value in RouterTargets ==> route == s.nextAgent.value
    ensures !(s.nextAgent.Some? && s.nextAgent.value in RouterTargets) ==> route == EndLabel
  {
    var next := if s.nextAgent.Some? && s.nextAgent.value != "" then s.nextAgent.value else EndLabel;
    if next in RouterTargets then next else EndLabel
  }

  /** The routing functions the graph registers after the scheduler, the tutor and the analyzer. */
  datatype Routes = Routes(afterScheduler: State -> string, afterTutor: State -> string,
                           afterAnalyzer: State -> string)

  const UnknownRouteText: string := "route returned a label without an edge"

  /** The target after node `n` has updated the state to `s`; a label with no edge is an error. */
  function Next(n: Node, s: State, routes: Routes): (r: Result<Target, string>)
    ensures r.Ok? ==> r.value in Successors(n)
    ensures n == Motivator ==> r == Ok(End)
    ensures n == IntentRouter ==> r == Ok(EdgeMap(IntentRouter)[RouteAfterIntent(s)])
  {
    EdgeMapReachesSuccessors(n);
    var route :=
      match n
      case IntentRouter => RouteAfterIntent(s)
      case Scheduler => routes.afterScheduler(s)
      case Tutor => routes.afterTutor(s)
      case Analyzer => routes.afterAnalyzer(s)
      case Motivator => EndLabel;
    if n == Motivator then Ok(End)
    else if route in EdgeMap(n) then Ok(EdgeMap(n)[route])
    else Err(UnknownRouteText)
  }

  /** Nothing leads back to the intent router: it runs once per run, first. */
  lemma NothingEntersRouter(n: Node)
    ensures ToNode(IntentRouter) !in Successors(n)
  {
  }

  /** The node a label of the router's patch names. */
  function NodeNamed(name: string): (n: Node)
    requires name in RouterTargets
    ensures NodeName(n) == name
  {
    match name
    case "tutor" => Tutor
    case "scheduler" => Scheduler
    case "analyzer" => Analyzer
    case _ => Motivator
  }

  /** After the router's patch, the graph goes to the node the router named. */
  lemma RouterPatchIsFollowed(s: State, routes: Routes)
    ensures var p := WorkflowNodes.RouterNode(s);
            Next(IntentRouter, Apply(s, p), routes) == Ok(ToNode(NodeNamed(p.nextAgent.value)))
  {
  }

  /** What the handler nodes do to a state: a patch, or what they raised. */
  datatype Handlers = Handlers(tutor: State -> Result<Patch, string>, scheduler: State -> Result<Patch, string>,
                               analyzer: State -> Result<Patch, string>, motivator: State -> Result<Patch, string>)

  function Handle(n: Node, s: State, handlers: Handlers): Result<Patch, string> {
    match n
    case IntentRouter => Ok(WorkflowNodes.RouterNode(s))
    case Tutor => handlers.tutor(s)
    case Scheduler => handlers.scheduler(s)
    case Analyzer => handlers.analyzer(s)
    case Motivator => handlers.motivator(s)
  }

  const StepLimitText: string := "step limit reached without reaching the end"

  /** A run from node `n`: the node's patch is merged into the state, then the route is followed,
      for at most `steps` nodes. A node or a route that raises ends the run with the error. */
  function Run(n: Node, s: State, handlers: Handlers, routes: Routes, steps: nat): Result<State, string>
    decreases steps
  {
    if steps == 0 then Err(StepLimitText)
    else
      var p :- Handle(n, s, handlers);
      var t := Apply(s, p);
      var next :- Next(n, t, routes);
      match next
      case End => Ok(t)
      case ToNode(m) => Run(m, t, handlers, routes, steps - 1)
  }

  /** The state `run_workflow` and `stream_workflow` both start from: the user's message alone,
      every flag false and every optional value absent. */
  function InitialState(userMessage: string, userId: string): (s: State)
    ensures s.messages == [HumanMessage(userMessage)] && s.userId == userId
    ensures NoFlags(s) && NoOptionals(s)
  {
    DefaultState([HumanMessage(userMessage)], userId)
  }

  /** A run only adds messages: the state's messages before it stay in front, in order. */
  lemma {:induction false} RunKeepsMessages(n: Node, s: State, handlers: Handlers, routes: Routes, steps: nat)
    ensures var r := Run(n, s, handlers, routes, steps);
            r.Ok? ==> |s.messages| <= |r.value.messages| && r.value.messages[..|s.messages|] == s.messages
    decreases steps
  {
    if steps > 0 {
      var p := Handle(n, s, handlers);
      if p.Ok? {
        var t := Apply(s, p.value);
        var next := Next(n, t, routes);
        assert t.messages[..|s.messages|] == s.messages;
        if next.Ok? && next.value.ToNode? {
          var r := Run(next.value.node, t, handlers, routes, steps - 1);
          assert Run(n, s, handlers, routes, steps) == r;
          RunKeepsMessages(next.value.node, t, handlers, routes, steps - 1);
          if r.Ok? {
            PrefixOfPrefix(s.messages, t.messages, r.value.messages);
          }
        }
      }
    }
  }

  /** A prefix of a prefix is a prefix. */
  lemma PrefixOfPrefix<T>(a: seq<T>, b: seq<T>, c: seq<T>)
    requires |a| <= |b| && b[..|a|] == a
    requires |b| <= |c| && c[..|b|] == b
    ensures c[..|a|] == a
  {
    assert c[..|a|] == c[..|b|][..|a|];
  }

  /** A motivator turn: a message the router sends to the motivator ends after the motivator,
      with the router's patch and then the motivator's merged into the state. */
  lemma MotivatorTurn(s: State, handlers: Handlers, routes: Routes, steps: nat)
    requires steps >= 2
    requires WorkflowNodes.RouterNode(s).nextAgent == Some("motivator")
    requires handlers.motivator(Apply(s, WorkflowNodes.RouterNode(s))).Ok?
    ensures var s1 := Apply(s, WorkflowNodes.RouterNode(s));
            Run(Entry, s, handlers, routes, steps) == Ok(Apply(s1, handlers.motivator(s1).value))
  {
    var s1 := Apply(s, WorkflowNodes.RouterNode(s));
    RouterPatchIsFollowed(s, routes);
    assert Next(IntentRouter, s1, routes) == Ok(ToNode(Motivator));
    assert Run(Motivator, s1, handlers, routes, steps - 1) == Ok(Apply(s1, handlers.motivator(s1).value));
  }
}
