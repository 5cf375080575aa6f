/** The graph-facing parts of client/app.py: the chat node, the lazily built
    graph, and `run_model`. The compiled graph is a type parameter `G`;
    building it and running it are parameters, since the graph library's
    routing is not part of this model. */
module ChatGraph {
  import opened Wrappers
  import opened Messages
  import opened History

  /** The instruction the chat node puts before the conversation. */
  const SystemPrompt: string := "You are a helpful assistant. Use tools when necessary."

  /** What the chat node sent to the LLM and the state update it returned
      (a `Failure` when the LLM request raised). */
  datatype NodeRun = NodeRun(llmInput: seq<Message>, delta: Result<seq<Message>, string>)

  /** `chat_node`: the LLM sees the system message and then the state's
      messages unchanged; the node's update is the response alone. */
  function ChatNode(llm: Llm, state: seq<Message>): (n: NodeRun)
    ensures |n.llmInput| == |state| + 1
    ensures n.llmInput[0] == SystemMessage(SystemPrompt) && n.llmInput[1..] == state
    ensures n.delta.Success? <==> llm(n.llmInput).Success?
    ensures n.delta.Success? ==> n.delta.value == [llm(n.llmInput).value]
    ensures n.delta.Failure? ==> n.delta.error == llm(n.llmInput).error
  {
    var input := [SystemMessage(SystemPrompt)] + state;
    match llm(input)
    case Failure(reason) => NodeRun(input, Failure(reason))
    case Success(response) => NodeRun(input, Success([response]))
  }

  /** The module-level `_graph` and how many times `build_graph` has run. */
  datatype Cache<G> = Cache(graph: Option<G>, builds: nat)

  /** The cache after a `get_graph` call and what the call returned. */
  datatype Fetch<G> = Fetch(cache: Cache<G>, graph: Result<G, string>)

  /** `get_graph`: build only while nothing is cached. `built` is what
      `build_graph` would return, or the message of what it would raise; a
      raised build leaves the cache empty. */
  function GetGraph<G>(c: Cache<G>, built: Result<G, string>): (f: Fetch<G>)
    ensures c.graph.Some? ==> f == Fetch(c, Success(c.graph.value))
    ensures c.graph.None? ==> f.cache.builds == c.builds + 1 && f.graph == built
    ensures f.graph.Success? ==> f.cache.graph == Some(f.graph.value)
    ensures f.graph.Failure? ==> f.cache.graph.None?
  {
    match c.graph
    case Some(g) => Fetch(c, Success(g))
    case None =>
      match built
      case Success(g) => Fetch(Cache(Some(g), c.builds + 1), Success(g))
      case Failure(reason) => Fetch(Cache(None, c.builds + 1), Failure(reason))
  }

  /** The cache after several `get_graph` calls and each call's answer, in order. */
  datatype Fetches<G> = Fetches(cache: Cache<G>, answers: seq<Result<G, string>>)

  /** Successive `get_graph` calls; `attempts[i]` is what a build would give
      at the i-th call. */
  function GetGraphRepeatedly<G>(c: Cache<G>, attempts: seq<Result<G, string>>): (r: Fetches<G>)
    ensures |r.answers| == |attempts|
    decreases |attempts|
  {
    if attempts == [] then Fetches(c, [])
    else
      var first := GetGraph(c, attempts[0]);
      var rest := GetGraphRepeatedly(first.cache, attempts[1..]);
      Fetches(rest.cache, [first.graph] + rest.answers)
  }

  /** Once a graph is cached, no further call builds: the cache stays as it is
      and every call returns the cached graph. */
  lemma {:induction false} CachedGraphIsReused<G>(c: Cache<G>, attempts: seq<Result<G, string>>)
    requires c.graph.Some?
    ensures GetGraphRepeatedly(c, attempts).cache == c
    ensures forall i :: 0 <= i < |attempts| ==> GetGraphRepeatedly(c, attempts).answers[i] == Success(c.graph.value)
    decreases |attempts|
  {
    if attempts != [] {
      CachedGraphIsReused(c, attempts[1..]);
    }
  }

  /** From an empty cache, the graph is built at most once successfully:
      every call up to and including the first successful build runs
      `build_graph`, no later call does, and every call that returns a graph
      returns that first one. */
  lemma {:induction false} GraphBuiltAtMostOnce<G>(c: Cache<G>, attempts: seq<Result<G, string>>, k: nat)
    requires c.graph.None?
    requires k < |attempts| && attempts[k].Success?
    requires forall i :: 0 <= i < k ==> attempts[i].Failure?
    ensures GetGraphRepeatedly(c, attempts).cache == Cache(Some(attempts[k].value), c.builds + k + 1)
    ensures forall i :: 0 <= i < k ==> GetGraphRepeatedly(c, attempts).answers[i] == attempts[i]
    ensures forall i :: k <= i < |attempts| ==> GetGraphRepeatedly(c, attempts).answers[i] == Success(attempts[k].value)
    decreases |attempts|
  {
    var first := GetGraph(c, attempts[0]);
    if k == 0 {
      CachedGraphIsReused(first.cache, attempts[1..]);
    } else {
      GraphBuiltAtMostOnce(first.cache, attempts[1..], k - 1);
    }
  }

  /** Why `run_model` in client/app.py ends without text. */
  datatype AppError =
    | BuildFailed(reason: string)        // `build_graph` raised
    | BadEntry(err: ConvertError)        // a history entry lacked a key
    | GraphFailed(reason: string)        // running the graph raised
    | NoMessages                         // `result["messages"][-1]` on an empty list

  /** The cache after `run_model` and its answer. */
  datatype AppRun<G> = AppRun(cache: Cache<G>, answer: Result<string, AppError>)

  /** `run_model` in client/app.py: fetch the graph, convert the history,
      run the graph on it and answer with the content of the last message of
      the final state. `runGraph` stands for `graph.ainvoke`. */
  function AppRunModel<G>(c: Cache<G>, built: Result<G, string>,
                          runGraph: (G, seq<Message>) -> Result<seq<Message>, string>,
                          entries: seq<Entry>): (r: AppRun<G>)
    ensures r.cache == GetGraph(c, built).cache
    ensures r.answer.Success? ==>
              && GetGraph(c, built).graph.Success?
              && ConvertHistory(entries).Success?
              && var final := runGraph(GetGraph(c, built).graph.value, ConvertHistory(entries).value);
              && final.Success? && final.value != []
              && r.answer.value == final.value[|final.value| - 1].content
    ensures GetGraph(c, built).graph.Failure? ==> r.answer == Failure(BuildFailed(GetGraph(c, built).graph.error))
    ensures GetGraph(c, built).graph.Success? && ConvertHistory(entries).Failure? ==>
              r.answer == Failure(BadEntry(ConvertHistory(entries).error))
    ensures GetGraph(c, built).graph.Success? && ConvertHistory(entries).Success? ==>
              var final := runGraph(GetGraph(c, built).graph.value, ConvertHistory(entries).value);
              r.answer == (if final.Failure? then Failure(GraphFailed(final.error))
                           else if final.value == [] then Failure(NoMessages)
                           else Success(final.value[|final.value| - 1].content))
  {
    var fetched := GetGraph(c, built);
    match fetched.graph
    case Failure(reason) => AppRun(fetched.cache, Failure(BuildFailed(reason)))
    case Success(graph) =>
      match ConvertHistory(entries)
      case Failure(err) => AppRun(fetched.cache, Failure(BadEntry(err)))
      case Success(lcMessages) =>
        match runGraph(graph, lcMessages)
        case Failure(reason) => AppRun(fetched.cache, Failure(GraphFailed(reason)))
        case Success(final) =>
          if final == [] then AppRun(fetched.cache, Failure(NoMessages))
          else AppRun(fetched.cache, Success(final[|final| - 1].content))
  }
}
