/** The weekly company-research agent: a tool node that stores search hits
    by URL and reports every new document as JSON, a router between the
    tools and the end of the run, and the report delta. */
module ResearchAgent {
  import opened Wrappers
  import opened Messages
  import opened Documents
  import T = ToolNodes
  import G = Graph

  const Header: string := "Found the following new documents: "

  /** `json.dumps(doc)`. */
  function AsJson(d: Doc): string {
    d.json
  }

  /** What `tool_node` returns besides the dictionary it updated. */
  datatype ToolsDelta = ToolsDelta(messages: seq<Message>, researchCount: int)

  /** `tool_node`: the shared tool loop with this agent's header, each new
      document described by its JSON; `Err` is the exception that ends the
      node (an unknown tool, a search that raises, a document without
      `url`). `research_count` is passed through unchanged (0 when absent). */
  method ToolNode(store: Store, calls: seq<ToolCall>, outs: seq<Result<seq<Doc>>>, researchCount: Option<int>)
    returns (r: Result<ToolsDelta>)
    requires |calls| == |outs| && store.Valid()
    modifies store
    ensures store.Valid()
    ensures var p := T.Processed(old(store.entries), calls, outs, Header, AsJson);
      && store.entries == p.entries
      && (p.raised.None? ==> r == Ok(ToolsDelta(p.msgs, researchCount.GetOr(0))))
      && (p.raised.Some? ==> r == Err(p.raised.value))
  {
    var msgs := T.RunCalls(store, calls, outs, Header, AsJson);
    match msgs {
      case Ok(ms) => r := Ok(ToolsDelta(ms, researchCount.GetOr(0)));
      case Err(e) => r := Err(e);
    }
  }

  /** `should_continue`: the tools when the last message has tool calls,
      otherwise "research", which the path map sends to the end. The
      counter test has the same answer on both sides. */
  function ShouldContinue(messages: seq<Message>, researchCount: Option<int>): (r: string)
    requires |messages| > 0
    ensures r == "tools" || r == "research"
    ensures r == "tools" <==> HasToolCalls(messages[|messages| - 1])
  {
    if HasToolCalls(messages[|messages| - 1]) then "tools"
    else if researchCount.GetOr(0) >= 3 then "research"
    else "research"
  }

  const Workflow: G.Graph := G.Graph(
    "research",
    {"research", "tools"},
    {("tools", "research"), ("research", G.END)},
    map["research" := G.Mapped(map["tools" := "tools", "research" := G.END])])

  /** Without tool calls the run ends after research. With tool calls the
      tools run, but the fixed edge from research to the end is taken as
      well. The tools always lead back to research. */
  lemma WorkflowRoutes(messages: seq<Message>, researchCount: Option<int>)
    requires |messages| > 0
    ensures HasToolCalls(messages[|messages| - 1]) ==>
      G.Next(Workflow, "research", ShouldContinue(messages, researchCount)) == {"tools", G.END}
    ensures !HasToolCalls(messages[|messages| - 1]) ==>
      G.Next(Workflow, "research", ShouldContinue(messages, researchCount)) == {G.END}
    ensures G.Next(Workflow, "tools", "") == {"research"}
  {
    assert G.Fixed(Workflow, "research") == {G.END};
    assert G.Fixed(Workflow, "tools") == {"research"};
  }

  /** The delta of `write_report`. */
  datatype ReportDelta = ReportDelta(messages: seq<Message>, report: string, researchCount: int)

  const ReportPrefix: string := "Generated Report:\n"

  /** `write_report`, given the structured answer the model returned: the
      report is the answer, and the one new message shows it after a fixed
      title. */
  function WriteReport(answer: string, researchCount: Option<int>): (d: ReportDelta)
    ensures d.report == answer
    ensures |d.messages| == 1 && d.messages[0].AIMessage? && d.messages[0].toolCalls == []
    ensures |d.messages[0].content| == |ReportPrefix| + |d.report|
    ensures d.messages[0].content[..|ReportPrefix|] == ReportPrefix
    ensures d.messages[0].content[|ReportPrefix|..] == d.report
    ensures d.researchCount == researchCount.GetOr(0)
  {
    ReportDelta([AIMessage(ReportPrefix + answer, [])], answer, researchCount.GetOr(0))
  }
}
