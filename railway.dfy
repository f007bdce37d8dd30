/** The railway-standards research agent: the tool node that stores search
    hits by URL while accumulating one running summary text, the router, the
    keyword relevance score, and the report's excerpt builder that shares a
    50 000-character budget among the stored documents. */
module Railway {
  import opened Wrappers
  import opened Text
  import opened Messages
  import opened Documents
  import T = ToolNodes
  import G = Graph
  import opened RailwayReport

  // ---------------------------------------------------------------------
  // Tool node

  const Header: string := "Documentos encontrados sobre normativas ferroviarias:\n"

  /** What `docs_str` gains for a newly stored document. */
  function Line(d: Doc): string {
    var title := d.title.GetOr("Sin título");
    var content := if d.content.Some? then d.content.value else d.snippet.GetOr("Sin contenido disponible");
    "\nFuente: " + d.url.GetOr("") + "\nTítulo: " + title + "\nContenido: " + content + "\n"
  }

  /** What `process_tools` returns besides the dictionary it updated. */
  datatype ToolsDelta = ToolsDelta(messages: seq<Message>, researchCount: int)

  /** `process_tools`: the shared tool loop with this agent's header and
      document line; `Err` is the exception that ends the node (an unknown
      tool, a search that raises, a document without `url`). The delta
      passes `research_count` through (0 when absent). */
  method ProcessTools(store: Store, calls: seq<ToolCall>, outs: seq<Result<seq<Doc>>>, researchCount: Option<int>)
    returns (r: Result<ToolsDelta>)
    requires |calls| == |outs| && store.Valid()
    modifies store
    ensures store.Valid()
    ensures var p := T.Processed(old(store.entries), calls, outs, Header, Line);
      && store.entries == p.entries
      && (p.raised.None? ==> r == Ok(ToolsDelta(p.msgs, researchCount.GetOr(0))))
      && (p.raised.Some? ==> r == Err(p.raised.value))
  {
    var msgs := T.RunCalls(store, calls, outs, Header, Line);
    match msgs {
      case Ok(ms) => r := Ok(ToolsDelta(ms, researchCount.GetOr(0)));
      case Err(e) => r := Err(e);
    }
  }

  // ---------------------------------------------------------------------
  // Routing and graph

  /** `should_continue`: the tools whenever the last message has tool calls,
      the report otherwise. The research counter is read but both of its
      branches give the report. */
  function ShouldContinue(messages: seq<Message>, researchCount: Option<int>): (r: string)
    requires |messages| > 0
    ensures r == "tools" || r == "report"
    ensures r == "tools" <==> HasToolCalls(messages[|messages| - 1])
  {
    if HasToolCalls(messages[|messages| - 1]) then "tools"
    else if researchCount.GetOr(0) >= 3 then "report"
    else "report"
  }

  const Workflow: G.Graph := G.Graph(
    "analyze",
    {"analyze", "tools", "generate_report"},
    {("tools", "analyze"), ("generate_report", G.END)},
    map["analyze" := G.Mapped(map["tools" := "tools", "report" := "generate_report"])])

  /** From `analyze` the router leads to the tools exactly when the last
      message has tool calls and to the report otherwise, whatever the
      counter; the tools lead back to `analyze`, and only the report ends
      the run. */
  lemma WorkflowRoutes(messages: seq<Message>, researchCount: Option<int>)
    requires |messages| > 0
    ensures HasToolCalls(messages[|messages| - 1]) ==>
      G.Next(Workflow, "analyze", ShouldContinue(messages, researchCount)) == {"tools"}
    ensures !HasToolCalls(messages[|messages| - 1]) ==>
      G.Next(Workflow, "analyze", ShouldContinue(messages, researchCount)) == {"generate_report"}
    ensures G.Next(Workflow, "tools", "") == {"analyze"}
    ensures forall n :: n in Workflow.nodes && n != "generate_report" ==>
      G.END !in G.Next(Workflow, n, ShouldContinue(messages, researchCount))
    ensures G.Next(Workflow, "generate_report", "") == {G.END}
  {
    assert G.Fixed(Workflow, "analyze") == {};
    assert G.Fixed(Workflow, "tools") == {"analyze"};
    assert G.Fixed(Workflow, "generate_report") == {G.END};
  }

  // ---------------------------------------------------------------------
  // Relevance

  /** The keywords of `evaluate_relevance`, each compared lower-cased. */
  const Keywords: seq<string> := [
    "railway", "ferroviario", "UIC", "EN", "ISO", "normativa",
    "regulación", "estándar", "seguridad", "certificación",
    "directiva", "reglamento", "técnico", "especificación"]

  /** `(doc.get('content', '') or doc.get('snippet', '')).lower()`. */
  function ScoredContent(d: Doc): string {
    Lower(if d.content.Some? && d.content.value != [] then d.content.value else d.snippet.GetOr(""))
  }

  /** `doc.get('title', '').lower()`. */
  function ScoredTitle(d: Doc): string {
    Lower(d.title.GetOr(""))
  }

  predicate Hit(kw: string, content: string, title: string) {
    Contains(content, Lower(kw)) || Contains(title, Lower(kw))
  }

  /** The number of keywords found in the content or the title. */
  function Hits(kws: seq<string>, content: string, title: string): (n: nat)
    ensures n <= |kws|
  {
    if |kws| == 0 then 0
    else Hits(kws[..|kws| - 1], content, title) + (if Hit(kws[|kws| - 1], content, title) then 1 else 0)
  }

  /** `evaluate_relevance`: the excerpt length a document earns. */
  function Relevance(d: Doc): (r: int)
    ensures r == 500 || r == 1000 || r == 2000
  {
    var n := Hits(Keywords, ScoredContent(d), ScoredTitle(d));
    if n >= 4 then 2000 else if n >= 2 then 1000 else 500
  }

  /** Finding more keywords never lowers the count. */
  lemma {:induction false} HitsMonotone(kws: seq<string>, c1: string, t1: string, c2: string, t2: string)
    requires forall k :: 0 <= k < |kws| && Hit(kws[k], c1, t1) ==> Hit(kws[k], c2, t2)
    ensures Hits(kws, c1, t1) <= Hits(kws, c2, t2)
    decreases |kws|
  {
    if |kws| > 0 {
      var n := |kws| - 1;
      assert forall k :: 0 <= k < n ==> kws[..n][k] == kws[k];
      HitsMonotone(kws[..n], c1, t1, c2, t2);
    }
  }

  /** A document whose texts contain every keyword another's do is at least
      as relevant. */
  lemma RelevanceMonotone(d1: Doc, d2: Doc)
    requires forall kw :: kw in Keywords && Hit(kw, ScoredContent(d1), ScoredTitle(d1)) ==>
      Hit(kw, ScoredContent(d2), ScoredTitle(d2))
    ensures Relevance(d1) <= Relevance(d2)
  {
    HitsMonotone(Keywords, ScoredContent(d1), ScoredTitle(d1), ScoredContent(d2), ScoredTitle(d2));
  }

  /** Every keyword found gives the top score: all fourteen cannot be found
      without earning 2000, and none found gives 500. */
  lemma {:induction false} HitsAll(kws: seq<string>, content: string, title: string)
    ensures (forall k :: 0 <= k < |kws| ==> Hit(kws[k], content, title)) ==> Hits(kws, content, title) == |kws|
    ensures (forall k :: 0 <= k < |kws| ==> !Hit(kws[k], content, title)) ==> Hits(kws, content, title) == 0
    decreases |kws|
  {
    if |kws| > 0 {
      var n := |kws| - 1;
      assert forall k :: 0 <= k < n ==> kws[..n][k] == kws[k];
      HitsAll(kws[..n], content, title);
    }
  }

  // ---------------------------------------------------------------------
  // Report

  /** `evaluate_relevance` as a function value, so that the excerpt loop
      can be stated for any positive score. */
  function RelevanceFn(): (f: Doc -> int)
    ensures forall d :: f(d) == Relevance(d)
  {
    d => Relevance(d)
  }

  /** The documents the report prompt lists, in the order it lists them. */
  function ReportDocuments(es: seq<Entry>): (r: seq<Summary>)
    ensures forall i, j :: 0 <= i < j < |r| ==> r[i].relevanceScore >= r[j].relevanceScore
    ensures multiset(r) == multiset(Summarize(Sources(es, RelevanceFn()), 0, 0))
  {
    var srcs := Sources(es, RelevanceFn());
    var s := Summarize(srcs, 0, 0);
    assert ScoresValid(s) by {
      forall x | x in s
        ensures x.relevanceScore in {500, 1000, 2000}
      {
        var k :| 0 <= k < |s| && s[k] == x;
        SummarizeAt(srcs, 0, 0, k);
        assert srcs[k].score == Relevance(es[k].doc);
      }
    }
    ByRelevanceSorted(s);
    ByRelevancePermutation(s);
    ByRelevance(s)
  }

  /** The documents `generate_report` puts in its prompt: the excerpts
      built in insertion order, then sorted by score. */
  method ReportPrompt(es: seq<Entry>) returns (docs: seq<Summary>)
    ensures docs == ReportDocuments(es)
  {
    var summary := BuildSummary(es, RelevanceFn());
    docs := ByRelevance(summary);
  }
}
