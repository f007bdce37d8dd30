/** The company-research agent that pauses for a human review of its
    sources: the router, the graph, a tool node that answers every call
    (falling back to an error message), the review that keeps all or only
    the selected sources, and the source lists of the report prompt. */
module ResearchInterrupt {
  import opened Wrappers
  import opened Text
  import opened Messages
  import opened Documents
  import T = ToolNodes
  import G = Graph

  // ---------------------------------------------------------------------
  // Routing and graph

  /** `should_continue`: the tools when the last message has tool calls;
      otherwise the review while `awaiting_review` is true or absent;
      otherwise the report. The last test always holds once the review is
      not awaited, so the counter never matters and "research" is never
      returned. */
  function ShouldContinue(messages: seq<Message>, awaitingReview: Option<bool>, researchCount: Option<int>): (r: string)
    requires |messages| > 0
    ensures r == "tools" || r == "human_review" || r == "generate_report"
    ensures r == "tools" <==> HasToolCalls(messages[|messages| - 1])
    ensures r == "human_review" <==> !HasToolCalls(messages[|messages| - 1]) && awaitingReview.GetOr(true)
    ensures r == "generate_report" <==> !HasToolCalls(messages[|messages| - 1]) && !awaitingReview.GetOr(true)
  {
    if HasToolCalls(messages[|messages| - 1]) then "tools"
    else if awaitingReview.GetOr(true) then "human_review"
    else if !awaitingReview.GetOr(true) || researchCount.GetOr(0) >= 3 then "generate_report"
    else "research"
  }

  const Routes: map<string, string> :=
    map["tools" := "tools", "human_review" := "human_review", "generate_report" := "generate_report"]

  const Workflow: G.Graph := G.Graph(
    "research",
    {"research", "tools", "human_review", "generate_report"},
    {("tools", "research"), ("human_review", "generate_report"), ("generate_report", G.END)},
    map["research" := G.Mapped(Routes)])

  /** Research is the entry and its path map covers exactly the router's
      answers; the tools lead back to research, the review to the report,
      and only the report reaches the end. */
  lemma WorkflowRoutes(messages: seq<Message>, awaitingReview: Option<bool>, researchCount: Option<int>)
    requires |messages| > 0
    ensures Workflow.entry == "research"
    ensures Routes.Keys == {"tools", "human_review", "generate_report"}
    ensures var route := ShouldContinue(messages, awaitingReview, researchCount);
      route in Routes && G.Next(Workflow, "research", route) == {route}
    ensures G.Next(Workflow, "tools", "") == {"research"}
    ensures G.Next(Workflow, "human_review", "") == {"generate_report"}
    ensures forall n, route :: n in Workflow.nodes && n != "generate_report" ==> G.END !in G.Next(Workflow, n, route)
    ensures G.Next(Workflow, "generate_report", "") == {G.END}
  {
    assert G.Fixed(Workflow, "research") == {};
    assert G.Fixed(Workflow, "tools") == {"research"};
    assert G.Fixed(Workflow, "human_review") == {"generate_report"};
    assert G.Fixed(Workflow, "generate_report") == {G.END};
  }

  // ---------------------------------------------------------------------
  // Tool node

  const ErrorText: string := "Error al procesar la búsqueda."
  const NoResults: string := "No se encontraron resultados relevantes."

  /** What `docs_str` gains for a newly stored document. */
  function Line(d: Doc): string {
    var title := d.title.GetOr("Sin título");
    var content := if d.content.Some? then d.content.value else d.snippet.GetOr("Sin contenido");
    "\nFuente: " + d.url.GetOr("") + "\nTítulo: " + title + "\nContenido: " + content + "\n"
  }

  datatype CallResult = CallResult(entries: seq<Entry>, content: string)

  /** One call inside the `try`: the dictionary afterwards and the content
      of its tool message. `out` is the parsed search result, or `Err` when
      the arguments, the tool or the JSON parse raised. Documents stored
      before a `KeyError('url')` stay stored; the message is the error
      text. `docs_str` starts empty for every call. */
  function Call(es: seq<Entry>, c: ToolCall, out: Result<seq<Doc>>): (r: CallResult)
    ensures UniqueUrls(es) ==> UniqueUrls(r.entries)
    ensures es <= r.entries
    ensures r.content != []
  {
    if c.name != T.SearchTool || out.Err? then CallResult(es, ErrorText)
    else
      var a := T.Absorbed(es, out.value, Line);
      if a.raised.Some? then CallResult(a.entries, ErrorText)
      else CallResult(a.entries, if a.text == [] then NoResults else a.text)
  }

  /** A search whose documents are all stored already is answered with the
      no-results text and changes nothing. */
  lemma CallNothingNew(es: seq<Entry>, c: ToolCall, docs: seq<Doc>)
    requires c.name == T.SearchTool
    requires forall d :: d in docs ==> d.url.Some? && d.url.value in Urls(es)
    ensures Call(es, c, Ok(docs)) == CallResult(es, NoResults)
  {
    T.AbsorbedNothingNew(es, docs, Line);
  }

  /** A search that stores something is answered with the lines of exactly
      the documents it stored, in order. */
  lemma CallStores(es: seq<Entry>, c: ToolCall, docs: seq<Doc>)
    requires c.name == T.SearchTool
    requires forall d :: d in docs ==> d.url.Some?
    requires Merged(es, docs).added != []
    ensures Call(es, c, Ok(docs)).entries == Merged(es, docs).entries
    ensures Call(es, c, Ok(docs)).content == T.Describe(Merged(es, docs).added, Line)
  {
    T.AbsorbedMerges(es, docs, Line);
    var added := Merged(es, docs).added;
    DescribeNonEmpty(added);
  }

  lemma DescribeNonEmpty(ds: seq<Doc>)
    requires ds != []
    ensures T.Describe(ds, Line) != []
  {
    assert |Line(ds[|ds| - 1])| > 0;
  }

  datatype Progress = Progress(entries: seq<Entry>, msgs: seq<Message>)

  /** Reference definition of the loop over the calls: every call is
      answered, in order, with that call's id. */
  function Processed(es: seq<Entry>, calls: seq<ToolCall>, outs: seq<Result<seq<Doc>>>): (r: Progress)
    requires |calls| == |outs|
    ensures UniqueUrls(es) ==> UniqueUrls(r.entries)
    ensures es <= r.entries
    ensures AnswersCalls(r.msgs, calls)
  {
    if |calls| == 0 then Progress(es, [])
    else
      var n := |calls| - 1;
      var p := Processed(es, calls[..n], outs[..n]);
      var c := Call(p.entries, calls[n], outs[n]);
      assert forall k :: 0 <= k < n ==> calls[..n][k] == calls[k];
      Progress(c.entries, p.msgs + [ToolMessage(c.content, calls[n].id)])
  }

  /** A document stored before the node keeps its entry. */
  lemma KeepsStored(es: seq<Entry>, calls: seq<ToolCall>, outs: seq<Result<seq<Doc>>>, u: string)
    requires |calls| == |outs| && u in Urls(es)
    ensures Lookup(Processed(es, calls, outs).entries, u) == Lookup(es, u)
  {
    LookupExtended(es, Processed(es, calls, outs).entries, u);
  }

  /** The delta of `tool_node`; a key the delta leaves out is `None`. */
  datatype ToolDelta = ToolDelta(messages: seq<Message>, researchCount: Option<int>, awaitingReview: bool, researchComplete: bool)

  /** One call on the shared dictionary; the text is its tool message. */
  method RunCall(store: Store, c: ToolCall, out: Result<seq<Doc>>) returns (content: string)
    requires store.Valid()
    modifies store
    ensures store.Valid()
    ensures Call(old(store.entries), c, out) == CallResult(store.entries, content)
  {
    content := ErrorText;
    if c.name == T.SearchTool && out.Ok? {
      var text, raised := T.Absorb(store, out.value, Line);
      if raised.None? {
        content := if text == [] then NoResults else text;
      }
    }
  }

  /** `tool_node`. A last message without a `tool_calls` attribute (one
      that is not an AI message) gets an empty delta with both flags false;
      otherwise every call is answered, the counter goes up by one however
      many calls there were, and the review is awaited. */
  method ToolNode(store: Store, last: Message, outs: seq<Result<seq<Doc>>>, researchCount: Option<int>)
    returns (d: ToolDelta)
    requires store.Valid()
    requires last.AIMessage? ==> |outs| == |last.toolCalls|
    modifies store
    ensures store.Valid()
    ensures !last.AIMessage? ==> d == ToolDelta([], None, false, false) && store.entries == old(store.entries)
    ensures last.AIMessage? ==>
      var p := Processed(old(store.entries), last.toolCalls, outs);
      && store.entries == p.entries
      && d == ToolDelta(p.msgs, Some(researchCount.GetOr(0) + 1), true, false)
  {
    if !last.AIMessage? {
      return ToolDelta([], None, false, false);
    }
    var calls := last.toolCalls;
    ghost var es := store.entries;
    var msgs: seq<Message> := [];
    var i := 0;
    while i < |calls|
      invariant 0 <= i <= |calls|
      invariant store.Valid()
      invariant Processed(es, calls[..i], outs[..i]) == Progress(store.entries, msgs)
    {
      assert calls[..i + 1][..i] == calls[..i];
      assert outs[..i + 1][..i] == outs[..i];
      var c := calls[i];
      var content := RunCall(store, c, outs[i]);
      msgs := msgs + [ToolMessage(content, c.id)];
      i := i + 1;
    }
    assert calls[..i] == calls && outs[..i] == outs;
    d := ToolDelta(msgs, Some(researchCount.GetOr(0) + 1), true, false);
  }

  // ---------------------------------------------------------------------
  // Human review

  const ApprovedOnly: string := "Generate report using only the approved sources."

  /** Every part with its surrounding whitespace removed. */
  function StripAll(parts: seq<string>): (r: seq<string>)
    ensures |r| == |parts|
    ensures forall k :: 0 <= k < |parts| ==> r[k] == Strip(parts[k])
  {
    seq(|parts|, k requires 0 <= k < |parts| => Strip(parts[k]))
  }

  /** `[url.strip() for url in selection.strip().split(',')]`: never
      empty, since splitting an empty line gives one empty part. */
  function Selection(selection: string): (r: seq<string>)
    ensures |r| >= 1
  {
    StripAll(Split(Strip(selection), ","))
  }

  /** `{url: doc for url, doc in docs.items() if url in selected}`. */
  function KeepSelected(es: seq<Entry>, selected: seq<string>): (r: seq<Entry>)
    ensures |r| <= |es|
    ensures forall e :: e in r <==> e in es && e.url in selected
  {
    if |es| == 0 then []
    else
      var init := es[..|es| - 1];
      var last := es[|es| - 1];
      assert es == init + [last];
      if last.url in selected then KeepSelected(init, selected) + [last]
      else KeepSelected(init, selected)
  }

  /** The kept dictionary still has one entry per URL. */
  lemma {:induction false} KeepSelectedUnique(es: seq<Entry>, selected: seq<string>)
    requires UniqueUrls(es)
    ensures UniqueUrls(KeepSelected(es, selected))
    decreases |es|
  {
    if |es| > 0 {
      var init := es[..|es| - 1];
      var last := es[|es| - 1];
      assert UniqueUrls(init) by {
        forall i, j | 0 <= i < j < |init| ensures init[i].url != init[j].url {
          assert init[i] == es[i] && init[j] == es[j];
        }
      }
      KeepSelectedUnique(init, selected);
      var r := KeepSelected(init, selected);
      if last.url in selected {
        forall i | 0 <= i < |r| ensures r[i].url != last.url {
          assert r[i] in init;
          var k :| 0 <= k < |init| && init[k] == r[i];
          assert init[k] == es[k];
        }
        assert KeepSelected(es, selected) == r + [last];
      }
    }
  }

  /** Filtering two runs of entries one after the other is filtering each
      run: the kept entries of an earlier run all come before those of a
      later one. */
  lemma {:induction false} KeepSelectedAppend(a: seq<Entry>, b: seq<Entry>, selected: seq<string>)
    ensures KeepSelected(a + b, selected) == KeepSelected(a, selected) + KeepSelected(b, selected)
    decreases |b|
  {
    if |b| == 0 {
      assert a + b == a;
    } else {
      var init := b[..|b| - 1];
      var last := b[|b| - 1];
      assert b == init + [last];
      assert a + b == (a + init) + [last];
      assert (a + b)[..|a + b| - 1] == a + init;
      KeepSelectedAppend(a, init, selected);
    }
  }

  /** A selected entry splits the filter in two around itself. */
  lemma KeepSelectedAround(es: seq<Entry>, selected: seq<string>, j: int)
    requires 0 <= j < |es| && es[j].url in selected
    ensures KeepSelected(es, selected)
      == KeepSelected(es[..j], selected) + [es[j]] + KeepSelected(es[j + 1..], selected)
  {
    var one := [es[j]];
    assert es == (es[..j] + one) + es[j + 1..];
    KeepSelectedAppend(es[..j] + one, es[j + 1..], selected);
    KeepSelectedAppend(es[..j], one, selected);
    assert KeepSelected(one, selected) == one by {
      assert one[..0] == [];
    }
  }

  /** The comprehension keeps the dictionary's order: of two selected
      entries, the earlier one is kept at an earlier position. */
  lemma KeepSelectedInOrder(es: seq<Entry>, selected: seq<string>, i: int, j: int)
    requires 0 <= i < j < |es|
    requires es[i].url in selected && es[j].url in selected
    ensures var r := KeepSelected(es, selected);
      exists p, q :: 0 <= p < q < |r| && r[p] == es[i] && r[q] == es[j]
  {
    var front := es[..j];
    var kf := KeepSelected(front, selected);
    KeepSelectedAround(es, selected, j);
    assert front[i] == es[i];
    assert es[i] in kf;
    var p :| 0 <= p < |kf| && kf[p] == es[i];
    var r := KeepSelected(es, selected);
    assert r[p] == es[i] && r[|kf|] == es[j];
  }

  /** Keeping every stored URL keeps the dictionary as it is: answering
      'n' and listing all sources is the same as answering 's'. */
  lemma {:induction false} KeepAllSelected(es: seq<Entry>, selected: seq<string>)
    requires forall k :: 0 <= k < |es| ==> es[k].url in selected
    ensures KeepSelected(es, selected) == es
    decreases |es|
  {
    if |es| > 0 {
      var init := es[..|es| - 1];
      assert forall k :: 0 <= k < |init| ==> init[k] == es[k];
      KeepAllSelected(init, selected);
      assert es[|es| - 1].url in selected;
      assert KeepSelected(es, selected) == KeepSelected(init, selected) + [es[|es| - 1]];
      assert init + [es[|es| - 1]] == es;
    }
  }

  /** The update and target of the review's `Command`. */
  datatype ReviewDelta = ReviewDelta(
    goto: string,
    documents: seq<Entry>,
    awaitingReview: bool,
    researchComplete: bool,
    messages: seq<Message>)

  /** `human_review_sources`, given the two lines the user typed: 's' keeps
      every source and 'n' keeps the selected ones. Any other answer is
      asked again, which is `None` here. */
  function HumanReview(es: seq<Entry>, response: string, selection: string): (r: Option<ReviewDelta>)
    ensures r.Some? <==> Lower(Strip(response)) == "s" || Lower(Strip(response)) == "n"
    ensures r.Some? ==>
      && r.value.goto == "generate_report"
      && !r.value.awaitingReview && r.value.researchComplete
      && r.value.messages == [SystemMessage(ApprovedOnly)]
    ensures Lower(Strip(response)) == "s" ==> r.value.documents == es
    ensures Lower(Strip(response)) == "n" ==> forall e :: e in r.value.documents <==> e in es && e.url in Selection(selection)
    ensures Lower(Strip(response)) == "n" ==> r.value.documents == KeepSelected(es, Selection(selection))
  {
    var answer := Lower(Strip(response));
    if answer == "s" then
      Some(ReviewDelta("generate_report", es, false, true, [SystemMessage(ApprovedOnly)]))
    else if answer == "n" then
      Some(ReviewDelta("generate_report", KeepSelected(es, Selection(selection)), false, true, [SystemMessage(ApprovedOnly)]))
    else None
  }

  // ---------------------------------------------------------------------
  // Report

  const Dashes: string := "--------------------------------------------------"
  const UrlsHeader: string := "\nFuentes consultadas:\n"

  /** One source of `sources_text`. */
  function SourceBlock(e: Entry): string {
    var title := e.doc.title.GetOr("Sin título");
    var content := if e.doc.content.Some? then e.doc.content.value else e.doc.snippet.GetOr("Sin contenido");
    "\nURL: " + e.url + "\n" + "Título: " + title + "\n" + "Contenido: " + content + "\n" + Dashes + "\n"
  }

  /** One line of `urls_text`. */
  function Bullet(url: string): (r: string)
    ensures |r| == |url| + 3
  {
    "- " + url + "\n"
  }

  function Sources(es: seq<Entry>): string {
    if |es| == 0 then [] else Sources(es[..|es| - 1]) + SourceBlock(es[|es| - 1])
  }

  function Bullets(es: seq<Entry>): string {
    if |es| == 0 then [] else Bullets(es[..|es| - 1]) + Bullet(es[|es| - 1].url)
  }

  lemma {:induction false} BulletsPrefix(es: seq<Entry>, k: nat)
    requires k <= |es|
    ensures Bullets(es[..k]) <= Bullets(es)
    decreases |es| - k
  {
    if k < |es| {
      var m := |es| - 1;
      assert es[..m][..k] == es[..k];
      BulletsPrefix(es[..m], k);
    } else {
      assert es[..k] == es;
    }
  }

  lemma BulletAt(es: seq<Entry>, k: nat)
    requires k < |es|
    ensures OccursAt(Bullets(es), Bullet(es[k].url), |Bullets(es[..k])|)
  {
    BulletsPrefix(es, k + 1);
    assert es[..k + 1][..k] == es[..k];
    var b := Bullets(es[..k]);
    var line := Bullet(es[k].url);
    assert Bullets(es[..k + 1]) == b + line;
    assert Bullets(es)[..|b| + |line|] == b + line;
    assert Bullets(es)[|b|..|b| + |line|] == line;
  }

  lemma BulletsGrow(es: seq<Entry>, j: nat, k: nat)
    requires j < k <= |es|
    ensures |Bullets(es[..j])| < |Bullets(es[..k])|
  {
    BulletsPrefix(es[..k], j + 1);
    assert es[..k][..j + 1] == es[..j + 1];
    assert es[..j + 1][..j] == es[..j];
    assert Bullets(es[..j + 1]) == Bullets(es[..j]) + Bullet(es[j].url);
  }

  /** The source list names every kept URL on its own line, in dictionary
      order: the line of the `k`-th document starts right after the lines
      of the ones before it, so later documents are listed further on. */
  lemma BulletsListUrls(es: seq<Entry>)
    ensures forall k :: 0 <= k < |es| ==> OccursAt(Bullets(es), Bullet(es[k].url), |Bullets(es[..k])|)
    ensures forall j, k :: 0 <= j < k < |es| ==> |Bullets(es[..j])| < |Bullets(es[..k])|
  {
    forall k | 0 <= k < |es| ensures OccursAt(Bullets(es), Bullet(es[k].url), |Bullets(es[..k])|) {
      BulletAt(es, k);
    }
    forall j, k | 0 <= j < k < |es| ensures |Bullets(es[..j])| < |Bullets(es[..k])| {
      BulletsGrow(es, j, k);
    }
  }

  /** The loop of `write_report` that builds `sources_text` and
      `urls_text`; each source adds its block of four lines at once. */
  method ReportTexts(es: seq<Entry>) returns (sources: string, urls: string)
    ensures sources == Sources(es)
    ensures urls == UrlsHeader + Bullets(es)
  {
    sources := "";
    urls := UrlsHeader;
    var i := 0;
    while i < |es|
      invariant 0 <= i <= |es|
      invariant sources == Sources(es[..i])
      invariant urls == UrlsHeader + Bullets(es[..i])
    {
      assert es[..i + 1][..i] == es[..i];
      sources := sources + SourceBlock(es[i]);
      assert UrlsHeader + Bullets(es[..i + 1]) == (UrlsHeader + Bullets(es[..i])) + Bullet(es[i].url);
      urls := urls + Bullet(es[i].url);
      i := i + 1;
    }
    assert es[..i] == es;
  }

  /** The delta of `write_report`. */
  datatype ReportDelta = ReportDelta(messages: seq<Message>, report: string, researchComplete: bool, awaitingReview: bool)

  /** `write_report`, given the model's answer: the report is the answer,
      the research is complete and no review is awaited. */
  function WriteReport(answer: string): (d: ReportDelta)
    ensures d.report == answer && d.messages == [AIMessage(answer, [])]
    ensures d.researchComplete && !d.awaitingReview
  {
    ReportDelta([AIMessage(answer, [])], answer, true, false)
  }
}
