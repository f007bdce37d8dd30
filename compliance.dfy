/** The compliance officer: a research loop whose tool node accepts any
    value a tool returns, stores only dict hits that carry a URL, and adds
    everything else to the running text as its string form. */
module Compliance {
  import opened Wrappers
  import opened Messages
  import opened Documents
  import T = ToolNodes
  import G = Graph

  const Header: string := "Found the following new documents: "

  // ---------------------------------------------------------------------
  // Tool node

  /** The dictionary and the text a result adds to `docs_str`. */
  datatype Scan = Scan(entries: seq<Entry>, text: string)

  /** Reference definition of the loop over a returned list: a dict with a
      new URL is stored and adds its JSON; a dict with a stored URL adds
      nothing; a dict without URL and any other value add their string. */
  function Scanned(es: seq<Entry>, items: seq<Value>): (r: Scan)
  {
    if |items| == 0 then Scan(es, "")
    else
      var p := Scanned(es, items[..|items| - 1]);
      match items[|items| - 1]
      case OtherValue(s) => Scan(p.entries, p.text + s)
      case DictValue(d) =>
        if d.url.None? then Scan(p.entries, p.text + d.repr)
        else if d.url.value in Urls(p.entries) then p
        else Scan(p.entries + [Entry(d.url.value, d)], p.text + d.json)
  }

  /** The dictionary part of the loop is the first-seen merge of the dicts
      in the list: values that are not dicts are never stored. */
  lemma {:induction false} ScannedMerges(es: seq<Entry>, items: seq<Value>)
    ensures Scanned(es, items).entries == Merged(es, Dicts(items)).entries
    decreases |items|
  {
    if |items| > 0 {
      var init := items[..|items| - 1];
      ScannedMerges(es, init);
      var ds := Dicts(init);
      var v := items[|items| - 1];
      if v.DictValue? {
        assert Dicts(items) == ds + [v.doc];
        assert (ds + [v.doc])[..|ds|] == ds;
      } else {
        assert Dicts(items) == ds;
      }
    }
  }

  /** The string form of a list element. */
  function Shown(v: Value): string {
    match v
    case DictValue(d) => d.repr
    case OtherValue(s) => s
  }

  function ShownAll(items: seq<Value>): string {
    if |items| == 0 then [] else ShownAll(items[..|items| - 1]) + Shown(items[|items| - 1])
  }

  predicate HasUrl(v: Value) {
    v.DictValue? && v.doc.url.Some?
  }

  /** A list without URL-carrying dicts stores nothing and adds the string
      of each of its elements, in order. */
  lemma {:induction false} ScannedNoUrls(es: seq<Entry>, items: seq<Value>)
    requires forall k :: 0 <= k < |items| ==> !HasUrl(items[k])
    ensures Scanned(es, items) == Scan(es, ShownAll(items))
    decreases |items|
  {
    if |items| > 0 {
      var init := items[..|items| - 1];
      assert forall k :: 0 <= k < |init| ==> init[k] == items[k];
      ScannedNoUrls(es, init);
    }
  }

  /** What one tool result adds: a list is scanned element by element;
      any other value is stored nowhere and adds its string. */
  function Absorbed(es: seq<Entry>, out: ToolOutput): (r: Scan)
    ensures out.OtherOutput? ==> r == Scan(es, out.repr)
  {
    match out
    case ListOutput(items, _) => Scanned(es, items)
    case OtherOutput(s) => Scan(es, s)
  }

  /** The dictionary, the running `docs_str`, the messages, and the
      exception that ended the node, if any. */
  datatype Progress = Progress(entries: seq<Entry>, docsStr: string, msgs: seq<Message>, raised: Option<string>)

  predicate CallOk(c: ToolCall, out: Result<ToolOutput>) {
    c.name == T.SearchTool && out.Ok?
  }

  /** One call of the loop: nothing happens once an exception was raised;
      an unknown tool name raises `KeyError`, a failed search raises its
      error, and a result is absorbed and answered with the whole running
      `docs_str`. */
  function Step(p: Progress, c: ToolCall, out: Result<ToolOutput>, header: string): (r: Progress)
    ensures p.raised.Some? ==> r == p
  {
    if p.raised.Some? then p
    else if c.name != T.SearchTool then Progress(p.entries, p.docsStr, p.msgs, Some("'" + c.name + "'"))
    else if out.Err? then Progress(p.entries, p.docsStr, p.msgs, Some(out.error))
    else
      var a := Absorbed(p.entries, out.value);
      var docsStr := p.docsStr + a.text;
      Progress(a.entries, docsStr, p.msgs + [ToolMessage(header + docsStr, c.id)], None)
  }

  /** Reference definition of the loop over the first `n` calls. There is
      no `try`: the first exception ends the node. `docs_str` is never
      reset. */
  function Processed(es: seq<Entry>, calls: seq<ToolCall>, outs: seq<Result<ToolOutput>>, header: string, n: nat): (r: Progress)
    requires |calls| == |outs| && n <= |calls|
    decreases n
  {
    if n == 0 then Progress(es, "", [], None)
    else Step(Processed(es, calls, outs, header, n - 1), calls[n - 1], outs[n - 1], header)
  }

  /** Every message is a tool message holding the header and then at
      most `top`. */
  predicate Bounded(msgs: seq<Message>, header: string, top: string) {
    forall k :: 0 <= k < |msgs| ==> msgs[k].ToolMessage? && header <= msgs[k].content <= header + top
  }

  lemma BoundedLast(msgs: seq<Message>, header: string, before: string, after: string, id: string)
    requires Bounded(msgs, header, before) && before <= after
    ensures Bounded(msgs + [ToolMessage(header + after, id)], header, after)
  {
    assert header + before <= header + after;
    forall k | 0 <= k < |msgs|
      ensures header <= msgs[k].content <= header + after
    {
      PrefixTransitive(header, msgs[k].content, header + before);
      PrefixTransitive(msgs[k].content, header + before, header + after);
    }
  }

  lemma PrefixTransitive<T>(a: seq<T>, b: seq<T>, c: seq<T>)
    requires a <= b && b <= c
    ensures a <= c
  {
    assert c[..|b|][..|a|] == c[..|a|];
  }

  /** The dictionary after one call: a returned list is merged into it,
      first seen first kept; anything else leaves it as it was. */
  lemma StepEntries(p: Progress, c: ToolCall, out: Result<ToolOutput>, header: string)
    ensures Step(p, c, out, header).entries ==
      if p.raised.None? && CallOk(c, out) && out.value.ListOutput?
      then Merged(p.entries, Dicts(out.value.items)).entries
      else p.entries
  {
    if p.raised.None? && CallOk(c, out) && out.value.ListOutput? {
      ScannedMerges(p.entries, out.value.items);
    }
  }

  /** The dictionary never holds two documents under one URL. */
  lemma {:induction false} ProcessedUnique(es: seq<Entry>, calls: seq<ToolCall>, outs: seq<Result<ToolOutput>>, header: string, n: nat)
    requires |calls| == |outs| && n <= |calls| && UniqueUrls(es)
    ensures UniqueUrls(Processed(es, calls, outs, header, n).entries)
    decreases n
  {
    if n > 0 {
      var p := Processed(es, calls, outs, header, n - 1);
      ProcessedUnique(es, calls, outs, header, n - 1);
      StepEntries(p, calls[n - 1], outs[n - 1], header);
    }
  }

  /** The dictionary only grows. */
  lemma {:induction false} ProcessedGrows(es: seq<Entry>, calls: seq<ToolCall>, outs: seq<Result<ToolOutput>>, header: string, n: nat)
    requires |calls| == |outs| && n <= |calls|
    ensures es <= Processed(es, calls, outs, header, n).entries
    decreases n
  {
    if n > 0 {
      var p := Processed(es, calls, outs, header, n - 1);
      ProcessedGrows(es, calls, outs, header, n - 1);
      StepEntries(p, calls[n - 1], outs[n - 1], header);
      PrefixTransitive(es, p.entries, Processed(es, calls, outs, header, n).entries);
    }
  }

  /** One call keeps every message a tool message with the header and a
      prefix of the running `docs_str`, and later messages extend earlier
      ones. */
  lemma StepMessages(p: Progress, c: ToolCall, out: Result<ToolOutput>, header: string)
    requires Bounded(p.msgs, header, p.docsStr)
    ensures var r := Step(p, c, out, header);
      && Bounded(r.msgs, header, r.docsStr)
      && (Cumulative(p.msgs) ==> Cumulative(r.msgs))
  {
    var r := Step(p, c, out, header);
    if r.raised.None? {
      var m := ToolMessage(header + r.docsStr, c.id);
      BoundedLast(p.msgs, header, p.docsStr, r.docsStr, c.id);
      if Cumulative(p.msgs) {
        CumulativeLast(p.msgs, m, header, r.docsStr);
      }
    }
  }

  /** Every message is the header followed by a prefix of the running
      `docs_str`. */
  lemma {:induction false} ProcessedBounded(es: seq<Entry>, calls: seq<ToolCall>, outs: seq<Result<ToolOutput>>, header: string, n: nat)
    requires |calls| == |outs| && n <= |calls|
    ensures var r := Processed(es, calls, outs, header, n); Bounded(r.msgs, header, r.docsStr)
    decreases n
  {
    if n > 0 {
      ProcessedBounded(es, calls, outs, header, n - 1);
      StepMessages(Processed(es, calls, outs, header, n - 1), calls[n - 1], outs[n - 1], header);
    }
  }

  /** Without an exception, every call is answered, in order. */
  lemma {:induction false} ProcessedAnswers(es: seq<Entry>, calls: seq<ToolCall>, outs: seq<Result<ToolOutput>>, header: string, n: nat)
    requires |calls| == |outs| && n <= |calls|
    ensures var r := Processed(es, calls, outs, header, n);
      r.raised.None? ==> AnswersCalls(r.msgs, calls[..n])
    decreases n
  {
    if n > 0 {
      var p := Processed(es, calls, outs, header, n - 1);
      var r := Processed(es, calls, outs, header, n);
      ProcessedAnswers(es, calls, outs, header, n - 1);
      if r.raised.None? {
        assert calls[..n][..n - 1] == calls[..n - 1];
        AnswersCallsLast(p.msgs, ToolMessage(header + r.docsStr, calls[n - 1].id), calls[..n]);
      }
    }
  }

  /** The first `n` calls name the search tool and their searches
      succeeded. */
  predicate AllCallsOk(calls: seq<ToolCall>, outs: seq<Result<ToolOutput>>, n: nat)
    requires |calls| == |outs| && n <= |calls|
  {
    forall k :: 0 <= k < n ==> CallOk(calls[k], outs[k])
  }

  lemma AllCallsOkLast(calls: seq<ToolCall>, outs: seq<Result<ToolOutput>>, n: nat)
    requires |calls| == |outs| && 0 < n <= |calls|
    ensures AllCallsOk(calls, outs, n) <==> AllCallsOk(calls, outs, n - 1) && CallOk(calls[n - 1], outs[n - 1])
  {
    if AllCallsOk(calls, outs, n - 1) && CallOk(calls[n - 1], outs[n - 1]) {
      forall k | 0 <= k < n ensures CallOk(calls[k], outs[k]) {
        if k < n - 1 {
          assert CallOk(calls[k], outs[k]);
        }
      }
    }
  }

  /** The node raises exactly when some call names another tool or its
      search failed. */
  lemma {:induction false} ProcessedRaises(es: seq<Entry>, calls: seq<ToolCall>, outs: seq<Result<ToolOutput>>, header: string, n: nat)
    requires |calls| == |outs| && n <= |calls|
    ensures Processed(es, calls, outs, header, n).raised.None? <==> AllCallsOk(calls, outs, n)
    decreases n
  {
    if n > 0 {
      var p := Processed(es, calls, outs, header, n - 1);
      ProcessedRaises(es, calls, outs, header, n - 1);
      AllCallsOkLast(calls, outs, n);
      assert Processed(es, calls, outs, header, n) == Step(p, calls[n - 1], outs[n - 1], header);
    }
  }

  /** Each message's text starts with that of every message before it. */
  predicate Cumulative(msgs: seq<Message>) {
    forall i, j :: 0 <= i <= j < |msgs| ==> msgs[i].content <= msgs[j].content
  }

  lemma CumulativeLast(msgs: seq<Message>, m: Message, header: string, top: string)
    requires Cumulative(msgs)
    requires Bounded(msgs + [m], header, top) && m.content == header + top
    ensures Cumulative(msgs + [m])
  {
    var r := msgs + [m];
    forall i, j | 0 <= i <= j < |r| ensures r[i].content <= r[j].content {
      if j < |msgs| {
        assert r[i] == msgs[i] && r[j] == msgs[j];
      }
    }
  }

  /** Each message repeats the text of the one before it. */
  lemma {:induction false} ProcessedCumulative(es: seq<Entry>, calls: seq<ToolCall>, outs: seq<Result<ToolOutput>>, header: string, n: nat)
    requires |calls| == |outs| && n <= |calls|
    ensures Cumulative(Processed(es, calls, outs, header, n).msgs)
    decreases n
  {
    if n > 0 {
      var p := Processed(es, calls, outs, header, n - 1);
      ProcessedCumulative(es, calls, outs, header, n - 1);
      ProcessedBounded(es, calls, outs, header, n - 1);
      StepMessages(p, calls[n - 1], outs[n - 1], header);
    }
  }

  /** A document stored before the node keeps its entry. */
  lemma KeepsStored(es: seq<Entry>, calls: seq<ToolCall>, outs: seq<Result<ToolOutput>>, header: string, n: nat, u: string)
    requires |calls| == |outs| && n <= |calls| && u in Urls(es)
    ensures Lookup(Processed(es, calls, outs, header, n).entries, u) == Lookup(es, u)
  {
    ProcessedGrows(es, calls, outs, header, n);
    LookupExtended(es, Processed(es, calls, outs, header, n).entries, u);
  }

  /** After an exception, the remaining calls change nothing. */
  lemma {:induction false} ProcessedStops(es: seq<Entry>, calls: seq<ToolCall>, outs: seq<Result<ToolOutput>>, header: string, n: nat, m: nat)
    requires |calls| == |outs| && n <= m <= |calls|
    requires Processed(es, calls, outs, header, n).raised.Some?
    ensures Processed(es, calls, outs, header, m) == Processed(es, calls, outs, header, n)
    decreases m
  {
    if n < m {
      ProcessedStops(es, calls, outs, header, n, m - 1);
    }
  }

  /** The loop over one returned list on the shared dictionary. */
  method ScanItems(store: Store, items: seq<Value>) returns (text: string)
    requires store.Valid()
    modifies store
    ensures store.Valid()
    ensures Scanned(old(store.entries), items) == Scan(store.entries, text)
  {
    ghost var es := store.entries;
    text := "";
    var j := 0;
    while j < |items|
      invariant 0 <= j <= |items|
      invariant store.Valid()
      invariant Scanned(es, items[..j]) == Scan(store.entries, text)
    {
      assert items[..j + 1][..j] == items[..j];
      match items[j] {
        case OtherValue(s) =>
          text := text + s;
        case DictValue(d) =>
          if d.url.None? {
            text := text + d.repr;
          } else {
            var added := store.Add(d.url.value, d);
            if added {
              text := text + d.json;
            }
          }
      }
      j := j + 1;
    }
    assert items[..j] == items;
  }

  /** One tool result on the shared dictionary. */
  method AbsorbInto(store: Store, out: ToolOutput) returns (text: string)
    requires store.Valid()
    modifies store
    ensures store.Valid()
    ensures Absorbed(old(store.entries), out) == Scan(store.entries, text)
  {
    match out {
      case ListOutput(items, _) =>
        text := ScanItems(store, items);
      case OtherOutput(s) =>
        text := s;
    }
  }

  /** The loop of `tool_node`, answering with `header` followed by the
      running `docs_str`; `Err` is the exception that ends it. */
  method AnswerCalls(store: Store, calls: seq<ToolCall>, outs: seq<Result<ToolOutput>>, header: string)
    returns (r: Result<seq<Message>>)
    requires |calls| == |outs| && store.Valid()
    modifies store
    ensures store.Valid()
    ensures var p := Processed(old(store.entries), calls, outs, header, |calls|);
      && store.entries == p.entries
      && (p.raised.None? ==> r == Ok(p.msgs))
      && (p.raised.Some? ==> r == Err(p.raised.value))
  {
    ghost var es := store.entries;
    var docsStr := "";
    var msgs: seq<Message> := [];
    var i := 0;
    while i < |calls|
      invariant 0 <= i <= |calls|
      invariant store.Valid()
      invariant Processed(es, calls, outs, header, i) == Progress(store.entries, docsStr, msgs, None)
    {
      var c := calls[i];
      if !CallOk(c, outs[i]) {
        ProcessedStops(es, calls, outs, header, i + 1, |calls|);
        if c.name != T.SearchTool {
          return Err("'" + c.name + "'");
        }
        return Err(outs[i].error);
      }
      var text := AbsorbInto(store, outs[i].value);
      docsStr := docsStr + text;
      msgs := msgs + [ToolMessage(header + docsStr, c.id)];
      i := i + 1;
    }
    return Ok(msgs);
  }

  /** `tool_node` on the calls of the last message; `Err` is the exception
      that ends it. */
  method ToolNode(store: Store, calls: seq<ToolCall>, outs: seq<Result<ToolOutput>>) returns (r: Result<seq<Message>>)
    requires |calls| == |outs| && store.Valid()
    modifies store
    ensures store.Valid()
    ensures var p := Processed(old(store.entries), calls, outs, Header, |calls|);
      && store.entries == p.entries
      && (p.raised.None? ==> r == Ok(p.msgs))
      && (p.raised.Some? ==> r == Err(p.raised.value))
  {
    r := AnswerCalls(store, calls, outs, Header);
  }

  // ---------------------------------------------------------------------
  // Routing and graph

  /** `should_continue`: the tools when the last message has tool calls,
      the output otherwise. */
  function ShouldContinue(messages: seq<Message>): (r: string)
    requires |messages| > 0
    ensures r == "tools" || r == "output"
    ensures r == "tools" <==> HasToolCalls(messages[|messages| - 1])
  {
    if HasToolCalls(messages[|messages| - 1]) then "tools" else "output"
  }

  /** The router's answers are node names, so no path map is given. */
  const Workflow: G.Graph := G.Graph(
    "research",
    {"research", "tools", "output"},
    {("tools", "research"), ("output", G.END)},
    map["research" := G.Direct])

  /** Research hands over to the node the router names; the tools lead back
      to research, and the output node, which returns the state as it is,
      leads to the end. */
  lemma WorkflowRoutes(messages: seq<Message>)
    requires |messages| > 0
    ensures Workflow.entry == "research"
    ensures G.Next(Workflow, "research", ShouldContinue(messages)) == {ShouldContinue(messages)}
    ensures ShouldContinue(messages) in Workflow.nodes
    ensures G.Next(Workflow, "tools", "") == {"research"}
    ensures G.Next(Workflow, "output", "") == {G.END}
  {
    assert G.Fixed(Workflow, "research") == {};
    assert G.Fixed(Workflow, "tools") == {"research"};
    assert G.Fixed(Workflow, "output") == {G.END};
  }
}
