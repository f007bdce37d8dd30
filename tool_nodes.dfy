/** The tool nodes of the research agents that run one search tool per call
    and store its hits in the shared `documents` dictionary: the inner loop
    over one result list, and the outer loop over the calls in which the
    summary text `docs_str` is never reset. Each agent supplies the header
    of its tool messages and how a stored document is described. */
module ToolNodes {
  import opened Wrappers
  import opened Messages
  import opened Documents

  const SearchTool: string := "tavily_search"

  /** The descriptions of the stored documents, in order. */
  function Describe(ds: seq<Doc>, describe: Doc -> string): string {
    if |ds| == 0 then [] else Describe(ds[..|ds| - 1], describe) + describe(ds[|ds| - 1])
  }

  /** The dictionary, the text added, and the `KeyError` that ended the inner
      loop, if any. */
  datatype Step = Step(entries: seq<Entry>, text: string, raised: Option<string>)

  /** Reference definition of the inner loop over one search result list: a
      document without `url` raises `KeyError('url')`; a new URL is stored
      and described. */
  function Absorbed(es: seq<Entry>, docs: seq<Doc>, describe: Doc -> string): (r: Step)
    ensures UniqueUrls(es) ==> UniqueUrls(r.entries)
    ensures es <= r.entries
    ensures r.raised.None? <==> forall d :: d in docs ==> d.url.Some?
  {
    if |docs| == 0 then Step(es, "", None)
    else
      var p := Absorbed(es, docs[..|docs| - 1], describe);
      var d := docs[|docs| - 1];
      assert forall x :: x in docs <==> x in docs[..|docs| - 1] || x == d;
      if p.raised.Some? then p
      else if d.url.None? then Step(p.entries, p.text, Some("'url'"))
      else if d.url.value in Urls(p.entries) then p
      else
        AppendNew(p.entries, Entry(d.url.value, d));
        Step(p.entries + [Entry(d.url.value, d)], p.text + describe(d), None)
  }

  /** When every document has a URL the inner loop is the first-seen merge,
      and the text describes exactly the documents it stored, in order. */
  lemma {:induction false} AbsorbedMerges(es: seq<Entry>, docs: seq<Doc>, describe: Doc -> string)
    requires forall d :: d in docs ==> d.url.Some?
    ensures Absorbed(es, docs, describe).entries == Merged(es, docs).entries
    ensures Absorbed(es, docs, describe).text == Describe(Merged(es, docs).added, describe)
    decreases |docs|
  {
    if |docs| > 0 {
      var init := docs[..|docs| - 1];
      AbsorbedMerges(es, init, describe);
      var m := Merged(es, init);
      var d := docs[|docs| - 1];
      if d.url.value !in Urls(m.entries) {
        assert (m.added + [d])[..|m.added|] == m.added;
      }
    }
  }

  /** A result list whose URLs are all stored already adds nothing. */
  lemma {:induction false} AbsorbedNothingNew(es: seq<Entry>, docs: seq<Doc>, describe: Doc -> string)
    requires forall d :: d in docs ==> d.url.Some? && d.url.value in Urls(es)
    ensures Absorbed(es, docs, describe) == Step(es, "", None)
    decreases |docs|
  {
    if |docs| > 0 {
      var init := docs[..|docs| - 1];
      assert forall d :: d in init ==> d in docs;
      AbsorbedNothingNew(es, init, describe);
    }
  }

  /** Once a `KeyError` ended the inner loop, one more document changes
      nothing. */
  lemma AbsorbedRaisedStays(es: seq<Entry>, docs: seq<Doc>, describe: Doc -> string)
    requires |docs| > 0
    requires Absorbed(es, docs[..|docs| - 1], describe).raised.Some?
    ensures Absorbed(es, docs, describe) == Absorbed(es, docs[..|docs| - 1], describe)
  {
  }

  /** After a `KeyError`, the remaining documents change nothing. */
  lemma {:induction false} AbsorbedStops(es: seq<Entry>, docs: seq<Doc>, describe: Doc -> string, n: nat)
    requires n <= |docs|
    requires Absorbed(es, docs[..n], describe).raised.Some?
    ensures Absorbed(es, docs, describe) == Absorbed(es, docs[..n], describe)
    decreases |docs| - n
  {
    if n < |docs| {
      var m := |docs| - 1;
      assert docs[..m][..n] == docs[..n];
      AbsorbedStops(es, docs[..m], describe, n);
      AbsorbedRaisedStays(es, docs, describe);
    } else {
      assert docs[..n] == docs;
    }
  }

  /** The inner loop on the shared dictionary. */
  method Absorb(store: Store, docs: seq<Doc>, describe: Doc -> string) returns (text: string, raised: Option<string>)
    requires store.Valid()
    modifies store
    ensures store.Valid()
    ensures Absorbed(old(store.entries), docs, describe) == Step(store.entries, text, raised)
  {
    ghost var es := store.entries;
    text := "";
    var j := 0;
    while j < |docs|
      invariant 0 <= j <= |docs|
      invariant store.Valid()
      invariant Absorbed(es, docs[..j], describe) == Step(store.entries, text, None)
    {
      assert docs[..j + 1][..j] == docs[..j];
      var d := docs[j];
      if d.url.None? {
        AbsorbedStops(es, docs, describe, j + 1);
        return text, Some("'url'");
      }
      var added := store.Add(d.url.value, d);
      if added {
        text := text + describe(d);
      }
      j := j + 1;
    }
    assert docs[..j] == docs;
    raised := None;
  }

  /** The dictionary, the running `docs_str`, the tool messages, and the
      exception that ended the node, if any. */
  datatype Progress = Progress(entries: seq<Entry>, docsStr: string, msgs: seq<Message>, raised: Option<string>)

  /** Reference definition of the outer loop over the calls and what each
      search did: returned a list, or raised (`Err`, such as arguments the
      tool's input schema rejects), which ends the node since the call is
      outside any `try`. An unknown tool name raises `KeyError`; since
      `docs_str` is never reset, every message carries the descriptions of
      all calls so far after `header`. */
  function Processed(es: seq<Entry>, calls: seq<ToolCall>, outs: seq<Result<seq<Doc>>>, header: string, describe: Doc -> string): (r: Progress)
    requires |calls| == |outs|
    ensures UniqueUrls(es) ==> UniqueUrls(r.entries)
    ensures es <= r.entries
    ensures forall k :: 0 <= k < |r.msgs| ==>
      r.msgs[k].ToolMessage? && header <= r.msgs[k].content <= header + r.docsStr
  {
    if |calls| == 0 then Progress(es, "", [], None)
    else
      var n := |calls| - 1;
      var p := Processed(es, calls[..n], outs[..n], header, describe);
      var c := calls[n];
      if p.raised.Some? then p
      else if c.name != SearchTool then Progress(p.entries, p.docsStr, p.msgs, Some("'" + c.name + "'"))
      else if outs[n].Err? then Progress(p.entries, p.docsStr, p.msgs, Some(outs[n].error))
      else
        var a := Absorbed(p.entries, outs[n].value, describe);
        var docsStr := p.docsStr + a.text;
        assert header + p.docsStr <= header + docsStr;
        if a.raised.Some? then Progress(a.entries, docsStr, p.msgs, a.raised)
        else Progress(a.entries, docsStr, p.msgs + [ToolMessage(header + docsStr, c.id)], None)
  }

  /** The last call: the node gets through it exactly when it got through
      the calls before and the call is in order, and then it adds one tool
      message for it. */
  lemma ProcessedLast(es: seq<Entry>, calls: seq<ToolCall>, outs: seq<Result<seq<Doc>>>, header: string, describe: Doc -> string)
    requires |calls| == |outs| && |calls| > 0
    ensures Processed(es, calls, outs, header, describe).raised.None? <==>
      Processed(es, calls[..|calls| - 1], outs[..|calls| - 1], header, describe).raised.None?
      && CallOk(calls[|calls| - 1], outs[|calls| - 1])
    ensures Processed(es, calls, outs, header, describe).raised.None? ==>
      Processed(es, calls, outs, header, describe).msgs
        == Processed(es, calls[..|calls| - 1], outs[..|calls| - 1], header, describe).msgs
          + [ToolMessage(header + Processed(es, calls, outs, header, describe).docsStr, calls[|calls| - 1].id)]
  {
  }

  /** Unless an exception ended the node, there is one tool message per
      call, in call order, with that call's id. */
  lemma {:induction false} ProcessedAnswers(es: seq<Entry>, calls: seq<ToolCall>, outs: seq<Result<seq<Doc>>>, header: string, describe: Doc -> string)
    requires |calls| == |outs|
    ensures Processed(es, calls, outs, header, describe).raised.None? ==>
      AnswersCalls(Processed(es, calls, outs, header, describe).msgs, calls)
    decreases |calls|
  {
    if |calls| > 0 {
      var n := |calls| - 1;
      ProcessedAnswers(es, calls[..n], outs[..n], header, describe);
      ProcessedLast(es, calls, outs, header, describe);
      var r := Processed(es, calls, outs, header, describe);
      if r.raised.None? {
        AnswersCallsLast(Processed(es, calls[..n], outs[..n], header, describe).msgs,
          ToolMessage(header + r.docsStr, calls[n].id), calls);
      }
    }
  }

  /** Each message's text extends the one before it: the documents found by
      earlier calls are repeated in every later message. */
  lemma {:induction false} ProcessedCumulative(es: seq<Entry>, calls: seq<ToolCall>, outs: seq<Result<seq<Doc>>>, header: string, describe: Doc -> string)
    requires |calls| == |outs|
    ensures forall i, j :: 0 <= i <= j < |Processed(es, calls, outs, header, describe).msgs| ==>
      Processed(es, calls, outs, header, describe).msgs[i].content
        <= Processed(es, calls, outs, header, describe).msgs[j].content
    decreases |calls|
  {
    if |calls| > 0 {
      var n := |calls| - 1;
      var p := Processed(es, calls[..n], outs[..n], header, describe);
      var r := Processed(es, calls, outs, header, describe);
      ProcessedCumulative(es, calls[..n], outs[..n], header, describe);
      assert r.msgs == p.msgs || r.msgs == p.msgs + [ToolMessage(header + r.docsStr, calls[n].id)];
      forall i, j | 0 <= i <= j < |r.msgs| ensures r.msgs[i].content <= r.msgs[j].content {
        if j < |p.msgs| {
          assert r.msgs[i] == p.msgs[i] && r.msgs[j] == p.msgs[j];
          assert p.msgs[i].content <= p.msgs[j].content;
        } else {
          assert r.msgs[j].content == header + r.docsStr;
          assert r.msgs[i].content <= header + r.docsStr;
        }
      }
    }
  }

  /** A call that names the search tool, whose search did not raise, and
      that got back documents that all have a URL. */
  predicate CallOk(c: ToolCall, out: Result<seq<Doc>>) {
    c.name == SearchTool && out.Ok? && forall d :: d in out.value ==> d.url.Some?
  }

  /** Every call names the search tool and got back documents with URLs. */
  predicate AllCallsOk(calls: seq<ToolCall>, outs: seq<Result<seq<Doc>>>)
    requires |calls| == |outs|
  {
    forall k :: 0 <= k < |calls| ==> CallOk(calls[k], outs[k])
  }

  lemma AllCallsOkLast(calls: seq<ToolCall>, outs: seq<Result<seq<Doc>>>)
    requires |calls| == |outs| && |calls| > 0
    ensures AllCallsOk(calls, outs) <==>
      AllCallsOk(calls[..|calls| - 1], outs[..|calls| - 1]) && CallOk(calls[|calls| - 1], outs[|calls| - 1])
  {
    var n := |calls| - 1;
    assert forall k :: 0 <= k < n ==> calls[..n][k] == calls[k] && outs[..n][k] == outs[k];
  }

  /** The node raises exactly when some call names another tool, some
      search raises, or some returned document has no URL. */
  lemma {:induction false} ProcessedRaises(es: seq<Entry>, calls: seq<ToolCall>, outs: seq<Result<seq<Doc>>>, header: string, describe: Doc -> string)
    requires |calls| == |outs|
    ensures Processed(es, calls, outs, header, describe).raised.None? <==> AllCallsOk(calls, outs)
    decreases |calls|
  {
    if |calls| > 0 {
      var n := |calls| - 1;
      ProcessedRaises(es, calls[..n], outs[..n], header, describe);
      ProcessedLast(es, calls, outs, header, describe);
      AllCallsOkLast(calls, outs);
    }
  }

  /** A document stored before the node keeps its entry. */
  lemma KeepsStored(es: seq<Entry>, calls: seq<ToolCall>, outs: seq<Result<seq<Doc>>>, header: string, describe: Doc -> string, u: string)
    requires |calls| == |outs| && u in Urls(es)
    ensures Lookup(Processed(es, calls, outs, header, describe).entries, u) == Lookup(es, u)
  {
    LookupExtended(es, Processed(es, calls, outs, header, describe).entries, u);
  }

  /** Once an exception ended the node, one more call changes nothing. */
  lemma ProcessedRaisedStays(es: seq<Entry>, calls: seq<ToolCall>, outs: seq<Result<seq<Doc>>>, header: string, describe: Doc -> string)
    requires |calls| == |outs| && |calls| > 0
    requires Processed(es, calls[..|calls| - 1], outs[..|calls| - 1], header, describe).raised.Some?
    ensures Processed(es, calls, outs, header, describe)
      == Processed(es, calls[..|calls| - 1], outs[..|calls| - 1], header, describe)
  {
  }

  /** After an exception, the remaining calls change nothing. */
  lemma {:induction false} ProcessedStops(es: seq<Entry>, calls: seq<ToolCall>, outs: seq<Result<seq<Doc>>>, header: string, describe: Doc -> string, n: nat)
    requires |calls| == |outs| && n <= |calls|
    requires Processed(es, calls[..n], outs[..n], header, describe).raised.Some?
    ensures Processed(es, calls, outs, header, describe) == Processed(es, calls[..n], outs[..n], header, describe)
    decreases |calls| - n
  {
    if n < |calls| {
      var m := |calls| - 1;
      assert calls[..m][..n] == calls[..n] && outs[..m][..n] == outs[..n];
      ProcessedStops(es, calls[..m], outs[..m], header, describe, n);
      ProcessedRaisedStays(es, calls, outs, header, describe);
    } else {
      assert calls[..n] == calls && outs[..n] == outs;
    }
  }

  /** The outer loop on the shared dictionary. `Err` is the `KeyError` of an
      unknown tool name, the exception of a search, or the `KeyError` of a
      document without `url`; the dictionary keeps what was stored before
      it. */
  method RunCalls(store: Store, calls: seq<ToolCall>, outs: seq<Result<seq<Doc>>>, header: string, describe: Doc -> string)
    returns (r: Result<seq<Message>>)
    requires |calls| == |outs| && store.Valid()
    modifies store
    ensures store.Valid()
    ensures var p := Processed(old(store.entries), calls, outs, header, describe);
      && store.entries == p.entries
      && (p.raised.None? ==> r == Ok(p.msgs))
      && (p.raised.Some? ==> r == Err(p.raised.value))
  {
    ghost var es := store.entries;
    var docsStr := "";
    var msgs: seq<Message> := [];
    var i := 0;
    while i < |calls|
      invariant 0 <= i <= |calls|
      invariant store.Valid()
      invariant Processed(es, calls[..i], outs[..i], header, describe) == Progress(store.entries, docsStr, msgs, None)
    {
      assert calls[..i + 1][..i] == calls[..i];
      assert outs[..i + 1][..i] == outs[..i];
      var c := calls[i];
      if c.name != SearchTool {
        ProcessedStops(es, calls, outs, header, describe, i + 1);
        return Err("'" + c.name + "'");
      }
      if outs[i].Err? {
        ProcessedStops(es, calls, outs, header, describe, i + 1);
        return Err(outs[i].error);
      }
      var text, raised := Absorb(store, outs[i].value, describe);
      docsStr := docsStr + text;
      if raised.Some? {
        ProcessedStops(es, calls, outs, header, describe, i + 1);
        return Err(raised.value);
      }
      msgs := msgs + [ToolMessage(header + docsStr, c.id)];
      i := i + 1;
    }
    assert calls[..i] == calls && outs[..i] == outs;
    return Ok(msgs);
  }
}
