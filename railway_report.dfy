/** The excerpt builder of the railway agent's report: the stored
    documents share a 50 000-character budget, each cut to the length its
    relevance score allows, and the report lists them by score. The score
    is a parameter here; the agent passes its keyword relevance. */
module RailwayReport {
  import opened Wrappers
  import opened Documents

  const MaxTotalChars: int := 50000

  /** `doc.get('title', 'Sin título')`. */
  function ReportTitle(d: Doc): string {
    d.title.GetOr("Sin título")
  }

  /** `doc.get('content', doc.get('snippet', 'Sin contenido'))`. */
  function ReportContent(d: Doc): string {
    if d.content.Some? then d.content.value else d.snippet.GetOr("Sin contenido")
  }

  /** What the excerpt loop reads from one stored document: its URL, title,
      content and relevance score. */
  datatype Source = Source(url: string, title: string, content: string, score: int)

  /** The stored documents as the excerpt loop reads them, in insertion
      order. */
  function Sources(es: seq<Entry>, score: Doc -> int): (r: seq<Source>)
    ensures |r| == |es|
  {
    seq(|es|, k requires 0 <= k < |es| =>
      Source(es[k].url, ReportTitle(es[k].doc), ReportContent(es[k].doc), score(es[k].doc)))
  }

  /** One entry of `docs_summary`. */
  datatype Summary = Summary(url: string, title: string, excerpt: string, relevanceScore: int)

  function Min(a: int, b: int): int {
    if a <= b then a else b
  }

  /** `content[:n]`, with `"..."` when that cut something off. */
  function Cut(content: string, n: nat): (r: string)
    ensures |content| <= n ==> r == content
    ensures |content| > n ==> r == content[..n] + "..."
    ensures |r| <= n + 3
  {
    content[..Min(n, |content|)] + (if |content| > n then "..." else "")
  }

  function TotalLength(s: seq<Summary>): nat {
    if |s| == 0 then 0 else |s[0].excerpt| + TotalLength(s[1..])
  }

  /** The characters a document may use: its score, capped by what is
      left of the budget. */
  function Limit(src: Source, total: int): int {
    Min(src.score, MaxTotalChars - total)
  }

  /** The summary the excerpt loop builds for one document. */
  function Item(src: Source, total: int): (x: Summary)
    requires Limit(src, total) > 0
    ensures |x.excerpt| <= Limit(src, total) + 3
  {
    Summary(src.url, src.title, Cut(src.content, Limit(src, total)), src.score)
  }

  /** Reference definition of the excerpt loop over the documents from
      position `i` on, `total` characters having been used already. */
  function Summarize(srcs: seq<Source>, i: nat, total: int): (r: seq<Summary>)
    requires i <= |srcs|
    decreases |srcs| - i
  {
    if i == |srcs| || Limit(srcs[i], total) <= 0 then []
    else
      var item := Item(srcs[i], total);
      var t := total + |item.excerpt|;
      if t >= MaxTotalChars then [item] else [item] + Summarize(srcs, i + 1, t)
  }

  /** `excerpt` is `content` cut at a positive length no larger than
      `limit`: all of it when it fits, otherwise a prefix followed by
      `"..."`. */
  predicate IsExcerpt(excerpt: string, content: string, limit: int) {
    || (0 < limit && |content| <= limit && excerpt == content)
    || (var n := |excerpt| - 3; 0 < n <= limit && n < |content| && excerpt == content[..n] + "...")
  }

  /** A summary made from a document: same URL and title, the document's
      score, and an excerpt of its content no longer than the score
      allows. */
  predicate SummaryOf(x: Summary, src: Source) {
    && x.url == src.url
    && x.title == src.title
    && x.relevanceScore == src.score
    && IsExcerpt(x.excerpt, src.content, x.relevanceScore)
  }

  lemma ItemIsSummary(src: Source, total: int)
    requires Limit(src, total) > 0
    ensures SummaryOf(Item(src, total), src)
  {
    var n := Limit(src, total);
    if |src.content| > n {
      assert |Cut(src.content, n)| == n + 3;
    }
  }

  /** One step of the excerpt loop: the summary of the document at
      position `i`, then the rest while the budget is not used up. */
  lemma SummarizeTake(srcs: seq<Source>, i: nat, total: int, item: Summary)
    requires i < |srcs| && Limit(srcs[i], total) > 0 && item == Item(srcs[i], total)
    ensures var r := Summarize(srcs, i, total);
      && |r| > 0 && r[0] == item
      && (total + |item.excerpt| >= MaxTotalChars ==> |r| == 1)
      && (total + |item.excerpt| < MaxTotalChars ==>
        r[1..] == Summarize(srcs, i + 1, total + |item.excerpt|))
  {
  }

  /** At most one summary per document. */
  lemma {:induction false} SummarizeLength(srcs: seq<Source>, i: nat, total: int)
    requires i <= |srcs|
    ensures |Summarize(srcs, i, total)| <= |srcs| - i
    decreases |srcs| - i
  {
    if i < |srcs| && Limit(srcs[i], total) > 0 {
      var item := Item(srcs[i], total);
      SummarizeTake(srcs, i, total, item);
      if total + |item.excerpt| < MaxTotalChars {
        SummarizeLength(srcs, i + 1, total + |item.excerpt|);
      }
    }
  }

  /** Every excerpt belongs to the document at the same position, in
      insertion order. */
  lemma {:induction false} SummarizeAt(srcs: seq<Source>, i: nat, total: int, k: nat)
    requires i <= |srcs| && k < |Summarize(srcs, i, total)|
    ensures i + k < |srcs| && SummaryOf(Summarize(srcs, i, total)[k], srcs[i + k])
    decreases k
  {
    var item := Item(srcs[i], total);
    SummarizeTake(srcs, i, total, item);
    if k == 0 {
      ItemIsSummary(srcs[i], total);
    } else {
      var t := total + |item.excerpt|;
      SummarizeAt(srcs, i + 1, t, k - 1);
      assert Summarize(srcs, i, total)[k] == Summarize(srcs, i + 1, t)[k - 1];
      assert i + 1 + (k - 1) == i + k;
    }
  }

  /** The excerpts overrun the budget by at most the three characters of
      one `"..."`. */
  lemma {:induction false} SummarizeOverrun(srcs: seq<Source>, i: nat, total: int)
    requires i <= |srcs| && total <= MaxTotalChars
    ensures total + TotalLength(Summarize(srcs, i, total)) <= MaxTotalChars + 3
    decreases |srcs| - i
  {
    if i < |srcs| && Limit(srcs[i], total) > 0 {
      var item := Item(srcs[i], total);
      SummarizeTake(srcs, i, total, item);
      if total + |item.excerpt| < MaxTotalChars {
        SummarizeOverrun(srcs, i + 1, total + |item.excerpt|);
      }
    }
  }

  /** With positive scores, documents are left out only once the budget is
      used up. */
  lemma {:induction false} SummarizeLeavesOut(srcs: seq<Source>, i: nat, total: int)
    requires forall k :: 0 <= k < |srcs| ==> srcs[k].score > 0
    requires i <= |srcs| && |Summarize(srcs, i, total)| < |srcs| - i
    ensures total + TotalLength(Summarize(srcs, i, total)) >= MaxTotalChars
    decreases |srcs| - i
  {
    if Limit(srcs[i], total) > 0 {
      var item := Item(srcs[i], total);
      SummarizeTake(srcs, i, total, item);
      if total + |item.excerpt| < MaxTotalChars {
        SummarizeLeavesOut(srcs, i + 1, total + |item.excerpt|);
      }
    }
  }

  /** With positive scores, while any budget remains the next document is
      summarised. */
  lemma SummarizeStarts(srcs: seq<Source>, i: nat, total: int)
    requires forall k :: 0 <= k < |srcs| ==> srcs[k].score > 0
    requires total < MaxTotalChars && i < |srcs|
    ensures |Summarize(srcs, i, total)| > 0
  {
    assert Limit(srcs[i], total) > 0;
  }

  /** `content[:limit]`, then `"..."` if that cut something off. */
  method Trim(content: string, limit: nat) returns (excerpt: string)
    ensures excerpt == Cut(content, limit)
  {
    excerpt := content[..Min(limit, |content|)];
    if |content| > limit {
      excerpt := excerpt + "...";
    }
  }

  /** Moving the first of the pending summaries to the built ones. */
  lemma ShiftFirst(built: seq<Summary>, pending: seq<Summary>)
    requires |pending| > 0
    ensures (built + [pending[0]]) + pending[1..] == built + pending
  {
    assert pending == [pending[0]] + pending[1..];
  }

  /** The excerpt loop of `generate_report`, with its nested
      `evaluate_relevance` passed in as `score`. */
  method BuildSummary(es: seq<Entry>, score: Doc -> int) returns (summary: seq<Summary>)
    ensures summary == Summarize(Sources(es, score), 0, 0)
  {
    ghost var srcs := Sources(es, score);
    summary := [];
    var total := 0;
    var i := 0;
    ghost var rest := Summarize(srcs, 0, 0);
    while i < |es|
      invariant 0 <= i <= |es|
      invariant rest == Summarize(srcs, i, total)
      invariant summary + rest == Summarize(srcs, 0, 0)
    {
      var e := es[i];
      var relevance := score(e.doc);
      var title := ReportTitle(e.doc);
      var content := ReportContent(e.doc);
      assert srcs[i] == Source(e.url, title, content, relevance);
      var remaining := MaxTotalChars - total;
      var limit := Min(relevance, remaining);
      if limit <= 0 {
        assert rest == [];
        break;
      }
      var excerpt := Trim(content, limit);
      var item := Summary(e.url, title, excerpt, relevance);
      SummarizeTake(srcs, i, total, item);
      ShiftFirst(summary, rest);
      total := total + |excerpt|;
      if total >= MaxTotalChars {
        assert rest == [item];
        summary := summary + [item];
        break;
      }
      summary, rest := summary + [item], rest[1..];
      i := i + 1;
    }
  }

  /** The summaries with a given score, in order. */
  function Scored(s: seq<Summary>, score: int): (r: seq<Summary>)
    ensures forall x :: x in r ==> x in s && x.relevanceScore == score
  {
    if |s| == 0 then []
    else Scored(s[..|s| - 1], score) + (if s[|s| - 1].relevanceScore == score then [s[|s| - 1]] else [])
  }

  /** `sorted(docs_summary, key=relevance_score, reverse=True)`: Python's
      sort is stable, so over the three possible scores it lists the 2000s,
      then the 1000s, then the 500s, each in their original order. */
  function ByRelevance(s: seq<Summary>): seq<Summary> {
    Scored(s, 2000) + Scored(s, 1000) + Scored(s, 500)
  }

  predicate ScoresValid(s: seq<Summary>) {
    forall x :: x in s ==> x.relevanceScore in {500, 1000, 2000}
  }

  lemma ScoredAt(s: seq<Summary>, score: int, k: int)
    requires 0 <= k < |Scored(s, score)|
    ensures Scored(s, score)[k].relevanceScore == score
  {
    assert Scored(s, score)[k] in Scored(s, score);
  }

  /** The score at each position of the sorted list follows from which of
      the three groups the position falls in. */
  lemma ByRelevanceAt(s: seq<Summary>, i: int)
    requires 0 <= i < |ByRelevance(s)|
    ensures var n2, n1 := |Scored(s, 2000)|, |Scored(s, 1000)|;
      ByRelevance(s)[i].relevanceScore == if i < n2 then 2000 else if i < n2 + n1 then 1000 else 500
  {
    var a, b, c := Scored(s, 2000), Scored(s, 1000), Scored(s, 500);
    if i < |a| {
      ScoredAt(s, 2000, i);
    } else if i < |a| + |b| {
      ScoredAt(s, 1000, i - |a|);
    } else {
      ScoredAt(s, 500, i - |a| - |b|);
    }
  }

  /** The report lists the summaries sorted by score, non-increasing. */
  lemma ByRelevanceSorted(s: seq<Summary>)
    ensures var r := ByRelevance(s);
      forall i, j :: 0 <= i < j < |r| ==> r[i].relevanceScore >= r[j].relevanceScore
  {
    var r := ByRelevance(s);
    forall i, j | 0 <= i < j < |r| ensures r[i].relevanceScore >= r[j].relevanceScore {
      ByRelevanceAt(s, i);
      ByRelevanceAt(s, j);
    }
  }

  /** `Scored` of a sequence grown by one summary, counted as a multiset. */
  lemma ScoredLast(init: seq<Summary>, x: Summary, score: int)
    ensures multiset(Scored(init + [x], score)) ==
      multiset(Scored(init, score)) + (if x.relevanceScore == score then multiset{x} else multiset{})
  {
    assert (init + [x])[..|init|] == init;
  }

  lemma ByRelevanceCount(s: seq<Summary>)
    ensures multiset(ByRelevance(s)) ==
      multiset(Scored(s, 2000)) + multiset(Scored(s, 1000)) + multiset(Scored(s, 500))
  {
  }

  /** When every score is one of the three relevance levels, the sorted
      list is a permutation of the summaries. */
  lemma {:induction false} ByRelevancePermutation(s: seq<Summary>)
    requires ScoresValid(s)
    ensures multiset(ByRelevance(s)) == multiset(s)
    decreases |s|
  {
    if |s| > 0 {
      var init := s[..|s| - 1];
      var x := s[|s| - 1];
      assert s == init + [x];
      assert x in s;
      ByRelevancePermutation(init);
      ByRelevanceCount(init);
      ByRelevanceCount(s);
      ScoredLast(init, x, 2000);
      ScoredLast(init, x, 1000);
      ScoredLast(init, x, 500);
    }
  }
}
