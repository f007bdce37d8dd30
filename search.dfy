/** Merging the answers of several web-search sub-queries into one result
    list, in sub-query order. */
module Search {
  import opened Wrappers
  import opened Documents

  /** The results of one sub-query, with a failed one counted as `[]`. */
  function OrEmpty(r: Result<seq<Doc>>): seq<Doc> {
    if r.Ok? then r.value else []
  }

  /** Reference definition: every sub-query's results, concatenated in
      order, failures contributing nothing. */
  function Collected(rs: seq<Result<seq<Doc>>>): seq<Doc> {
    if |rs| == 0 then [] else Collected(rs[..|rs| - 1]) + OrEmpty(rs[|rs| - 1])
  }

  /** Collecting distributes over concatenating the sub-query lists. */
  lemma {:induction false} CollectedAppend(a: seq<Result<seq<Doc>>>, b: seq<Result<seq<Doc>>>)
    ensures Collected(a + b) == Collected(a) + Collected(b)
    decreases |b|
  {
    if |b| == 0 {
      assert a + b == a;
    } else {
      var b', last := b[..|b| - 1], OrEmpty(b[|b| - 1]);
      assert (a + b)[..|a + b| - 1] == a + b';
      assert OrEmpty((a + b)[|a + b| - 1]) == last;
      CollectedAppend(a, b');
      calc {
        Collected(a + b);
        Collected(a + b') + last;
        (Collected(a) + Collected(b')) + last;
        Collected(a) + (Collected(b') + last);
        Collected(a) + Collected(b);
      }
    }
  }

  /** A failing sub-query neither aborts the search nor changes the results
      of the others. */
  lemma FailureContributesNothing(a: seq<Result<seq<Doc>>>, e: string, b: seq<Result<seq<Doc>>>)
    ensures Collected(a + [Err(e)] + b) == Collected(a + b)
  {
    CollectedAppend(a + [Err(e)], b);
    CollectedAppend(a, b);
    assert (a + [Err(e)])[..|a|] == a;
  }

  /** Every result comes from a successful sub-query, and every result of a
      successful sub-query is kept. */
  lemma {:induction false} CollectedMembers(rs: seq<Result<seq<Doc>>>, d: Doc)
    ensures d in Collected(rs) <==> exists k :: 0 <= k < |rs| && rs[k].Ok? && d in rs[k].value
    decreases |rs|
  {
    if |rs| > 0 {
      var init := rs[..|rs| - 1];
      CollectedMembers(init, d);
      if d in Collected(rs) && d !in Collected(init) {
        assert rs[|rs| - 1].Ok? && d in rs[|rs| - 1].value;
      }
      if exists k :: 0 <= k < |rs| && rs[k].Ok? && d in rs[k].value {
        var k :| 0 <= k < |rs| && rs[k].Ok? && d in rs[k].value;
        if k < |rs| - 1 {
          assert init[k] == rs[k];
        }
      }
    }
  }

  /** `asyncio.gather` over sub-queries that each turn an exception into
      `[]`, followed by `all_results.extend(response)` per response. */
  method GatherTolerant(responses: seq<Result<seq<Doc>>>) returns (all: seq<Doc>)
    ensures all == Collected(responses)
  {
    all := [];
    var i := 0;
    while i < |responses|
      invariant 0 <= i <= |responses|
      invariant all == Collected(responses[..i])
    {
      assert responses[..i + 1][..i] == responses[..i];
      all := all + OrEmpty(responses[i]);
      i := i + 1;
    }
    assert responses[..i] == responses;
  }

  /** One sequential search call that may raise, or return a response with
      or without a `results` key. */
  function Present(r: Result<Option<seq<Doc>>>): Result<seq<Doc>> {
    if r.Ok? && r.value.Some? then Ok(r.value.value) else Err("")
  }

  /** Sequential searches that skip a query whose call raises or whose
      response has no `results`. */
  method SearchSequentially(responses: seq<Result<Option<seq<Doc>>>>) returns (all: seq<Doc>)
    ensures all == Collected(seq(|responses|, k requires 0 <= k < |responses| => Present(responses[k])))
  {
    ghost var present := seq(|responses|, k requires 0 <= k < |responses| => Present(responses[k]));
    all := [];
    var i := 0;
    while i < |responses|
      invariant 0 <= i <= |responses|
      invariant all == Collected(present[..i])
    {
      assert present[..i + 1][..i] == present[..i];
      var r := responses[i];
      if r.Ok? && r.value.Some? {
        all := all + r.value.value;
      }
      i := i + 1;
    }
    assert present[..i] == present;
  }

  /** The first failed sub-query, if any. */
  function FirstError(rs: seq<Result<seq<Doc>>>): (r: Option<nat>)
    ensures r.Some? ==> r.value < |rs| && rs[r.value].Err?
    ensures r.Some? ==> forall k :: 0 <= k < r.value ==> rs[k].Ok?
    ensures r.None? <==> forall k :: 0 <= k < |rs| ==> rs[k].Ok?
  {
    if |rs| == 0 then None
    else if rs[0].Err? then Some(0)
    else
      match FirstError(rs[1..])
      case None => None
      case Some(k) => Some(k + 1)
  }

  /** Sequential searches with no error handling: the first failure
      propagates, otherwise every result in order. */
  method SearchStrict(responses: seq<Result<seq<Doc>>>) returns (r: Result<seq<Doc>>)
    ensures FirstError(responses).None? ==> r == Ok(Collected(responses))
    ensures FirstError(responses).Some? ==> r == responses[FirstError(responses).value]
  {
    var all: seq<Doc> := [];
    var i := 0;
    while i < |responses|
      invariant 0 <= i <= |responses|
      invariant forall k :: 0 <= k < i ==> responses[k].Ok?
      invariant all == Collected(responses[..i])
    {
      assert responses[..i + 1][..i] == responses[..i];
      if responses[i].Err? {
        return responses[i];
      }
      all := all + responses[i].value;
      i := i + 1;
    }
    assert responses[..i] == responses;
    return Ok(all);
  }
}
