/** The sanctions-screening research agent: the fuzzy company-name matcher,
    the per-entity match loop over the sanctions list, the tool node that
    stores web results by URL, and the router that caps tool use at three
    rounds. */
module CompanyResearcher {
  import opened Wrappers
  import opened Text
  import opened Messages
  import opened Documents
  import G = Graph

  // ---------------------------------------------------------------------
  // Name normalisation and matching

  /** `name.lower()`, drop `,` and `.`, turn `-` and `_` into spaces, one
      pass of `"  "` to `" "`, then `strip()`. */
  function NormalizeName(name: string): (r: string)
    ensures forall c :: c in r ==> !IsUpper(c) && c != ',' && c != '.' && c != '-' && c != '_'
    ensures r == [] || (!IsSpace(r[0]) && !IsSpace(r[|r| - 1]))
  {
    var s0 := Lower(name);
    var s1 := Replace(s0, ",", "");
    ReplaceRemoves(s0, ',', "");
    var s2 := Replace(s1, ".", "");
    ReplaceRemoves(s1, '.', "");
    var s3 := Replace(s2, "-", " ");
    ReplaceRemoves(s2, '-', " ");
    var s4 := Replace(s3, "_", " ");
    ReplaceRemoves(s3, '_', " ");
    var s5 := Replace(s4, "  ", " ");
    Strip(s5)
  }

  /** `set(normalize_name(name).split())`. */
  function Parts(name: string): set<string> {
    set w | w in Words(NormalizeName(name))
  }

  /** `a in b or b in a`. */
  predicate Overlap(a: string, b: string) {
    Contains(b, a) || Contains(a, b)
  }

  /** Some word of one set is a substring of some word of the other. */
  predicate AnyOverlap(p1: set<string>, p2: set<string>) {
    exists a, b :: a in p1 && b in p2 && Overlap(a, b)
  }

  /** The same, for words of at least four characters. */
  predicate AnyLongOverlap(p1: set<string>, p2: set<string>) {
    exists a, b :: a in p1 && b in p2 && |a| >= 4 && |b| >= 4 && Overlap(a, b)
  }

  /** `names_match` on the two word sets. The Jaccard test
      `common/all > 0.5` is the integer test `2 * common > all`. For sets of
      other than one word the result is decided by two shared words or two
      long overlapping words alone: the Jaccard test never changes it. */
  function MatchWords(p1: set<string>, p2: set<string>): (b: bool)
    ensures |p1| != 1 && |p2| != 1 ==> (b <==> |p1 * p2| >= 2 || AnyLongOverlap(p1, p2))
  {
    if |p1| == 1 || |p2| == 1 then AnyOverlap(p1, p2)
    else
      var common := p1 * p2;
      var all := p1 + p2;
      JaccardNeverDecides(p1, p2);
      if |common| >= 2 || (|all| > 0 && 2 * |common| > |all|) then true
      else AnyLongOverlap(p1, p2)
  }

  /** `names_match(name1, name2)`. */
  function NamesMatch(name1: string, name2: string): bool {
    MatchWords(Parts(name1), Parts(name2))
  }

  /** When neither set has exactly one word, a Jaccard similarity above one
      half already means two shared words. */
  lemma JaccardNeverDecides(p1: set<string>, p2: set<string>)
    requires |p1| != 1 && |p2| != 1
    ensures 2 * |p1 * p2| > |p1 + p2| ==> |p1 * p2| >= 2
  {
    if |p1 * p2| == 1 {
      var w :| w in p1 * p2;
      assert w in p1 && w in p2;
      assert |p1| >= 2 && |p2| >= 2;
      assert |p1 + p2| + |p1 * p2| == |p1| + |p2|;
    }
  }

  /** A one-word name matches exactly when one of its words and one of the
      other's words are substrings of each other. */
  lemma SingleWordRule(name1: string, name2: string)
    requires |Parts(name1)| == 1 || |Parts(name2)| == 1
    ensures NamesMatch(name1, name2) <==> AnyOverlap(Parts(name1), Parts(name2))
  {
  }

  /** The multi-word rule: two shared words, or two words of at least four
      characters one inside the other. */
  lemma MultiWordRule(name1: string, name2: string)
    requires |Parts(name1)| != 1 && |Parts(name2)| != 1
    ensures NamesMatch(name1, name2) <==>
      |Parts(name1) * Parts(name2)| >= 2 || AnyLongOverlap(Parts(name1), Parts(name2))
  {
  }

  /** Matching does not depend on argument order. */
  lemma NamesMatchSymmetric(name1: string, name2: string)
    ensures NamesMatch(name1, name2) == NamesMatch(name2, name1)
  {
    MatchWordsSymmetric(Parts(name1), Parts(name2));
  }

  lemma MatchWordsSymmetric(p1: set<string>, p2: set<string>)
    ensures MatchWords(p1, p2) == MatchWords(p2, p1)
  {
    assert p1 * p2 == p2 * p1;
    assert AnyOverlap(p1, p2) <==> AnyOverlap(p2, p1) by {
      if AnyOverlap(p1, p2) {
        var a, b :| a in p1 && b in p2 && Overlap(a, b);
        assert Overlap(b, a);
      }
      if AnyOverlap(p2, p1) {
        var a, b :| a in p2 && b in p1 && Overlap(a, b);
        assert Overlap(b, a);
      }
    }
    assert AnyLongOverlap(p1, p2) <==> AnyLongOverlap(p2, p1) by {
      if AnyLongOverlap(p1, p2) {
        var a, b :| a in p1 && b in p2 && |a| >= 4 && |b| >= 4 && Overlap(a, b);
        assert Overlap(b, a);
      }
      if AnyLongOverlap(p2, p1) {
        var a, b :| a in p2 && b in p1 && |a| >= 4 && |b| >= 4 && Overlap(a, b);
        assert Overlap(b, a);
      }
    }
  }

  /** A name with at least one word matches itself. */
  lemma NamesMatchReflexive(name: string)
    requires |Parts(name)| >= 1
    ensures NamesMatch(name, name)
  {
    var p := Parts(name);
    var w :| w in p;
    ContainsItself(w);
    assert Overlap(w, w);
    assert p * p == p;
    assert MatchWords(p, p);
  }

  /** A name that normalises to no words matches nothing. */
  lemma NoWordsMatchNothing(name1: string, name2: string)
    requires Words(NormalizeName(name1)) == []
    ensures !NamesMatch(name1, name2) && !NamesMatch(name2, name1)
  {
    var p1, p2 := Parts(name1), Parts(name2);
    assert p1 == {};
    EmptyMatchesNothing(p2);
    MatchWordsSymmetric(p1, p2);
  }

  lemma EmptyMatchesNothing(p: set<string>)
    ensures !MatchWords({}, p)
  {
    assert {} * p == {};
  }

  // ---------------------------------------------------------------------
  // Sanctions analysis (the XML parsing is left out; each entity is given
  // by the names and detail values read from it)

  datatype Info = Info(kind: string, category: string, status: string)

  /** One sanctioned entity: `names` is `None` when it has no names element. */
  datatype Entity = Entity(
    names: Option<seq<string>>,
    programs: seq<string>,
    addresses: seq<string>,
    idNumbers: seq<string>,
    generalInfo: Option<Info>)

  /** `additional_info` is `{}` (None) when the entity has no general info. */
  datatype Details = Details(programs: seq<string>, addresses: seq<string>, idNumbers: seq<string>, additionalInfo: Option<Info>)

  datatype Match = Match(entityName: string, allNames: seq<string>, matchScore: real, details: Details)

  datatype Analysis =
    | Analysis(matches: seq<Match>, totalMatches: nat, totalEntriesAnalyzed: nat)
    | Failure(error: string)

  /** `list(set(filter(None, names)))`: the non-empty names, each once.
      Python leaves the order of a set unspecified; first occurrence is used. */
  function Distinct(names: seq<string>): (r: seq<string>)
    ensures forall n :: n in r <==> n in names && n != ""
    ensures forall i, j :: 0 <= i < j < |r| ==> r[i] != r[j]
  {
    if |names| == 0 then []
    else
      var rest := Distinct(names[..|names| - 1]);
      var n := names[|names| - 1];
      assert forall x :: x in names <==> x in names[..|names| - 1] || x == n;
      if n == "" || n in rest then rest else rest + [n]
  }

  /** The first name the test accepts, as the inner loop's `break` picks it. */
  function FirstWhere(names: seq<string>, test: string -> bool): (r: Option<nat>)
    ensures r.Some? ==> r.value < |names| && test(names[r.value])
    ensures r.Some? ==> forall k :: 0 <= k < r.value ==> !test(names[k])
    ensures r.None? <==> forall k :: 0 <= k < |names| ==> !test(names[k])
  {
    if |names| == 0 then None
    else if test(names[0]) then Some(0)
    else
      assert forall k :: 1 <= k < |names| ==> names[k] == names[1..][k - 1];
      match FirstWhere(names[1..], test)
      case None => None
      case Some(k) => Some(k + 1)
  }

  function DetailsOf(e: Entity): Details {
    Details(e.programs, e.addresses, e.idNumbers, e.generalInfo)
  }

  /** `names_match(name, company_name)` as a test on list names. */
  function CompanyTest(company: string): (test: string -> bool)
    ensures forall n :: test(n) == NamesMatch(n, company)
  {
    n => NamesMatch(n, company)
  }

  /** The match recorded for one entity under a name test, if any. */
  function MatchOf(e: Entity, test: string -> bool): (r: Option<Match>)
    ensures r.Some? <==> e.names.Some? && exists n :: n in Distinct(e.names.value) && test(n)
    ensures r.Some? ==> (r.value.matchScore == 1.0 && r.value.entityName in r.value.allNames
      && test(r.value.entityName) && r.value.details == DetailsOf(e))
  {
    if e.names.None? then None
    else
      var names := Distinct(e.names.value);
      match FirstWhere(names, test)
      case None => None
      case Some(k) => Some(Match(names[k], names, 1.0, DetailsOf(e)))
  }

  /** Reference definition: one match per matching entity, in list order. */
  function Matches(entities: seq<Entity>, test: string -> bool): seq<Match> {
    if |entities| == 0 then []
    else
      var m := MatchOf(entities[|entities| - 1], test);
      Matches(entities[..|entities| - 1], test) + (if m.Some? then [m.value] else [])
  }

  /** One more entity adds its match, if any, at the end. */
  lemma MatchesLast(entities: seq<Entity>, i: nat, test: string -> bool)
    requires i < |entities|
    ensures Matches(entities[..i + 1], test) ==
      Matches(entities[..i], test) + (if MatchOf(entities[i], test).Some? then [MatchOf(entities[i], test).value] else [])
  {
    assert entities[..i + 1][..i] == entities[..i];
  }

  /** At most one match per entity, every match is a genuine name match with
      score 1.0, and an entity with a matching name is never missed. */
  lemma {:induction false} MatchesSound(entities: seq<Entity>, company: string)
    ensures |Matches(entities, CompanyTest(company))| <= |entities|
    ensures forall m :: m in Matches(entities, CompanyTest(company)) ==>
      m.matchScore == 1.0 && m.entityName in m.allNames && NamesMatch(m.entityName, company)
    ensures forall e :: e in entities && MatchOf(e, CompanyTest(company)).Some? ==>
      MatchOf(e, CompanyTest(company)).value in Matches(entities, CompanyTest(company))
  {
    if |entities| > 0 {
      var init := entities[..|entities| - 1];
      MatchesSound(init, company);
      assert forall e :: e in entities ==> e in init || e == entities[|entities| - 1];
    }
  }

  /** The loop over one entity's names, stopping at the first match. */
  method MatchEntity(e: Entity, test: string -> bool) returns (m: Option<Match>)
    ensures m == MatchOf(e, test)
  {
    if e.names.None? {
      return None;
    }
    var names := Distinct(e.names.value);
    var j := 0;
    while j < |names|
      invariant 0 <= j <= |names|
      invariant forall k :: 0 <= k < j ==> !test(names[k])
    {
      if test(names[j]) {
        return Some(Match(names[j], names, 1.0, DetailsOf(e)));
      }
      j := j + 1;
    }
    return None;
  }

  /** The entity loop of `analyze_sanctions_data`: no entities is an error;
      otherwise each entity contributes the details of its first matching
      name, and the totals are the number of matches and of entities. */
  method AnalyzeSanctions(company: string, entities: seq<Entity>) returns (r: Analysis)
    ensures |entities| == 0 ==> r == Failure("No se encontraron entidades en el archivo XML")
    ensures |entities| > 0 ==>
      r == Analysis(Matches(entities, CompanyTest(company)), |Matches(entities, CompanyTest(company))|, |entities|)
  {
    if |entities| == 0 {
      return Failure("No se encontraron entidades en el archivo XML");
    }
    var test := CompanyTest(company);
    var matches: seq<Match> := [];
    var i := 0;
    while i < |entities|
      invariant 0 <= i <= |entities|
      invariant matches == Matches(entities[..i], test)
    {
      MatchesLast(entities, i, test);
      var m := MatchEntity(entities[i], test);
      if m.Some? {
        matches := matches + [m.value];
      }
      i := i + 1;
    }
    assert entities[..i] == entities;
    return Analysis(matches, |matches|, |entities|);
  }

  // ---------------------------------------------------------------------
  // Routing

  /** `should_continue`: stop ("output") when the last message has no tool
      calls or three messages in the history already carry tool calls. */
  function ShouldContinue(messages: seq<Message>): (r: string)
    requires |messages| > 0
    ensures r == "tools" || r == "output"
    ensures r == "tools" <==> HasToolCalls(messages[|messages| - 1]) && CountToolCallers(messages) < 3
  {
    if !HasToolCalls(messages[|messages| - 1]) then "output"
    else if CountToolCallers(messages) >= 3 then "output"
    else "tools"
  }

  /** Once three tool-calling messages are in the history, appending more
      messages never leads back to the tools. */
  lemma {:induction false} ToolRoundsCapped(messages: seq<Message>, more: seq<Message>)
    requires CountToolCallers(messages) >= 3 && |more| > 0
    ensures ShouldContinue(messages + more) == "output"
    decreases |more|
  {
    CountGrows(messages, more);
  }

  lemma {:induction false} CountGrows(a: seq<Message>, b: seq<Message>)
    ensures CountToolCallers(a + b) >= CountToolCallers(a)
    decreases |b|
  {
    if |b| > 0 {
      assert (a + b)[..|a + b| - 1] == a + b[..|b| - 1];
      CountGrows(a, b[..|b| - 1]);
    } else {
      assert a + b == a;
    }
  }

  const Workflow: G.Graph := G.Graph(
    "research",
    {"research", "tools", "output"},
    {("tools", "research"), ("output", G.END)},
    map["research" := G.Direct])

  /** The router's answer always names a node of the graph; tools lead back
      to research and output to the end. */
  lemma WorkflowRoutes(messages: seq<Message>)
    requires |messages| > 0
    ensures G.Next(Workflow, "research", ShouldContinue(messages)) == {ShouldContinue(messages)}
    ensures ShouldContinue(messages) in Workflow.nodes
    ensures G.Next(Workflow, "tools", "") == {"research"}
    ensures G.Next(Workflow, "output", "") == {G.END}
  {
    assert G.Fixed(Workflow, "research") == {};
    assert G.Fixed(Workflow, "tools") == {"research"};
    assert G.Fixed(Workflow, "output") == {G.END};
  }

  // ---------------------------------------------------------------------
  // Tool node

  const ToolNames: set<string> := {"analyze_sanctions_data", "web_research"}

  /** The dictionary, the tool messages so far, and the exception that ended
      the node, if any. */
  datatype Progress = Progress(entries: seq<Entry>, msgs: seq<Message>, raised: Option<string>)

  /** The tool message for one call: the returned value's `str`, or the
      error text when the tool raised. */
  function Reply(c: ToolCall, out: Result<ToolOutput>): (m: Message)
    ensures m.ToolMessage? && m.toolCallId == c.id
  {
    match out
    case Err(e) => ToolMessage("Error: " + e, c.id)
    case Ok(o) => ToolMessage(o.repr, c.id)
  }

  /** Reference definition of the tool node over its calls and the value each
      tool invocation returned or raised. An unknown tool name raises
      `KeyError` outside the `try` and ends the node. */
  function Processed(es: seq<Entry>, calls: seq<ToolCall>, outs: seq<Result<ToolOutput>>): Progress
    requires |calls| == |outs|
  {
    if |calls| == 0 then Progress(es, [], None)
    else
      var p := Processed(es, calls[..|calls| - 1], outs[..|outs| - 1]);
      var c := calls[|calls| - 1];
      var out := outs[|outs| - 1];
      if p.raised.Some? then p
      else if c.name !in ToolNames then Progress(p.entries, p.msgs, Some("'" + c.name + "'"))
      else Progress(Stored(p.entries, c, out), p.msgs + [Reply(c, out)], None)
  }

  /** The dictionary after one call: a list returned by `web_research` is
      merged into it; any other outcome leaves it as it was. */
  function Stored(es: seq<Entry>, c: ToolCall, out: Result<ToolOutput>): seq<Entry> {
    if c.name == "web_research" && out.Ok? && out.value.ListOutput?
    then Merged(es, Dicts(out.value.items)).entries else es
  }

  /** One more call with a known tool, after no exception so far. */
  lemma ProcessedStep(es: seq<Entry>, calls: seq<ToolCall>, outs: seq<Result<ToolOutput>>, i: nat)
    requires |calls| == |outs| && i < |calls| && calls[i].name in ToolNames
    requires Processed(es, calls[..i], outs[..i]).raised.None?
    ensures var p := Processed(es, calls[..i], outs[..i]);
      Processed(es, calls[..i + 1], outs[..i + 1]) ==
        Progress(Stored(p.entries, calls[i], outs[i]), p.msgs + [Reply(calls[i], outs[i])], None)
  {
    assert calls[..i + 1][..i] == calls[..i];
    assert outs[..i + 1][..i] == outs[..i];
  }

  /** An unknown tool name, after no exception so far, raises. */
  lemma ProcessedUnknown(es: seq<Entry>, calls: seq<ToolCall>, outs: seq<Result<ToolOutput>>, i: nat)
    requires |calls| == |outs| && i < |calls| && calls[i].name !in ToolNames
    requires Processed(es, calls[..i], outs[..i]).raised.None?
    ensures var p := Processed(es, calls[..i], outs[..i]);
      Processed(es, calls[..i + 1], outs[..i + 1]) == Progress(p.entries, p.msgs, Some("'" + calls[i].name + "'"))
  {
    assert calls[..i + 1][..i] == calls[..i];
    assert outs[..i + 1][..i] == outs[..i];
  }

  /** The last call of a run that has not raised yet: it raises exactly when
      its tool is unknown, and otherwise adds its reply. */
  lemma ProcessedLast(es: seq<Entry>, calls: seq<ToolCall>, outs: seq<Result<ToolOutput>>)
    requires |calls| == |outs| && |calls| > 0
    ensures var n := |calls| - 1;
      var p := Processed(es, calls[..n], outs[..n]);
      var q := Processed(es, calls, outs);
      && (q.raised.None? <==> p.raised.None? && calls[n].name in ToolNames)
      && (q.raised.None? ==> q.msgs == p.msgs + [Reply(calls[n], outs[n])])
  {
  }

  /** After an exception, one more call changes nothing. */
  lemma ProcessedRaisedStays(es: seq<Entry>, calls: seq<ToolCall>, outs: seq<Result<ToolOutput>>)
    requires |calls| == |outs| && |calls| > 0
    requires Processed(es, calls[..|calls| - 1], outs[..|calls| - 1]).raised.Some?
    ensures Processed(es, calls, outs) == Processed(es, calls[..|calls| - 1], outs[..|calls| - 1])
  {
  }

  /** Unless a tool name is unknown, there is one tool message per call, in
      call order, with that call's id, also for calls whose tool raised. */
  lemma {:induction false} ProcessedAnswers(es: seq<Entry>, calls: seq<ToolCall>, outs: seq<Result<ToolOutput>>)
    requires |calls| == |outs|
    ensures Processed(es, calls, outs).raised.None? ==> AnswersCalls(Processed(es, calls, outs).msgs, calls)
    decreases |calls|
  {
    if |calls| > 0 {
      var n := |calls| - 1;
      ProcessedLast(es, calls, outs);
      if Processed(es, calls, outs).raised.None? {
        ProcessedAnswers(es, calls[..n], outs[..n]);
        AnswersCallsLast(Processed(es, calls[..n], outs[..n]).msgs, Reply(calls[n], outs[n]), calls);
      }
    }
  }

  /** Every call names a known tool. */
  predicate KnownTools(calls: seq<ToolCall>) {
    forall k :: 0 <= k < |calls| ==> calls[k].name in ToolNames
  }

  lemma KnownToolsLast(calls: seq<ToolCall>)
    requires |calls| > 0
    ensures KnownTools(calls) <==> KnownTools(calls[..|calls| - 1]) && calls[|calls| - 1].name in ToolNames
  {
    var n := |calls| - 1;
    assert forall k :: 0 <= k < n ==> calls[..n][k] == calls[k];
  }

  /** The node raises exactly when some call names an unknown tool. */
  lemma {:induction false} ProcessedRaises(es: seq<Entry>, calls: seq<ToolCall>, outs: seq<Result<ToolOutput>>)
    requires |calls| == |outs|
    ensures Processed(es, calls, outs).raised.None? <==> KnownTools(calls)
    decreases |calls|
  {
    if |calls| > 0 {
      var n := |calls| - 1;
      ProcessedRaises(es, calls[..n], outs[..n]);
      ProcessedLast(es, calls, outs);
      KnownToolsLast(calls);
    }
  }

  /** The dictionary keeps unique keys and only grows. */
  lemma {:induction false} ProcessedValid(es: seq<Entry>, calls: seq<ToolCall>, outs: seq<Result<ToolOutput>>)
    requires |calls| == |outs| && UniqueUrls(es)
    ensures UniqueUrls(Processed(es, calls, outs).entries)
    decreases |calls|
  {
    if |calls| > 0 {
      ProcessedValid(es, calls[..|calls| - 1], outs[..|outs| - 1]);
    }
  }

  /** A stored document is never replaced by a later one with the same URL. */
  lemma ProcessedKeepsStored(es: seq<Entry>, calls: seq<ToolCall>, outs: seq<Result<ToolOutput>>, u: string)
    requires |calls| == |outs| && u in Urls(es)
    ensures Lookup(Processed(es, calls, outs).entries, u) == Lookup(es, u)
  {
    ProcessedGrows(es, calls, outs);
    LookupExtended(es, Processed(es, calls, outs).entries, u);
  }

  /** The dictionary only grows. */
  lemma {:induction false} ProcessedGrows(es: seq<Entry>, calls: seq<ToolCall>, outs: seq<Result<ToolOutput>>)
    requires |calls| == |outs|
    ensures es <= Processed(es, calls, outs).entries
    decreases |calls|
  {
    if |calls| > 0 {
      ProcessedGrows(es, calls[..|calls| - 1], outs[..|outs| - 1]);
    }
  }

  /** The dictionary update of one call. */
  method StoreResult(store: Store, c: ToolCall, out: Result<ToolOutput>)
    requires store.Valid()
    modifies store
    ensures store.Valid()
    ensures store.entries == Stored(old(store.entries), c, out)
  {
    if c.name == "web_research" && out.Ok? && out.value.ListOutput? {
      var _ := store.AddAll(Dicts(out.value.items));
    }
  }

  /** `tool_node`: runs the calls of the last message in order against the
      shared `documents` dictionary. `Err` is the `KeyError` an unknown tool
      name raises out of the node. */
  method ToolNode(store: Store, calls: seq<ToolCall>, outs: seq<Result<ToolOutput>>) returns (r: Result<seq<Message>>)
    requires |calls| == |outs| && store.Valid()
    modifies store
    ensures store.Valid()
    ensures var p := Processed(old(store.entries), calls, outs);
      && store.entries == p.entries
      && (p.raised.None? ==> r == Ok(p.msgs))
      && (p.raised.Some? ==> r == Err(p.raised.value))
  {
    ghost var es := store.entries;
    var msgs: seq<Message> := [];
    var i := 0;
    while i < |calls|
      invariant 0 <= i <= |calls|
      invariant store.Valid()
      invariant Processed(es, calls[..i], outs[..i]) == Progress(store.entries, msgs, None)
    {
      var c := calls[i];
      if c.name !in ToolNames {
        ProcessedUnknown(es, calls, outs, i);
        ProcessedStops(es, calls, outs, i + 1);
        return Err("'" + c.name + "'");
      }
      ProcessedStep(es, calls, outs, i);
      StoreResult(store, c, outs[i]);
      msgs := msgs + [Reply(c, outs[i])];
      i := i + 1;
    }
    assert calls[..i] == calls && outs[..i] == outs;
    return Ok(msgs);
  }

  /** After an exception, the remaining calls change nothing. */
  lemma {:induction false} ProcessedStops(es: seq<Entry>, calls: seq<ToolCall>, outs: seq<Result<ToolOutput>>, n: nat)
    requires |calls| == |outs| && n <= |calls|
    requires Processed(es, calls[..n], outs[..n]).raised.Some?
    ensures Processed(es, calls, outs) == Processed(es, calls[..n], outs[..n])
    decreases |calls| - n
  {
    if n < |calls| {
      var m := |calls| - 1;
      assert calls[..m][..n] == calls[..n] && outs[..m][..n] == outs[..n];
      ProcessedStops(es, calls[..m], outs[..m], n);
      ProcessedRaisedStays(es, calls, outs);
    } else {
      assert calls[..n] == calls && outs[..n] == outs;
    }
  }
}
