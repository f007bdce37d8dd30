/** The deployed meeting-minutes graph: draft, one round of reflection, a
    human critique, and a revision unless the critique approves. */
module MinutesCloud {
  import opened Text
  import opened Messages
  import opened MinutesNodes
  import G = Graph

  /** `should_continue_reflection`: after the first draft (two messages)
      the critic reflects; from the second draft on, the human critiques. */
  function ShouldContinueReflection(messages: seq<Message>): (r: string)
    ensures r == "human_critique" || r == "reflect"
    ensures r == "human_critique" <==> |messages| > 2
  {
    if |messages| > 2 then "human_critique" else "reflect"
  }

  /** The approval test of the revision router: exactly "aprobado" after
      stripping, or nothing but whitespace. */
  predicate Approves(content: string) {
    Strip(content) == "aprobado" || IsBlank(content)
  }

  /** `should_continue_revision`: the run ends when the last message
      approves, and goes to the revision otherwise. */
  function ShouldContinueRevision(messages: seq<Message>): (r: string)
    requires |messages| > 0
    ensures r == G.END || r == "revision"
    ensures r == G.END <==> Approves(messages[|messages| - 1].content)
  {
    var last := messages[|messages| - 1].content;
    if Strip(last) == "aprobado" || Strip(last) == [] then G.END else "revision"
  }

  /** Stripping cannot turn a string into a different one at least as
      long. */
  lemma StripNotInto(s: string, t: string)
    requires |s| <= |t| && s != t
    ensures Strip(s) != t
  {
    var r := Strip(s);
    var i :| 0 <= i <= |s| - |r| && OccursAt(s, r, i);
    if |r| == |t| {
      assert r == s[i..i + |r|] == s;
    }
  }

  /** The comparison is case-sensitive: "Aprobado" asks for a revision. */
  lemma ApprovalIsCaseSensitive(messages: seq<Message>)
    requires |messages| > 0 && messages[|messages| - 1].content == "Aprobado"
    ensures ShouldContinueRevision(messages) == "revision"
  {
    var s := messages[|messages| - 1].content;
    assert s[0] != "aprobado"[0];
    StripNotInto(s, "aprobado");
    assert !IsSpace(s[0]);
  }

  /** `human_critique_node`: one empty human message. */
  function HumanCritique(): (delta: seq<Message>)
    ensures |delta| == 1 && delta[0].HumanMessage? && IsBlank(delta[0].content)
  {
    [HumanMessage("")]
  }

  /** An empty critique approves, so the revision router then ends the run
      whatever came before it. */
  lemma CritiqueEndsRun(messages: seq<Message>)
    ensures ShouldContinueRevision(messages + HumanCritique()) == G.END
  {
    var m := messages + HumanCritique();
    assert m[|m| - 1].content == "";
    assert LStrip("") == "" && RStrip("") == "";
    assert Strip(m[|m| - 1].content) == [];
  }

  const Workflow: G.Graph := G.Graph(
    "generate",
    {"generate", "reflect", "human_critique", "revision"},
    {("reflect", "generate")},
    map["generate" := G.Direct, "human_critique" := G.Direct])

  /** Only the drafting node and the critique branch; the reflection always
      returns to drafting, and the revision node has no outgoing edge, so a
      run stops after it. */
  lemma WorkflowShape()
    ensures Workflow.entry == "generate"
    ensures Workflow.branches.Keys == {"generate", "human_critique"}
    ensures G.Next(Workflow, "reflect", "") == {"generate"}
    ensures forall route :: G.Next(Workflow, "generate", route) == {route}
    ensures forall route :: G.Next(Workflow, "human_critique", route) == {route}
    ensures G.Dead(Workflow, "revision")
  {
    assert G.Fixed(Workflow, "generate") == {};
    assert G.Fixed(Workflow, "human_critique") == {};
    assert G.Fixed(Workflow, "reflect") == {"generate"};
    assert G.Fixed(Workflow, "revision") == {};
  }

  /** The history after the first draft, the critic's reflection on it and
      the second draft. */
  function FirstRound(seed: Message, draft1: string, reflect: seq<Message> -> string, draft2: string): seq<Message> {
    var m1 := [seed] + DraftDelta(draft1);
    var feedback := ReflectionNode(m1, reflect);
    m1 + (if feedback.Ok? then feedback.value else []) + DraftDelta(draft2)
  }

  /** From one seed message: a draft, then a reflection, which always
      succeeds on that history, so the second draft makes four messages. */
  lemma RunReflectsOnce(seed: Message, draft1: string, reflect: seq<Message> -> string, draft2: string)
    ensures ShouldContinueReflection([seed] + DraftDelta(draft1)) == "reflect"
    ensures ReflectionNode([seed] + DraftDelta(draft1), reflect).Ok?
    ensures |FirstRound(seed, draft1, reflect, draft2)| == 4
  {
    var m1 := [seed] + DraftDelta(draft1);
    assert Swappable(m1[1]);
  }

  /** After the second draft the human critique follows, and its empty
      message ends the run (the graph hands over to the node each router
      names). */
  lemma RunEndsAfterCritique(seed: Message, draft1: string, reflect: seq<Message> -> string, draft2: string)
    ensures ShouldContinueReflection(FirstRound(seed, draft1, reflect, draft2)) == "human_critique"
    ensures ShouldContinueRevision(FirstRound(seed, draft1, reflect, draft2) + HumanCritique()) == G.END
  {
    RunReflectsOnce(seed, draft1, reflect, draft2);
    CritiqueEndsRun(FirstRound(seed, draft1, reflect, draft2));
  }
}
