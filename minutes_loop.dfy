/** The first meeting-minutes graph: draft, reflect once, draft again and
    stop. */
module MinutesLoop {
  import opened Messages
  import opened MinutesNodes
  import C = MinutesCloud
  import G = Graph

  /** `should_continue`: the run ends once the history has more than two
      messages, and reflects otherwise. */
  function ShouldContinue(messages: seq<Message>): (r: string)
    ensures r == G.END || r == "reflect"
    ensures r == G.END <==> |messages| > 2
  {
    if |messages| > 2 then G.END else "reflect"
  }

  const Workflow: G.Graph := G.Graph(
    "generate",
    {"generate", "reflect"},
    {("reflect", "generate")},
    map["generate" := G.Direct])

  lemma WorkflowShape()
    ensures Workflow.entry == "generate"
    ensures G.Next(Workflow, "reflect", "") == {"generate"}
    ensures forall route :: G.Next(Workflow, "generate", route) == {route}
  {
    assert G.Fixed(Workflow, "reflect") == {"generate"};
    assert G.Fixed(Workflow, "generate") == {};
  }

  /** From one seed message, drafting runs exactly twice with one
      reflection between the drafts, and then the run ends. */
  lemma Run(seed: Message, draft1: string, reflect: seq<Message> -> string, draft2: string)
    ensures ShouldContinue([seed] + DraftDelta(draft1)) == "reflect"
    ensures ReflectionNode([seed] + DraftDelta(draft1), reflect).Ok?
    ensures ShouldContinue(C.FirstRound(seed, draft1, reflect, draft2)) == G.END
  {
    C.RunReflectsOnce(seed, draft1, reflect, draft2);
  }
}
