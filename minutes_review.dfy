/** The meeting-minutes graph that stops for a human review: after one
    round of reflection every new draft goes to the human critique until a
    draft reads "Aprobado" or is blank. */
module MinutesReview {
  import opened Text
  import opened Messages
  import opened MinutesNodes
  import C = MinutesCloud
  import G = Graph

  /** The approval test of this graph: exactly "Aprobado" after stripping,
      or nothing but whitespace. */
  predicate Approves(content: string) {
    Strip(content) == "Aprobado" || IsBlank(content)
  }

  /** `should_continue`: reflection while the history has at most two
      messages; after that the run ends on an approving last message and
      goes to the human critique otherwise. */
  function ShouldContinue(messages: seq<Message>): (r: string)
    ensures r == "reflect" || r == G.END || r == "human_critique"
    ensures r == "reflect" <==> |messages| <= 2
    ensures r == G.END <==> |messages| > 2 && Approves(messages[|messages| - 1].content)
  {
    if |messages| > 2 then
      var last := messages[|messages| - 1].content;
      if Strip(last) == "Aprobado" || Strip(last) == [] then G.END else "human_critique"
    else "reflect"
  }

  /** The router runs only after drafting, so once the first round is over
      it judges the draft that was just added. */
  lemma JudgesNewDraft(messages: seq<Message>, draft: string)
    requires |messages| >= 2
    ensures ShouldContinue(messages + DraftDelta(draft)) == G.END <==> Approves(draft)
    ensures ShouldContinue(messages + DraftDelta(draft)) != G.END ==>
      ShouldContinue(messages + DraftDelta(draft)) == "human_critique"
  {
    var m := messages + DraftDelta(draft);
    assert m[|m| - 1] == AIMessage(draft, []);
  }

  /** The capitalised word is the one that approves here: the lower-case
      "aprobado" the deployed graph expects is sent back to the critique. */
  lemma LowerCaseIsNotApproval(messages: seq<Message>)
    requires |messages| > 2 && messages[|messages| - 1].content == "aprobado"
    ensures ShouldContinue(messages) == "human_critique"
  {
    var s := messages[|messages| - 1].content;
    assert s[0] != "Aprobado"[0];
    C.StripNotInto(s, "Aprobado");
    assert !IsSpace(s[0]);
  }

  /** `human_critique_node` returns the state, adding no message. */
  const CritiqueDelta: seq<Message> := []

  const Workflow: G.Graph := G.Graph(
    "generate",
    {"generate", "reflect", "human_critique"},
    {("reflect", "generate"), ("human_critique", "generate")},
    map["generate" := G.Direct])

  /** Drafting is the only conditional node; reflection and critique both
      lead back to it, so the run can only end right after a draft. */
  lemma WorkflowShape()
    ensures Workflow.entry == "generate"
    ensures Workflow.branches.Keys == {"generate"}
    ensures G.Next(Workflow, "reflect", "") == {"generate"}
    ensures G.Next(Workflow, "human_critique", "") == {"generate"}
    ensures forall route :: G.Next(Workflow, "generate", route) == {route}
  {
    assert G.Fixed(Workflow, "reflect") == {"generate"};
    assert G.Fixed(Workflow, "human_critique") == {"generate"};
    assert G.Fixed(Workflow, "generate") == {};
  }
}
