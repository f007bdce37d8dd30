/** The checkpointed meeting-minutes graph: the same routers and wiring as
    the deployed one, but its human critique node returns the state as it
    is, so the revision router reads whatever message is last when the
    critique step runs. */
module MinutesLocal {
  import opened Messages
  import opened MinutesNodes
  import C = MinutesCloud
  import G = Graph

  /** `human_critique_node` of the shared nodes: it returns the state, which
      adds no message. */
  const CritiqueDelta: seq<Message> := []

  /** With nothing added by the critique, the revision router judges the
      second draft itself: the run ends exactly when that draft approves,
      and otherwise the revision runs, after which nothing is scheduled. */
  lemma RunJudgesDraft(seed: Message, draft1: string, reflect: seq<Message> -> string, draft2: string)
    ensures C.ShouldContinueReflection(C.FirstRound(seed, draft1, reflect, draft2)) == "human_critique"
    ensures C.ShouldContinueRevision(C.FirstRound(seed, draft1, reflect, draft2) + CritiqueDelta) == G.END
      <==> C.Approves(draft2)
  {
    C.RunReflectsOnce(seed, draft1, reflect, draft2);
    var m := C.FirstRound(seed, draft1, reflect, draft2);
    assert m + CritiqueDelta == m;
    assert m[|m| - 1] == AIMessage(draft2, []);
  }
}
