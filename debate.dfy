/** The debate agent: a moderator and two debaters moving through the stages
    topic selection, perspective assignment, opening statements, debate and
    conclusion. Each node returns a delta of the state computed from the
    state and the model's reply; the reply's text is a parameter. */
module Debate {
  import opened Wrappers
  import opened Text
  import opened Messages
  import G = Graph

  const Moderator: string := "Moderador \U{1F3AD}"
  const DebaterA: string := "Debater A \U{1F535}"
  const DebaterB: string := "Debater B \U{1F534}"

  const TopicSelection: string := "topic_selection"
  const PerspectiveAssignment: string := "perspective_assignment"
  const OpeningStatements: string := "opening_statements"
  const DebateStage: string := "debate"
  const Conclusion: string := "conclusion"

  /** `DebateState`; a key the state dict lacks is `None`. */
  datatype State = State(
    messages: seq<Message>,
    topic: Option<string>,
    perspectives: Option<map<string, string>>,
    speaker: Option<string>,
    stage: Option<string>,
    count: Option<int>,
    round: Option<int>)

  /** What a node returns: one reply message and the keys it sets. */
  datatype Delta = Delta(
    message: Message,
    stage: string,
    speaker: string,
    topic: Option<string>,
    perspectives: Option<map<string, string>>,
    count: Option<int>,
    round: Option<int>)

  // ---------------------------------------------------------------------
  // Stages

  /** `get_next_stage`: the next stage of the first three, `debate` stays,
      anything else is returned unchanged. */
  function NextStage(current: string): (r: string)
    ensures current == TopicSelection ==> r == PerspectiveAssignment
    ensures current == PerspectiveAssignment ==> r == OpeningStatements
    ensures current == OpeningStatements || current == DebateStage ==> r == DebateStage
    ensures current !in {TopicSelection, PerspectiveAssignment, OpeningStatements, DebateStage} ==> r == current
  {
    if current == TopicSelection then PerspectiveAssignment
    else if current == PerspectiveAssignment then OpeningStatements
    else if current == OpeningStatements then DebateStage
    else if current == DebateStage then DebateStage
    else current
  }

  /** `get_next_stage` yields `conclusion` only when given it, and after at
      most three steps every stage has reached a fixed point. */
  lemma NextStageSettles(current: string)
    ensures NextStage(current) == Conclusion <==> current == Conclusion
    ensures NextStage(NextStage(NextStage(NextStage(current)))) == NextStage(NextStage(NextStage(current)))
    ensures NextStage(NextStage(NextStage(TopicSelection))) == DebateStage
  {
  }

  // ---------------------------------------------------------------------
  // Nodes

  /** Python truthiness of an optional string. */
  predicate Truthy(s: Option<string>) {
    s.Some? && s.value != ""
  }

  /** `topic_selection_node`. */
  function TopicSelectionNode(s: State, reply: Message): (d: Delta)
    ensures d.stage == PerspectiveAssignment <==> Truthy(s.topic)
    ensures d.stage == PerspectiveAssignment || d.stage == TopicSelection
    ensures d.speaker == Moderator && d.message == reply
    ensures d.topic == Some(s.topic.GetOr(""))
    ensures d.perspectives.None? && d.count.None? && d.round.None?
  {
    var next := if Truthy(s.topic) then NextStage(TopicSelection) else TopicSelection;
    Delta(reply, next, Moderator, Some(s.topic.GetOr("")), None, None, None)
  }

  const MarkerA: string := "[Perspective A]"
  const MarkerB: string := "[Perspective B]"
  const AgreeQuestion: string := "Do you agree"

  /** The two perspectives cut out of the moderator's reply, or `None` where
      Python raises `IndexError` because a marker is missing. */
  function ExtractPerspectives(content: string): (r: Option<map<string, string>>)
    ensures r.Some? ==> r.value.Keys == {"a", "b"}
  {
    var pa := Split(content, MarkerA);
    var pb := Split(content, MarkerB);
    if |pa| < 2 || |pb| < 2 then None
    else Some(map["a" := Strip(Split(pa[1], MarkerB)[0]), "b" := Strip(Split(pb[1], AgreeQuestion)[0])])
  }

  /** The perspectives are found exactly when both markers occur. */
  lemma ExtractPerspectivesFound(content: string)
    ensures ExtractPerspectives(content).Some? <==> Contains(content, MarkerA) && Contains(content, MarkerB)
  {
    SplitHead(content, MarkerA);
    SplitHead(content, MarkerB);
  }

  /** Perspective A stops before the second marker and perspective B before
      the closing question. */
  lemma ExtractPerspectivesCut(content: string)
    requires ExtractPerspectives(content).Some?
    ensures !Contains(ExtractPerspectives(content).value["a"], MarkerB)
    ensures !Contains(ExtractPerspectives(content).value["b"], AgreeQuestion)
  {
    var pa := Split(content, MarkerA);
    var pb := Split(content, MarkerB);
    NoSepAfterStrip(pa[1], MarkerB);
    NoSepAfterStrip(pb[1], AgreeQuestion);
  }

  lemma NoSepAfterStrip(s: string, sep: string)
    requires |sep| > 0
    ensures !Contains(Strip(Split(s, sep)[0]), sep)
  {
    var head := Split(s, sep)[0];
    SplitFirstHasNoSep(s, sep);
    if Contains(Strip(head), sep) {
      ContainsTrans(head, Strip(head), sep);
    }
  }

  const DefaultPerspectives: map<string, string> := map["a" := "Not defined", "b" := "Not defined"]

  const AgreeWords: seq<string> := ["s\U{ED}", "si", "yes", "ok", "procede", "adelante"]

  /** `any(word in last_msg for word in [...])` on the lower-cased text. */
  predicate ShouldProceed(lastMessage: string) {
    exists k :: 0 <= k < |AgreeWords| && Contains(Lower(lastMessage), AgreeWords[k])
  }

  /** The test is on substrings: a refusal whose text contains "si" inside
      another word ("posible") counts as agreement. */
  lemma RefusalCanProceed()
    ensures ShouldProceed("No, no es posible")
  {
    var low := Lower("No, no es posible");
    assert low == "no, no es posible";
    assert low[12..14] == "si";
    assert OccursAt(low, AgreeWords[1], 12);
  }

  /** `perspective_assignment_node`; the state must hold a topic. */
  function PerspectiveAssignmentNode(s: State, reply: Message): (d: Delta)
    requires s.topic.Some?
    ensures var last := if |s.messages| > 0 then s.messages[|s.messages| - 1].content else "";
      && (d.stage == OpeningStatements <==> ShouldProceed(last))
      && (d.stage == OpeningStatements || d.stage == PerspectiveAssignment)
      && (d.speaker == DebaterA <==> d.stage == OpeningStatements)
      && (d.speaker == DebaterA || d.speaker == Moderator)
    ensures ExtractPerspectives(reply.content).Some? ==> d.perspectives == ExtractPerspectives(reply.content)
    ensures ExtractPerspectives(reply.content).None? ==> d.perspectives == Some(s.perspectives.GetOr(DefaultPerspectives))
    ensures d.topic == s.topic && d.message == reply && d.count.None? && d.round.None?
  {
    var perspectives := ExtractPerspectives(reply.content).GetOr(s.perspectives.GetOr(DefaultPerspectives));
    var last := if |s.messages| > 0 then s.messages[|s.messages| - 1].content else "";
    var next := if ShouldProceed(last) then NextStage(PerspectiveAssignment) else PerspectiveAssignment;
    var speaker := if next == OpeningStatements then DebaterA else Moderator;
    Delta(reply, next, speaker, s.topic, Some(perspectives), None, None)
  }

  /** The speaker after `current`: A hands over to B, anyone else to A. */
  function Flip(current: string): (r: string)
    ensures r == DebaterA || r == DebaterB
    ensures r == DebaterB <==> current == DebaterA
  {
    if current == DebaterA then DebaterB else DebaterA
  }

  /** `opening_statements_node`; the state must hold topic and perspectives. */
  function OpeningStatementsNode(s: State, reply: Message): (d: Delta)
    requires s.topic.Some? && s.perspectives.Some?
    ensures d.speaker == Flip(s.speaker.GetOr(DebaterA))
    ensures d.stage == DebateStage <==> d.speaker == DebaterA
    ensures d.stage == DebateStage || d.stage == OpeningStatements
    ensures d.count == Some(0) && d.round == Some(1)
    ensures d.topic == s.topic && d.perspectives == s.perspectives && d.message == reply
  {
    var next := Flip(s.speaker.GetOr(DebaterA));
    var stage := if next == DebaterA then NextStage(OpeningStatements) else OpeningStatements;
    Delta(reply, stage, next, s.topic, s.perspectives, Some(0), Some(1))
  }

  /** Speaker, debate count and round: the part of the state the debate loop
      works on. */
  datatype Turn = Turn(speaker: string, count: int, round: int)

  /** The bookkeeping of `debate_node`: the speaker flips, and count and
      round go up by one when the turn passes back to Debater A. */
  function DebateTurn(t: Turn): (r: Turn)
    ensures r.speaker == Flip(t.speaker)
    ensures r.count - t.count == r.round - t.round
    ensures r.count == t.count + (if r.speaker == DebaterA then 1 else 0)
  {
    var next := Flip(t.speaker);
    var inc := if next == DebaterA then 1 else 0;
    Turn(next, t.count + inc, t.round + inc)
  }

  /** `debate_node`; the state must hold topic, perspectives and count. */
  function DebateNode(s: State, reply: Message): (d: Delta)
    requires s.topic.Some? && s.perspectives.Some? && s.count.Some?
    ensures d.stage == DebateStage && d.message == reply
    ensures d.count.Some? && d.round.Some?
    ensures Turn(d.speaker, d.count.value, d.round.value)
      == DebateTurn(Turn(s.speaker.GetOr(DebaterA), s.count.value, s.round.GetOr(1)))
    ensures d.topic == s.topic && d.perspectives == s.perspectives
  {
    var t := DebateTurn(Turn(s.speaker.GetOr(DebaterA), s.count.value, s.round.GetOr(1)));
    Delta(reply, DebateStage, t.speaker, s.topic, s.perspectives, Some(t.count), Some(t.round))
  }

  /** `conclusion_node`; the state must hold a topic. */
  function ConclusionNode(s: State, reply: Message): (d: Delta)
    requires s.topic.Some?
    ensures d.stage == Conclusion && d.speaker == Moderator && d.message == reply
    ensures d.topic.None? && d.perspectives.None? && d.count.None? && d.round.None?
  {
    Delta(reply, Conclusion, Moderator, None, None, None, None)
  }

  /** `should_continue_debate`. */
  function ShouldContinueDebate(s: State): (r: string)
    requires s.count.Some?
    ensures r == Conclusion <==> s.count.value >= 3
    ensures r == Conclusion || r == DebateStage
  {
    if s.count.value >= 3 then Conclusion else DebateStage
  }

  // ---------------------------------------------------------------------
  // The debate loop

  /** How many times `debate_node` runs, starting from turn `t`, before the
      router sends the debate to its conclusion (None if `fuel` runs out). */
  function DebateRuns(t: Turn, fuel: nat): Option<nat>
    decreases fuel
  {
    var next := DebateTurn(t);
    if next.count >= 3 then Some(1)
    else if fuel == 0 then None
    else match DebateRuns(next, fuel - 1)
      case None => None
      case Some(n) => Some(n + 1)
  }

  /** From Debater A at count `c` the loop runs `2 * (3 - c)` times, from
      Debater B `2 * (3 - c) - 1` times: six and five from a fresh count. */
  lemma {:induction false} DebateRunsCount(speaker: string, c: int, r: int, fuel: nat)
    requires 0 <= c < 3
    requires fuel >= 2 * (3 - c) - (if speaker == DebaterA then 1 else 2)
    ensures DebateRuns(Turn(speaker, c, r), fuel)
      == Some(if speaker == DebaterA then 2 * (3 - c) else 2 * (3 - c) - 1)
    decreases 3 - c, if speaker == DebaterA then 1 else 0
  {
    var next := DebateTurn(Turn(speaker, c, r));
    if speaker == DebaterA {
      assert next == Turn(DebaterB, c, r);
      DebateRunsCount(DebaterB, c, r, fuel - 1);
    } else if c + 1 < 3 {
      assert next == Turn(DebaterA, c + 1, r + 1);
      DebateRunsCount(DebaterA, c + 1, r + 1, fuel - 1);
    }
  }

  /** With the counter at 3 or more the loop still runs once: the router is
      consulted only after `debate_node`. */
  lemma DebateRunsAtLeastOnce(t: Turn)
    requires t.count >= 3
    ensures DebateRuns(t, 0) == Some(1)
  {
  }

  // ---------------------------------------------------------------------
  // Graph

  const Workflow: G.Graph := G.Graph(
    TopicSelection,
    {TopicSelection, PerspectiveAssignment, OpeningStatements, DebateStage, Conclusion},
    {(TopicSelection, PerspectiveAssignment), (PerspectiveAssignment, OpeningStatements),
     (OpeningStatements, DebateStage), (Conclusion, G.END)},
    map[DebateStage := G.Mapped(map[DebateStage := DebateStage, Conclusion := Conclusion])])

  /** The first three nodes follow fixed edges whatever stage they set, so a
      reply the user has not agreed to still leads to the opening
      statements, and only one opening statement is ever made. Debate is the
      only conditional node, and only conclusion reaches the end. */
  lemma WorkflowShape(route: string)
    ensures G.Next(Workflow, TopicSelection, route) == {PerspectiveAssignment}
    ensures G.Next(Workflow, PerspectiveAssignment, route) == {OpeningStatements}
    ensures G.Next(Workflow, OpeningStatements, route) == {DebateStage}
    ensures route == DebateStage || route == Conclusion ==> G.Next(Workflow, DebateStage, route) == {route}
    ensures G.Next(Workflow, Conclusion, route) == {G.END}
    ensures forall n :: n in Workflow.nodes && n != Conclusion ==> G.END !in G.Next(Workflow, n, route)
    ensures Workflow.branches.Keys == {DebateStage}
  {
    assert G.Fixed(Workflow, TopicSelection) == {PerspectiveAssignment};
    assert G.Fixed(Workflow, PerspectiveAssignment) == {OpeningStatements};
    assert G.Fixed(Workflow, OpeningStatements) == {DebateStage};
    assert G.Fixed(Workflow, DebateStage) == {};
    assert G.Fixed(Workflow, Conclusion) == {G.END};
  }
}
