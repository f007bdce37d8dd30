/** The nodes of the meeting-minutes reflection graphs: a drafting node that
    adds the minutes as one AI message, and a reflection node that shows
    the history to the critic with the roles of the draft and the critique
    exchanged and adds the critic's answer as one human message. */
module MinutesNodes {
  import opened Wrappers
  import opened Messages

  /** LangChain's `message.type`. */
  function TypeName(m: Message): string {
    match m
    case HumanMessage(_) => "human"
    case AIMessage(_, _) => "ai"
    case SystemMessage(_) => "system"
    case ToolMessage(_, _) => "tool"
  }

  /** `cls_map[msg.type](content=msg.content)` with `cls_map = {"ai":
      HumanMessage, "human": AIMessage}`; another type raises `KeyError`. */
  function Swapped(m: Message): Result<Message> {
    match m
    case AIMessage(c, _) => Ok(HumanMessage(c))
    case HumanMessage(c) => Ok(AIMessage(c, []))
    case _ => Err("'" + TypeName(m) + "'")
  }

  predicate Swappable(m: Message) {
    m.AIMessage? || m.HumanMessage?
  }

  /** The comprehension over `messages[1:]`, evaluated left to right: the
      first message of another type raises. */
  function Translated(ms: seq<Message>): (r: Result<seq<Message>>)
    ensures r.Ok? <==> forall k :: 0 <= k < |ms| ==> Swappable(ms[k])
    ensures r.Ok? ==> |r.value| == |ms|
    ensures r.Ok? ==> forall k :: 0 <= k < |ms| ==> Swapped(ms[k]) == Ok(r.value[k])
    ensures r.Ok? ==> forall k :: 0 <= k < |ms| ==>
      && r.value[k].content == ms[k].content
      && (r.value[k].HumanMessage? <==> ms[k].AIMessage?)
      && (r.value[k].AIMessage? <==> ms[k].HumanMessage?)
  {
    if |ms| == 0 then Ok([])
    else
      match Swapped(ms[0])
      case Err(e) => Err(e)
      case Ok(m) =>
        match Translated(ms[1..])
        case Err(e) => Err(e)
        case Ok(rest) =>
          assert forall k :: 1 <= k < |ms| ==> ms[1..][k - 1] == ms[k];
          Ok([m] + rest)
  }

  /** What `messages[0]` raises on an empty history. */
  const IndexError: string := "list index out of range"

  /** The history as the critic sees it: the first message as it is, then
      every AI message as a human one and every human message as an AI
      one, with the same contents. */
  function SwapRoles(ms: seq<Message>): (r: Result<seq<Message>>)
    ensures |ms| == 0 ==> r == Err(IndexError)
    ensures r.Ok? <==> |ms| > 0 && forall k :: 1 <= k < |ms| ==> Swappable(ms[k])
    ensures r.Ok? ==> |r.value| == |ms| && r.value[0] == ms[0]
    ensures r.Ok? ==> forall k :: 1 <= k < |ms| ==> Swapped(ms[k]) == Ok(r.value[k])
    ensures r.Ok? ==> forall k :: 1 <= k < |ms| ==>
      && r.value[k].content == ms[k].content
      && (r.value[k].HumanMessage? <==> ms[k].AIMessage?)
      && (r.value[k].AIMessage? <==> ms[k].HumanMessage?)
  {
    if |ms| == 0 then Err(IndexError)
    else
      var t := Translated(ms[1..]);
      assert forall k :: 1 <= k < |ms| ==> ms[1..][k - 1] == ms[k];
      if t.Err? then Err(t.error) else Ok([ms[0]] + t.value)
  }

  /** The error names the type of the first message after the first that is
      neither an AI nor a human message. */
  lemma {:induction false} TranslatedRejects(ms: seq<Message>, k: nat)
    requires k < |ms| && !Swappable(ms[k])
    requires forall j :: 0 <= j < k ==> Swappable(ms[j])
    ensures Translated(ms) == Err("'" + TypeName(ms[k]) + "'")
    decreases k
  {
    if k > 0 {
      assert forall j :: 0 <= j < k - 1 ==> ms[1..][j] == ms[j + 1];
      TranslatedRejects(ms[1..], k - 1);
    }
  }

  /** Swapping twice gives the history back, as long as no AI message after
      the first carries tool calls (they are dropped by the swap). */
  lemma SwapRolesTwice(ms: seq<Message>)
    requires SwapRoles(ms).Ok?
    requires forall k :: 1 <= k < |ms| ==> ms[k].AIMessage? ==> ms[k].toolCalls == []
    ensures SwapRoles(SwapRoles(ms).value) == Ok(ms)
  {
    var once := SwapRoles(ms).value;
    var twice := SwapRoles(once);
    assert twice.Ok?;
    forall k | 1 <= k < |ms| ensures twice.value[k] == ms[k] {
      assert Swapped(ms[k]) == Ok(once[k]);
      assert Swapped(once[k]) == Ok(twice.value[k]);
    }
    assert twice.value[0] == once[0] == ms[0];
    assert twice.value == ms;
  }

  /** The delta of a node that drafts or revises the minutes: one AI
      message holding the JSON of the structured answer. */
  function DraftDelta(minutesJson: string): seq<Message> {
    [AIMessage(minutesJson, [])]
  }

  /** `reflection_node`: the critic answers the swapped history, and its
      answer is added as human feedback. `reflect` stands for the model. A
      history the swap rejects makes the node raise. */
  function ReflectionNode(messages: seq<Message>, reflect: seq<Message> -> string): (r: Result<seq<Message>>)
    ensures r.Ok? <==> SwapRoles(messages).Ok?
    ensures r.Ok? ==> |r.value| == 1 && r.value[0].HumanMessage?
    ensures r.Ok? ==> r.value[0].content == reflect(SwapRoles(messages).value)
    ensures r.Err? ==> r.error == SwapRoles(messages).error
  {
    match SwapRoles(messages)
    case Err(e) => Err(e)
    case Ok(translated) => Ok([HumanMessage(reflect(translated))])
  }

  const ReflectionError: string := "An error occurred while generating the reflection: "

  /** `generate_reflection`: never raises; the critic's answer, or the
      error text after a fixed prefix, always as a human message. `reflect`
      stands for the model call, which may fail. */
  function GenerateReflection(messages: seq<Message>, reflect: seq<Message> -> Result<string>): (r: Message)
    ensures r.HumanMessage?
    ensures SwapRoles(messages).Err? ==> r.content == ReflectionError + SwapRoles(messages).error
    ensures SwapRoles(messages).Ok? && reflect(SwapRoles(messages).value).Ok? ==>
      r.content == reflect(SwapRoles(messages).value).value
    ensures SwapRoles(messages).Ok? && reflect(SwapRoles(messages).value).Err? ==>
      r.content == ReflectionError + reflect(SwapRoles(messages).value).error
  {
    match SwapRoles(messages)
    case Err(e) => HumanMessage(ReflectionError + e)
    case Ok(translated) =>
      match reflect(translated)
      case Err(e) => HumanMessage(ReflectionError + e)
      case Ok(answer) => HumanMessage(answer)
  }

  /** When the model answers, the standalone reflection gives the same
      message as the reflection node, and an empty history becomes the
      error message instead of an exception. */
  lemma GenerateReflectionAgrees(messages: seq<Message>, reflect: seq<Message> -> string)
    ensures ReflectionNode(messages, reflect).Ok? ==>
      GenerateReflection(messages, m => Ok(reflect(m))) == ReflectionNode(messages, reflect).value[0]
    ensures messages == [] ==> GenerateReflection(messages, m => Ok(reflect(m))) == HumanMessage(ReflectionError + IndexError)
  {
  }
}
