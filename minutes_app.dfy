/** The minutes application: read the transcript, write the minutes,
    critique them, let a human edit the critique, and either rewrite the
    minutes or approve them and render them as Markdown. The writer and the
    critic are the language model, passed in as their answers. */
module MinutesApp {
  import opened Wrappers
  import opened Text
  import opened MinutesTypes
  import W = MinutesWriter
  import G = Graph

  // ---------------------------------------------------------------------
  // Markdown

  function Bullet(item: string): string {
    "- " + item
  }

  function Bullets(items: seq<string>): seq<string> {
    seq(|items|, k requires 0 <= k < |items| => Bullet(items[k]))
  }

  /** `generate_bullet_list`: one "- " line per item; no items, no text. */
  function BulletList(items: seq<string>): (r: string)
    ensures r == "" <==> items == []
  {
    var lines := Bullets(items);
    if lines == [] then "" else
      assert Join(lines, "\n")[..|lines[0]|] == lines[0];
      Join(lines, "\n")
  }

  /** Items without line breaks come back line by line, in order, each
      behind its "- ". */
  lemma BulletListLines(items: seq<string>)
    requires |items| >= 1
    requires forall k :: 0 <= k < |items| ==> '\n' !in items[k]
    ensures |Split(BulletList(items), "\n")| == |items|
    ensures forall k :: 0 <= k < |items| ==> Split(BulletList(items), "\n")[k] == "- " + items[k]
  {
    var lines := Bullets(items);
    forall k | 0 <= k < |lines|
      ensures '\n' !in lines[k]
    {
      assert lines[k] == "- " + items[k];
    }
    SplitJoin(lines, '\n');
  }

  /** A table as both tables are written: a line break, the header, the
      rule, the rows one per line, and a closing line of four spaces. */
  function TableText(header: string, rule: string, rows: seq<string>): string {
    "\n" + header + "\n" + rule + "\n" + Join(rows, "\n") + "\n    "
  }

  /** The lines of a table: its rows, or one empty line if there are
      none, between the header lines and the closing spaces. */
  function TableParts(header: string, rule: string, rows: seq<string>): seq<string> {
    ["", header, rule] + (if rows == [] then [""] else rows) + ["    "]
  }

  lemma JoinHeaderLines(header: string, rule: string)
    ensures Join(["", header, rule], "\n") == "\n" + header + "\n" + rule
  {
    assert ["", header, rule][1..] == [header, rule];
    assert [header, rule][1..] == [rule];
    assert Join([header, rule], "\n") == header + "\n" + rule;
    assert Join(["", header, rule], "\n") == "" + "\n" + (header + "\n" + rule);
  }

  lemma TableIsJoin(header: string, rule: string, rows: seq<string>)
    ensures Join(TableParts(header, rule, rows), "\n") == TableText(header, rule, rows)
  {
    var body := if rows == [] then [""] else rows;
    assert Join(body, "\n") == Join(rows, "\n");
    JoinAppend(body, ["    "], "\n");
    JoinAppend(["", header, rule], body + ["    "], "\n");
    JoinHeaderLines(header, rule);
    assert ["", header, rule] + (body + ["    "]) == TableParts(header, rule, rows);
  }

  /** A table whose header, rule and rows have no line break splits back
      into its lines: an empty first line, the header, the rule, the rows
      (an empty line if there are none) and the closing spaces. */
  lemma TableLines(header: string, rule: string, rows: seq<string>)
    requires '\n' !in header && '\n' !in rule
    requires forall k :: 0 <= k < |rows| ==> '\n' !in rows[k]
    ensures rows != [] ==> Split(TableText(header, rule, rows), "\n") == ["", header, rule] + rows + ["    "]
    ensures rows == [] ==> Split(TableText(header, rule, rows), "\n") == ["", header, rule, "", "    "]
  {
    var parts := TableParts(header, rule, rows);
    TableIsJoin(header, rule, rows);
    forall k | 0 <= k < |parts|
      ensures '\n' !in parts[k]
    {
      if k >= 3 && k < |parts| - 1 {
        assert rows != [] ==> parts[k] == rows[k - 3];
      }
    }
    SplitJoin(parts, '\n');
  }

  const AttendeeHeader: string := "| **Nombre** " + "| **Posición** " + "| **Rol** |"
  const AttendeeRule: string := "|------------|" + "--------------|" + "---------|"

  lemma AttendeeHeaderHasNoBreak()
    ensures '\n' !in AttendeeHeader
  {
    var a, b, c := "| **Nombre** ", "| **Posición** ", "| **Rol** |";
    forall i | 0 <= i < |a| ensures a[i] != '\n' {}
    forall i | 0 <= i < |b| ensures b[i] != '\n' {}
    forall i | 0 <= i < |c| ensures c[i] != '\n' {}
  }

  lemma AttendeeRuleHasNoBreak()
    ensures '\n' !in AttendeeRule
  {
    var a, b, c := "|------------|", "--------------|", "---------|";
    forall i | 0 <= i < |a| ensures a[i] != '\n' {}
    forall i | 0 <= i < |b| ensures b[i] != '\n' {}
    forall i | 0 <= i < |c| ensures c[i] != '\n' {}
  }

  function AttendeeRow(a: Attendee): string {
    "| " + a.name + " | " + a.position + " | " + a.role + " |"
  }

  function AttendeeRows(attendees: seq<Attendee>): seq<string> {
    seq(|attendees|, k requires 0 <= k < |attendees| => AttendeeRow(attendees[k]))
  }

  /** `generate_attendee_table`. */
  function AttendeeTable(attendees: seq<Attendee>): string {
    TableText(AttendeeHeader, AttendeeRule, AttendeeRows(attendees))
  }

  /** Attendees whose fields have no line break: after the header and the
      rule comes one row per attendee, in order, with name, position and
      role in that order. */
  lemma AttendeeTableLines(attendees: seq<Attendee>)
    requires forall k :: 0 <= k < |attendees| ==>
      '\n' !in attendees[k].name && '\n' !in attendees[k].position && '\n' !in attendees[k].role
    ensures |Split(AttendeeTable(attendees), "\n")| == if attendees == [] then 5 else |attendees| + 4
    ensures Split(AttendeeTable(attendees), "\n")[..3] == ["", AttendeeHeader, AttendeeRule]
    ensures forall k :: 0 <= k < |attendees| ==> (Split(AttendeeTable(attendees), "\n")[k + 3]
      == "| " + attendees[k].name + " | " + attendees[k].position + " | " + attendees[k].role + " |")
  {
    var rows := AttendeeRows(attendees);
    forall k | 0 <= k < |rows|
      ensures '\n' !in rows[k]
    {
      assert rows[k] == AttendeeRow(attendees[k]);
    }
    AttendeeHeaderHasNoBreak();
    AttendeeRuleHasNoBreak();
    TableLines(AttendeeHeader, AttendeeRule, rows);
  }

  const TaskHeader: string := "| **Responsable** " + "| **Descripción** " + "| **Fecha** |"
  const TaskRule: string := "|-----------------|" + "-----------------|" + "-----------|"

  lemma TaskHeaderHasNoBreak()
    ensures '\n' !in TaskHeader
  {
    var a, b, c := "| **Responsable** ", "| **Descripción** ", "| **Fecha** |";
    forall i | 0 <= i < |a| ensures a[i] != '\n' {}
    forall i | 0 <= i < |b| ensures b[i] != '\n' {}
    forall i | 0 <= i < |c| ensures c[i] != '\n' {}
  }

  lemma TaskRuleHasNoBreak()
    ensures '\n' !in TaskRule
  {
    var a, b, c := "|-----------------|", "-----------------|", "-----------|";
    forall i | 0 <= i < |a| ensures a[i] != '\n' {}
    forall i | 0 <= i < |b| ensures b[i] != '\n' {}
    forall i | 0 <= i < |c| ensures c[i] != '\n' {}
  }

  function TaskRow(t: Task): string {
    "| " + t.responsible + " | " + t.description + " | " + t.date + " |"
  }

  function TaskRows(tasks: seq<Task>): seq<string> {
    seq(|tasks|, k requires 0 <= k < |tasks| => TaskRow(tasks[k]))
  }

  /** `generate_task_table`. */
  function TaskTable(tasks: seq<Task>): string {
    TableText(TaskHeader, TaskRule, TaskRows(tasks))
  }

  /** Tasks whose fields have no line break: one row per task, in order,
      with the person responsible, the description and then the date. */
  lemma TaskTableLines(tasks: seq<Task>)
    requires forall k :: 0 <= k < |tasks| ==>
      '\n' !in tasks[k].responsible && '\n' !in tasks[k].description && '\n' !in tasks[k].date
    ensures |Split(TaskTable(tasks), "\n")| == if tasks == [] then 5 else |tasks| + 4
    ensures Split(TaskTable(tasks), "\n")[..3] == ["", TaskHeader, TaskRule]
    ensures forall k :: 0 <= k < |tasks| ==> (Split(TaskTable(tasks), "\n")[k + 3]
      == "| " + tasks[k].responsible + " | " + tasks[k].description + " | " + tasks[k].date + " |")
  {
    var rows := TaskRows(tasks);
    forall k | 0 <= k < |rows|
      ensures '\n' !in rows[k]
    {
      assert rows[k] == TaskRow(tasks[k]);
    }
    TaskHeaderHasNoBreak();
    TaskRuleHasNoBreak();
    TableLines(TaskHeader, TaskRule, rows);
  }

  /** A list field is rendered; anything else goes in as it is. */
  function AttendeesText(f: Field<Attendee>): string {
    match f
    case Listed(items) => AttendeeTable(items)
    case Verbatim(text) => text
  }

  function ListText(f: Field<string>): string {
    match f
    case Listed(items) => BulletList(items)
    case Verbatim(text) => text
  }

  function TasksText(f: Field<Task>): string {
    match f
    case Listed(items) => TaskTable(items)
    case Verbatim(text) => text
  }

  /** A heading, a blank line, the field's text and a line break. */
  function Section(heading: string, body: string): string {
    "## " + heading + "\n\n" + body + "\n"
  }

  function Sections(m: Minutes): seq<string> {
    [Section("Asistentes", AttendeesText(m.attendees)),
     Section("Resumen", m.summary),
     Section("Puntos clave", ListText(m.takeaways)),
     Section("Conclusiones", ListText(m.conclusions)),
     Section("Próxima reunión", ListText(m.nextMeeting)),
     Section("Tareas", TasksText(m.tasks))]
  }

  /** `generate_markdown`: the title and date, then the six sections
      separated by blank lines, then four spaces. */
  function Markdown(m: Minutes): string {
    "\n# " + m.title + "\n\n**Fecha:** " + m.date + "\n\n" + Join(Sections(m), "\n") + "    "
  }

  /** The document opens with the title as a first-level heading, and
      every section heading is followed, after a blank line, by that
      field's text. */
  lemma MarkdownSections(m: Minutes)
    ensures Markdown(m)[..|"\n# " + m.title + "\n"|] == "\n# " + m.title + "\n"
    ensures forall k :: 0 <= k < |Sections(m)| ==> Contains(Markdown(m), Sections(m)[k])
  {
    var top := "\n# " + m.title + "\n\n**Fecha:** " + m.date + "\n\n";
    assert Markdown(m) == top + Join(Sections(m), "\n") + "    ";
    forall k | 0 <= k < |Sections(m)|
      ensures Contains(Markdown(m), Sections(m)[k])
    {
      JoinHasPart(Sections(m), "\n", k);
      ContainsInfix(top, Join(Sections(m), "\n"), "    ", Sections(m)[k]);
    }
  }

  // ---------------------------------------------------------------------
  // Nodes

  const TranscriptError: string := "El transcript no puede ser null"

  /** `create_minutes`: refuses a missing or empty transcript; otherwise
      the writer's minutes replace the old ones and nothing else changes. A
      failure of the writer propagates. */
  function CreateMinutes(s: State, today: string, formatInstructions: string,
                         invoke: (W.SystemPrompt, W.Request) -> Result<Minutes>): (r: Result<State>)
    ensures s.transcript.None? || s.transcript.value == "" ==> r == Err(TranscriptError)
    ensures s.transcript.Some? && s.transcript.value != "" ==>
      (r.Ok? <==> W.Run(s, today, formatInstructions, invoke).Ok?)
    ensures r.Ok? ==> (r.value.minutes.Some? && r.value == s.(minutes := r.value.minutes)
      && W.Run(s, today, formatInstructions, invoke) == Ok(r.value.minutes.value))
  {
    if s.transcript.None? || s.transcript.value == "" then Err(TranscriptError)
    else
      match W.Run(s, today, formatInstructions, invoke)
      case Err(e) => Err(e)
      case Ok(minutes) => Ok(s.(minutes := Some(minutes)))
  }

  /** `create_critique`: the critic's text becomes the critique and nothing
      else changes. */
  function CreateCritique(s: State, critique: string): (r: State)
    ensures r.critique == Some(critique)
    ensures r.(critique := s.critique) == s
  {
    s.(critique := Some(critique))
  }

  /** `human_approved`: marks the minutes approved and changes nothing
      else. */
  function HumanApproved(s: State): (r: State)
    ensures r.approved == Some(true)
    ensures r.(approved := s.approved) == s
  {
    s.(approved := Some(true))
  }

  /** `output_meeting`: adds the Markdown of the minutes; without minutes
      it raises `KeyError`. */
  function OutputMeeting(s: State): (r: Result<State>)
    ensures r.Err? <==> s.minutes.None?
    ensures r.Err? ==> r.error == "'minutes'"
    ensures r.Ok? ==> (r.value.outputFormatMeeting == Some(Markdown(s.minutes.value))
      && r.value.(outputFormatMeeting := s.outputFormatMeeting) == s)
  {
    match s.minutes
    case None => Err("'minutes'")
    case Some(m) => Ok(s.(outputFormatMeeting := Some(Markdown(m))))
  }

  // ---------------------------------------------------------------------
  // Routing

  /** `should_continue`: approval when the critique is missing or exactly
      empty, another round of writing for anything else, whitespace
      included. */
  function ShouldContinue(s: State): (r: string)
    ensures r == "human_approved" || r == "create_minutes"
    ensures r == "human_approved" <==> s.critique.GetOr("") == ""
  {
    if s.critique.GetOr("") == "" then "human_approved" else "create_minutes"
  }

  /** `read_transcript` and `human_critique` return a copy of the state. */
  function Step(node: string, s: State): Option<State> {
    if node == "read_transcript" || node == "human_critique" then Some(s) else None
  }

  const Workflow: G.Graph := G.Graph(
    "read_transcript",
    {"read_transcript", "create_minutes", "create_critique", "human_critique", "human_approved", "output_meeting"},
    {("read_transcript", "create_minutes"), ("create_minutes", "create_critique"),
     ("create_critique", "human_critique"), ("human_approved", "output_meeting"),
     ("output_meeting", G.END)},
    map["human_critique" := G.Direct])

  /** A fixed path from the transcript to the human critique, the router
      after the critique, and a run that can only end after the Markdown
      is written. */
  lemma WorkflowShape(s: State)
    ensures Workflow.entry == "read_transcript"
    ensures G.Next(Workflow, "read_transcript", "") == {"create_minutes"}
    ensures G.Next(Workflow, "create_minutes", "") == {"create_critique"}
    ensures G.Next(Workflow, "create_critique", "") == {"human_critique"}
    ensures G.Next(Workflow, "human_critique", ShouldContinue(s)) == {ShouldContinue(s)}
    ensures G.Next(Workflow, "human_approved", "") == {"output_meeting"}
    ensures G.Next(Workflow, "output_meeting", "") == {G.END}
    ensures forall n :: n in Workflow.nodes && n != "output_meeting" ==>
      G.END !in G.Next(Workflow, n, ShouldContinue(s))
  {
    assert G.Fixed(Workflow, "read_transcript") == {"create_minutes"};
    assert G.Fixed(Workflow, "create_minutes") == {"create_critique"};
    assert G.Fixed(Workflow, "create_critique") == {"human_critique"};
    assert G.Fixed(Workflow, "human_critique") == {};
    assert G.Fixed(Workflow, "human_approved") == {"output_meeting"};
    assert G.Fixed(Workflow, "output_meeting") == {G.END};
  }

  /** A whitespace-only critique is not an approval: it sends the minutes
      back to the writer, which then uses the writing prompt. */
  lemma BlankCritiqueRewrites(s: State, critique: string)
    requires critique != "" && IsBlank(critique)
    ensures ShouldContinue(CreateCritique(s, critique)) == "create_minutes"
    ensures W.RunMode(CreateCritique(s, critique)) == W.Write
  {
  }

  /** A critique with content sends the minutes back, and the next writing
      round revises them with that critique, the current minutes and the
      transcript. */
  lemma CritiqueRevises(s: State, critique: string, today: string)
    requires s.minutes.Some? && s.transcript.Some?
    requires !IsBlank(critique)
    ensures ShouldContinue(CreateCritique(s, critique)) == "create_minutes"
    ensures W.RunMode(CreateCritique(s, critique)) == W.Revise
    ensures W.CreateContent(CreateCritique(s, critique), today)
      == Ok(W.Correction(today, critique, s.minutes.value, s.transcript.value))
  {
    assert critique != "";
  }

  /** With a transcript and an empty critique of the first draft, the run
      goes straight through: the draft is stored, the critique is empty,
      the router approves, and the result is approved and holds the
      Markdown of that draft. */
  lemma ApprovedRun(s: State, today: string, formatInstructions: string,
                    invoke: (W.SystemPrompt, W.Request) -> Result<Minutes>, draft: Minutes)
    requires s.transcript.Some? && s.transcript.value != ""
    requires W.Run(s, today, formatInstructions, invoke) == Ok(draft)
    ensures Step("read_transcript", s) == Some(s)
    ensures CreateMinutes(s, today, formatInstructions, invoke) == Ok(s.(minutes := Some(draft)))
    ensures Step("human_critique", CreateCritique(s.(minutes := Some(draft)), "")) ==
      Some(s.(minutes := Some(draft), critique := Some("")))
    ensures ShouldContinue(s.(minutes := Some(draft), critique := Some(""))) == "human_approved"
    ensures OutputMeeting(HumanApproved(s.(minutes := Some(draft), critique := Some("")))) ==
      Ok(s.(minutes := Some(draft), critique := Some(""), approved := Some(true),
            outputFormatMeeting := Some(Markdown(draft))))
  {
  }
}
