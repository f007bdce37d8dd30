/** The record shapes of the minutes-writing graph: the minutes the writer
    returns and the graph state. A key the state lacks is `None`. */
module MinutesTypes {
  import opened Wrappers

  datatype Attendee = Attendee(name: string, position: string, role: string)

  datatype Task = Task(responsible: string, date: string, description: string)

  /** A list field as the model returned it: a list, or any other value,
      which the Markdown inserts as it is. */
  datatype Field<T> = Listed(items: seq<T>) | Verbatim(text: string)

  datatype Minutes = Minutes(
    title: string,
    date: string,
    attendees: Field<Attendee>,
    summary: string,
    takeaways: Field<string>,
    conclusions: Field<string>,
    nextMeeting: Field<string>,
    tasks: Field<Task>)

  datatype State = State(
    transcript: Option<string>,
    wordCount: Option<int>,
    minutes: Option<Minutes>,
    critique: Option<string>,
    outputFormatMeeting: Option<string>,
    approved: Option<bool>)
}
