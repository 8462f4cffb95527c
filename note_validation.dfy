/** `createNoteZodSchema` and `updateNoteZodSchema`. */
module NoteValidation {
  import opened Common
  import opened Zod

  datatype Priority = LOW | MEDIUM | HIGH

  function PriorityOf(s: string): (r: Option<Priority>)
    ensures r.Some? <==> s in {"LOW", "MEDIUM", "HIGH"}
    ensures s == "LOW" ==> r == Some(LOW)
    ensures s == "MEDIUM" ==> r == Some(MEDIUM)
    ensures s == "HIGH" ==> r == Some(HIGH)
  {
    if s == "LOW" then Some(LOW)
    else if s == "MEDIUM" then Some(MEDIUM)
    else if s == "HIGH" then Some(HIGH)
    else None
  }

  /** `z.enum(["LOW", "MEDIUM", "HIGH"]).optional()`, shared by both schemas. */
  function PriorityIssues(f: Field): (issues: seq<Issue>)
    ensures issues == [] <==> f.Missing? || (f.Str? && PriorityOf(f.s).Some?)
  {
    match f
    case Missing => []
    case Str(s) => if PriorityOf(s).Some? then [] else [Issue("priority", InvalidEnumValue)]
    case NonString => [Issue("priority", InvalidType)]
  }

  function ParsedPriority(f: Field): Option<Priority> {
    if f.Str? then PriorityOf(f.s) else None
  }

  datatype NoteBody = NoteBody(title: Field, content: Field, priority: Field)

  datatype CreateNoteData = CreateNoteData(title: string, content: string, priority: Option<Priority>)

  datatype UpdateNoteData = UpdateNoteData(title: Option<string>, content: Option<string>, priority: Option<Priority>)

  function CreateNoteSchema(b: NoteBody): (r: Parsed<CreateNoteData>)
    ensures r.Accepted? <==>
              b.title.Str? && |b.title.s| >= 1 && b.content.Str? && |b.content.s| >= 1
              && (b.priority.Missing? || (b.priority.Str? && PriorityOf(b.priority.s).Some?))
    ensures r.Accepted? ==> r.value == CreateNoteData(b.title.s, b.content.s, ParsedPriority(b.priority))
    ensures b.title == Str("") ==> r.Rejected? && Issue("title", TooSmall("Title is required")) in r.issues
    ensures b.content == Str("") ==> r.Rejected? && Issue("content", TooSmall("Content is required")) in r.issues
  {
    var issues := RequiredString("title", b.title, "Title is required")
                  + RequiredString("content", b.content, "Content is required")
                  + PriorityIssues(b.priority);
    if issues == [] then Accepted(CreateNoteData(b.title.s, b.content.s, ParsedPriority(b.priority)))
    else Rejected(issues)
  }

  function UpdateNoteSchema(b: NoteBody): (r: Parsed<UpdateNoteData>)
    ensures r.Accepted? <==>
              !b.title.NonString? && !b.content.NonString?
              && (b.priority.Missing? || (b.priority.Str? && PriorityOf(b.priority.s).Some?))
    ensures r.Accepted? ==> r.value == UpdateNoteData(StringOf(b.title), StringOf(b.content), ParsedPriority(b.priority))
  {
    var issues := OptionalString("title", b.title) + OptionalString("content", b.content) + PriorityIssues(b.priority);
    if issues == [] then Accepted(UpdateNoteData(StringOf(b.title), StringOf(b.content), ParsedPriority(b.priority)))
    else Rejected(issues)
  }

  /** Every body the create schema accepts, the update schema accepts too,
      with the same values. */
  lemma CreateAcceptedByUpdate(b: NoteBody)
    requires CreateNoteSchema(b).Accepted?
    ensures UpdateNoteSchema(b).Accepted?
    ensures var c := CreateNoteSchema(b).value;
            UpdateNoteSchema(b).value == UpdateNoteData(Some(c.title), Some(c.content), c.priority)
  {
  }

  /** In an update every field may be left out, and a title or content that
      is sent may be empty. */
  lemma UpdateAllowsEmpty(title: Field, content: Field)
    requires title in {Missing, Str("")} && content in {Missing, Str("")}
    ensures UpdateNoteSchema(NoteBody(title, content, Missing)).Accepted?
    ensures CreateNoteSchema(NoteBody(title, content, Missing)).Rejected?
  {
  }
}
