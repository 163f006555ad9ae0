/** The records the notes add-on exchanges with the site. */
module NotesData {

  /** The note format every record sent by the add-on carries (HTML). */
  const HtmlFormat := 1

  /** The note id the create-notes web service reports for a note it refused. */
  const RefusedNoteId := -1

  /** One note as sent to the create-notes web service. */
  datatype NoteRecord = NoteRecord(userid: int, publishstate: string, courseid: int, text: string, format: int)

  /** One entry of the create-notes reply: the new note's id, or -1 and a message. */
  datatype NoteResult = NoteResult(noteid: int, errormessage: string)

  /**
    A note as listed to the user. `offline` is the flag a locally stored note
    would carry; an absent flag is `false`.
   */
  datatype Note = Note(userid: int, courseid: int, publishstate: string, content: string, offline: bool)

  /** The reply of the get-course-notes web service, one list per publish state. */
  datatype CourseNotes = CourseNotes(sitenotes: seq<Note>, coursenotes: seq<Note>, personalnotes: seq<Note>)
}
