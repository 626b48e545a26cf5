/**
 * A note card: the 150-character preview of the note's plain text, the
 * fallbacks shown for an empty title or an empty preview, and the edit and
 * delete callbacks it forwards to the dashboard. The HTML-to-text step is
 * given: the preview takes the already stripped text.
 */
module NoteCard {
  import opened Common
  import opened Records

  const PreviewLength: nat := 150
  const Ellipsis: string := "..."

  /**
   * `stripped.slice(0, 150) + (stripped.length > 150 ? '...' : '')`: the first
   * 150 characters, followed by `...` exactly when something was cut.
   */
  function Preview(stripped: string): (r: string)
    ensures |r| <= PreviewLength + |Ellipsis|
    ensures |stripped| <= PreviewLength ==> r == stripped
    ensures |stripped| > PreviewLength ==>
      |r| == PreviewLength + |Ellipsis| && r[..PreviewLength] == stripped[..PreviewLength] && r[PreviewLength..] == Ellipsis
  {
    if |stripped| > PreviewLength then stripped[..PreviewLength] + Ellipsis else stripped
  }

  /** A preview is its own preview: cutting again changes nothing. */
  lemma PreviewIdempotent(stripped: string)
    ensures Preview(Preview(stripped)) == Preview(stripped)
  {
    var p := Preview(stripped);
    if |stripped| > PreviewLength {
      assert p[..PreviewLength] + Ellipsis == p;
    }
  }

  /** The heading and the confirmation text: the title, or `Untitled Note` when it is empty. */
  function DisplayTitle(note: Note): (r: string)
    ensures r != ""
    ensures note.title != "" ==> r == note.title
    ensures note.title == "" ==> r == "Untitled Note"
  {
    if note.title != "" then note.title else "Untitled Note"
  }

  /** The body text: the preview, or `No content` when it is empty. */
  function DisplayPreview(preview: string): (r: string)
    ensures r != ""
    ensures preview != "" ==> r == preview
    ensures preview == "" ==> r == "No content"
  {
    if preview != "" then preview else "No content"
  }

  /** `No content` is shown exactly when the stripped text is empty. */
  lemma NoContentIffEmpty(stripped: string)
    ensures DisplayPreview(Preview(stripped)) == "No content" <==> stripped == "" || stripped == "No content"
  {
  }

  /** `handleDelete`: the id handed to `onDelete`, only when the confirmation is accepted. */
  function DeleteRequest(note: Note, confirmed: bool): (r: Option<string>)
    ensures r.Some? <==> confirmed
    ensures r.Some? ==> r.value == note.id
  {
    if confirmed then Some(note.id) else None
  }
}
