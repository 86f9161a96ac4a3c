/**
 * The four note tools: list-client-notes, get-client-note,
 * create-client-note and update-client-note.
 */
module NoteTools {
  import opened Wrappers
  import Text
  import Js
  import Json
  import Errors
  import Api = SodiumClient
  import opened Records
  import opened Report

  // ----- list-client-notes and get-client-note: formatNote -----

  /**
   * The lines of a note block, in push order. list-client-notes and
   * get-client-note each define this formatter with the same body.
   */
  function NoteLines(n: ClientNote): seq<Line>
  {
    [Line(0, Code, n.code), Line(0, Content, n.content)]
    + When(Js.IsTrue(n.isPinned), Line(0, Pinned, "Yes"))
    + When(Js.Truthy(n.createdAt), Line(0, Created, Js.Show(n.createdAt)))
    + When(Js.Truthy(n.createdBy), Line(0, CreatedBy, Js.Show(n.createdBy)))
  }

  method FormatNote(n: ClientNote) returns (text: string)
    ensures text == Block(NoteLines(n))
  {
    var lines := [Line(0, Code, n.code), Line(0, Content, n.content)];
    lines := PushWhen(lines, Js.IsTrue(n.isPinned), Line(0, Pinned, "Yes"));
    lines := PushWhen(lines, Js.Truthy(n.createdAt), Line(0, Created, Js.Show(n.createdAt)));
    lines := PushWhen(lines, Js.Truthy(n.createdBy), Line(0, CreatedBy, Js.Show(n.createdBy)));
    assert lines == NoteLines(n);
    text := Block(lines);
  }

  /** What a note block shows under each label; Pinned is only ever `Yes`. */
  function NoteField(n: ClientNote, t: Label): Option<string>
  {
    match t
    case Code => Some(n.code)
    case Content => Some(n.content)
    case Pinned => if Js.IsTrue(n.isPinned) then Some("Yes") else None
    case Created => Shown(n.createdAt)
    case CreatedBy => Shown(n.createdBy)
    case _ => None
  }

  lemma NoteHead(n: ClientNote)
    ensures 2 <= |NoteLines(n)| <= 5
    ensures NoteLines(n)[..2] == [Line(0, Code, n.code), Line(0, Content, n.content)]
  {
  }

  lemma NoteShows(n: ClientNote, t: Label)
    ensures ShowsAs(NoteLines(n), t, NoteField(n, t))
  {
  }

  // ----- list-client-notes handler -----

  function ListCall(clientCode: string): (op: Api.Operation)
    ensures op.ListClientNotes? && op.clientCode == clientCode
  {
    Api.ListClientNotes(clientCode)
  }

  function ListText(rt: Js.Runtime, clientCode: string, out: Errors.Outcome<Option<seq<ClientNote>>>): (text: string)
    ensures out.Threw? ==> text == ErrorText(rt, "Error listing notes", out.error)
    ensures out.Returned? && (out.value.None? || |out.value.value| == 0) ==>
      text == "No notes found for client " + clientCode + "."
    ensures out.Returned? && out.value.Some? && |out.value.value| > 0 ==>
      var ns := out.value.value;
      text == FoundHeader(|ns|, "note", " for client " + clientCode) + "\n\n"
              + Text.Join(seq(|ns|, i requires 0 <= i < |ns| => Block(NoteLines(ns[i]))), Separator)
  {
    match out
    case Threw(e) => ErrorText(rt, "Error listing notes", e)
    case Returned(None) => "No notes found for client " + clientCode + "."
    case Returned(Some(ns)) =>
      Listing("No notes found for client " + clientCode + ".",
              FoundHeader(|ns|, "note", " for client " + clientCode),
              seq(|ns|, i requires 0 <= i < |ns| => Block(NoteLines(ns[i]))), Separator)
  }

  // ----- get-client-note handler -----

  function GetCall(clientCode: string, noteCode: string): (op: Api.Operation)
    ensures op.GetClientNote? && op.clientCode == clientCode && op.code == noteCode
  {
    Api.GetClientNote(clientCode, noteCode)
  }

  function GetText(rt: Js.Runtime, out: Errors.Outcome<ClientNote>): (text: string)
    ensures out.Returned? ==> text == "Note Details:\n\n" + Block(NoteLines(out.value))
    ensures out.Threw? ==> text == ErrorText(rt, "Error getting note", out.error)
  {
    match out
    case Returned(n) => "Note Details:\n\n" + Block(NoteLines(n))
    case Threw(e) => ErrorText(rt, "Error getting note", e)
  }

  // ----- create-client-note and update-client-note -----

  /** `{ content, isPinned }`; create always has a content, update may leave it out. */
  function NoteBody(content: Option<string>, isPinned: Option<bool>): (data: Json.JsObject)
    ensures |data| == 2
    ensures Json.Field(data, "content") == Some(Json.OptString(content))
    ensures Json.Field(data, "isPinned") == Some(Json.OptBool(isPinned))
  {
    [("content", Json.OptString(content)), ("isPinned", Json.OptBool(isPinned))]
  }

  function CreateCall(clientCode: string, content: string, isPinned: Option<bool>): (op: Api.Operation)
    ensures op.CreateClientNote? && op.clientCode == clientCode
    ensures Json.Defined(op.data) == [("content", Json.JString(content))]
      + (if isPinned.Some? then [("isPinned", Json.JBool(isPinned.value))] else [])
  {
    var data := NoteBody(Some(content), isPinned);
    assert data[1..][1..] == [];
    Api.CreateClientNote(clientCode, data)
  }

  function UpdateCall(clientCode: string, noteCode: string, content: Option<string>, isPinned: Option<bool>): (op: Api.Operation)
    ensures op.UpdateClientNote? && op.clientCode == clientCode && op.code == noteCode
    ensures op.data == NoteBody(content, isPinned)
  {
    Api.UpdateClientNote(clientCode, noteCode, NoteBody(content, isPinned))
  }

  /** The report a create (`banner` "Note created successfully!") or update prints. */
  function SavedLines(banner: string, n: ClientNote): seq<Line>
  {
    [Raw(banner), Raw(""), Line(0, Code, n.code), Line(0, Content, n.content)]
    + When(Js.IsTrue(n.isPinned), Line(0, Pinned, "Yes"))
  }

  method FormatSaved(banner: string, n: ClientNote) returns (text: string)
    ensures text == Block(SavedLines(banner, n))
  {
    var lines := [Raw(banner), Raw(""), Line(0, Code, n.code), Line(0, Content, n.content)];
    lines := PushWhen(lines, Js.IsTrue(n.isPinned), Line(0, Pinned, "Yes"));
    assert lines == SavedLines(banner, n);
    text := Block(lines);
  }

  /** The banner, a blank line, Code and Content, then at most the Pinned line. */
  lemma SavedHead(banner: string, n: ClientNote)
    ensures |SavedLines(banner, n)| == if Js.IsTrue(n.isPinned) then 5 else 4
    ensures SavedLines(banner, n)[..4] == [Raw(banner), Raw(""), Line(0, Code, n.code), Line(0, Content, n.content)]
  {
  }

  /** Of the note block's labels only Code, Content and Pinned are shown; Created and Created by never. */
  lemma SavedShows(banner: string, n: ClientNote, t: Label)
    ensures ShowsAs(SavedLines(banner, n), t, if t in {Created, CreatedBy} then None else NoteField(n, t))
  {
  }

  function CreateText(rt: Js.Runtime, out: Errors.Outcome<ClientNote>): (text: string)
    ensures out.Returned? ==> text == Block(SavedLines("Note created successfully!", out.value))
    ensures out.Threw? ==> text == ErrorText(rt, "Error creating note", out.error)
  {
    match out
    case Returned(n) => Block(SavedLines("Note created successfully!", n))
    case Threw(e) => ErrorText(rt, "Error creating note", e)
  }

  function UpdateText(rt: Js.Runtime, out: Errors.Outcome<ClientNote>): (text: string)
    ensures out.Returned? ==> text == Block(SavedLines("Note updated successfully!", out.value))
    ensures out.Threw? ==> text == ErrorText(rt, "Error updating note", out.error)
  {
    match out
    case Returned(n) => Block(SavedLines("Note updated successfully!", n))
    case Threw(e) => ErrorText(rt, "Error updating note", e)
  }
}
