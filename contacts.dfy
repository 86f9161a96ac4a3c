/**
 * The four contact tools: list-client-contacts, get-client-contact,
 * create-client-contact and update-client-contact.
 */
module ContactTools {
  import opened Wrappers
  import Text
  import Js
  import Json
  import Errors
  import Api = SodiumClient
  import opened Records
  import opened Report

  /** `[firstName, lastName].filter(Boolean).join(" ") || "Unnamed"`. */
  function DisplayName(c: ClientContact): string
  {
    Js.Or(Some(Js.JoinTruthy([c.firstName, c.lastName], " ")), Some("Unnamed")).value
  }

  /** The display name is the non-empty names joined by one space, or `Unnamed` when there are none. */
  lemma DisplayNameCases(c: ClientContact)
    ensures Js.Truthy(c.firstName) && Js.Truthy(c.lastName) ==>
      DisplayName(c) == c.firstName.value + " " + c.lastName.value
    ensures Js.Truthy(c.firstName) && !Js.Truthy(c.lastName) ==> DisplayName(c) == c.firstName.value
    ensures !Js.Truthy(c.firstName) && Js.Truthy(c.lastName) ==> DisplayName(c) == c.lastName.value
    ensures !Js.Truthy(c.firstName) && !Js.Truthy(c.lastName) ==> DisplayName(c) == "Unnamed"
  {
    Js.JoinTwoTruthy(c.firstName, c.lastName, " ");
  }

  // ----- list-client-contacts and get-client-contact: formatContact -----

  /**
   * The lines of a contact block, in push order. list-client-contacts and
   * get-client-contact each define this formatter with the same body.
   */
  function ContactLines(c: ClientContact): seq<Line>
  {
    [Line(0, Name, DisplayName(c)), Line(0, Code, c.code)]
    + When(Js.Truthy(c.email), Line(0, Email, Js.Show(c.email)))
    + When(Js.Truthy(c.phone), Line(0, Phone, Js.Show(c.phone)))
    + When(Js.Truthy(c.kind), Line(0, Kind, Js.Show(c.kind)))
    + When(Js.IsTrue(c.isPrimary), Line(0, Primary, "Yes"))
  }

  method FormatContact(c: ClientContact) returns (text: string)
    ensures text == Block(ContactLines(c))
  {
    var lines := [Line(0, Name, DisplayName(c)), Line(0, Code, c.code)];
    lines := PushWhen(lines, Js.Truthy(c.email), Line(0, Email, Js.Show(c.email)));
    lines := PushWhen(lines, Js.Truthy(c.phone), Line(0, Phone, Js.Show(c.phone)));
    lines := PushWhen(lines, Js.Truthy(c.kind), Line(0, Kind, Js.Show(c.kind)));
    lines := PushWhen(lines, Js.IsTrue(c.isPrimary), Line(0, Primary, "Yes"));
    assert lines == ContactLines(c);
    text := Block(lines);
  }

  /** What a contact block shows under each label; Primary is only ever `Yes`. */
  function ContactField(c: ClientContact, t: Label): Option<string>
  {
    match t
    case Name => Some(DisplayName(c))
    case Code => Some(c.code)
    case Email => Shown(c.email)
    case Phone => Shown(c.phone)
    case Kind => Shown(c.kind)
    case Primary => if Js.IsTrue(c.isPrimary) then Some("Yes") else None
    case _ => None
  }

  lemma ContactHead(c: ClientContact)
    ensures 2 <= |ContactLines(c)| <= 6
    ensures ContactLines(c)[..2] == [Line(0, Name, DisplayName(c)), Line(0, Code, c.code)]
  {
  }

  lemma ContactShows(c: ClientContact, t: Label)
    ensures ShowsAs(ContactLines(c), t, ContactField(c, t))
  {
  }

  /** There is never a `Primary: No` line. */
  lemma NeverPrimaryNo(c: ClientContact)
    ensures Line(0, Primary, "No") !in ContactLines(c)
  {
    ContactShows(c, Primary);
  }

  // ----- list-client-contacts handler -----

  function ListCall(clientCode: string): (op: Api.Operation)
    ensures op.ListClientContacts? && op.clientCode == clientCode
  {
    Api.ListClientContacts(clientCode)
  }

  function ListText(rt: Js.Runtime, clientCode: string, out: Errors.Outcome<Option<seq<ClientContact>>>): (text: string)
    ensures out.Threw? ==> text == ErrorText(rt, "Error listing contacts", out.error)
    ensures out.Returned? && (out.value.None? || |out.value.value| == 0) ==>
      text == "No contacts found for client " + clientCode + "."
    ensures out.Returned? && out.value.Some? && |out.value.value| > 0 ==>
      var cs := out.value.value;
      text == FoundHeader(|cs|, "contact", " for client " + clientCode) + "\n\n"
              + Text.Join(seq(|cs|, i requires 0 <= i < |cs| => Block(ContactLines(cs[i]))), Separator)
  {
    match out
    case Threw(e) => ErrorText(rt, "Error listing contacts", e)
    case Returned(None) => "No contacts found for client " + clientCode + "."
    case Returned(Some(cs)) =>
      Listing("No contacts found for client " + clientCode + ".",
              FoundHeader(|cs|, "contact", " for client " + clientCode),
              seq(|cs|, i requires 0 <= i < |cs| => Block(ContactLines(cs[i]))), Separator)
  }

  // ----- get-client-contact handler -----

  function GetCall(clientCode: string, contactCode: string): (op: Api.Operation)
    ensures op.GetClientContact? && op.clientCode == clientCode && op.code == contactCode
  {
    Api.GetClientContact(clientCode, contactCode)
  }

  function GetText(rt: Js.Runtime, out: Errors.Outcome<ClientContact>): (text: string)
    ensures out.Returned? ==> text == "Contact Details:\n\n" + Block(ContactLines(out.value))
    ensures out.Threw? ==> text == ErrorText(rt, "Error getting contact", out.error)
  {
    match out
    case Returned(c) => "Contact Details:\n\n" + Block(ContactLines(c))
    case Threw(e) => ErrorText(rt, "Error getting contact", e)
  }

  // ----- create-client-contact and update-client-contact -----

  /** The six optional contact fields a create or update sends. */
  datatype ContactArgs = ContactArgs(
    firstName: Option<string>,
    lastName: Option<string>,
    email: Option<string>,
    phone: Option<string>,
    kind: Option<string>,
    isPrimary: Option<bool>)

  /** `{ firstName, lastName, email, phone, type, isPrimary }`. */
  function ContactBody(a: ContactArgs): (data: Json.JsObject)
    ensures |data| == 6
    ensures Json.Field(data, "firstName") == Some(Json.OptString(a.firstName))
    ensures Json.Field(data, "lastName") == Some(Json.OptString(a.lastName))
    ensures Json.Field(data, "email") == Some(Json.OptString(a.email))
    ensures Json.Field(data, "phone") == Some(Json.OptString(a.phone))
    ensures Json.Field(data, "type") == Some(Json.OptString(a.kind))
    ensures Json.Field(data, "isPrimary") == Some(Json.OptBool(a.isPrimary))
  {
    var data := [("firstName", Json.OptString(a.firstName)), ("lastName", Json.OptString(a.lastName)),
                 ("email", Json.OptString(a.email)), ("phone", Json.OptString(a.phone)),
                 ("type", Json.OptString(a.kind)), ("isPrimary", Json.OptBool(a.isPrimary))];
    assert Json.Keys(data) == ["firstName", "lastName", "email", "phone", "type", "isPrimary"];
    assert Json.Distinct(["firstName", "lastName", "email", "phone", "type", "isPrimary"]);
    Json.FieldAt(data, 0);
    Json.FieldAt(data, 1);
    Json.FieldAt(data, 2);
    Json.FieldAt(data, 3);
    Json.FieldAt(data, 4);
    Json.FieldAt(data, 5);
    assert data[0].0 == "firstName" && data[1].0 == "lastName" && data[2].0 == "email";
    assert data[3].0 == "phone" && data[4].0 == "type" && data[5].0 == "isPrimary";
    data
  }

  function CreateCall(clientCode: string, a: ContactArgs): (op: Api.Operation)
    ensures op.CreateClientContact? && op.clientCode == clientCode && op.data == ContactBody(a)
  {
    Api.CreateClientContact(clientCode, ContactBody(a))
  }

  function UpdateCall(clientCode: string, contactCode: string, a: ContactArgs): (op: Api.Operation)
    ensures op.UpdateClientContact? && op.clientCode == clientCode && op.code == contactCode
    ensures op.data == ContactBody(a)
  {
    Api.UpdateClientContact(clientCode, contactCode, ContactBody(a))
  }

  /** The report a create (`banner` "Contact created successfully!") or update prints. */
  function SavedLines(banner: string, c: ClientContact): seq<Line>
  {
    [Raw(banner), Raw(""), Line(0, Code, c.code), Line(0, Name, DisplayName(c))]
    + When(Js.Truthy(c.email), Line(0, Email, Js.Show(c.email)))
    + When(Js.Truthy(c.phone), Line(0, Phone, Js.Show(c.phone)))
    + When(Js.IsTrue(c.isPrimary), Line(0, Primary, "Yes"))
  }

  method FormatSaved(banner: string, c: ClientContact) returns (text: string)
    ensures text == Block(SavedLines(banner, c))
  {
    var lines := [Raw(banner), Raw(""), Line(0, Code, c.code), Line(0, Name, DisplayName(c))];
    lines := PushWhen(lines, Js.Truthy(c.email), Line(0, Email, Js.Show(c.email)));
    lines := PushWhen(lines, Js.Truthy(c.phone), Line(0, Phone, Js.Show(c.phone)));
    lines := PushWhen(lines, Js.IsTrue(c.isPrimary), Line(0, Primary, "Yes"));
    assert lines == SavedLines(banner, c);
    text := Block(lines);
  }

  lemma SavedHead(banner: string, c: ClientContact)
    ensures 4 <= |SavedLines(banner, c)| <= 7
    ensures SavedLines(banner, c)[..4] == [Raw(banner), Raw(""), Line(0, Code, c.code), Line(0, Name, DisplayName(c))]
  {
  }

  /** The saved report shows what the contact block shows, except that it never has a Type line. */
  lemma SavedShows(banner: string, c: ClientContact, t: Label)
    ensures ShowsAs(SavedLines(banner, c), t, if t == Kind then None else ContactField(c, t))
  {
  }

  function CreateText(rt: Js.Runtime, out: Errors.Outcome<ClientContact>): (text: string)
    ensures out.Returned? ==> text == Block(SavedLines("Contact created successfully!", out.value))
    ensures out.Threw? ==> text == ErrorText(rt, "Error creating contact", out.error)
  {
    match out
    case Returned(c) => Block(SavedLines("Contact created successfully!", c))
    case Threw(e) => ErrorText(rt, "Error creating contact", e)
  }

  function UpdateText(rt: Js.Runtime, out: Errors.Outcome<ClientContact>): (text: string)
    ensures out.Returned? ==> text == Block(SavedLines("Contact updated successfully!", out.value))
    ensures out.Threw? ==> text == ErrorText(rt, "Error updating contact", out.error)
  {
    match out
    case Returned(c) => Block(SavedLines("Contact updated successfully!", c))
    case Threw(e) => ErrorText(rt, "Error updating contact", e)
  }
}
