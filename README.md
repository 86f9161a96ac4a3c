# SodiumHQ MCP server: a verified model of its client and text reports

The SodiumHQ MCP server gives an assistant tools over the SodiumHQ practice-management
API: clients, contacts, notes, tasks, engagements (proposals and letters of engagement),
billable services, service packages, document templates and engagement settings. Each tool
checks its arguments, calls one method of a shared API client, and turns the reply into
plain text: a block of `Label: value` lines per record, a header and a separator for lists,
and `Error <doing something>: <message>` when anything throws.

This project models that core in Dafny and proves what each piece does.

- `text.dfy` (`Text`): `join`, decimal rendering of counts and status codes, prefix tests.
- `js.dfy` (`Js`): JavaScript truthiness, `||` and `??`, template interpolation of
  `undefined`, `String(n)` and `filter(Boolean).join`. The engine's `toFixed` and
  non-integer number text are a `Runtime` parameter.
- `json.dfy` (`Json`): JSON values and objects as ordered member lists, with the
  `JSON.stringify` rules for dropping `undefined` members and escaping strings.
- `errors.dfy` (`Errors`): thrown values, `ensureError`, `formatError` and `formatApiError`.
- `base64.dfy` (`Base64`): the encoding of RFC 4648 section 4 used for PDF downloads,
  with a decoder and the round trip.
- `sodium_client.dfy` (`SodiumClient`): configuration from the environment, the shared
  instance (a class), query flattening, request shaping, response classification, the
  binary download, every resource route and the unwrapping of list envelopes.
- `report.dfy` (`Report`): report lines, conditional pushes, the join into text, and the
  `ShowsAs` predicate that says what a report shows under each label.
- `records.dfy` (`Records`): the API's record types.
- One module per tool family, each with the tool's formatter (a method that pushes lines
  one by one, proved equal to a specification function) and its handler text:
  `clients.dfy`, `contacts.dfy`, `notes.dfy`, `tasks.dfy`, `engagements.dfy`,
  `emails.dfy`, `settings.dfy`, `services.dfy`, `service_detail.dfy`,
  `client_services.dfy`, `packages.dfy`, `templates.dfy`.

A report is a sequence of `Line(indent, tag, value)` and `Raw(text)` values, rendered and
joined with newlines. For each formatter, a lemma states, for every label, exactly which
value (if any) the report shows under it. So a field appears exactly when the source's
guard holds, and labels the formatter never pushes never appear. The network is not
modelled: the client's outcome is a function of the reply, which is a parameter. A
handler's text is a function of that outcome once the reply's JSON is read as the record
type the handler declares. That step is TypeScript's unchecked `as T` cast, and the model
takes it to succeed (see "## Left out").

## Model

| member | source | states |
|---|---|---|
| Text.JoinSnoc | src/tools/list/list-clients.tool.ts:16 | `lines.join(sep)` after one more push is the old join, the separator and the new line |
| Text.JoinAppend | src/tools/list/list-clients.tool.ts:38 | joining two non-empty lists puts exactly one separator between their joins |
| Text.NatToString | src/helpers/format-error.ts:6 | the decimal digits of a natural number: at least one digit, all digits, no leading zero |
| Text.ParseNatToString | src/helpers/format-error.ts:6 | reading the decimal text of `n` back gives `n` |
| Text.NatToStringInjective | src/helpers/format-error.ts:6 | two naturals with the same decimal text are equal |
| Text.IntToString | src/helpers/format-error.ts:6 | an integer prints as digits, preceded by `-` exactly when it is negative |
| Text.IntToStringInjective | src/helpers/format-error.ts:6 | two integers with the same decimal text are equal |
| Text.IntToStringAvoids | src/helpers/format-error.ts:6 | a decimal integer text contains no character other than digits and `-` (so no `)`) |
| Text.StopAt | src/helpers/format-error.ts:6 | where the shorter of two equal concatenations ends, the longer has the first character of the other's suffix |
| Text.PrefixBeforeStop | src/helpers/format-error.ts:6 | two stop-free prefixes followed by texts starting with the stop character are equal when the whole strings are |
| Js.Show | src/tools/list/list-clients.tool.ts:8-9 | template interpolation prints a present string as itself and an absent one as `undefined` |
| Js.Or | src/tools/list/list-clients.tool.ts:13 | `a \|\| b` is `a` when `a` is a non-empty string and `b` otherwise |
| Js.Coalesce | src/tools/list/list-client-services.tool.ts:8 | `a ?? b` is `a` whenever `a` is present, even when it is empty, and `b` only when it is absent |
| Js.YesNo | src/tools/get/get-engagement-settings.tool.ts:11-15 | `Yes` exactly when the flag is `true`; `No` when it is `false` or absent; nothing else |
| Js.NumberToString | src/tools/list/list-engagements.tool.ts:30 | `String(x)` of an integer-valued number at most 2^53 in magnitude is its exact decimal text; any other number, including larger integers (whose shortest round-trip digits JS pads with zeros), is printed by the engine |
| Js.KeepTruthy | src/tools/list/list-client-contacts.tool.ts:7 | `filter(Boolean)` keeps at most as many strings as it was given, none of them empty |
| Js.KeepTruthyMembers | src/tools/list/list-client-contacts.tool.ts:7 | a string survives `filter(Boolean)` exactly when it is non-empty and was one of the inputs |
| Js.JoinTwoTruthy | src/tools/list/list-client-contacts.tool.ts:7 | `[a, b].filter(Boolean).join(sep)` in its four cases: both names with one separator, either one alone, or `""` exactly when both are empty or absent |
| Errors.EnsureError | src/helpers/ensure-error.ts:1-18 | every thrown value becomes an Error: an Error unchanged, a string as its message, an object by its string `message` or else its JSON text, any other value by `String(value)` |
| Errors.EnsureErrorIdempotent | src/helpers/ensure-error.ts:2-4 | normalising an already normalised value changes nothing |
| Errors.MessageMemberWins | src/helpers/ensure-error.ts:10-13 | an object with a string `message` yields that message whatever its other members are |
| Errors.NonStringMessageSerialised | src/helpers/ensure-error.ts:11-14 | an object whose `message` is absent or not a string yields its JSON serialisation |
| Errors.FormatError | src/helpers/format-error.ts:1-3 | the text starts with `Error: ` and ends with the message, and is exactly as long as both |
| Errors.FormatApiError | src/helpers/format-error.ts:5-7 | the text is exactly `API Error (`, the status code in decimal, `): ` and the message (prefix, suffix and length) |
| Errors.FormatErrorInjective | src/helpers/format-error.ts:2 | different messages give different `formatError` texts |
| Errors.FormatApiErrorInjective | src/helpers/format-error.ts:6 | status code and message can both be read back from a `formatApiError` text |
| Errors.FormatApiErrorDistinguishesCodes | src/helpers/format-error.ts:6 | the same message with different status codes gives different texts |
| Json.Member | src/clients/sodium-client.ts:95-96 | a parsed body's member lookup finds a value exactly when some member has the key, and with duplicate keys the value found is the last one's, as `JSON.parse` keeps it |
| Json.Field | src/helpers/ensure-error.ts:11 | `"key" in obj` holds exactly when some member has the key, and the value looked up is that member's |
| Json.Keys | src/clients/sodium-client.ts:60 | the keys of an object literal, one per member, in order |
| Json.FieldAbsent | src/helpers/ensure-error.ts:11 | a key the object does not list looks up nothing |
| Json.FieldsOf | src/clients/sodium-client.ts:60 | in an object with distinct keys every member's key looks up that member's value |
| Json.FieldAt | src/clients/sodium-client.ts:60 | the i-th member of an object with distinct keys is what its key looks up |
| Json.Defined | src/clients/sodium-client.ts:87 | `JSON.stringify` keeps exactly the members whose value is not `undefined` |
| Json.EscapeChar | src/helpers/ensure-error.ts:14 | a character other than `"`, `\` and a control character is written as itself |
| Json.EscapeString | src/helpers/ensure-error.ts:14 | escaping never shortens a string |
| Json.EscapePlain | src/helpers/ensure-error.ts:14 | a string with nothing to escape is written unchanged |
| Json.Quote | src/helpers/ensure-error.ts:14 | a quoted string begins and ends with `"` and is at least two characters longer |
| Json.QuotePlain | src/helpers/ensure-error.ts:14 | a string with nothing to escape is quoted as itself between double quotes |
| Json.OptString | src/clients/sodium-client.ts:87 | an optional string argument becomes an `undefined` member exactly when it is absent, and otherwise that string |
| Json.OptBool | src/clients/sodium-client.ts:87 | an optional boolean argument becomes an `undefined` member exactly when it is absent, and otherwise that boolean |
| Json.OptNumber | src/clients/sodium-client.ts:87 | an optional number argument becomes an `undefined` member exactly when it is absent, and otherwise that number |
| Json.OptStrings | src/clients/sodium-client.ts:87 | an optional string array becomes `undefined` exactly when absent, and otherwise an array holding the same strings in the same order |
| Json.OptStringMap | src/clients/sodium-client.ts:87 | an optional string map becomes `undefined` exactly when absent, and otherwise an object with the same keys and string values in the same order |
| Base64.Value | src/clients/sodium-client.ts:142 | a character that has a value is the alphabet letter of that value |
| Base64.ValueLetter | src/clients/sodium-client.ts:142 | every alphabet letter reads back as its own value |
| Base64.EncodeTriple | src/clients/sodium-client.ts:142 | three bytes become exactly four characters |
| Base64.Encode | src/clients/sodium-client.ts:142 | the encoding of n bytes has 4·⌈n/3⌉ characters |
| Base64.DecodeQuad | src/clients/sodium-client.ts:142 | four sextets give back exactly three bytes |
| Base64.TripleRoundTrip | src/clients/sodium-client.ts:142 | the sextets of three bytes decode to those three bytes |
| Base64.RoundTripOne | src/clients/sodium-client.ts:142 | one byte encoded with `==` padding decodes back to that byte |
| Base64.RoundTripTwo | src/clients/sodium-client.ts:142 | two bytes encoded with `=` padding decode back to those bytes |
| Base64.RoundTripTriple | src/clients/sodium-client.ts:142 | a full group followed by any text decodes to its three bytes followed by the decoding of that text |
| Base64.DecodeEncode | src/clients/sodium-client.ts:141-142 | decoding the base 64 text of the downloaded bytes gives back exactly those bytes |
| Base64.EncodeAlphabet | src/clients/sodium-client.ts:142 | every character of an encoding is an alphabet letter or `=` |
| SodiumClient.BaseUrl | src/clients/sodium-client.ts:3 | an absent or empty `SODIUM_API_URL` gives `https://api.sodiumhq.com`; a non-empty one is used as it is |
| SodiumClient.Construct | src/clients/sodium-client.ts:34-44 | construction succeeds exactly when key and tenant are both non-empty; a missing key is reported before a missing tenant, with the source's two messages; a success holds the key, the tenant and the base URL |
| SodiumClient.Shared.constructor | src/clients/sodium-client.ts:29 | the instance slot starts empty, with nothing constructed |
| SodiumClient.Shared.GetInstance | src/clients/sodium-client.ts:46-51 | returns what the constructor gives for the environment; a stored instance is returned unchanged and not rebuilt; the first successful call stores it; a failed call leaves the slot empty; at most one instance is ever built |
| SodiumClient.Shared.Tenant | src/clients/sodium-client.ts:53-55 | `getTenant` answers exactly when an instance exists, with the configured non-empty tenant |
| SodiumClient.TwoCalls | src/clients/sodium-client.ts:46-51 | two successive `getInstance` calls return the same outcome, and one instance has been built exactly when they succeed |
| SodiumClient.QString | src/clients/sodium-client.ts:11 | an optional string argument becomes an `undefined` query value exactly when it is absent |
| SodiumClient.QNumber | src/clients/sodium-client.ts:11 | an optional number argument becomes an `undefined` query value exactly when it is absent |
| SodiumClient.QBool | src/clients/sodium-client.ts:11 | an optional boolean argument becomes an `undefined` query value exactly when it is absent |
| SodiumClient.QStrings | src/clients/sodium-client.ts:11 | an optional string array becomes an `undefined` query value exactly when it is absent |
| SodiumClient.ValueTexts | src/clients/sodium-client.ts:61-66 | an `undefined` value yields no text, an array one text per element in order, and any other value exactly one text, `String(value)` |
| SodiumClient.EntryPairs | src/clients/sodium-client.ts:61-66 | one entry yields one `(key, text)` pair per text of its value, in order |
| SodiumClient.QueryPairs | src/clients/sodium-client.ts:59 | an absent query record adds no parameter |
| SodiumClient.FlattenAppend | src/clients/sodium-client.ts:60 | the parameters of two runs of entries are those of the first followed by those of the second |
| SodiumClient.FlattenMembership | src/clients/sodium-client.ts:57-68 | `(k, t)` is a parameter exactly when some entry has key `k` and `t` is one of its value's texts |
| SodiumClient.BuildUrl | src/clients/sodium-client.ts:57-70 | the `forEach` loop appends exactly the flattened pairs of the query, entry after entry and element after element, to the path under the base URL |
| SodiumClient.JsonHeaders | src/clients/sodium-client.ts:75-79 | exactly `x-api-key` with the key, `Content-Type: application/json` and `Accept: application/json`, in that order |
| SodiumClient.PdfHeaders | src/clients/sodium-client.ts:122-125 | exactly `x-api-key` with the key, then `Accept: application/pdf` |
| SodiumClient.Prepare | src/clients/sodium-client.ts:73-88 | `request` sends the method, the flattened URL and the three JSON headers, and a body exactly when one is given and the method is POST or PUT, serialised by `JSON.stringify` |
| SodiumClient.PrepareBinary | src/clients/sodium-client.ts:118-126 | `binaryRequest` sends no body and only the key and `Accept: application/pdf` headers, to the flattened URL |
| SodiumClient.StatusLine | src/clients/sodium-client.ts:93 | the fallback message is exactly `HTTP `, the status in decimal, `: ` and the status text (prefix, suffix and length) |
| SodiumClient.ErrorMessage | src/clients/sodium-client.ts:93-101 | the message is the body's `message` when the body parses to an object whose `message` is truthy, and the status line otherwise (empty message, no message, non-object or unparsable body) |
| SodiumClient.ApiError | src/clients/sodium-client.ts:103-107 | the thrown object has `message` and `statusCode` set to the message and the status |
| SodiumClient.Classify | src/clients/sodium-client.ts:90-115 | a rejected fetch rethrows; a non-ok status throws the `ApiError`; a 204 returns `{}` without reading the body; any other ok response returns the parsed body unchanged, or throws the parse error |
| SodiumClient.ClassifyBinary | src/clients/sodium-client.ts:120-142 | the same failure rule as `request`; on success the base 64 text of the response bytes |
| SodiumClient.Request | src/clients/sodium-client.ts:72-115 | the method sends exactly the prepared request and returns exactly the classified outcome |
| SodiumClient.BinaryRequest | src/clients/sodium-client.ts:117-143 | the method sends exactly the prepared binary request and returns exactly the classified binary outcome |
| SodiumClient.DownloadRoundTrip | src/clients/sodium-client.ts:141-142 | a successful download returns text that decodes back to exactly the bytes received |
| SodiumClient.FailedResponseMessage | src/clients/sodium-client.ts:92-107 | the message a catch clause prints for a failed response is its string message, or the JSON of `{message, statusCode}` when the truthy message is not a string |
| SodiumClient.TenantPath | src/clients/sodium-client.ts:146-148 | the path is exactly `/tenants/`, the tenant and the given path |
| SodiumClient.Resource | src/clients/sodium-client.ts:150-523 | every resource path below the tenant starts with `/` |
| SodiumClient.Route | src/clients/sodium-client.ts:152-523 | every resource method builds its path with `tenantPath`, and passes its own method, body and query |
| SodiumClient.RoutesAreTenantScoped | src/clients/sodium-client.ts:146-148 | every route starts with `/tenants/<tenant>/` |
| SodiumClient.OnlyListsCarryQueries | src/clients/sodium-client.ts:152-523 | only list methods pass a query record, and only POST and PUT methods pass a body |
| SodiumClient.DataOf | src/clients/sodium-client.ts:158 | `response.data` is the object's `data` member, `undefined` for a non-object, and throws for `null` |
| SodiumClient.Unwrap | src/clients/sodium-client.ts:152-159 | a failure passes through; a list method returns the envelope's `data`; any other method returns the value as received |
| SodiumClient.Call | src/clients/sodium-client.ts:152-523 | a resource method sends the request of its route and returns the unwrapped outcome |
| SodiumClient.Fetch | src/clients/sodium-client.ts:415-436 | a PDF download goes by GET through `binaryRequest` to the engagement's PDF path |
| SodiumClient.DownloadPath | src/clients/sodium-client.ts:418 | both PDF paths lie below `/tenants/<tenant>/engagements/` |
| SodiumClient.EmptyReplyListIsUndefined | src/clients/sodium-client.ts:110-112 | a list method answered with 204 returns `undefined`: `{}` has no `data` |
| SodiumClient.EmailHistoryNotUnwrapped | src/clients/sodium-client.ts:400-405 | `getEngagementEmails` returns the response as received, without unwrapping |
| SodiumClient.NotFoundMessage | src/clients/sodium-client.ts:92-107 | a 404 whose body message is a non-empty text reaches the tool's catch clause as exactly that text |
| Report.LabelText | src/tools/get/get-engagement.tool.ts:7-52 | every label prints as a non-empty text before its colon |
| Report.Spaces | src/tools/list/list-client-services.tool.ts:11 | the indent of a nested line is exactly that many spaces |
| Report.When | src/tools/list/list-clients.tool.ts:11 | a guarded `lines.push` adds its line exactly when the guard holds, and nothing otherwise |
| Report.PushWhen | src/tools/list/list-clients.tool.ts:11-15 | `if (c) lines.push(l)` leaves the lines followed by the guarded push |
| Report.Shown | src/tools/list/list-clients.tool.ts:11 | under an `if (x)` guard a line shows a value exactly when the string is present and non-empty, and then shows that string |
| Report.ShowsJoin | src/tools/list/list-clients.tool.ts:7-15 | two runs of lines that do not both show a label show, together, whichever one shows it |
| Report.ShowsAtJoin | src/tools/list/list-client-services.tool.ts:10-19 | the same for indented lines |
| Report.FoundHeader | src/tools/list/list-clients.tool.ts:43 | a list header is exactly `Found `, the count in decimal, a space, the noun, `(s)`, the rest and `:` (prefix, suffix and length) |
| Report.Listing | src/tools/list/list-clients.tool.ts:32-44 | an empty list prints only its empty text; otherwise the header, a blank line and the blocks joined by the separator |
| Report.ErrorText | src/tools/list/list-clients.tool.ts:47-51 | a catch clause prints exactly its prefix, `: ` and the `ensureError` message (prefix, suffix and length) |
| Report.BlockHead | src/tools/list/list-clients.tool.ts:16 | the text of a block starts with its first line |
| Report.BlockAppend | src/tools/list/list-clients.tool.ts:16 | joining more lines onto a block appends their text after one newline |
| ClientTools.RefName | src/tools/list/list-clients.tool.ts:13-14 | a Manager or Partner reference shows its name, or its code when the name is empty, and nothing when the reference is absent |
| ClientTools.FormatListed | src/tools/list/list-clients.tool.ts:6-17 | the pushes of list-clients' `formatClient`, joined with newlines |
| ClientTools.ListedHead | src/tools/list/list-clients.tool.ts:7-10 | a block has two to seven lines and opens with `Name:` then `Code:` |
| ClientTools.ListedShows | src/tools/list/list-clients.tool.ts:11-15 | each label shows exactly what its field calls for: Type, Status and Created only when non-empty, Manager and Partner whenever present, no Updated line |
| ClientTools.FormatDetail | src/tools/get/get-client.tool.ts:6-18 | the pushes of get-client's `formatClient`, joined with newlines |
| ClientTools.DetailExtendsListed | src/tools/get/get-client.tool.ts:6-18 | the detail block is the list block followed by an optional `Updated:` line |
| ClientTools.DetailShows | src/tools/get/get-client.tool.ts:11-16 | each label shows what the list block shows, and Updated exactly when it is non-empty |
| ClientTools.ListCall | src/tools/list/list-clients.tool.ts:30 | the handler forwards exactly offset, limit and search as the query |
| ClientTools.ListText | src/tools/list/list-clients.tool.ts:30-51 | an absent or empty list prints `No clients found.`; otherwise `Found <n> client(s):`, a blank line and one block per client in order, joined by the `---` separator; a failure prints `Error listing clients: <message>` |
| ClientTools.GetCall | src/tools/get/get-client.tool.ts:29 | get-client asks for the client by its code |
| ClientTools.GetText | src/tools/get/get-client.tool.ts:35-42 | success prints `Client Details:`, a blank line and the block; a failure prints `Error getting client: <message>` |
| ClientTools.CreateCall | src/tools/create/create-client.tool.ts:16 | the body is exactly `{name, type}`, with `type` only when given |
| ClientTools.FormatCreated | src/tools/create/create-client.tool.ts:18-28 | the handler's pushes, joined with newlines |
| ClientTools.CreatedHead | src/tools/create/create-client.tool.ts:18-23 | the report opens with `Client created successfully!`, an empty line, Code and Name, and has at most six lines |
| ClientTools.CreatedShows | src/tools/create/create-client.tool.ts:24-25 | only Code, Name, Type and Status can be shown, Type and Status only when non-empty |
| ClientTools.CreateText | src/tools/create/create-client.tool.ts:28-33 | success prints the joined lines and nothing else; a failure prints `Error creating client: <message>` |
| ClientTools.CreatedExample | src/tools/create/create-client.tool.ts:18-25 | the reply {C001, Acme Ltd, PrivateLimitedCompany} gives the banner, an empty line, `Code: C001`, `Name: Acme Ltd`, `Type: PrivateLimitedCompany` |
| ClientTools.UpdateCall | src/tools/update/update-client.tool.ts:18 | the update sends `{name, type, status}` under the given code |
| ClientTools.FormatUpdated | src/tools/update/update-client.tool.ts:20-30 | the handler's pushes, joined with newlines |
| ClientTools.UpdatedMatchesCreated | src/tools/update/update-client.tool.ts:20-27 | the update report is the create report with `Client updated successfully!` as its banner |
| ClientTools.UpdateText | src/tools/update/update-client.tool.ts:30-35 | success prints the joined lines; a failure prints `Error updating client: <message>` |
| ClientTools.MissingKeyReported | src/tools/list/list-clients.tool.ts:29 | without an API key the list tool prints `Error listing clients: SODIUM_API_KEY environment variable is required` |
| ContactTools.DisplayNameCases | src/tools/list/list-client-contacts.tool.ts:7 | the display name is first and last name joined by one space, just one of them when the other is empty, and `Unnamed` when both are |
| ContactTools.FormatContact | src/tools/list/list-client-contacts.tool.ts:6-17 | the pushes of `formatContact`, joined with newlines (get-client-contact.tool.ts:6-17 has the same body) |
| ContactTools.ContactHead | src/tools/list/list-client-contacts.tool.ts:8-11 | a block has two to six lines and opens with `Name:` then `Code:` |
| ContactTools.ContactShows | src/tools/list/list-client-contacts.tool.ts:12-15 | Email, Phone and Type show exactly when non-empty, Primary shows `Yes` exactly when the flag is set, no other label appears |
| ContactTools.NeverPrimaryNo | src/tools/list/list-client-contacts.tool.ts:15 | a block never contains `Primary: No` |
| ContactTools.ListCall | src/tools/list/list-client-contacts.tool.ts:28 | the list asks for the contacts of the given client |
| ContactTools.ListText | src/tools/list/list-client-contacts.tool.ts:28-49 | an absent or empty list prints `No contacts found for client <code>.`; otherwise `Found <n> contact(s) for client <code>:`, a blank line and the blocks joined by the separator; a failure prints `Error listing contacts: <message>` |
| ContactTools.GetCall | src/tools/get/get-client-contact.tool.ts:29 | the get asks for the contact by client code and contact code |
| ContactTools.GetText | src/tools/get/get-client-contact.tool.ts:35-42 | success prints `Contact Details:`, a blank line and the block; a failure prints `Error getting contact: <message>` |
| ContactTools.ContactBody | src/tools/create/create-client-contact.tool.ts:21-28 | the body has exactly the six keys firstName, lastName, email, phone, type and isPrimary, each carrying its argument (absent ones as undefined) |
| ContactTools.CreateCall | src/tools/create/create-client-contact.tool.ts:21 | the create posts that body under the given client |
| ContactTools.UpdateCall | src/tools/update/update-client-contact.tool.ts:22 | the update puts that body under the given client and contact code |
| ContactTools.FormatSaved | src/tools/create/create-client-contact.tool.ts:30-42 | the handler's pushes, joined with newlines (update-client-contact.tool.ts:31-43 differs only in the banner) |
| ContactTools.SavedHead | src/tools/create/create-client-contact.tool.ts:31-36 | the report opens with the banner, an empty line, `Code:` and `Name:`, and has four to seven lines |
| ContactTools.SavedShows | src/tools/create/create-client-contact.tool.ts:37-39 | the report shows what a contact block shows, except that it never has a Type line |
| ContactTools.CreateText | src/tools/create/create-client-contact.tool.ts:41-47 | success prints the report under `Contact created successfully!`; a failure prints `Error creating contact: <message>` |
| ContactTools.UpdateText | src/tools/update/update-client-contact.tool.ts:42-47 | success prints the report under `Contact updated successfully!`; a failure prints `Error updating contact: <message>` |
| NoteTools.FormatNote | src/tools/list/list-client-notes.tool.ts:6-15 | the pushes of `formatNote`, joined with newlines (get-client-note.tool.ts:6-15 has the same body) |
| NoteTools.NoteHead | src/tools/list/list-client-notes.tool.ts:7-10 | a block has two to five lines and opens with `Code:` then `Content:` |
| NoteTools.NoteShows | src/tools/list/list-client-notes.tool.ts:11-13 | Pinned shows `Yes` exactly when the flag is set, Created and Created by exactly when non-empty, no other label appears |
| NoteTools.ListCall | src/tools/list/list-client-notes.tool.ts:26 | the list asks for the notes of the given client |
| NoteTools.ListText | src/tools/list/list-client-notes.tool.ts:26-47 | an absent or empty list prints `No notes found for client <code>.`; otherwise `Found <n> note(s) for client <code>:`, a blank line and the blocks joined by the separator; a failure prints `Error listing notes: <message>` |
| NoteTools.GetCall | src/tools/get/get-client-note.tool.ts:27 | the get asks for the note by client code and note code |
| NoteTools.GetText | src/tools/get/get-client-note.tool.ts:33-40 | success prints `Note Details:`, a blank line and the block; a failure prints `Error getting note: <message>` |
| NoteTools.NoteBody | src/tools/create/create-client-note.tool.ts:17 | the body has exactly the keys content and isPinned, each carrying its argument |
| NoteTools.CreateCall | src/tools/create/create-client-note.tool.ts:17 | once undefined members are dropped the create sends the content, and isPinned only when given |
| NoteTools.UpdateCall | src/tools/update/update-client-note.tool.ts:18 | the update sends `{content, isPinned}` under the given client and note code |
| NoteTools.FormatSaved | src/tools/create/create-client-note.tool.ts:19-28 | the handler's pushes, joined with newlines (update-client-note.tool.ts:20-29 differs only in the banner) |
| NoteTools.SavedHead | src/tools/create/create-client-note.tool.ts:19-25 | the report is the banner, an empty line, Code and Content, plus one line exactly when the note is pinned |
| NoteTools.SavedShows | src/tools/create/create-client-note.tool.ts:22-25 | the report shows Code, Content and Pinned as a note block does, and never Created or Created by |
| NoteTools.CreateText | src/tools/create/create-client-note.tool.ts:27-33 | success prints the report under `Note created successfully!`; a failure prints `Error creating note: <message>` |
| NoteTools.UpdateText | src/tools/update/update-client-note.tool.ts:28-34 | success prints the report under `Note updated successfully!`; a failure prints `Error updating note: <message>` |
| TaskTools.FormatListed | src/tools/list/list-tasks.tool.ts:6-18 | the pushes of list-tasks' `formatTask`, joined with newlines |
| TaskTools.ListedHead | src/tools/list/list-tasks.tool.ts:7-10 | a block has two to eight lines and opens with `Name:` then `Code:` |
| TaskTools.ListedShows | src/tools/list/list-tasks.tool.ts:11-16 | Status, Due, Client, Assigned to, Category and Description each show exactly when non-empty; Created and Updated never appear |
| TaskTools.FormatDetail | src/tools/get/get-task.tool.ts:6-20 | the pushes of get-task's `formatTask`, joined with newlines |
| TaskTools.DetailExtendsListed | src/tools/get/get-task.tool.ts:6-20 | the detail block is the list block followed by optional Created and Updated lines |
| TaskTools.DetailShows | src/tools/get/get-task.tool.ts:11-18 | every task field, the timestamps included, shows exactly when non-empty |
| TaskTools.ListCall | src/tools/list/list-tasks.tool.ts:31 | the handler forwards exactly offset, limit and clientCode as the query |
| TaskTools.ListText | src/tools/list/list-tasks.tool.ts:31-51 | an absent or empty list prints `No tasks found.`; otherwise `Found <n> task(s):`, a blank line and the blocks joined by the separator; a failure prints `Error listing tasks: <message>` |
| TaskTools.GetCall | src/tools/get/get-task.tool.ts:31 | get-task asks for the task by its code |
| TaskTools.GetText | src/tools/get/get-task.tool.ts:37-44 | success prints `Task Details:`, a blank line and the block; a failure prints `Error getting task: <message>` |
| TaskTools.CreateBody | src/tools/create/create-task.tool.ts:20 | the body's keys are exactly name, description, dueDate, clientCode, assignedTo and category, with no repeats |
| TaskTools.CreateForwards | src/tools/create/create-task.tool.ts:20 | each create argument is sent unchanged under its own key |
| TaskTools.CreateCall | src/tools/create/create-task.tool.ts:20 | create-task posts that body |
| TaskTools.FormatCreated | src/tools/create/create-task.tool.ts:22-33 | the handler's pushes, joined with newlines |
| TaskTools.CreatedHead | src/tools/create/create-task.tool.ts:22-27 | the report opens with `Task created successfully!`, an empty line, `Code:` and `Name:`, and has four to seven lines |
| TaskTools.CreatedShows | src/tools/create/create-task.tool.ts:28-30 | only Code, Name, Due, Client and Assigned to can be shown; never Status, Category or Description |
| TaskTools.CreateText | src/tools/create/create-task.tool.ts:33-38 | success prints the report; a failure prints `Error creating task: <message>` |
| TaskTools.UpdateBody | src/tools/update/update-task.tool.ts:21 | the body's keys are exactly name, description, status, dueDate, assignedTo and category, with no repeats |
| TaskTools.UpdateForwards | src/tools/update/update-task.tool.ts:21 | each update argument is sent unchanged under its own key |
| TaskTools.UpdateOmitsClient | src/tools/update/update-task.tool.ts:21 | an update never carries a clientCode key |
| TaskTools.UpdateCall | src/tools/update/update-task.tool.ts:21 | update-task puts that body under the task code |
| TaskTools.FormatUpdated | src/tools/update/update-task.tool.ts:23-34 | the handler's pushes, joined with newlines |
| TaskTools.UpdatedHead | src/tools/update/update-task.tool.ts:23-28 | the report opens with `Task updated successfully!`, an empty line, `Code:` and `Name:`, and has four to seven lines |
| TaskTools.UpdatedShows | src/tools/update/update-task.tool.ts:29-31 | only Code, Name, Status, Due and Assigned to can be shown |
| TaskTools.UpdateText | src/tools/update/update-task.tool.ts:34-39 | success prints the report; a failure prints `Error updating task: <message>` |
| EngagementTools.RefWithCode | src/tools/list/list-engagements.tool.ts:12 | the Client text is exactly the client's name, ` (`, its code and `)` (prefix, suffix and length) |
| EngagementTools.RecipientNameCases | src/tools/list/list-engagements.tool.ts:20-22 | the recipient is the non-empty names joined by one space, and empty, so not printed, exactly when both names are empty |
| EngagementTools.PushHead | src/tools/list/list-engagements.tool.ts:7-17 | the Code, Client, Status, Type and Date pushes build exactly the head of the block |
| EngagementTools.PushMiddle | src/tools/list/list-engagements.tool.ts:19-31 | the recipient and financial pushes append exactly the middle of the block |
| EngagementTools.PushTail | src/tools/list/list-engagements.tool.ts:33-52 | the template, status-detail and link pushes append exactly the tail of the block |
| EngagementTools.FormatEngagement | src/tools/list/list-engagements.tool.ts:6-55 | the whole `formatEngagement`, joined with newlines (get-engagement.tool.ts:6-55 has the same body) |
| EngagementTools.EngagementHead | src/tools/list/list-engagements.tool.ts:7-9 | a block has one to fourteen lines and opens with `Code:` |
| EngagementTools.HeadShows | src/tools/list/list-engagements.tool.ts:11-17 | Client shows `name (code)` whenever a client is present; Status, Type and Date exactly when non-empty |
| EngagementTools.RecipientShows | src/tools/list/list-engagements.tool.ts:20-23 | Recipient shows exactly when some name is non-empty, Email exactly when non-empty |
| EngagementTools.MiddleShows | src/tools/list/list-engagements.tool.ts:19-31 | Annual Value shows `£` and two decimals and Services the number, each whenever it is defined |
| EngagementTools.TailShows | src/tools/list/list-engagements.tool.ts:33-52 | each template shows its name whenever present; Last Viewed, Accepted and Link exactly when non-empty |
| EngagementTools.EngagementShows | src/tools/list/list-engagements.tool.ts:6-55 | every label of the block shows exactly the value its field calls for, and labels outside the formatter never appear |
| EngagementTools.TypeOnlyFromTypeName | src/tools/list/list-engagements.tool.ts:16 | without a typeName the block has no Type line, whatever `type` holds |
| EngagementTools.ZeroValuesShown | src/tools/list/list-engagements.tool.ts:26-31 | an annual value of 0 and a service count of 0 are still printed, the count as `0` |
| EngagementTools.ListCall | src/tools/list/list-engagements.tool.ts:67 | the handler forwards exactly offset and limit |
| EngagementTools.ListText | src/tools/list/list-engagements.tool.ts:67-87 | an absent or empty list prints `No engagements found.`; otherwise `Found <n> engagement(s):`, a blank line and the blocks joined by the separator; a failure prints `Error listing engagements: <message>` |
| EngagementTools.GetCall | src/tools/get/get-engagement.tool.ts:66 | get-engagement asks for the engagement by its code |
| EngagementTools.GetText | src/tools/get/get-engagement.tool.ts:72-79 | success prints `Engagement Details:`, a blank line and the block; a failure prints `Error getting engagement: <message>` |
| EngagementTools.NotFoundText | src/tools/get/get-engagement.tool.ts:76-79 | a 404 reply whose body message is `Engagement not found` makes the tool print `Error getting engagement: Engagement not found` |
| EngagementTools.ParseKind | src/tools/create/create-engagement.tool.ts:12-13 | the `type` argument is accepted exactly when it is ProposalAndEngagementLetter or EngagementLetter |
| EngagementTools.KindRoundTrip | src/tools/create/create-engagement.tool.ts:12-13 | parsing a kind's name gives the kind back, and an accepted string is the name of the kind it parses to |
| EngagementTools.CreateBody | src/tools/create/create-engagement.tool.ts:41-51 | the body's keys are exactly the nine request fields in the handler's order, with no repeats |
| EngagementTools.CreateForwards | src/tools/create/create-engagement.tool.ts:41-51 | each create argument is sent unchanged under its own key |
| EngagementTools.CreateCall | src/tools/create/create-engagement.tool.ts:41 | create-engagement posts that body |
| EngagementTools.FormatCreated | src/tools/create/create-engagement.tool.ts:53-78 | the handler's pushes, joined with newlines |
| EngagementTools.CreatedHead | src/tools/create/create-engagement.tool.ts:53-57 | the report opens with `Engagement created successfully!`, an empty line and `Code:`, and has three to twelve lines |
| EngagementTools.CreatedHeadShows | src/tools/create/create-engagement.tool.ts:58-63 | in the report Type is guarded by `type` and shows typeName, falling back to type; Client, Status and Date show as in the block |
| EngagementTools.CreatedValueShows | src/tools/create/create-engagement.tool.ts:69-74 | Services and Annual Value each show whenever defined |
| EngagementTools.CreatedShows | src/tools/create/create-engagement.tool.ts:53-75 | the report shows the block's fields except the templates, Last Viewed and Accepted, which it never shows, and has its own Type line |
| EngagementTools.CreatedServicesFirst | src/tools/create/create-engagement.tool.ts:69-74 | when both are set, the Services line comes directly before the Annual Value line, the reverse of the block's order |
| EngagementTools.CreateText | src/tools/create/create-engagement.tool.ts:77-83 | success prints the report; a failure prints `Error creating engagement: <message>` |
| EngagementTools.UpdateCall | src/tools/update/update-engagement.tool.ts:16 | the update body has the single key status, carrying the argument |
| EngagementTools.FormatUpdated | src/tools/update/update-engagement.tool.ts:18-29 | the handler's pushes, joined with newlines |
| EngagementTools.UpdatedShape | src/tools/update/update-engagement.tool.ts:18-26 | the report is the banner, an empty line and `Code:`, then `Client:` when a client is present, then `Status:` last when set |
| EngagementTools.UpdateText | src/tools/update/update-engagement.tool.ts:29-34 | success prints the report; a failure prints `Error updating engagement: <message>` |
| EmailTools.Heading | src/tools/get/get-engagement-emails.tool.ts:7 | the heading of an email is `Email #` followed by exactly the decimal of its one-based number |
| EmailTools.HeadingInjective | src/tools/get/get-engagement-emails.tool.ts:7 | two positions share a heading exactly when they are equal |
| EmailTools.FormatEmail | src/tools/get/get-engagement-emails.tool.ts:6-16 | the pushes of `formatEmail`, joined with newlines |
| EmailTools.EmailHead | src/tools/get/get-engagement-emails.tool.ts:7-14 | a block is the heading followed by at most five labelled lines |
| EmailTools.EmailShows | src/tools/get/get-engagement-emails.tool.ts:8-14 | Sent, Subject, Status and Message ID show exactly when non-empty; To shows the recipients joined by `, ` exactly when there are some |
| EmailTools.NoRecipientsNoTo | src/tools/get/get-engagement-emails.tool.ts:10-12 | an absent or empty recipient list gives no `To:` line |
| EmailTools.HistoryCall | src/tools/get/get-engagement-emails.tool.ts:27 | the tool asks for the email history of the given engagement |
| EmailTools.EmailBlocks | src/tools/get/get-engagement-emails.tool.ts:40 | there is one block per email |
| EmailTools.BlocksNumbered | src/tools/get/get-engagement-emails.tool.ts:40 | the block at position i opens with `Email #<i + 1>` |
| EmailTools.HistoryText | src/tools/get/get-engagement-emails.tool.ts:27-55 | an absent or empty history prints `No emails found for engagement <code>.`; otherwise the header with the count, a blank line and the numbered blocks joined by the separator; a failure prints `Error retrieving engagement email history: <message>` |
| SettingsTools.FormatSettings | src/tools/get/get-engagement-settings.tool.ts:5-43 | the pushes of `formatSettings`, joined with newlines |
| SettingsTools.PushBlocks | src/tools/get/get-engagement-settings.tool.ts:17-40 | the six reference pushes append exactly the reference lines |
| SettingsTools.RefField | src/tools/get/get-engagement-settings.tool.ts:8-9 | a reference shows exactly when it is present with a non-empty name |
| SettingsTools.ThemeShows | src/tools/get/get-engagement-settings.tool.ts:8-10 | Design Theme shows `name (code)` exactly when the theme is named |
| SettingsTools.FlagShows | src/tools/get/get-engagement-settings.tool.ts:11-15 | each of the five flags always shows, as Yes or No |
| SettingsTools.BlockShows | src/tools/get/get-engagement-settings.tool.ts:17-40 | each content block and the acceptance task show `name (code)` exactly when named |
| SettingsTools.SettingsShows | src/tools/get/get-engagement-settings.tool.ts:5-43 | every label of the settings block shows exactly the value its field calls for |
| SettingsTools.FlagsYesNo | src/tools/get/get-engagement-settings.tool.ts:11-15 | a flag line reads Yes exactly when the flag is true, and No when it is false or absent |
| SettingsTools.SettingsShape | src/tools/get/get-engagement-settings.tool.ts:6-40 | the block has five to twelve lines, and the five flags sit together right after the optional Design Theme line |
| SettingsTools.SettingsCall | src/tools/get/get-engagement-settings.tool.ts:52 | the tool asks for the tenant's engagement settings |
| SettingsTools.SettingsText | src/tools/get/get-engagement-settings.tool.ts:58-68 | success prints `Engagement Settings:`, a blank line and the block; a failure prints `Error getting engagement settings: <message>` |
| ServiceTools.ParseCategory | src/tools/list/list-services.tool.ts:39-48 | the category filter is accepted exactly when it is one of the seven category names |
| ServiceTools.CategoryRoundTrip | src/tools/list/list-services.tool.ts:39-48 | parsing a category's name gives it back, and an accepted string is the name of what it parses to |
| ServiceTools.ParseClientType | src/tools/list/list-services.tool.ts:51-59 | the client-type filter is accepted exactly when it is one of the six client types |
| ServiceTools.ClientTypeRoundTrip | src/tools/list/list-services.tool.ts:51-59 | parsing a client type's name gives it back, and an accepted string is the name of what it parses to |
| ServiceTools.ParseSortField | src/tools/list/list-services.tool.ts:63-64 | the sort field is accepted exactly when it is Name, Category or AccountingCode |
| ServiceTools.SortFieldRoundTrip | src/tools/list/list-services.tool.ts:63-64 | parsing a sort field's name gives it back, and an accepted string is the name of what it parses to |
| ServiceTools.OptionPrice | src/tools/list/list-services.tool.ts:19 | a pricing option shows its price to two decimals, or `?` when it has none |
| ServiceTools.PriceItem | src/tools/list/list-services.tool.ts:19 | one pricing item is exactly `£`, the price or `?`, ` (`, the frequency and `)` (prefix, suffix and length) |
| ServiceTools.PriceItems | src/tools/list/list-services.tool.ts:18-20 | there is one item per pricing option, in order |
| ServiceTools.FormatSummary | src/tools/list/list-services.tool.ts:6-29 | the pushes of `formatService`, joined with newlines |
| ServiceTools.SummaryHeadShows | src/tools/list/list-services.tool.ts:8-13 | Name and Category show exactly when non-empty, Client Types joined by `, ` exactly when there are some |
| ServiceTools.SummaryTailShows | src/tools/list/list-services.tool.ts:14-26 | Description shows when non-empty, Archived only as `Yes` when set, Pricing as the item list and Pricing Factors as `<n> question(s)` when there are any |
| ServiceTools.SummaryShows | src/tools/list/list-services.tool.ts:6-29 | every label of a listed service shows exactly the value its field calls for |
| ServiceTools.SummaryHead | src/tools/list/list-services.tool.ts:7-8 | a block has one to eight lines and opens with `Code:` |
| ServiceTools.NeverArchivedNo | src/tools/list/list-services.tool.ts:15 | a block never contains `Archived: No` |
| ServiceTools.ListCall | src/tools/list/list-services.tool.ts:74-83 | the eight filters are forwarded in the handler's order, the enumerations by name |
| ServiceTools.ListText | src/tools/list/list-services.tool.ts:74-103 | an absent or empty list prints `No services found.`; otherwise `Found <n> service(s):`, a blank line and the blocks joined by the separator; a failure prints `Error listing services: <message>` |
| ClientServiceTools.ServiceNameCases | src/tools/list/list-client-services.tool.ts:8 | the catalogue name wins even when empty; then the code, even when empty; `?` only when both are absent |
| ClientServiceTools.TitleLine | src/tools/list/list-client-services.tool.ts:9 | the first line is unlabelled and is exactly the name, ` (code: `, the code and `)` (prefix, suffix and length) |
| ClientServiceTools.AnswerLine | src/tools/list/list-client-services.tool.ts:23 | an answer line is unlabelled and is exactly four spaces, the question, `: ` and the answer (prefix, suffix and length) |
| ClientServiceTools.AnswerLines | src/tools/list/list-client-services.tool.ts:22-24 | there is one line per pricing answer, in entry order |
| ClientServiceTools.PushAnswers | src/tools/list/list-client-services.tool.ts:22-24 | the loop appends exactly the answer lines, in order, after what was already there |
| ClientServiceTools.FormatListed | src/tools/list/list-client-services.tool.ts:6-27 | the pushes of list-client-services' `formatClientService`, joined with newlines |
| ClientServiceTools.ListedHeadShows | src/tools/list/list-client-services.tool.ts:10-16 | at indent two, Billing shows when non-empty, Price as `£` and two decimals whenever defined, Adjustment as `<n>%` only when non-zero |
| ClientServiceTools.ListedDateShows | src/tools/list/list-client-services.tool.ts:17-19 | at indent two, Start, End and Status each show exactly when non-empty |
| ClientServiceTools.AnswersUnlabelled | src/tools/list/list-client-services.tool.ts:20-25 | the pricing-answers section holds no labelled line |
| ClientServiceTools.ListedShows | src/tools/list/list-client-services.tool.ts:6-27 | every indented label of a listed block shows exactly the value its field calls for |
| ClientServiceTools.NoZeroAdjustment | src/tools/list/list-client-services.tool.ts:14 | a zero or absent adjustment prints no Adjustment line |
| ClientServiceTools.ListedAnswers | src/tools/list/list-client-services.tool.ts:20-25 | the block opens with the name line; the `Pricing answers:` header appears exactly when the map has an entry, and is then followed by one line per entry, which end the block |
| ClientServiceTools.ListCall | src/tools/list/list-client-services.tool.ts:38 | the list asks for the services of the given client |
| ClientServiceTools.CodesSummaryMembers | src/tools/list/list-client-services.tool.ts:52 | the summary lists exactly the non-empty service codes |
| ClientServiceTools.ListedBlocks | src/tools/list/list-client-services.tool.ts:51 | there is one block per service |
| ClientServiceTools.ListText | src/tools/list/list-client-services.tool.ts:38-74 | an absent or empty list prints `No services found for client <code>.`; otherwise the header with the count, a blank line, the blocks separated by blank lines (not `---`), a blank line and the codes summary; a failure prints `Error listing client services: <message>` |
| ClientServiceTools.ParseFrequency | src/tools/create/create-client-service.tool.ts:25-26 | the billing frequency is accepted exactly when it is OneOff, Annual, Quarterly or Monthly |
| ClientServiceTools.FrequencyRoundTrip | src/tools/create/create-client-service.tool.ts:25-26 | parsing a frequency's name gives it back, and an accepted string is the name of what it parses to |
| ClientServiceTools.ParseStatus | src/tools/create/create-client-service.tool.ts:31-32 | the status is accepted exactly when it is Active, Inactive, Paused or Proposed |
| ClientServiceTools.StatusRoundTrip | src/tools/create/create-client-service.tool.ts:31-32 | parsing a status's name gives it back, and an accepted string is the name of what it parses to |
| ClientServiceTools.ServiceBody | src/tools/create/create-client-service.tool.ts:76-87 | the body's keys are exactly the ten request fields in the handler's order, with no repeats |
| ClientServiceTools.ServiceForwards | src/tools/create/create-client-service.tool.ts:77-80 | the four required arguments are sent unchanged under their own keys, the enumerations by name |
| ClientServiceTools.ServiceOptionsForwards | src/tools/create/create-client-service.tool.ts:81-86 | the six optional arguments are sent under their own keys, undefined when absent |
| ClientServiceTools.CreateCall | src/tools/create/create-client-service.tool.ts:76 | the create posts that body under the given client |
| ClientServiceTools.UpdateCall | src/tools/update/update-client-service.tool.ts:77 | the update puts the same body under the given client and service code |
| ClientServiceTools.FormatCreated | src/tools/create/create-client-service.tool.ts:6-15 | the pushes of create-client-service's `formatClientService`, joined with newlines |
| ClientServiceTools.FormatUpdated | src/tools/update/update-client-service.tool.ts:6-16 | the pushes of update-client-service's `formatClientService`, joined with newlines |
| ClientServiceTools.CreatedShows | src/tools/create/create-client-service.tool.ts:10-13 | unindented, the create block shows Billing, Price, Start and Status as the list does, and never End or Adjustment |
| ClientServiceTools.UpdatedShows | src/tools/update/update-client-service.tool.ts:10-14 | unindented, the update block shows Billing, Price, Start, End and Status as the list does, and never Adjustment |
| ClientServiceTools.UpdatedExtendsCreated | src/tools/update/update-client-service.tool.ts:6-16 | the update block is the create block plus an End line exactly when the end date is non-empty |
| ClientServiceTools.CreateText | src/tools/create/create-client-service.tool.ts:93-107 | success prints `Service assigned to client <code> successfully!`, a blank line and the block; a failure prints `Error creating client service: <message>` |
| ClientServiceTools.UpdateText | src/tools/update/update-client-service.tool.ts:94-104 | success prints `Client service updated successfully!`, a blank line and the block; a failure prints `Error updating client service: <message>` |
| ServiceDetailTools.RangePrice | src/tools/get/get-service.tool.ts:24-26 | an override shows `£` and its price to two decimals, or `no override` when it has no price |
| ServiceDetailTools.NoteCount | src/tools/get/get-service.tool.ts:28-30 | the overrides with a description number at most the overrides |
| ServiceDetailTools.OverridesCount | src/tools/get/get-service.tool.ts:23-31 | the overrides print one range line each plus one Note line per override with a description |
| ServiceDetailTools.Sign | src/tools/get/get-service.tool.ts:42 | the sign is `+` exactly when the value, a missing one counting as 0, is not negative, and empty otherwise |
| ServiceDetailTools.ChoiceLine | src/tools/get/get-service.tool.ts:43 | an option line is `    - <name>: `, the sign, the value times 100 with no decimals, and `%` |
| ServiceDetailTools.ChoiceLines | src/tools/get/get-service.tool.ts:41-44 | there is one line per factor option, in order |
| ServiceDetailTools.PushOverrides | src/tools/get/get-service.tool.ts:23-31 | the override loop appends exactly the override lines, in order |
| ServiceDetailTools.PushOption | src/tools/get/get-service.tool.ts:21-32 | one pricing iteration appends the frequency line and then that option's override lines |
| ServiceDetailTools.PushPricing | src/tools/get/get-service.tool.ts:20-33 | the pricing loop appends exactly the lines of every option, in order |
| ServiceDetailTools.PushChoices | src/tools/get/get-service.tool.ts:41-44 | the option loop appends exactly the option lines, in order |
| ServiceDetailTools.PushFactor | src/tools/get/get-service.tool.ts:39-45 | one factor iteration appends the `Q:` line and then that factor's option lines |
| ServiceDetailTools.PushFactors | src/tools/get/get-service.tool.ts:38-46 | the factor loop appends exactly the lines of every factor, in order |
| ServiceDetailTools.PushFields | src/tools/get/get-service.tool.ts:7-16 | the pushes from Code to Archived build exactly the list block's first four lines followed by Description, Accounting Code and Archived |
| ServiceDetailTools.FormatDetail | src/tools/get/get-service.tool.ts:6-53 | the whole `formatService` of get-service, joined with newlines |
| ServiceDetailTools.OverridesInner | src/tools/get/get-service.tool.ts:27-29 | every override line is indented |
| ServiceDetailTools.PricingInner | src/tools/get/get-service.tool.ts:21-31 | every line of the pricing options is indented |
| ServiceDetailTools.FactorsInner | src/tools/get/get-service.tool.ts:39-44 | every line of the pricing factors is indented |
| ServiceDetailTools.SectionsShowNothing | src/tools/get/get-service.tool.ts:18-47 | neither section holds a top-level labelled line |
| ServiceDetailTools.FieldsShow | src/tools/get/get-service.tool.ts:8-16 | Name, Category, Client Types, Description and Accounting Code show exactly when non-empty; Archived always shows, as Yes or No |
| ServiceDetailTools.DetailShows | src/tools/get/get-service.tool.ts:6-53 | every top-level label of the report shows exactly the value its field calls for, Created and Updated exactly when non-empty |
| ServiceDetailTools.OuterLines | src/tools/get/get-service.tool.ts:8-16 | the top-level lines are labelled, or the blank line before Created |
| ServiceDetailTools.PricingHeaderPresent | src/tools/get/get-service.tool.ts:18-19 | `Pricing:` is printed exactly when the service has pricing options |
| ServiceDetailTools.FactorsHeaderPresent | src/tools/get/get-service.tool.ts:36-37 | `Pricing Factor Questions:` is printed exactly when the service has pricing factors |
| ServiceDetailTools.DetailHead | src/tools/get/get-service.tool.ts:8 | the report opens with `Code:` |
| ServiceDetailTools.GetCall | src/tools/get/get-service.tool.ts:64 | get-service asks for the service by its code |
| ServiceDetailTools.GetText | src/tools/get/get-service.tool.ts:70-77 | success prints `Service Details:`, a blank line and the report; a failure prints `Error getting service: <message>` |
| PackageTools.ItemName | src/tools/list/list-service-packages.tool.ts:22 | an item is named by its service name, else its service code, else `?` |
| PackageTools.ItemPrice | src/tools/list/list-service-packages.tool.ts:23-25 | an item shows its own price to two decimals only when it overrides the pricing and has a price, and `standard pricing` otherwise |
| PackageTools.ItemLine | src/tools/list/list-service-packages.tool.ts:26 | an item line is `  - <name> (<billing frequency>, <price>)` |
| PackageTools.ItemLines | src/tools/list/list-service-packages.tool.ts:21-27 | there is one line per item, in order |
| PackageTools.PushHead | src/tools/list/list-service-packages.tool.ts:8-10 | the Code, Name and Description pushes build exactly the head of a package block |
| PackageTools.PushSummaryFigures | src/tools/list/list-service-packages.tool.ts:11-17 | the Archived, Annual Value and Services pushes append exactly the figure lines |
| PackageTools.PushItemLines | src/tools/list/list-service-packages.tool.ts:21-27 | the item loop appends exactly the item lines, in order |
| PackageTools.FormatSummary | src/tools/list/list-service-packages.tool.ts:6-31 | the pushes of list-service-packages' `formatPackage`, joined with newlines |
| PackageTools.SummaryFiguresShow | src/tools/list/list-service-packages.tool.ts:8-17 | Name and Description show when non-empty, Archived only as `Yes`, Annual Value and Services whenever defined |
| PackageTools.SummaryShows | src/tools/list/list-service-packages.tool.ts:6-31 | every label of a listed package shows exactly the value its field calls for |
| PackageTools.SummaryArchived | src/tools/list/list-service-packages.tool.ts:11 | a listed package prints `Archived: Yes` exactly when archived, and never `Archived: No` |
| PackageTools.SummaryItems | src/tools/list/list-service-packages.tool.ts:19-28 | after the package fields come `Included Services:` and the item lines in order, or nothing when there are no items |
| PackageTools.ItemLinesIndented | src/tools/list/list-service-packages.tool.ts:26 | no item line is the `Included Services:` header |
| PackageTools.SummaryItemsHeader | src/tools/list/list-service-packages.tool.ts:19-20 | a listed package prints `Included Services:` exactly when it has items |
| PackageTools.ItemPriceDetail | src/tools/get/get-service-package.tool.ts:25-29 | in the report an item's price reads `£<price> (override)` for an override with a price, and `Standard pricing` otherwise |
| PackageTools.AnsweredLine | src/tools/get/get-service-package.tool.ts:33 | an answer line is six spaces, the question, `: ` and the answer |
| PackageTools.AnsweredLines | src/tools/get/get-service-package.tool.ts:32-34 | there is one line per pre-answered factor, in entry order |
| PackageTools.PushDetailFigures | src/tools/get/get-service-package.tool.ts:11-17 | the Archived, Total Annual Value and Number of Services pushes append exactly the figure lines |
| PackageTools.PushAnswered | src/tools/get/get-service-package.tool.ts:32-34 | the answer loop appends exactly the answer lines, in order |
| PackageTools.PushItemDetail | src/tools/get/get-service-package.tool.ts:22-35 | one item iteration appends its title, Billing when set, the Price line and its pre-answered factors |
| PackageTools.PushItemsDetail | src/tools/get/get-service-package.tool.ts:21-36 | the item loop appends exactly the lines of every item, in order |
| PackageTools.FormatDetail | src/tools/get/get-service-package.tool.ts:6-43 | the whole `formatPackage` of get-service-package, joined with newlines |
| PackageTools.ItemsInner | src/tools/get/get-service-package.tool.ts:23-33 | every line of the item section is indented |
| PackageTools.PackageHeadShows | src/tools/get/get-service-package.tool.ts:8-10 | Code always shows; Name and Description exactly when non-empty |
| PackageTools.DetailFiguresShow | src/tools/get/get-service-package.tool.ts:11-17 | Archived always shows as Yes or No; Total Annual Value and Number of Services whenever defined |
| PackageTools.DetailDatesShow | src/tools/get/get-service-package.tool.ts:39-40 | Created and Updated each show exactly when non-empty |
| PackageTools.DetailItemsShowNothing | src/tools/get/get-service-package.tool.ts:19-37 | the item section holds no top-level labelled line |
| PackageTools.DetailShows | src/tools/get/get-service-package.tool.ts:6-43 | every top-level label of the package report shows exactly the value its field calls for |
| PackageTools.DetailItemsHeader | src/tools/get/get-service-package.tool.ts:19-20 | the report prints `Included Services:` exactly when the package has items |
| PackageTools.AnsweredSectionRaw | src/tools/get/get-service-package.tool.ts:30-35 | the pre-answered section holds only unlabelled lines, and its header exactly when the map has an entry |
| PackageTools.ItemPriceShown | src/tools/get/get-service-package.tool.ts:25-29 | each item prints exactly one Price line |
| PackageTools.ItemAnsweredHeader | src/tools/get/get-service-package.tool.ts:30-31 | an item prints the pre-answered header exactly when its answer map is non-empty |
| PackageTools.ItemDetailCount | src/tools/get/get-service-package.tool.ts:23-35 | an item adds two lines, one more with a billing frequency, and the header plus one line per answer when it has answers |
| PackageTools.ParsePackageSort | src/tools/list/list-service-packages.tool.ts:42 | the sort field is accepted exactly when it is `Name` |
| PackageTools.PackageSortRoundTrip | src/tools/list/list-service-packages.tool.ts:42 | parsing the sort field's name gives it back |
| PackageTools.ListCall | src/tools/list/list-service-packages.tool.ts:50-57 | the six filters are forwarded in the handler's order |
| PackageTools.ServiceCodesForwarded | src/tools/list/list-service-packages.tool.ts:38-40 | the requested service codes go into the query as a list, unchanged |
| PackageTools.ListText | src/tools/list/list-service-packages.tool.ts:50-80 | an absent or empty list prints `No service packages found.`; otherwise `Found <n> package(s):`, a blank line and the blocks joined by the separator; a failure prints `Error listing service packages: <message>` |
| PackageTools.GetCall | src/tools/get/get-service-package.tool.ts:54 | get-service-package asks for the package by its code |
| PackageTools.GetText | src/tools/get/get-service-package.tool.ts:60-70 | success prints `Service Package Details:`, a blank line and the report; a failure prints `Error getting service package: <message>` |
| TemplateTools.FormatTemplate | src/tools/list/list-document-templates.tool.ts:6-17 | the pushes of `formatTemplate`, joined with newlines |
| TemplateTools.TemplateShows | src/tools/list/list-document-templates.tool.ts:8-15 | Name, Type and Description show exactly when non-empty, Active always as Yes or No, Theme as `name (code)` exactly when the theme is named |
| TemplateTools.TemplateShape | src/tools/list/list-document-templates.tool.ts:7-15 | a block has two to six lines and opens with `Code:`; `Active: Yes` appears exactly when active, `Active: No` exactly when not |
| TemplateTools.UnnamedThemeHidden | src/tools/list/list-document-templates.tool.ts:13 | a theme without a name prints no Theme line |
| TemplateTools.ParseTemplateKind | src/tools/list/list-document-templates.tool.ts:23-24 | the type filter is accepted exactly when it is Proposal, EngagementLetter or ProfessionalClearanceLetter, and names what it parses to |
| TemplateTools.TemplateKindRoundTrip | src/tools/list/list-document-templates.tool.ts:23-24 | parsing a kind's name gives it back |
| TemplateTools.ParseTemplateSort | src/tools/list/list-document-templates.tool.ts:35 | the sort field is accepted exactly when it is Name or UpdatedDate, and names what it parses to |
| TemplateTools.TemplateSortRoundTrip | src/tools/list/list-document-templates.tool.ts:35 | parsing a sort field's name gives it back |
| TemplateTools.ListCall | src/tools/list/list-document-templates.tool.ts:43-51 | the seven filters are forwarded in the handler's order, the kind under the key `type` |
| TemplateTools.ListText | src/tools/list/list-document-templates.tool.ts:43-74 | an absent or empty list prints `No document templates found.`; otherwise `Found <n> template(s):`, a blank line and the blocks joined by the separator; a failure prints `Error listing document templates: <message>` |

## Left out

- Network I/O and `async`: `fetch`, `await` and the reading of response bodies are not modelled. The reply (status, status text, parsed body or bytes) is a parameter of the classification functions.
- URL resolution and percent-encoding by `new URL` and `URLSearchParams`: a URL is modelled as the base, the path and the ordered list of query pairs.
- JSON parsing: a reply body is given already parsed, or as unparseable. The text `JSON.stringify` gives a number is taken from the `Runtime` parameter. Object literals the tools build are taken to have distinct keys, as every one in the source does.
- Reply shapes: a handler's input is the record type its TypeScript declares, fed from the JSON value through an unchecked `as T` cast. The model assumes the reply has that shape: required fields present, no `null` where the type says string, number or object, and arrays where it says array. So it does not capture the errors a mismatched reply causes. Two examples: (1) a 204 reply to the email-history request yields `{}`, since `getEngagementEmails` does not unwrap it (`SodiumClient.EmailHistoryNotUnwrapped`), and `emails.map` then throws `emails.map is not a function`, which is printed as `Error retrieving engagement email history: ...`; (2) `annualValue: null` passes the `!== undefined` guard of list-engagements, and `.toFixed` then throws.
- Errors.Thrown has no case for functions, symbols or bigints. `ensureError` would send them to `String(value)`, but nothing in the core throws one.
- Environment and dotenv loading: the three variables are a parameter (`SodiumClient.Env`).
- Floating point: `toFixed`, the text of non-integer numbers and the text of integers above 2^53 in magnitude come from the uninterpreted `Js.Runtime`. JS prints the larger integers with shortest round-trip digits padded with zeros, and the model does not spell that out. The `value * 100` of a pricing-factor percentage is real multiplication. The presence and sign rules around these are modelled exactly.
- Zod validation beyond the enumerations (for example the e-mail format check), and the MCP wiring: tool registration, the server and the tool factory.
- The delete tools, upload-proposal-pdf, upload-loe-pdf, get-proposal-pdf, get-loe-pdf and send-engagement-email: each wraps a fixed message around one client call. Their client routes are modelled in `SodiumClient.Route`; their message text is not.
- `src/types/api-response.ts` holds only type declarations that nothing uses; it is not part of this model.
- Remote business semantics, such as pricing computation and engagement status changes, which the code only forwards.
- A push of a string that starts with `\n` (for example `\nPricing:` or `\nCreated: ...`) is modelled as an empty `Raw("")` line followed by the rest. Once the lines are joined with newlines, the text is the same.
- `Object.entries` order: pricing answers are an ordered list of pairs, taken in their given order. The engine's moving of integer-like keys to the front is not modelled.
- Errors.FormatApiError: the status code is modelled as an integer, and the text of a non-integer code is not modelled.
- Concurrency: the shared client instance is modelled for sequential calls only.
