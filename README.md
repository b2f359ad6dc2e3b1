# Rio Butcher dashboard: transcript normaliser, auth gate and QR card in Dafny

This project models the logic of a small operations dashboard. The dashboard shows
WhatsApp conversations ("leads") that an external AI agent partly automates.

- **Conversations page** (`src/app/dashboard/kanban/page.tsx`). Stored message payloads
  can be strings, JSON-encoded strings or objects. The page turns them into clean chat
  turns:
  - `isRoutingMessage` hides the orchestrator's internal routing records;
  - `cleanMessage` resolves the text to display, with `""` meaning "suppress";
  - `getRole` always resolves the speaker to `user` or `assistant`.

  The page also holds list state, modelled as the class `Kanban.Board`:
  - the fetched history, one turn per row;
  - realtime inserts, with a 10-second duplicate suppression;
  - the render filter;
  - the lead list and its urgent tab;
  - the optimistic updates of pause/resume, delete and send.
- **Auth gate** (`src/middleware.ts`). It redirects to `/login`, redirects to
  `/dashboard`, or lets the request through, depending on the path and the `auth` cookie.
- **WhatsApp card** (`src/app/dashboard/whatsapp/page.tsx`). It picks the QR image
  string from the webhook's answer. It keeps a `loading` flag around the request and has
  a connected/disconnected switch.

The modules:
- `JsText` holds the JavaScript string operations: `startsWith`, `endsWith`, `includes`,
  `trim` with the full ECMAScript white-space set, ASCII `toLowerCase`, `slice(-n)`, and
  `length` in UTF-16 code units.
- `Json` holds the loosely typed values: `null`, strings, and objects with ordered
  members. It covers truthiness, property access, `String(v)` and `JSON.stringify`.
- `Collections` holds `Option` and `filter`.
- `Messages`, `Kanban`, `Middleware` and `WhatsApp` follow the three source files.

`JSON.parse` is a parameter `parse`. The one thing assumed of it is what JSON
guarantees: text starting with `{` that parses at all yields an object
(`Json.ParsesObjects`). Because of that, the recursion in `cleanMessage` is at most one
level deep.

When the page resolves a non-routing object that has no `content`, `message` or `text`,
it returns `""`. It does not fall back to the object's JSON text. The model follows the
code (`Messages.CleanObjectPriority`).

`cleanMessage` is not idempotent. Text quoted around leading padding keeps the padding
on the first pass and loses it on the second (`Messages.CleanNotIdempotentOnPaddedQuotes`).
Only the fixed-point form holds: trimmed, unquoted, unflagged text that is not `{…}` text
that parses comes back unchanged (`Messages.CleanFixedPoint`).

## Model

| member | source | states |
|---|---|---|
| `Messages.ScanMarkers` | src/app/dashboard/kanban/page.tsx:71-75 | the marker loop reports a match exactly when the lower-cased text contains one of the 16 fixed markers |
| `Messages.IsRoutingMessage` | src/app/dashboard/kanban/page.tsx:44-98 | the step-by-step classifier with early returns agrees with the classification predicate on every payload, the empty one included (false) |
| `Messages.IsRouting` | src/app/dashboard/kanban/page.tsx:44-98 | only a non-empty payload can be flagged |
| `Messages.StringFlaggedByTextOnly` | src/app/dashboard/kanban/page.tsx:44-95 | a string payload is flagged exactly when it is non-empty and a marker or the short-JSON rule fires on its text; the key rules never apply to it |
| `Messages.IsRoutingThreeRules` | src/app/dashboard/kanban/page.tsx:44-97 | a payload is flagged exactly when it is non-empty and a marker matches, or it is an object with a truthy `route`/`output`/`reason`, or its trimmed text is a brace-wrapped string under 100 code units mentioning `route` or `output`; nothing else is flagged |
| `Messages.NestedOutputRuleRedundant` | src/app/dashboard/kanban/page.tsx:79-85 | the nested `output.route`/`output.reason` check only fires where the test on a truthy `output` already has |
| `Messages.LongTextOnlyByMarkerOrKey` | src/app/dashboard/kanban/page.tsx:89-95 | text of 100 or more code units after trimming is flagged only by a marker or a routing key |
| `Messages.ShortObjectMentioningRouteIsRouting` | src/app/dashboard/kanban/page.tsx:48-95 | an object whose JSON text is under 100 code units and mentions `route` or `output` anywhere is flagged, because that JSON text is brace-wrapped |
| `Messages.RoutingKeyIsRouting` | src/app/dashboard/kanban/page.tsx:48-75 | an object with a member named `route`, `output` or `reason` in any letter case is flagged through its JSON text, even when the value is falsy |
| `Json.StringifyHasKey` | src/app/dashboard/kanban/page.tsx:48 | the JSON text of an object holds each of its keys in quotes, followed by a colon |
| `Json.StringifyObjectBraces` | src/app/dashboard/kanban/page.tsx:48 | the JSON text of an object starts with `{` and ends with `}` |
| `Messages.Unquote` | src/app/dashboard/kanban/page.tsx:122-124 | text that starts and ends with `"` loses exactly that one pair; a lone `"` becomes empty; any other text is returned unchanged |
| `Messages.CleanMessage` | src/app/dashboard/kanban/page.tsx:101-152 | an empty or absent payload, and every payload the classifier flags, resolves to `""` |
| `Messages.ObjectRecheckUnreachable` | src/app/dashboard/kanban/page.tsx:110-114 | once an object passed the classifier, its truthy `route` or `output.route` check can never fire |
| `Messages.CleanObjectPriority` | src/app/dashboard/kanban/page.tsx:110-116 | an unflagged object shows its first truthy field among `content`, `message`, `text`, in that order; an empty `content` falls through; with none of them the result is `""` |
| `Messages.CleanStringShape` | src/app/dashboard/kanban/page.tsx:119-151 | a string resolves to `""`, or to its trimmed and unquoted text, which is then never flagged, or, if that text is brace-wrapped and parses, to the first text field of the unflagged object it parses to; there is one level of unwrapping and no more |
| `Messages.CleanParsedString` | src/app/dashboard/kanban/page.tsx:127-137 | brace-wrapped text that parses resolves to `""` or to the first text field of the unflagged object it parses to |
| `Messages.CleanDirectString` | src/app/dashboard/kanban/page.tsx:119-151 | text that is no parsable `{…}` resolves to `""` or to its trimmed, unquoted form, which is then never flagged |
| `Messages.CleanUnflaggedObject` | src/app/dashboard/kanban/page.tsx:110-116 | an object that is no routing record resolves to its first text field |
| `Messages.PickText` | src/app/dashboard/kanban/page.tsx:115 | the result is non-empty exactly when one of `content`, `message`, `text` is truthy, and it is then one of them as text |
| `Messages.CleanFixedPoint` | src/app/dashboard/kanban/page.tsx:119-151 | trimmed, unquoted, unflagged text that is not a parsable object comes back unchanged |
| `Messages.EncodedObjectUnwrapped` | src/app/dashboard/kanban/page.tsx:127-137 | the JSON text of an object resolves exactly as the object itself does, routing records included |
| `Messages.CleanKeepsQuotedPadding` | src/app/dashboard/kanban/page.tsx:119-124 | padding inside the quotes survives the first pass |
| `Messages.CleanDropsLeadingPadding` | src/app/dashboard/kanban/page.tsx:119 | text with leading white space never comes back unchanged |
| `Messages.CleanNotIdempotentOnPaddedQuotes` | src/app/dashboard/kanban/page.tsx:119-124 | cleaning twice can differ from cleaning once |
| `Messages.GetRoleResolution` | src/app/dashboard/kanban/page.tsx:155-175 | an explicit `role` of `user`/`assistant` wins; otherwise the result is `assistant` exactly when the payload, parsed if it is text starting with `{`, has `type` `ai`; a parse failure gives `user` |
| `Messages.RolePayload` | src/app/dashboard/kanban/page.tsx:160-166 | the payload inspected is the message itself, or the value that text starting with `{` parses to |
| `Messages.GetRole` | src/app/dashboard/kanban/page.tsx:155-175 | `assistant` needs an explicit `assistant` role, or a payload that is an object |
| `Kanban.NormalizeRow` | src/app/dashboard/kanban/page.tsx:304-309 | a turn keeps the row id, takes the resolved role and the resolved content, and takes the row timestamp, or the current time when the row has none |
| `Kanban.NormalizeHistoryOneToOne` | src/app/dashboard/kanban/page.tsx:297-310 | every fetched row becomes exactly one turn at the same position |
| `Kanban.NormalizeHistory` | src/app/dashboard/kanban/page.tsx:304-309 | the mapped history has one turn per row |
| `Kanban.HistoryKeepsIdOrder` | src/app/dashboard/kanban/page.tsx:297-309 | history fetched in ascending id order gives turns in ascending id order, whatever their timestamps |
| `Kanban.RenderFilterSpec` | src/app/dashboard/kanban/page.tsx:675 | the render filter keeps exactly the turns whose trimmed content is non-empty, in their relative order (it distributes over concatenation) |
| `Kanban.SentTextShown` | src/app/dashboard/kanban/page.tsx:455-460 | the turn `sendMessage` appends (trimmed, non-empty text) is always drawn, after what was drawn before |
| `Kanban.BlankTurnDropped` | src/app/dashboard/kanban/page.tsx:675 | a blank or suppressed turn disappears and its neighbours render as before |
| `JsText.TrimEmptyIff` | src/app/dashboard/kanban/page.tsx:675 | content trims to nothing exactly when it is white space only |
| `Kanban.ShownIff` | src/app/dashboard/kanban/page.tsx:675 | a turn is drawn exactly when its content has a character that is not white space |
| `Kanban.RoutingRowNeverShown` | src/app/dashboard/kanban/page.tsx:105-107 | a row whose payload is a routing record is never drawn |
| `Kanban.AppendPushed` | src/app/dashboard/kanban/page.tsx:330-347 | a realtime insert leaves the transcript unchanged or appends the new turn at the end; it is unchanged exactly when some existing turn has the same content less than 10000 ms away |
| `Kanban.IsDuplicate` | src/app/dashboard/kanban/page.tsx:331-338 | a duplicate shares its content with a turn already in the transcript |
| `Kanban.IsDuplicateAppend` | src/app/dashboard/kanban/page.tsx:331-338 | the duplicate test looks at the whole transcript: a match anywhere counts, and an empty transcript has none |
| `Kanban.DuplicateWindow` | src/app/dashboard/kanban/page.tsx:331-338 | the same content 5 s later is dropped; 10 s or 15 s later it is appended |
| `Kanban.EchoAbsorbsPush` | src/app/dashboard/kanban/page.tsx:328-347 | the realtime insert of a just-sent text within 10 s of its optimistic echo does not add a second turn |
| `Kanban.LeadName` | src/app/dashboard/kanban/page.tsx:229 | a lead's name is never empty: the client's name, or a `Cliente ` fallback |
| `Kanban.FallbackName` | src/app/dashboard/kanban/page.tsx:229 | the fallback shows the last four characters of the session id, the whole of a shorter id, or `????` for an empty one |
| `Kanban.ProjectLead` | src/app/dashboard/kanban/page.tsx:225-236 | a lead keeps the session id; its phone falls back to the session id; its last message is the resolved text or `Iniciar conversa`, never empty; it is paused exactly when `atendimento` is `human`; it is urgent exactly when `urgente` is `true` or `'true'`; it starts with no unread messages |
| `Kanban.ProjectLeads` | src/app/dashboard/kanban/page.tsx:212-237 | one lead per client row, in fetched order |
| `Kanban.FindLead` | src/app/dashboard/kanban/page.tsx:374 | the lookup finds the first lead with that session id, and finds nothing exactly when no lead has it |
| `Kanban.SetPausedSpec` | src/app/dashboard/kanban/page.tsx:371 | the optimistic pause sets `agent_paused` to `!current` on the leads with that session id only; every other lead and field, the order and the length stay |
| `Kanban.SetPaused` | src/app/dashboard/kanban/page.tsx:371 | the optimistic update keeps the number of leads |
| `Kanban.PauseBody` | src/app/dashboard/kanban/page.tsx:373-390 | the webhook asks for `human`/`pause` when pausing and `ia`/`resume` when resuming; a known lead's name and phone are sent; an unknown lead gives empty name and phone |
| `Kanban.RemoveLeadSpec` | src/app/dashboard/kanban/page.tsx:434 | deletion removes every lead with the selected id; the other leads stay unchanged and in order |
| `Kanban.RemoveLead` | src/app/dashboard/kanban/page.tsx:434 | no lead with the deleted id is left, only leads of the old list remain, and the list never grows |
| `Kanban.DeletedViews` | src/app/dashboard/kanban/page.tsx:521-543 | deleting a lead and then choosing the tab gives the same list as the other way round; the urgent count never grows |
| `Kanban.VisibleLeadsSpec` | src/app/dashboard/kanban/page.tsx:521-543 | the `todos` tab shows every lead; the `urgentes` tab shows exactly the urgent ones, in list order, never more than the list holds |
| `Kanban.UrgentLeads` | src/app/dashboard/kanban/page.tsx:521-523 | the badge list holds exactly the urgent leads and no more than the list |
| `Kanban.VisibleLeads` | src/app/dashboard/kanban/page.tsx:542-543 | the visible list is drawn from the lead list, and on `urgentes` holds urgent leads only |
| `Kanban.VisibleSetPaused` | src/app/dashboard/kanban/page.tsx:542-543 | the optimistic pause appears in place in what either tab shows |
| `Kanban.UrgentLeadsSetPaused` | src/app/dashboard/kanban/page.tsx:521-523 | pausing never changes which leads are urgent: the badge list gets the same update in place |
| `Kanban.Board.SelectedLead` | src/app/dashboard/kanban/page.tsx:41 | a found lead is in the list and carries the selected id; nothing is found only without a selection or when no lead has that id |
| `Kanban.Board.constructor` | src/app/dashboard/kanban/page.tsx:30-35 | the page starts with no leads, no selection, no messages, empty input, the `todos` tab, and loading |
| `Kanban.Board.LoadLeads` | src/app/dashboard/kanban/page.tsx:239-249 | a successful read replaces the list and selects its first lead when nothing is selected; a failed read keeps list and selection; loading ends either way |
| `Kanban.Board.SelectLead` | src/app/dashboard/kanban/page.tsx:178-181 | selecting only changes the selection; the old transcript stays until new history arrives |
| `Kanban.Board.SetTab` | src/app/dashboard/kanban/page.tsx:505-518 | switching tabs only changes the active tab |
| `Kanban.Board.SetInput` | src/app/dashboard/kanban/page.tsx:698 | typing only changes the input |
| `Kanban.Board.LoadHistory` | src/app/dashboard/kanban/page.tsx:303-311 | a successful read replaces the transcript with one turn per row; a failed read keeps it |
| `Kanban.Board.ReceivePush` | src/app/dashboard/kanban/page.tsx:320-347 | the transcript is unchanged for a duplicate and otherwise has the pushed turn appended; nothing else changes |
| `Kanban.Board.TogglePause` | src/app/dashboard/kanban/page.tsx:364-391 | an empty id changes nothing and sends nothing; otherwise the list gets the optimistic pause, which the visible list shows in place, and the webhook body is produced; the urgent badge keeps its count; the webhook outcome changes nothing |
| `Kanban.Board.DeleteLead` | src/app/dashboard/kanban/page.tsx:415-446 | without a selected lead that is in the list nothing is sent or changed; a successful answer removes the lead and clears the selection and the messages; a failed one changes nothing; the urgent badge never grows |
| `Kanban.Board.SendMessage` | src/app/dashboard/kanban/page.tsx:448-479 | blank input or no selection changes nothing; otherwise the trimmed text is appended as an assistant turn, the input is cleared and the webhook body is produced |
| `Middleware.GateOutcomes` | src/middleware.ts:4-20 | a `/dashboard…` path whose `auth` cookie is not exactly `true` (absent included) goes to `/login`; `/login` with `true` goes to `/dashboard`; every other request passes through |
| `Middleware.Gate` | src/middleware.ts:4-20 | a redirect goes to `/login` or `/dashboard`, never to the path requested |
| `Middleware.RedirectBranchesExclusive` | src/middleware.ts:7-13 | no path takes both redirect branches |
| `Middleware.NoRedirectLoop` | src/middleware.ts:7-19 | following a redirect with the same cookie always passes through |
| `WhatsApp.QrFromResponseSpec` | src/app/dashboard/whatsapp/page.tsx:24-31 | a truthy `qrcode` is taken verbatim; otherwise a truthy `base64` gets the `data:image/png;base64,` prefix, and a bare string keeps a `data:` prefix it has and is otherwise the prefix followed by the string; outside the `qrcode` branch every image starts with `data:`; any other answer, `null` included, keeps the old image |
| `WhatsApp.QrFromResponse` | src/app/dashboard/whatsapp/page.tsx:24-31 | `null` keeps the old image; a bare string always yields a string image; any other image taken is truthy |
| `WhatsApp.ConnectionCard.constructor` | src/app/dashboard/whatsapp/page.tsx:10-12 | a card starts disconnected, without an image, and not loading |
| `WhatsApp.ConnectionCard.BeginGenerate` | src/app/dashboard/whatsapp/page.tsx:15 | loading is on while the request runs |
| `WhatsApp.ConnectionCard.FinishGenerate` | src/app/dashboard/whatsapp/page.tsx:16-36 | on success the image is replaced as chosen; on a thrown error, or an answer of no known shape, it stays; loading is off afterwards in every case |
| `WhatsApp.ConnectionCard.ToggleStatus` | src/app/dashboard/whatsapp/page.tsx:90 | the status flips between connected and disconnected |

## Left out

- Storage reads and realtime channels: `fetchLeads`, `fetchHistory` and the subscriptions are network I/O. Fetched rows and pushed rows are method inputs, and `None` stands for a failed read. The mock list for a missing backend URL is not modelled.
- Webhook calls: their outcomes are inputs (`ok` for delete; a parsed answer or `None` for the QR request). Pause and send ignore the answer, as the page does. The bodies are results, without their `timestamp` fields.
- `JSON.parse`: its internals are not modelled; it is the parameter `parse`, checked only against the object guarantee.
- Value shapes: numbers, booleans and arrays are outside `Json.Value`. Objects with duplicate keys are also outside; `Json.Get` takes the first member.
- Messages.PickText: the page hands a truthy non-string field (an object) itself on where text is expected. There `msg.content.trim()` in the render filter throws, and React refuses the object as a lead's last message. The model substitutes `String(v)`, which is `[object Object]`, and shows that in both places.
- Messages.IsRouting: `toLowerCase` is lowered for ASCII letters only. Non-ASCII letters that lower-case to ASCII, such as the Kelvin sign, are not seen as markers.
- Kanban.FallbackName: `slice(-4)` is taken over characters, not UTF-16 code units.
- Kanban.Board.LoadLeads: the read is one atomic step against the state when it ends. The page tests the `selectedLeadId` captured when the callback was built, so a read that started with nothing selected replaces a lead the operator picks while it runs; the model does not capture that interleaving.
- Kanban.Board.DeleteLead: the webhook call and the state change are one atomic step. The page removes the lead and clears the selection and messages after its `await`, using the id captured at click time, even if the operator has selected another lead meanwhile; the model does not capture that interleaving.
- Clock reads and date parsing: timestamps are integer milliseconds, and `now` is a parameter. An unparsable `created_at`, which makes the page's time difference NaN, is not modelled.
- Ids: turn ids are the integer row ids. `toString` and the `Date.now()` id of the optimistic turn are kept as integers.
- UI: JSX, CSS, auto-scroll, the mobile list/chat view, the delete-confirmation modal and its `deleteLoading` flag are not modelled. The button guards (the QR button shown only while disconnected and disabled while loading) are not modelled either.
- Other files: `src/app/login/page.tsx`, `src/components/kanban/ChatSidebar.tsx`, `src/components/kanban/KanbanCard.tsx`, `src/components/dashboard/*` and `src/components/layout/*` are not part of this model. They hold a credential check and cookie write, a thinner duplicate of the page, a database update wrapper, and presentation.
- Next.js route matching (`config.matcher`) decides which requests reach the gate; it is framework behaviour and not modelled.
