# Chat client reconciliation core, in Dafny

This project models the client half of a real-time, end-to-end-encrypted chat protocol.
In the source it lives inside the React component `src/components/Chat.js`. The model
takes that logic out of React: pure rules become functions, and the component's state
becomes one class, `Chat.ChatClient`.

- `JsValues`: the JavaScript values the client inspects, truthiness, `safeRender`,
  the `x?._id || x` reference idiom (`RefId`), and `String.prototype.trim`.
- `Seqs`: `Array.prototype.filter` and `Array.prototype.find` (first match), with their laws.
- `Messages`: wire records and list entries. It holds the decrypt-or-passthrough rule
  `decryptMessage`, the file short-cut, the mapping of fetched history, and the
  optimistic (Pending) copy of a send. The cipher is a parameter of type
  `Decryptor = (key, ciphertext) -> Option<string>`. It stands for base64 decoding,
  RSA-OAEP (section 7.1.2 of RFC 8017) and UTF-8 decoding, and gives `None` when any of them throws.
- `Groups`: `isGroupAdmin`, `canSendInGroup`, the add-member candidate filter, and the
  replace-by-id applied after an add-member or permission update.
- `Reconcile`: merging an incoming broadcast into the `messages` list, de-duplicated by
  `tempId` / `_id`, and the conversation view filter.
- `Chat`: the `ChatClient` class and its event handlers. Socket emits are appended to
  `outbox`. HTTP answers, `Date.now()` values and `tempId` arrive as parameters. Its
  invariant `Valid()` says two things. At most one conversation (peer or group) is
  selected. The joins and leaves emitted so far leave the socket subscribed to exactly
  the selected group.

Where the design and the code differ, the model follows the code:
- A broadcast without a `tempId` (or without an `_id`) removes every earlier entry that
  also lacks one, because `undefined === undefined`. The design treats only a record
  lacking both keys as always new, and matches by `tempId` before `_id`; the code
  drops an earlier entry that shares either key, an absent one included. See
  `Reconcile.UntaggedBroadcastDropsUntagged`.
- The confirmed copy does not take the Pending copy's place. The Pending copy is removed
  and the confirmed one goes to the end of the list. See `Reconcile.MergeConfirms`.
- The client's own permission check takes the first membership row for the viewer.
  See `Groups.FirstRowDecides`.
- A private message addressed to the viewer is shown in every conversation view,
  including group views. See `Reconcile.PrivateToViewerAlwaysShown`.

## Model

| member | source | states |
|---|---|---|
| `JsValues.SafeRender` | src/components/Chat.js:7-12 | `safeRender`: null and undefined give the fallback, a string itself, an object with a truthy string `name` that name, anything else its JSON text; its cases are stated by `JsValues.SafeRenderCases` |
| `JsValues.RefId` | src/components/Chat.js:99 | `safeRender` of a reference's `_id` when it is populated, else of the reference itself (the same idiom at lines 65, 72, 74, 113, 405 and 433); `JsValues.RefIdPopulated` states that both forms give the same id |
| `JsValues.Trim` | src/components/Chat.js:191 | `message.trim()` is no longer than the draft and neither starts nor ends with whitespace; `JsValues.TrimEmptyIffBlank` states when it is empty |
| `JsValues.SafeRenderCases` | src/components/Chat.js:7-12 | null and undefined give the fallback; a string gives itself; an object with a truthy `name` gives that name |
| `JsValues.RefIdPopulated` | src/components/Chat.js:99 | a populated `{ _id }` reference and the raw id it stands for render to the same id |
| `JsValues.TrimEmptyIffBlank` | src/components/Chat.js:191 | `message.trim()` is empty exactly when every character of the draft is ECMAScript whitespace or a line terminator |
| `Messages.DecryptMessage` | src/components/Chat.js:47-59 | `decryptMessage`: plaintext for group or own messages, the ciphertext or plaintext without a key or ciphertext, else the decryption or `[Decryption Failed]`; each branch is stated by the four lemmas below |
| `Messages.Render` | src/components/Chat.js:94-101 | the content of a received record: the file descriptor when there is one, else `decryptMessage` with `isPrivate = !!msg.recipient` (also the history mapping at line 164); stated by `Messages.FilesAreNeverDecrypted` and `Messages.PrivateRoundTrip` |
| `Messages.OwnOrGroupSkipsDecryption` | src/components/Chat.js:48 | for a group message, or one sent by the viewer, the result is `safeRender(plaintext)` and does not depend on the key or the cipher |
| `Messages.MissingKeyOrCiphertext` | src/components/Chat.js:49 | for a private message from someone else, with no private key or no ciphertext: the ciphertext is shown if present, else the plaintext |
| `Messages.DecryptionOutcome` | src/components/Chat.js:50-58 | otherwise the decrypted text is shown, and any decryption failure gives exactly `[Decryption Failed]` (never an error) |
| `Messages.PrivateRoundTrip` | src/components/Chat.js:47-59 | the sender's copy of a private text shows its plaintext without decryption; the recipient sees the same plaintext when its key decrypts the ciphertext to it |
| `Messages.FilesAreNeverDecrypted` | src/components/Chat.js:95 | a record with a file renders as that attachment for every viewer, key and cipher |
| `Messages.Received` | src/components/Chat.js:95-108 | the rendered entry keeps the record's `_id`, `tempId`, sender, recipient and group |
| `Messages.ProcessHistory` | src/components/Chat.js:162-171 | fetched history keeps its length and order; each record becomes exactly the entry a live broadcast of it would append |
| `Messages.Optimistic` | src/components/Chat.js:235-242 | the optimistic copy of a text send (and of a file send at lines 215-222); its properties are stated by `Messages.OptimisticIsPending` and `Reconcile.OwnSendShown` |
| `Messages.OptimisticIsPending` | src/components/Chat.js:235-242 | the optimistic copy has no `_id`, carries the `tempId` and the typed content, names the viewer as sender, and never has both a recipient and a group when at most one is selected |
| `Groups.IsGroupAdmin` | src/components/Chat.js:61-67 | `isGroupAdmin`: a non-empty group id, a known viewer, and the viewer is the creator of the group with that id; stated by `Groups.UnknownGroupCannotSend` and `Groups.AdminCanSend` |
| `Groups.CanSendInGroup` | src/components/Chat.js:69-76 | `canSendInGroup`: the creator, or the first row for the viewer has `canSendMessages === true`; stated by the permission lemmas below |
| `Groups.AddMemberCandidates` | src/components/Chat.js:432-433 | the users offered in the add-member list; stated by `Groups.CandidatesAreNonMembers` and `Groups.CandidateCannotSendYet` |
| `Groups.ReplaceGroup` | src/components/Chat.js:276 | `groups.map(g => g._id === groupId ? updated : g)` keeps the list's length; its lookups are stated by `Groups.ReplaceGroupLookup` |
| `Groups.UnknownGroupCannotSend` | src/components/Chat.js:61-71 | for a group id not in `groups`, both `canSendInGroup` and `isGroupAdmin` are false |
| `Groups.CreatorAlwaysSends` | src/components/Chat.js:72-73 | the creator may send, and the membership rows do not matter (the same answer with no rows at all) |
| `Groups.AdminCanSend` | src/components/Chat.js:61-76 | with string ids, `isGroupAdmin` implies `canSendInGroup` |
| `Groups.PermissionByRows` | src/components/Chat.js:69-76 | a permitted viewer is the creator or has a row with `canSendMessages === true`; with one row per user the converse holds too |
| `Groups.FirstRowDecides` | src/components/Chat.js:74-75 | for any group and any viewer other than the creator, the first row for the viewer alone decides: the viewer may send exactly when that row has `canSendMessages === true`, whatever later rows say |
| `Groups.AbsentFlagDenies` | src/components/Chat.js:75 | a non-creator whose first row's flag is not `true` (false or absent) may not send |
| `Groups.CandidatesAreNonMembers` | src/components/Chat.js:432-433 | a user is an add-member candidate exactly when no membership row names them |
| `Groups.CandidateCannotSendYet` | src/components/Chat.js:433 | a candidate who is not the creator cannot send in that group |
| `Groups.ReplaceGroupLookup` | src/components/Chat.js:276 | after the replacement, the updated id finds the server's copy (if the group was known) and every other id finds what it found before |
| `Groups.ReplaceDecidesPermission` | src/components/Chat.js:291 | after a permission update, the server's copy alone decides who may send in that group |
| `Groups.ReplaceGroupIdempotent` | src/components/Chat.js:276 | applying the same update twice is the same as once |
| `Reconcile.Merge` | src/components/Chat.js:106-111 | the length grows by at most one; the incoming entry is last; an earlier entry stays exactly when it shares neither `tempId` nor `_id` with it; no earlier copy survives |
| `Reconcile.MergeIdempotent` | src/components/Chat.js:106-111 | replaying a broadcast gives the list one delivery gave |
| `Reconcile.MergeRemote` | src/components/Chat.js:107-108 | a broadcast with no earlier copy is appended to the unchanged list |
| `Reconcile.MergeConfirms` | src/components/Chat.js:107-108 | a broadcast confirming one Pending copy removes it, keeps the order of the others, appends itself, and the length stays the same |
| `Reconcile.UntaggedBroadcastDropsUntagged` | src/components/Chat.js:107 | an incoming record without `tempId` removes an earlier entry without one, even with a different `_id` |
| `Reconcile.Visible` | src/components/Chat.js:456-458 | the test of the message-list filter; stated by the view lemmas below |
| `Reconcile.View` | src/components/Chat.js:455-459 | the listed entries are exactly the visible ones of `messages`, never more than the list holds |
| `Reconcile.GroupViewShowsOnlyThatGroup` | src/components/Chat.js:455-459 | with a group selected, the non-private entries shown are that group's, and all of them are shown |
| `Reconcile.PrivateToViewerAlwaysShown` | src/components/Chat.js:457 | a private message addressed to the viewer is shown whatever conversation is selected |
| `Reconcile.ViewAfterMerge` | src/components/Chat.js:455-459 | the view of a merged list is the view of the surviving entries, then the incoming entry if the view shows it |
| `Reconcile.OwnSendShown` | src/components/Chat.js:455-459 | the optimistic copy of a send to the selected peer or group is shown in that conversation |
| `Reconcile.EchoConfirmsPending` | src/components/Chat.js:92-111 | after a text send, the server's echo with the same `tempId` leaves exactly one copy, the confirmed one, showing the typed text whatever the key |
| `Chat.ArrivalNotice` | src/components/Chat.js:113-115 | the notice text for another sender's message: `<name> sent a file`, or `<name>: <content>`, with `Someone` for a sender without a name; `Chat.ChatClient.ReceiveMessage` states when it is queued |
| `Chat.Toggled` | src/components/Chat.js:341 | `prev === groupId ? null : groupId`; stated by `Chat.ToggleTwice` and `Chat.ChatClient.ToggleEditGroup` |
| `Chat.GroupSwitch` | src/components/Chat.js:142-151 | the leave and join emits of the selected-group effect; stated by `Chat.SwitchMovesSubscription` |
| `Chat.ToggleTwice` | src/components/Chat.js:340-342 | toggling a group twice restores the panel exactly when it was closed or open on that same group |
| `Chat.SwitchMovesSubscription` | src/components/Chat.js:142-151 | the leave and join emits of a selection change move the subscription from the old group to the new one |
| `Chat.ChatClient.constructor` | src/components/Chat.js:15-27 | every state list is empty, nothing is selected, the viewer is unknown |
| `Chat.ChatClient.ReceiveUserId` | src/components/Chat.js:86-90 | the viewer id becomes the one the server assigned |
| `Chat.ChatClient.LoadUsers` | src/components/Chat.js:125-127 | the fetched users replace the list; a failed fetch changes nothing |
| `Chat.ChatClient.LoadGroups` | src/components/Chat.js:129-131 | the fetched groups replace the list; a failed fetch changes nothing |
| `Chat.ChatClient.ReceiveMessage` | src/components/Chat.js:92-119 | `messages` becomes the merge with the rendered record; a notice is queued only when the sender is not the viewer |
| `Chat.ChatClient.LoadHistory` | src/components/Chat.js:153-180 | with a conversation selected and the viewer known, the processed history replaces `messages`; otherwise nothing changes |
| `Chat.ChatClient.SetDraft` | src/components/Chat.js:475 | the draft becomes the typed text |
| `Chat.ChatClient.SelectFile` | src/components/Chat.js:182-188 | a picked file is selected and the draft reads `Uploading: <name>`; no file changes nothing |
| `Chat.ChatClient.SendMessage` | src/components/Chat.js:190-256 | no socket, or a blank draft with no file: nothing changes. A denied group send: exactly one notice and nothing else. A failed upload: nothing changes. Otherwise one Pending copy is appended and one payload emitted, with the same `tempId` and content, and the draft and file are cleared |
| `Chat.ChatClient.Dispatch` | src/components/Chat.js:224-254 | the emitted payload and the appended Pending copy share `tempId` and content; the draft is `""` and the file is cleared |
| `Chat.ChatClient.CreateGroup` | src/components/Chat.js:258-265 | a named group created by the server is appended; otherwise nothing changes |
| `Chat.ChatClient.AddMemberToGroup` | src/components/Chat.js:267-281 | an empty id changes nothing; the server's copy replaces the group by id; a failed request queues `Failed to add member` |
| `Chat.ChatClient.UpdateGroupPermissions` | src/components/Chat.js:283-296 | an empty id changes nothing; the server's copy replaces the group by id; a failed request queues `Failed to update permissions` |
| `Chat.ChatClient.ToggleEditGroup` | src/components/Chat.js:340-342 | the panel closes exactly when it was open on that group, and otherwise opens on it |
| `Chat.ChatClient.SelectUser` | src/components/Chat.js:354-359 | the peer is selected; the group and the editing panel are cleared; a joined group is left |
| `Chat.ChatClient.SelectGroup` | src/components/Chat.js:377-381 | the group is selected and the peer cleared; on a change the old group is left and the new one joined |
| `Chat.ChatClient.DismissNotification` | src/components/Chat.js:507 | every notice with that id is removed; the others stay in order (also the five-second expiry) |
| `Chat.ReplayBroadcast` | src/components/Chat.js:92-119 | two deliveries of one broadcast leave `messages` as one delivery does |
| `Chat.SendThenEcho` | src/components/Chat.js:190-256 | a text send then its echo: the list gains exactly one entry, the confirmed copy, showing the typed text |

## Left out

- React rendering, JSX, styles, the profile modal and `renderMessageContent` (including the `image/` prefix test and the kilobyte formatting with `toFixed`): presentation and floating point.
- The socket connection itself, the `connect`, `error` and `disconnect` logging, and the HTTP requests: I/O. Emits are `outbox` entries. Responses are method parameters, with `None` for a failed request. The upload's form data and the request bodies are not recorded.
- RSA-OAEP, base64 and UTF-8 decoding: a foreign library, modelled as the `Decryptor` parameter.
- `JSON.stringify`: each object or number value carries its JSON text. The text for the optimistic sender object is built without escaping; nothing reads it.
- `Date.now()` ids, `new Date()` timestamps and the `setTimeout` that expires a notice: the ids are parameters, timestamps are not kept, and expiry is `DismissNotification`.
- `window.prompt` and `window.confirm`: user I/O. The prompt's answer is the `name` parameter of `CreateGroup`. The confirm's answer only goes into the request body.
- `showUserProfile` and `closeProfile`: an HTTP fetch feeding the modal, no logic.
- The stale-closure difference between `currentUserId` and `socket.current.userId`: the model uses one viewer id for both. In the source, line 113 compares against the `currentUserId` captured when the handler was registered, which is `null` on the first connection, so every broadcast queues a notice, the viewer's own echo included. The model queues one only for another sender.
- Asynchrony: each handler is atomic. A broadcast arriving while an upload or a history fetch is pending is not interleaved.
- JavaScript's `null` versus `undefined` for optional record fields: both are `None`.
- Non-string ids: `currentUserId.toString()` is taken to be the id itself.
- `JsValues.SafeRenderCases`: an object whose `name` is truthy but not a string is not modelled. Its name is not kept, so the model renders such an object as its JSON text, while the source returns the name value itself.
- `Reconcile.GroupViewShowsOnlyThatGroup`: `msg.sender._id` on a null sender throws in the source. The model reads it as `undefined`.
- `null` entries in `groups`: `canSendInGroup` would throw on one. The model's group list has none.
- A group without a `members` array, or a `null` membership row: `group.members.find(...)` (line 74), `grp.members.map(...)` (line 404) and `grp.members.some(...)` (line 433) throw on them, so `sendMessage` would stop with no emit and no notice. `Group.members` is always a sequence of rows, so the model cannot express this.
- The `token` guards of the effects: the client is modelled after login, with a token.
- Server-side routing, encryption, persistence and permission enforcement: not part of this model. `src/App.js`, `src/components/Login.js`, `src/components/SignIn.js` and `backend/models/Message.js` are not part of this model.
