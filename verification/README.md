# Health app screens: chat transcript, nearby services, devices

A Dafny model of the three screens of the health-tracking front end that carry logic.

- **Chat** (`chat.dfy`, the assistant screen). The screen keeps a transcript of messages
  and an `isTyping` flag that marks a reply in flight. A send ignores blank text. It also
  ignores any text while a reply is in flight. Otherwise it appends the user's message,
  clears the input box, raises the flag and opens the remote reply stream. Once the stream
  is open, it appends one empty model placeholder marked as thinking. Each non-empty chunk
  is then folded into that placeholder by rewriting, in place, every message that has the
  reply's id. The flag is lowered when the stream completes or throws. `ChatView` is a
  class with the source's state, and one method for each step of `handleSend`:
  - `Submit`: the guard, the user message and raising the flag;
  - `OpenReply`: the placeholder;
  - `FoldChunk`: one turn of the chunk loop;
  - `Settle`: the `catch`/`finally`.

  `HandleSend` runs these steps, with the chunk loop. It is proved against the pure
  functions `Trim`, `Folded`, `Restamp` and `Settled`. Lemmas state what the code promises
  about these functions. Because the steps are separate methods, a second send can happen
  between them; `SendWhileStreaming` shows such a send being ignored.
- **Nearby** (`nearby.dfy`). The place list filtered by the active category. The map marker
  slot, picked with a modulo over six slots. The selection, category and navigation-mode
  handlers of the `NearbyView` class.
- **Devices** (`devices.dfy`). The device list filtered by the selected family member. The
  scan button's re-entrancy guard. The low-battery test and the status label.
- `seqs.dfy` holds `Array.prototype.filter` (`Seqs.Filter`), which both lists use.
  `wrappers.dfy` holds `Option`.

Modelling choices:
- Message ids are `GreetId` (the literal `'greet'`) or `Clock(t)` (the decimal rendering of
  a `Date.now()` reading `t`). Decimal rendering is injective and never gives `'greet'`, so
  equal ids in the model are equal strings in the source. Clock readings are parameters.
  Nothing makes the reply id differ from earlier ids. So `SettledShape` holds for any ids,
  and `SettledWithFreshId` holds when the reply id is fresh.
- The optional `isThinking` and `showOverview` fields are booleans; an absent field is
  `false`.
- The remote reply is a `Stream`: either opening it throws (`FailsToOpen`), or it delivers
  a finite sequence of chunks and then completes or throws. Each chunk's text may be absent
  (`None`).
- `handleSend`'s default argument is modelled as an `Option`: `None` means "use the input
  box", `Some(t)` is an explicit argument (the mount effect's initial message).
- The reply's role is `model`, as the placeholder is built (components/AIChatView.tsx:85).
- The placeholder's thinking flag is only cleared by a rewrite, and a rewrite only happens
  for a non-empty chunk (components/AIChatView.tsx:85-95). So if a stream delivers no
  non-empty chunk, the placeholder is still marked thinking after the exchange ends; in
  `SettledShape`, `isThinking` is exactly `Folded(chunks) == ""`.

## Model

| member | source | states |
|---|---|---|
| `Chat.ChatView.constructor` | components/AIChatView.tsx:47-58 | the transcript is exactly the greeting (id `greet`, role model, overview shown), the input is empty and nothing is in flight |
| `Chat.Trim` | components/AIChatView.tsx:75 | `trim()` keeps the slice after the leading white space and drops only white space after it; a non-empty result starts and ends with a character that is not white space; the result is empty exactly when every character is white space |
| `Chat.UserMessage` | components/AIChatView.tsx:76 | the user's message carries its id and the text exactly as sent (untrimmed), with role user, no thinking flag and no overview panel |
| `Chat.ChatView.Submit` | components/AIChatView.tsx:75-79 | a send starts iff the text is not blank and no reply is in flight; if it starts, exactly one user message with the untrimmed text is appended after all earlier messages, the input is cleared and the flag raised; if not, nothing changes |
| `Chat.Placeholder` | components/AIChatView.tsx:85 | the reply placeholder carries the reply id, role model, an empty text (nothing folded yet) and the thinking flag, and no overview panel |
| `Chat.ChatView.SetInput` | components/AIChatView.tsx:134 | typing sets the input box and changes nothing else |
| `Chat.ChatView.OpenReply` | components/AIChatView.tsx:82-85 | once the stream is open, exactly one empty placeholder marked thinking is appended |
| `Chat.Texts` | components/AIChatView.tsx:87-88 | absent and empty chunks contribute nothing: every collected text is non-empty, and there are at most as many as chunks |
| `Chat.TextsSnoc` | components/AIChatView.tsx:86-89 | each chunk of the loop adds its text to the collected texts when `if (chunkText)` holds, and adds nothing when the text is absent or empty |
| `Chat.Folded` | components/AIChatView.tsx:83-91 | the value of `fullResponse` after the chunk loop: the non-empty chunk texts concatenated in arrival order, as `FoldedSnoc`, `FoldedAppend` and `FoldedEmptyIff` prove |
| `Chat.FoldedLength` | components/AIChatView.tsx:88-89 | no character of any chunk is lost or added: the reply text is exactly as long as all the chunk texts together |
| `Chat.FoldedAppend` | components/AIChatView.tsx:86-91 | folding a stream split in two gives the fold of the first part followed by the fold of the second: no chunk is lost, duplicated or reordered |
| `Chat.FoldedSnoc` | components/AIChatView.tsx:88-89 | each chunk extends the accumulated reply by exactly its own text |
| `Chat.FoldedSnapshotsGrow` | components/AIChatView.tsx:86-91 | the reply text seen after `i` chunks is a prefix of the text after any later chunk |
| `Chat.FoldedEmptyIff` | components/AIChatView.tsx:88 | the reply text stays empty exactly when every chunk is absent or empty |
| `Chat.FoldedExamples` | components/AIChatView.tsx:86-91 | "Hi", "", " there", absent, "!" fold to "Hi there!"; "A", "B", "C" give the snapshots "A", "AB", "ABC" |
| `Chat.Restamp` | components/AIChatView.tsx:90 | rewriting by id keeps the length and every id, role and overview flag; messages with another id are unchanged; those with the id get the new text and stop thinking |
| `Chat.RestampTwice` | components/AIChatView.tsx:90 | a later rewrite with the same id overrides an earlier one, so only the latest accumulated text survives |
| `Chat.ChatView.FoldChunk` | components/AIChatView.tsx:86-91 | an absent or empty chunk changes nothing; otherwise the accumulated text grows by the chunk and only messages with the reply id are rewritten to it; the transcript length and the flag are unchanged |
| `Chat.AfterChunksStep` | components/AIChatView.tsx:85-91 | folding one more non-empty chunk into the transcript with the placeholder gives the transcript for the longer text |
| `Chat.ChatView.Settle` | components/AIChatView.tsx:93-95 | on completion or error the flag is lowered and the transcript, including any partial reply, is kept |
| `Chat.ChatView.HandleSend` | components/AIChatView.tsx:74-96 | a rejected send changes nothing; an accepted one ends with the flag lowered, the input cleared and the transcript equal to `Settled` of the old transcript plus the user message, for every stream |
| `Chat.Settled` | components/AIChatView.tsx:82-95 | the transcript once an exchange settles, which `HandleSend` is proved to reach; `SettledShape` proves it holds one message more than before if the stream opened and none otherwise, that message being the model reply with the reply id and the folded text, and `SettledWithFreshId` that with a fresh id the old transcript is kept as a prefix |
| `Chat.SettledShape` | components/AIChatView.tsx:82-95 | whatever the ids: an exchange adds one message if the stream opened and none if it did not; that message is a model reply with the folded text, thinking iff no non-empty chunk arrived; earlier messages with other ids are unchanged |
| `Chat.SettledWithFreshId` | components/AIChatView.tsx:82-95 | with a fresh reply id, the earlier transcript is kept as a prefix and exactly one reply follows it, whose text is the in-order concatenation of the non-empty chunks, whether the stream completed or threw |
| `Chat.SendWhileStreaming` | components/AIChatView.tsx:75 | a send during streaming is ignored; a stream that throws after "Par" leaves a reply "Par" that is no longer thinking, and the flag is lowered |
| `Nearby.FilteredData` | components/NearbyView.tsx:114 | the list holds exactly the places of the active category (each as often as in the catalogue), in catalogue order |
| `Nearby.CategoriesPartition` | components/NearbyView.tsx:114 | the four category lists together hold every place exactly once |
| `Nearby.GetPosition` | components/NearbyView.tsx:126-137 | every index, however large, gets one of the six slots |
| `Nearby.GetPositionPeriodic` | components/NearbyView.tsx:136 | the slots repeat with period six |
| `Nearby.GetPositionSameIff` | components/NearbyView.tsx:128-136 | two markers share a slot iff their indices agree modulo six, so the first six markers never overlap |
| `Nearby.NearbyView.constructor` | components/NearbyView.tsx:21-23 | the screen opens on stations, with nothing selected and navigation mode off |
| `Nearby.NearbyView.SelectCategory` | components/NearbyView.tsx:163-166 | a category tab sets the category and always clears the selection |
| `Nearby.NearbyView.ClickMap` | components/NearbyView.tsx:200 | a click on the map background clears the selection |
| `Nearby.NearbyView.ClickItem` | components/NearbyView.tsx:214-217 | a click on a shown marker, or on a list card (line 287), deselects the place if it was selected and selects it otherwise; the selection is always a shown place |
| `Nearby.NearbyView.ToggleNavMode` | components/NearbyView.tsx:252-255 | the navigation button negates navigation mode and leaves category and selection alone |
| `Nearby.ToggleNavModeTwice` | components/NearbyView.tsx:254 | two presses of the navigation button restore the original mode |
| `Seqs.Filter` | components/NearbyView.tsx:114 | `Array.prototype.filter`, used by both lists (also components/DevicesView.tsx:101): exactly the passing elements, each as often as in the input, in input order, and nothing else |
| `Devices.FilteredDevices` | components/DevicesView.tsx:101 | the list holds exactly the devices of the selected member (each as often as in the device list), in list order |
| `Devices.MembersPartition` | components/DevicesView.tsx:101 | the two member tabs together hold every device exactly once |
| `Devices.DevicesView.constructor` | components/DevicesView.tsx:29-32 | the screen opens on the user's own devices, not scanning, with the given list |
| `Devices.DevicesView.ToggleScan` | components/DevicesView.tsx:75-79 | a press while scanning changes nothing; otherwise scanning starts; the member tab is unchanged |
| `Devices.DevicesView.SelectMember` | components/DevicesView.tsx:125-136 | a tab sets the member; the device list is a constant the screen cannot change |
| `Devices.DevicesView.DeviceCount` | components/DevicesView.tsx:110 | the header count is at most the number of devices, and it is zero exactly when the member owns none (the empty-state card at line 141) |
| `Devices.IsLowBattery` | components/DevicesView.tsx:148 | the red badge and the red battery figure (line 183); `LowBatteryThreshold` pins it to a level of 20 or less |
| `Devices.LowBatteryThreshold` | components/DevicesView.tsx:148 | a battery of 20 is flagged low and 21 is not, and a flagged device stays flagged as its level falls |
| `Devices.StatusLabel` | components/DevicesView.tsx:179 | the label is 已连接 exactly for connected, 同步中 exactly for syncing and 离线 exactly for offline |

## Left out

- `services/geminiService.ts` is not part of this model. It creates the remote chat session and opens its reply stream, with the model name, the system prompt and the temperature. It is a foreign network service. The reply it produces is the `Stream` parameter, and the health context is only kept as the constant `ChatView.healthContext`.
- Message timestamps (`new Date()`) are not modelled; the clock readings behind the ids are parameters.
- React semantics are not modelled. Handlers see the current state, not a stale closure, and state updates apply at once and in order. This includes the mount effect (components/AIChatView.tsx:62-68), which creates the session and calls `handleSend` with the initial message; that call is `HandleSend(Some(msg), …)`.
- Scrolling and DOM lookups (components/AIChatView.tsx:72, components/NearbyView.tsx:117-124) are not modelled.
- Devices.DevicesView.ToggleScan: does not model the timer that clears `isScanning` three seconds later (components/DevicesView.tsx:78), because timers are outside the model; in the model a scan, once started, stays on.
- The display-only fields of places (distance, rating, address, tags, image, price) are not modelled; devices keep all their fields. Icons, colours and class names are not modelled either (`getIcon`, `getIconBgColor`, the battery colour at components/DevicesView.tsx:183).
- The catalogues of places and devices are parameters rather than the built-in lists.
- Battery levels are integers; the source's numbers are floating point, but every level it uses is whole.
- The home, metric-detail, navigation and card components are not part of this model.
