# Console wave client: a Dafny model

This project models the logic inside the Swing console client for the wave
protocol's example server (package `waveclient.console`) and proves
properties of it. The model has three parts:

- **`CWaveletContainer`** (`container.dfy`). The two-field buffer that holds a
  pending author and a pending text. Once both are present it emits a
  `CWavelet` and clears both. `getWavelet` hands that wavelet out once.
- **`WaveConnector`** (`connector.dfy`, `cursor.dfy`). The connection flags,
  the open wave and the last-seen versions, and the rules of every server
  operation:
  - the guard order: not connected is checked before no wave open;
  - the index bounds check in `openWave`;
  - the participant conflict checks;
  - the read flags in the inbox;
  - the shape of the document operation `appendToWave` sends;
  - the document-cursor callbacks in `getWaveBody`, which feed one shared
    container;
  - the auto-close rule in `participantRemoved`.
- **`ConsoleClient`** (`console.dfy`). The strings the window displays (inbox
  rows, the participants label, wave lines), `refresh`, and the guards on the
  buttons.

The client runs on top of a `ClientBackend` whose code is not part of this
model. Each call therefore receives a `Backend` value: the user's id, the
inbox index entries, and for every known wave its version, conversation
root, participants, documents (as streams of cursor events) and main
document size. The requests the client makes of the backend are recorded,
oldest first, in a ghost log `requests`, so contracts can say exactly what
was sent. Java exceptions become `Error` variants of a `Result` or
`Outcome`. A `NullPointerException` the code really reaches is the variant
`NullPointer`.

Two results of the proofs are worth knowing about:

- `getWaveBody` pairs authors with texts in the order the events arrive,
  not by line structure. Each `characters` event appends whatever the
  container holds at that moment. A text that arrives before any author
  appends `null`, and that text stays pending for the next line's author
  (`Cursor.OrphanText`). A line whose text comes in two events yields the
  wavelet, then `null`, and the second part stays pending (`Cursor.SplitText`).
  `updateWave` then dereferences that `null` (`Console.WaveLines`).
- A document made of lines as `appendToWave` inserts them reads back line
  by line (`Connector.AppendedLineReadsBack`, `Cursor.LinesReadBack`,
  `Console.RefreshShowsLines`).

Files: `base.dfy` (Option, Error, Result, Outcome), `wave_data.dfy` (the
values exchanged with the backend), `container.dfy`, `cursor.dfy`,
`connector.dfy`, `console.dfy`.

## Model

| member | source | states |
|---|---|---|
| Container.CWaveletContainer.constructor | console/CWaveletContainer.java:35-38 | a new container has no pending author, no pending text and no wavelet |
| Container.CWaveletContainer.SetAuthor | console/CWaveletContainer.java:45-48 | stores the author, then emits and resets if the text is also set; the container is left settled |
| Container.CWaveletContainer.SetText | console/CWaveletContainer.java:53-56 | stores the text, then emits and resets if the author is also set; the container is left settled |
| Container.CWaveletContainer.GetWavelet | console/CWaveletContainer.java:63-67 | returns the held wavelet and leaves none behind; the pending fields are untouched |
| Container.CWaveletContainer.PushToWavelet | console/CWaveletContainer.java:71-77 | both fields set: the wavelet becomes (author, text) and both are cleared; otherwise nothing changes |
| Container.BothSetEmits | console/CWaveletContainer.java:45-56 | whichever setter completes the pair, the wavelet holds exactly that pair and both pending fields are null |
| Container.EitherOrder | console/CWaveletContainer.java:45-56 | author then text, or text then author, from an empty state, end in the same state |
| Container.SettersSettle | console/CWaveletContainer.java:71-77 | from any state, after either setter, author and text are never both pending |
| Container.OneNullKeepsWavelet | console/CWaveletContainer.java:71-72 | a setter that leaves one field null, including setting null, keeps the wavelet and only stores its argument |
| Container.LatestAuthorWins | console/CWaveletContainer.java:45-47 | setting the author twice before the text emits the later author |
| Container.TakeTwice | console/CWaveletContainer.java:63-67 | two consecutive getWavelet calls return the wavelet, then null |
| Container.ReplaySettled | console/CWaveletContainer.java:35-77 | over any sequence of calls on a fresh container, author and text are never pending together |
| Container.ReplayWaveletFromCalls | console/CWaveletContainer.java:35-77 | every wavelet a fresh container ever holds pairs an author and a text that some setter call supplied |
| Cursor.FlattenAppend | console/WaveConnector.java:326 | documents are read one after another: the event stream of two lists of documents concatenates |
| Cursor.FailureSticks | console/WaveConnector.java:336-345 | once a callback has thrown, no later event changes the result |
| Cursor.RunAppend | console/WaveConnector.java:326-352 | reading a concatenation is reading the second part from where the first ended |
| Cursor.RunFailsIffRejected | console/WaveConnector.java:336-345 | reading fails exactly when some element is not a line, or is a line without an author, and the error is Unsupported |
| Cursor.OneEntryPerCharacters | console/WaveConnector.java:330-333 | reading appends exactly one body entry per characters event, and keeps the entries already there |
| Cursor.RunKeepsSettled | console/WaveConnector.java:330-342 | the shared container stays settled through the whole traversal |
| Cursor.LinesReadBack | console/WaveConnector.java:326-352 | a document of lines, each a line element by its author followed by its text, reads back as exactly those lines in order and leaves the container empty |
| Cursor.RunSnoc | console/WaveConnector.java:326-352 | reading one more event is one more callback after the events before it |
| Cursor.RunOne | console/WaveConnector.java:328-352 | reading a single event is one callback |
| Cursor.OrphanText | console/WaveConnector.java:330-333 | a text with no pending author appends null, and the text then pairs with the next line's author |
| Cursor.LineAlone | console/WaveConnector.java:336-342 | a line element on its own only records its author |
| Cursor.LineThenText | console/WaveConnector.java:330-342 | a line element followed by its text appends that line's wavelet and empties the container |
| Cursor.SplitText | console/WaveConnector.java:330-333 | a line whose text comes in two characters events appends its wavelet, then null, and the second part stays pending |
| Cursor.ReadDocuments | console/WaveConnector.java:323-353 | the loop over the documents of the open wave, with one shared container, returns the body the cursor specification gives |
| Cursor.ReadDocument | console/WaveConnector.java:328-352 | the callbacks for one document leave the container and body as the cursor specification says, or the Unsupported error |
| Connector.GuardOrder | console/WaveConnector.java:219-243 | not connected is reported before no wave open; the guard passes exactly when connected with a wave open |
| Connector.AppendOpShape | console/WaveConnector.java:222-233 | the operation starts with a retain of the document size exactly when that size is not zero, then inserts a line by the user, its end and the text |
| Connector.AppendedLineReadsBack | console/WaveConnector.java:222-233 | what the append operation inserts reads back, through the getWaveBody cursor, as exactly one wavelet (user, text) |
| Connector.InboxRows | console/WaveConnector.java:261-268 | the inbox has one element per index entry, in order, with the wave id and digest, read exactly when the wave's version is the one last seen |
| Connector.MarkedRecordsAll | console/WaveConnector.java:202-209 | after readAllWaves every listed wave with a conversation root is read; every other wave, including a listed one with no view or no root, keeps its last-seen entry, and only listed waves with a root gain an entry |
| Connector.SeenOpenKeepsRead | console/WaveConnector.java:588-592 | recording the open wave's version keeps every read wave read |
| Connector.ReadAllThenInboxRead | console/WaveConnector.java:202-209 | after mark-all-read the next inbox shows every wave with a conversation root as read |
| Connector.OpenWaveShownRead | console/WaveConnector.java:255 | in the inbox getInbox returns, the open wave's rows are read |
| Connector.WaveConnector.constructor | console/WaveConnector.java:110-122 | a new connector is not connected, has no open wave, no last-seen versions and has sent nothing |
| Connector.WaveConnector.Connect | console/WaveConnector.java:128-145 | after connect the connector is connected and nothing else changed |
| Connector.WaveConnector.CreateWave | console/WaveConnector.java:152-159 | ServerNotConnected when not connected; otherwise one new-wave request; the state never changes |
| Connector.WaveConnector.OpenWave | console/WaveConnector.java:168-186 | not connected and index out of bounds (negative too) leave everything unchanged; an entry with no view leaves no wave open and fails on null; otherwise that entry's wave is open (isWaveOpen holds), and a wave without a conversation root gets one requested |
| Connector.WaveConnector.IsConnected | console/WaveConnector.java:510-517 | a valid connector that is not connected has no wave open, so a guarded operation can then only report ServerNotConnected |
| Connector.WaveConnector.IsWaveOpen | console/WaveConnector.java:494-501 | in a valid connector an open wave implies a connection |
| Connector.WaveConnector.CloseOpenWave | console/WaveConnector.java:193-195 | no wave is open afterwards and nothing else changed |
| Connector.WaveConnector.ReadAllWaves | console/WaveConnector.java:202-209 | not connected fails on the null backend; otherwise the last-seen map is the index fold that records every wave with a conversation root |
| Connector.WaveConnector.UpdateLastSeenVersion | console/WaveConnector.java:588-592 | the open wave's current version is recorded as last seen; nothing else changes |
| Connector.WaveConnector.GetInbox | console/WaveConnector.java:253-274 | ServerNotConnected when not connected; otherwise the open wave is first recorded as seen, then the inbox is returned, or a null-pointer failure if an index entry has no view |
| Connector.WaveConnector.GetWaveParticipants | console/WaveConnector.java:283-303 | ServerNotConnected when not connected, none when no wave is open, otherwise the addresses of the open wave's participants in order |
| Connector.WaveConnector.GetWaveBody | console/WaveConnector.java:320-363 | ServerNotConnected when not connected, the empty body when no wave is open, otherwise the cursor's body of the open wave's documents; the open wave is recorded as seen only when reading succeeded |
| Connector.WaveConnector.RemoveParticipant | console/WaveConnector.java:373-389 | after the guard, fails with ParticipantManagement exactly when the name is not a participant, otherwise sends exactly one removal of that name |
| Connector.WaveConnector.AddParticipant | console/WaveConnector.java:399-416 | after the guard, fails with ParticipantManagement exactly when the name is already a participant, otherwise sends exactly one addition of that name |
| Connector.WaveConnector.RemoveSelfFromWave | console/WaveConnector.java:471-485 | after the guard, sends the removal of the current user exactly when the user is a participant; the conflict is swallowed |
| Connector.WaveConnector.AppendToWave | console/WaveConnector.java:218-244 | after the guard, sends exactly one document operation on the main document, the append operation for the main document's size |
| Connector.WaveConnector.GetOpenWaveId | console/WaveConnector.java:443-453 | fails exactly when the guard fails, with the guard's error; otherwise returns the open wave's id |
| Connector.WaveConnector.GetOpenWaveIdString | console/WaveConnector.java:424-434 | fails exactly when the guard fails, with the guard's error; otherwise returns the open wave's id string |
| Connector.WaveConnector.ParticipantRemoved | console/WaveConnector.java:548-555 | the open wave is closed exactly when a wave is open, the removed participant is the current user and the wavelet belongs to the open wave |
| Console.InboxRowMarksUnread | console/ConsoleClient.java:319-323 | a row starts with "[NEW] " exactly when the element is unread, and the rest is "(" id ") " digest |
| Console.ParticipantsLabelAppend | console/ConsoleClient.java:341-346 | the label of a concatenation of participant lists is the concatenation of their labels |
| Console.ParticipantsLabelShape | console/ConsoleClient.java:341-346 | the label is empty exactly when there are no participants; otherwise it starts with the first address and ", " and ends with ", " |
| Console.WaveLinesMeaning | console/ConsoleClient.java:352-361 | the wave list fails, on null, exactly when the body holds a null wavelet; otherwise it has one line per wavelet, in order, each "author SAYS: text" |
| Console.BuildInboxModel | console/ConsoleClient.java:310-327 | one row per inbox element, in order, each the formatted row of that element |
| Console.BuildParticipantsLabel | console/ConsoleClient.java:341-346 | the built label is the participants label |
| Console.BuildWaveModel | console/ConsoleClient.java:352-361 | the built wave list, or the null failure, is what the wave-lines specification gives |
| Console.RefreshKeepsConnection | console/ConsoleClient.java:301-304 | a refresh changes neither the connection nor the open wave |
| Console.RefreshShowsInbox | console/ConsoleClient.java:306-329 | once the inbox can be listed, the window shows one row per index entry, in index order |
| Console.RefreshShowsOpenWaveRead | console/ConsoleClient.java:306-329 | after a refresh, the open wave's rows carry no "[NEW] " marker |
| Console.RefreshShowsLines | console/ConsoleClient.java:334-364 | an open wave whose document holds well-formed lines is shown as "author SAYS: text" for each line, in order |
| Console.SingleLinesDocument | console/WaveConnector.java:326-352 | a wave with one document of lines has exactly those lines as its body |
| Console.ConsoleClient.constructor | console/ConsoleClient.java:62-66 | the client creates its connector and connects it; the window starts empty |
| Console.ConsoleClient.UpdateInbox | console/ConsoleClient.java:306-329 | the user label and the inbox rows are set as the inbox specification says; the null backend fails before anything is shown |
| Console.ConsoleClient.UpdateWave | console/ConsoleClient.java:334-364 | the participants label, then the wave list, are set as the wave specification says, stopping at the first failure |
| Console.ConsoleClient.Refresh | console/ConsoleClient.java:301-304 | the inbox update followed, unless it threw, by the wave update; nothing is sent |
| Console.ConsoleClient.OnNewWave | console/ConsoleClient.java:149-154 | one new-wave request and a refresh when connected; otherwise the failure and no refresh |
| Console.ConsoleClient.OnOpenWave | console/ConsoleClient.java:156-166 | nothing happens when the selection is -1; a failed open does not refresh; otherwise the wave is opened and the window refreshed |
| Console.ConsoleClient.OnCloseWave | console/ConsoleClient.java:168-175 | the wave is closed and the window refreshed |
| Console.ConsoleClient.OnMarkAllRead | console/ConsoleClient.java:177-184 | every wave is marked read and the window refreshed; without a backend the failure and no refresh |
| Console.ConsoleClient.OnAddParticipant | console/ConsoleClient.java:189-200 | nothing happens when no wave is open; otherwise the addition is sent unless the name is already a participant, and the window is refreshed either way |
| Console.ConsoleClient.OnRemoveParticipant | console/ConsoleClient.java:202-213 | nothing happens when no wave is open; otherwise the removal is sent if the name is a participant, and the window is refreshed either way |
| Console.ConsoleClient.OnRemoveSelf | console/ConsoleClient.java:215-224 | nothing happens when no wave is open; otherwise the user's own removal is sent if they are a participant, and the window is refreshed |
| Console.ConsoleClient.OnSend | console/ConsoleClient.java:267-275 | nothing happens when no wave is open; otherwise one append operation carrying the entered text is sent and the window is refreshed |

## Left out

- Swing layout, list and label rendering, the menu, and `System.exit`: the window is reduced to the values it shows (`Console.View`).
- The entry field being cleared after Send (ConsoleClient.java:271) is Swing state; the model shows only the text that is sent.
- The "Test butt" handler does nothing and is not modelled.
- `JOptionPane` input: the typed name is a parameter. Cancelling the dialog passes Java `null`, which is not modelled.
- The window thread (ConsoleClient.java:66, 81) and the reflection-based lookup and call of `refresh` from backend callbacks (WaveConnector.java:110-122, 575-583) are concurrency and reflection. The constructor models only the connector's fields.
- The unused listener callbacks `waveletDocumentUpdated`, `participantAdded`, `noOp` and `onDeltaSequenceStart` have empty bodies. Only `participantRemoved` is modelled.
- Connect: parsing the port number and the `IOException` of the network connection are not modelled. `Connect` is the successful outcome.
- `getUserId` and `shutdown` only pass through to the backend. The user id is a field of `Backend`, read by `UpdateInbox`.
- `ClientBackend` and the `ClientUtils` helpers are inputs. The index entries, the wave views, each wave's conversation root, participants, version and main document size are fields of `Backend`. `Backend.waves[w].documents` holds a wave's documents in the order the root's document map yields them.
- The operational-transform document model and `BufferedDocOp.apply`: documents are sequences of `DocEvent`. A version is a number plus a hash, compared for equality only.
- Exception messages are not modelled; only which error variant occurs.
- Each handler uses one `Backend` snapshot. A state change that the backend applies between the calls of one handler (for instance the root that `openWave` requests becoming visible to the next `refresh`) is not modelled.
- Every connector method that reads the open wave requires the backend to have a view of it (`Connector.Tracks`). In the client, the open wave is the backend's own view object, so it always has one.
- Connector.WaveConnector.OpenWave: a negative entry is reported as `IndexOutOfBounds`, because `List.get` throws that exception for a negative index too.
- Every connector method that reads the open wave's participants, documents or main document size assumes that the wave has its conversation root. The source dereferences that root without a check (WaveConnector.java:221, 236, 286, 326, 377, 403). The only way to open a wave, `openWave`, requests the root when it is missing (WaveConnector.java:178-180). The model does not capture the null-pointer failure if that root never appears.
- The source keys the last-seen versions by the wave view object (WaveConnector.java:97), while the model keys them by wave id. The two agree only when the backend hands out one view per wave id, and the model assumes that it does.
- The model does not show that successive `appendToWave` calls produce a document made of such lines. Applying an operation to a document (`BufferedDocOp.apply`, WaveConnector.java:225-237) is the backend's job, and nothing links the request log to `Backend.waves[w].documents`. Whether an empty text produces a characters event at all is likewise the backend's.
