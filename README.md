# Lobby session controller of the Spy party-game client

The lobby screen of the client lets a player host a lobby or join one by its
four-letter code. Its controller does three things, all modelled here:

1. **Input rules.** The Join button accepts the join code only when it is four
   characters, all in A–Z. Both buttons refuse an empty player name. Every edit
   of the code field is cleaned up: non-letters are dropped, the rest is
   upper-cased and only the first four are kept.
2. **Connection address.** On success the controller opens a WebSocket to the
   server's base URL followed by `?partyCode=<code>&playerName=<name>` for a
   join, or `?playerName=<name>` for a host.
3. **Session state.** The screen's state slots (`lobbyCode`, `joinCode`,
   `playerName`, `players`, `socket`, `isConnected`, `errorMessage`) change in
   response to socket events (open, error, close) and decoded server messages
   (`playerList`, `error`, any other type ignored). Leave closes the socket and
   clears `isConnected`, `lobbyCode` and `players`; the other slots keep their
   values.

Files:

- `options.dfy` — module `Options`: the `Option` datatype.
- `lobby_input.dfy` — module `LobbyInput`: the join-code check, the name check,
  the order of the Join checks, and the code-field clean-up with its
  properties (output charset and length, idempotence, fixpoints, validity).
- `lobby_query.dfy` — module `LobbyQuery`: the query selection of
  `connectToServer`, and a reference reading of a query (`ParseQuery`) used to
  prove that a query carries its code and name unambiguously.
- `lobby_session.dfy` — module `LobbySession`: the state slots as a value
  (`State`), every handler as one event of `Step`, runs of events (`Run`), the
  session invariant, and lemmas about any run: the connection flag follows the
  last event that touches it, the roster follows the last `playerList`, the
  input slots follow the last edit, and unknown messages can be dropped.
- `lobby_controller.dfy` — module `LobbyController`: class `Session`, one field
  per state slot and one method per handler, each proved to keep the invariant
  and to change the fields exactly as `Step` does; class `Socket` for the
  socket object.

The server's base URL is a parameter of `Join` and `Host`. Socket events and
server messages arrive as calls of the `On…` methods; a message is already
decoded into `Message`. Players are display strings, as the roster view prints
each entry of `players` directly.

## Model

| member | source | states |
|---|---|---|
| LobbyInput.MatchesUpperLetters | app/LobbyPage.jsx:76 | the test `/^[A-Z]+$/`, read character by character, holds exactly for non-empty strings whose every character is in A–Z |
| LobbyInput.IsValidJoinCode | app/LobbyPage.jsx:76-79 | the join-code check passes exactly when the code has length 4 and every character is in A–Z |
| LobbyInput.NameMissing | app/LobbyPage.jsx:80 | `!playerName` holds exactly for the empty name; a name of spaces is not missing, since nothing trims it (the same test is at line 88) |
| LobbyInput.JoinRejection | app/LobbyPage.jsx:75-85 | a join goes ahead exactly when the code is four upper-case letters and the name is non-empty; a bad code reports "Please enter a valid 4-letter code" whatever the name (the code check comes first); a good code with an empty name reports "Please enter your name" |
| LobbyInput.HostRejection | app/LobbyPage.jsx:87-93 | a host goes ahead exactly when the name is non-empty, and otherwise reports "Please enter your name" |
| LobbyInput.StripNonLetters | app/LobbyPage.jsx:127 | removing `[^A-Za-z]` leaves only letters and never lengthens the text |
| LobbyInput.StripOne | app/LobbyPage.jsx:127 | removing `[^A-Za-z]` from a single character keeps it exactly when it is a letter |
| LobbyInput.StripAppend | app/LobbyPage.jsx:127 | removing non-letters from a concatenation is the concatenation of the two removals, so every letter of the text survives, in its order |
| LobbyInput.UpperCase | app/LobbyPage.jsx:127 | upper-casing keeps the length and maps each character through ASCII upper-casing |
| LobbyInput.StripKeepsLetters | app/LobbyPage.jsx:127 | removing non-letters from a text of letters leaves it unchanged |
| LobbyInput.NormalizeJoinCode | app/LobbyPage.jsx:126-129 | the cleaned-up code is at most 4 characters, all in A–Z; its length is the smaller of 4 and the number of letters in the text; its i-th character is the i-th letter of the text, upper-cased |
| LobbyInput.NormalizeFixpoints | app/LobbyPage.jsx:126-129 | the clean-up leaves a text unchanged exactly when the text is at most four upper-case letters |
| LobbyInput.NormalizeIdempotent | app/LobbyPage.jsx:126-129 | cleaning up twice gives the same as cleaning up once |
| LobbyInput.NormalizedCodeValidIff | app/LobbyPage.jsx:126-129 | a cleaned-up code passes the join-code check exactly when it has length 4 |
| LobbyQuery.ConnectionQuery | app/LobbyPage.jsx:28 | the query takes the join form (starting `?partyCode=`) exactly when the code is non-empty, and the host form (starting `?playerName=`) exactly when it is empty; in both it ends with the player name |
| LobbyQuery.ConnectionUrl | app/LobbyPage.jsx:28 | the address starts with the base URL, and for a code without `&` the rest reads back as a join with that code and name, or as a host with that name when the code is empty |
| LobbyQuery.QueryRoundTrip | app/LobbyPage.jsx:28 | for a code without `&`, the query reads back as a join with that code and name when the code is non-empty, and as a host with that name when it is empty |
| LobbyQuery.QueryInjective | app/LobbyPage.jsx:28 | two queries for codes without `&` are equal only when their codes and names are equal |
| LobbySession.Step | app/LobbyPage.jsx:26-129 | each slot is written only by its own handlers: the input slots only by their edits, the socket slot only by Join, Host and Leave, the lobby code and roster only by a `playerList` or Leave, the connection flag only by open, error, close, a server error or Leave, the error message only by a rejected button, a transport error or a server error; Leave marks an existing socket closed |
| LobbySession.InitialInv | app/LobbyPage.jsx:7-13 | the initial slots satisfy the session invariant |
| LobbySession.StepPreservesInv | app/LobbyPage.jsx:26-103 | every handler keeps the invariant: the join-code slot holds at most four upper-case letters, and the session is only marked connected while a socket exists |
| LobbySession.RunPreservesInv | app/LobbyPage.jsx:26-103 | any run of possible events from a state that satisfies the invariant ends in one that does |
| LobbySession.JoinConnectsWithCode | app/LobbyPage.jsx:84 | a join that passes both checks stores a new, unclosed socket whose address is the base URL plus a query that reads back as a join with the typed code and name, and changes nothing else |
| LobbySession.HostConnectsWithoutCode | app/LobbyPage.jsx:92 | a host that passes the name check stores a new, unclosed socket whose address is the base URL plus a query that reads back as a host with the typed name, and changes nothing else |
| LobbySession.RejectionOpensNothing | app/LobbyPage.jsx:75-93 | a rejected join or host sets only the error message and leaves the socket slot as it was |
| LobbySession.OtherMessageAbsorbed | app/LobbyPage.jsx:53-64 | a message of any type other than `playerList` and `error` can be removed from any run without changing where the run ends |
| LobbySession.ConnectedFollowsLastOpen | app/LobbyPage.jsx:30-103 | after any run, the session is connected exactly when the last of the events open, error, close, server error and leave was the socket opening (or, with none of them, when it was connected before) |
| LobbySession.RosterFollowsLastPlayerList | app/LobbyPage.jsx:53-103 | after any run, the lobby code and the player list are those of the last `playerList` message, or empty when Leave came after it, or unchanged when neither occurred |
| LobbySession.InputsFollowLastEdit | app/LobbyPage.jsx:113-129 | after any run, the join-code slot holds the clean-up of the last text typed into the code field and the name slot holds the last text typed into the name field |
| LobbyController.Socket.constructor | app/LobbyPage.jsx:28 | a new socket has the given address and is not closed |
| LobbyController.Socket.Close | app/LobbyPage.jsx:97 | after close() the socket is closed |
| LobbyController.Session.constructor | app/LobbyPage.jsx:7-13 | every slot starts empty, false or null, and the invariant holds |
| LobbyController.Session.TypeJoinCode | app/LobbyPage.jsx:126-129 | the code slot becomes the clean-up of the typed text; nothing else changes |
| LobbyController.Session.TypePlayerName | app/LobbyPage.jsx:118 | the name slot becomes the typed text as it is; nothing else changes |
| LobbyController.Session.ShowError | app/LobbyPage.jsx:66-67 | the error message becomes the given text; nothing else changes |
| LobbyController.Session.ConnectToServer | app/LobbyPage.jsx:26-50 | a fresh socket for the base URL plus the query for the code and the current name is stored in the socket slot; nothing else changes |
| LobbyController.Session.Join | app/LobbyPage.jsx:75-85 | when both checks pass a fresh socket for the join query is stored and nothing else changes; otherwise the check's message is reported and the socket slot is untouched |
| LobbyController.Session.Host | app/LobbyPage.jsx:87-93 | with a non-empty name a fresh socket for the host query is stored and nothing else changes; with an empty name "Please enter your name" is reported and the socket slot is untouched |
| LobbyController.Session.Leave | app/LobbyPage.jsx:95-103 | the socket, if any, is closed, so leaving a connected lobby always closes its socket; the session is disconnected and the lobby code and player list are emptied; the socket slot, error message, join code and name keep their values |
| LobbyController.Session.OnOpen | app/LobbyPage.jsx:30-33 | the open event marks the session connected and changes nothing else |
| LobbyController.Session.OnError | app/LobbyPage.jsx:40-44 | the error event reports "Failed to connect to the game server" and marks the session disconnected, changing nothing else |
| LobbyController.Session.OnClose | app/LobbyPage.jsx:46-48 | the close event only marks the session disconnected |
| LobbyController.Session.OnMessage | app/LobbyPage.jsx:53-64 | a `playerList` sets the lobby code to its party code and replaces the player list, leaving the connection flag and error message alone; an `error` sets the error message to the server's text and marks the session disconnected, leaving lobby code and players alone; any other type changes nothing |

## Left out

- Base URL discovery (`getWebSocketUrl`, app/LobbyPage.jsx:16-24) depends on the platform and its configuration; the base URL is an opaque parameter.
- The WebSocket transport itself and `JSON.parse` (app/LobbyPage.jsx:28, 36) are library calls; messages arrive already decoded, and the code has no handling of unparseable payloads or missing fields to model.
- The error banner animation and the delayed `setErrorMessage('')` when it ends (app/LobbyPage.jsx:68-72), and the `ErrorPrompt` component, are timing and display; only the synchronous setting of the message is modelled, so the model never clears `errorMessage`.
- Rendering (the font gate, the "Players in lobby: n/8" text, the "(Host)" label), `console` logging and the `onBack()` callback of Leave are display or navigation; `onBack()` is a call into the parent screen.
- The `maxLength={4}` prop of the code field (app/LobbyPage.jsx:130) caps the field's text at four characters before `onChangeText` sees it, so pasting `a-b-c-d` stores `AB` in the app; the model's `CodeTyped` accepts any text and would store `ABCD`. The model admits more texts than the app delivers, so every property proved for all texts still holds for the texts the field can produce. `autoCapitalize` only changes the keyboard and is not modelled.
- Which events the screen lets happen is not modelled: the form with Join or Host is shown only while `isConnected` is false, Leave only while it is true, and the code field only when joining (app/LobbyPage.jsx:109-139, 158). The model lets any edit or button press happen in any state, and requires only that socket events come from an existing socket. The run lemmas hold for every run, so they hold for the runs the screen allows.
- The query pastes the player name in without URL encoding, as the code does; how a server's URL parser would split a name that contains `&`, `=` or `#` is outside the model, and `ParseQuery` reads the name verbatim.
- A second successful Join or Host before the first socket opens replaces the socket slot without closing the old socket, and the old socket's events still reach the same handlers; the model keeps this (handlers do not check which socket an event came from) but does not track sockets that are no longer in the slot.
- React batches the setters of one handler into one re-render; every handler here writes slots it does not read, so applying them in sequence gives the same final values.
- LobbyInput.UpperCase: models `toUpperCase()` only for ASCII characters; only the letters A–Z and a–z reach it, for which this is exact.
- The client handles no `newHost` message, sends no deck or mode command, keeps no selected deck or mode and no flag saying whether the local player hosts, does not trim names, does not limit the number of players, and does not ignore messages after Leave; none of this is modelled.
