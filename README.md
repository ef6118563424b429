# Server-Client chat app: a Dafny model of the two `ChatApp` classes

The chat application has a server (`server.py`) and a client (`client.py`),
each built around a `ChatApp` class driven by a curses terminal and by
threads that read sockets. This project models the sequential state logic
of both classes:

- the console line editor (`input_buffer`) and the dispatch of a submitted
  line: `(FILE)<name>` sends a file, `(EXIT)` stops, `(CLEAR)` wipes the
  message log, any other non-empty line is chat text;
- the routing of incoming messages: the server's per-client loop treats an
  empty message or `(EXIT)` as a hang-up, a `(FILE)` prefix as a file
  upload, and anything else as chat text that it logs and broadcasts as
  `username: text`; the client logs text verbatim and records file receipts;
- the server's broadcast over its client list, which removes a client whose
  send fails *during* the `for` loop over that same list.

File names are taken off a `(FILE)` line with Python's `str.lstrip("(FILE)")`.
That strips the longest leading run of the characters `(`, `F`, `I`, `L`,
`E` and `)`, not the prefix, so `(FILE)FILE.txt` names `.txt`. The model
reproduces this exactly (`Strings.LStrip`).

Modules, one per concept:

- `strings.dfy`, module `Strings`: `lstrip` and `s[:-1]`.
- `protocol.dfy`, module `Protocol`: the reserved lines, the status and log
  lines, and file-name extraction.
- `keys.dfy`, module `Keys`: key-code classification and the line editor.
- `clientlist.dfy`, module `ClientList`: Python's index-based list iteration
  with `remove` inside the loop (`Iterate`). For a list without duplicates,
  which the server's `Valid()` guarantees, it is proved equal to an
  element-by-element reference (`Walk`), and the broadcast properties are
  proved about that reference.
- `server.dfy`, module `Server`: class `ChatApp` with fields `sockets`,
  `messages`, `inputBuffer` and `running`.
- `client.dfy`, module `Client`: class `ChatApp` with fields `messages`,
  `inputBuffer`, `running` and `connected`. `connected` records that
  `stop` or the end of the listening loop closed the socket, after which
  every send raises.

Abstractions of the environment:

- A socket is an opaque identity (`nat`). Accepted sockets are distinct, so
  the server's list never holds one twice (`Valid()`).
- The outcome of sending is an input to each method. On the server it is
  the set `failing` of clients whose `send` raises `socket.error` in one
  broadcast, plus `promptFails` for the question that asks a new client for
  its name. On the client it is a flag `sendFails` for one dispatched line.
  The loops take a schedule with one such input per round (`failingAt(k)`,
  `sendFails(k)`), so each broadcast or send can fail on its own.
- File existence (`os.path.isfile`) is the set `files` of existing names.
- Each `recv` result is a `Recv`: either the decoded text or a
  `socket.error`. After a `(FILE)` message, the next result is the file's
  data, whose contents are not modelled.
- `getch` results are a sequence of integer key codes.
- An exception that nothing in the program catches is a `Crashed` ending or
  a `crashed`/`ok` flag rather than a precondition. The model covers four
  such exceptions: a `ValueError` from `list.remove` in
  `handle_disconnection`, a failed `recv` or `send` in `get_username`, `chr`
  of an invalid code, and a failed `send` or `sendall` to the server in the
  client's `process_input` and `send_file_to_server`.
- Every method returns the sends it attempted, in order, so the contracts
  can say who was sent what.

## Behaviour of the code that the model keeps

- Chat text is broadcast to every listed client, the sender included.
- A client is listed before it is asked its name, so the join announcement
  goes to the new client too.
- Clients are removed while the broadcast iterates over the list, so the
  client after a removed one gets no send in that pass.
- `list.remove` in `handle_disconnection` raises `ValueError` when a
  broadcast has already pruned the client.
- A file's data is read with a single `recv`.

## Model

| member | source | states |
|---|---|---|
| Strings.LStrip | server.py:90 | `lstrip(chars)` returns a suffix of its input, every character it removed is in `chars`, and its first character (if any) is not |
| Strings.LStripIdempotent | client.py:51 | stripping a second time removes nothing more |
| Strings.LStripUnique | client.py:87 | any suffix that satisfies LStrip's three conditions is LStrip's result, so those conditions characterise `lstrip` completely |
| Strings.DropLast | server.py:103 | `s[:-1]` drops exactly the last character and leaves the empty string unchanged |
| Protocol.FileName | server.py:113 | the file name of a `(FILE)` line is the suffix left after removing the longest leading run of the characters `(`, `F`, `I`, `L`, `E`, `)`: every removed character is one of them, and the name does not start with one |
| Protocol.CommandsAreNotFileLines | client.py:74-80 | `(EXIT)` and `(CLEAR)` do not start with `(FILE)`, so the prefix test that comes first never captures them |
| Protocol.HeaderRoundTrip | server.py:30 | the name read back from a `(FILE)<name>` header equals `name` if and only if `name` is empty or does not start with one of `(FILE)`'s characters |
| Protocol.FileNameIdempotent | server.py:113 | file-name extraction applied to its own result changes nothing |
| Protocol.FileNameStripsCharacters | client.py:51 | `(FILE)FILE.txt` names `.txt`: characters are stripped, not the prefix |
| Protocol.FileNameExamples | client.py:87 | `(FILE)report.txt` names `report.txt`, and a bare `(FILE)` names the empty string |
| Keys.Classify | server.py:102-107 | the key tests in their order: backspace is exactly KEY_BACKSPACE or 127, Enter exactly KEY_ENTER, 10 or 13, no key exactly -1; an inserted character is `chr(key)`, and only codes outside Unicode's scalar values are refused |
| Keys.Typed | client.py:57-71 | the line after a run of keys: empty right after an Enter, and unchanged by keys that are all "no key" or refused codes |
| Keys.Edited | server.py:102-107 | one key code edits the line: backspace (KEY_BACKSPACE or 127) drops the last character and does nothing on an empty line; Enter (KEY_ENTER, 10, 13) leaves an empty line; -1 and codes `chr` rejects leave the line unchanged; any other code appends `chr(key)` |
| Keys.EraseUndoesInsert | client.py:62-69 | backspace right after a typed character restores the line |
| Keys.TypedForgetsBeforeSubmit | client.py:62-69 | after an Enter key the line holds only what the later keys typed |
| Keys.TypedLength | server.py:102-107 | each key adds at most one character to the line |
| Keys.TypedInserts | server.py:106-107 | a run of printable keys appends exactly their characters, in order |
| ClientList.Iterate | server.py:20-24 | defines `for client in self.sockets` with `remove` in the body as Python runs it: a position that advances by one after each client, over a list that shrinks under it; the pass never lengthens the list and attempts at most one send per remaining position |
| ClientList.Walk | server.py:20-24 | the reference definition of that pass, client by client: a failing client is dropped together with the send to its successor; the first client always gets a send, and the pass never lengthens the list |
| ClientList.IndexOf | server.py:24 | the position `list.remove` finds is the first occurrence of the element |
| ClientList.Remove | server.py:24 | `list.remove` of a listed element shortens the list by one |
| ClientList.RemoveMembers | server.py:86 | in a list without duplicates, `remove(x)` deletes `x` and keeps every other element |
| ClientList.PassIsWalk | server.py:20-24 | for a list without duplicates (which `Valid()` guarantees), Python's index-based pass with in-loop removal equals the element-by-element reference: a failing client is dropped, and the client after it moves into its slot and gets no send |
| ClientList.BroadcastKeepsOrder | server.py:19-24 | after a broadcast the list keeps some of the old clients in their old order, without duplicates, and sends go out in list order |
| ClientList.BroadcastRemovesOnlyFailed | server.py:19-24 | a broadcast adds no client, and a client leaves the list exactly when a send to it was attempted and failed; a client whose send succeeded stays |
| ClientList.BroadcastSkipsSuccessor | server.py:20-24 | the client at position k gets a send attempt exactly when k = 0 or its predecessor was not removed in this pass |
| ClientList.BroadcastWithoutFailures | server.py:19-24 | when no send fails, every client gets the message in order and none is removed |
| Server.HangsUp | server.py:65-79 | which messages end the session: for a non-file message exactly an empty one or `(EXIT)`, and for a `(FILE)` message exactly a failed `recv` of its data |
| Server.AwaitsFileData | server.py:66-71 | the disconnect test that comes first never captures a `(FILE)` line, so a received message is a file upload exactly when it starts with `(FILE)` |
| Server.ChatApp.constructor | server.py:12-17 | the server starts with no clients, an empty log, an empty line and `running` set |
| Server.ChatApp.SendToEach | server.py:20-24 | the loop over `sockets` leaves exactly the list that Python's iteration leaves and attempts exactly its sends, and the list stays an ordered sublist of the old one |
| Server.ChatApp.SendMessageToClients | server.py:19-24 | broadcasting a text gives the pruned list and the send attempts of one pass |
| Server.ChatApp.SendFileToClients | server.py:26-38 | an existing file is offered in one pass and `-File sent successfully-` is logged; a missing file logs `-File not found-` and leaves the list and the sends untouched |
| Server.ChatApp.Accept | server.py:55 | an accepted client is appended to `sockets` |
| Server.ChatApp.GetUsername | server.py:40-45 | the client is asked its name; if that send and the reply succeed, exactly one `<name> has joined the chat` line is logged and broadcast in one pass, whose own failures are independent of the question's; otherwise the name is missing and nothing changes |
| Server.ChatApp.Admit | server.py:53-61 | the name returned is the client's reply; without a name only the question was sent and the client stays listed. The joining client is listed before the join broadcast, so the broadcast includes it unless the client just before it is removed in that pass; the new client stays listed exactly when that announcement to it did not fail |
| Server.ChatApp.HandleDisconnection | server.py:83-87 | exactly one `<name> disconnected` line is logged and broadcast before the removal; the removal fails exactly when the broadcast already pruned the client; either way the client is no longer listed |
| Server.ChatApp.HandleFileTransfer | server.py:89-95 | once the file data arrives, `-<lstrip name> file received successfully-` is logged; a failed `recv` logs nothing |
| Server.ChatApp.ListenStep | server.py:63-79 | one incoming message: empty, `(EXIT)` or a failed `recv` disconnects; a `(FILE)` prefix is a file upload; any other text logs one `username: text` line and broadcasts it in one pass over the whole list, the sender included |
| Server.ChatApp.ListenToClient | server.py:60-81 | the per-client thread first sends the name question; if that send fails the thread dies with nothing logged, and with no data yet it waits after the question. Otherwise it logs the join first and keeps the list an ordered sublist. A Waiting ending means the data ran out, possibly inside a file offer. A Stopped ending means `running` is false. A Closed ending means the client is no longer listed |
| Server.ChatApp.HandleInput | server.py:111-123 | the line is always cleared. `(FILE)` sends the lstripped file name. `(EXIT)` only clears `running`. `(CLEAR)` only empties the log. Any other non-empty line logs and broadcasts `SERVER: <line>`. An empty line changes nothing else |
| Server.ChatApp.HandleKey | server.py:102-107 | one key edits the line as `Keys.Edited` says; Enter dispatches the line as HandleInput; other keys change nothing else; an invalid `chr` code raises |
| Server.ChatApp.SendToClients | server.py:97-109 | the key loop leaves the line typed since the last Enter; it stops early only on a key `chr` rejects, or on an Enter that cleared `running` |
| Client.ChatApp.constructor | client.py:12-16 | the client starts with an empty log and line, `running` set and its connection open |
| Client.ChatApp.Stop | client.py:105-107 | `running` becomes false and the connection is closed |
| Client.ChatApp.HandleFileReceive | client.py:50-55 | once the file data arrives, `-<lstrip name> file received successfully-` is logged; a failed `recv` logs nothing |
| Client.ChatApp.ListenStep | client.py:36-46 | one incoming message: empty or a failed `recv` ends the loop; a `(FILE)` prefix logs its receipt; any other text is logged verbatim |
| Client.ChatApp.ListenToServer | client.py:33-48 | the listening loop logs exactly what the reference `ListenAt` says and stops where it does; the connection is closed when the loop ends |
| Client.ChatApp.SendFileToServer | client.py:86-94 | the file is offered only when it exists; exactly one of `-File sent successfully-` and `-File not found-` is logged, unless the send raises |
| Client.ChatApp.ProcessInput | client.py:73-84 | `(FILE)` is tested first, then `(EXIT)` (send the literal, then stop), `(CLEAR)` (empty the log, send nothing), then any non-empty line (send it unchanged, do not log it); the line is cleared unless a send raised |
| Client.ChatApp.HandleKey | client.py:62-69 | one key edits the line as `Keys.Edited` says; Enter dispatches it as ProcessInput; a failed send or an invalid `chr` code raises |
| Client.ChatApp.SendToServer | client.py:57-71 | the key loop leaves the line typed since the last Enter; it stops early only on a key that raises, or on an Enter that stopped the client |
| Client.InputOk | client.py:73-94 | which dispatched lines can raise: none when sends succeed; `(CLEAR)` and the empty line never; `(EXIT)` exactly when its send fails |
| Client.ListenAt | client.py:33-48 | reference definition of the listening loop: it consumes data from position i on and logs at most one line per message consumed |
| Client.ListenWaits | client.py:36 | the loop waits only at the end of the data, or when a file offer's data has not arrived yet |
| Client.ListenCloses | client.py:37-46 | the loop closes only after an empty message or a failed `recv` |
| Client.ListenLogsNoOffer | client.py:40-43 | every logged line is non-empty and never a raw `(FILE)` line |
| Client.ListenIgnoresLaterData | client.py:37-48 | once the loop has closed, later data changes nothing |
| Client.ListenLogGrows | client.py:34-43 | while the loop waits, more data only extends the log |

## Left out

- Sockets: creation, `bind`, `listen`, `accept`, `connect` and `close` are not modelled. Sends are an outcome given as input. Each `recv(1024)` is a given string, with no chunking and no UTF-8 encoding or decoding.
- Threads: the accept thread, the per-client threads and the key loop share `sockets` and `messages` without locks. The model runs one thread's actions at a time and does not model interleavings.
- curses: `draw`, `getch`, `nodelay`, `keypad` and `time.sleep` are not modelled (server.py:125-147, client.py:18-31 and client.py:96-103). The key constants are fixed at their ncurses values.
- Files: `open`, `read` and `write` are not modelled. Existence is a set of names and file contents are opaque. The model therefore does not capture that writing to a download path can raise, for example for an empty name.
- Bootstrap: `start_server`, `start_client`, `run`, the server's `stop`, the `KeyboardInterrupt` handling, the host and port constants, and the "Server listening" line of `acquire_sockets` (server.py:47-58 apart from line 55).
- Keys.Classify: `chr` of a surrogate code point (0xD800-0xDFFF) succeeds in Python but has no Dafny `char`. The model treats it as a code that raises.
- Server.ChatApp.ListenToClient: its contract states the join line, how the loop can end and that a closed client is unlisted. It does not give the whole log of a session as one function. Each round's effect is stated by Server.ChatApp.ListenStep.
- Client.ChatApp.SendToServer: its contract states the input line after the keys and how the loop ends. It does not give the log or the sends of the whole key sequence. Each key's effect is stated by Client.ChatApp.HandleKey.
- Server.ChatApp.SendToClients: its contract states the input line after the keys and how the loop ends. It does not give the log or the sends of the whole key sequence. Each key's effect is stated by Server.ChatApp.HandleKey.
