/** The chat server's state: the connected clients, the message log shown on
    the console, the console's input line and the running flag. Sockets,
    files and the terminal are replaced by the inputs of each method: the
    clients whose sends fail, the files that exist, the data each `recv`
    returns and the key codes `getch` returns. */
module Server {
  import opened Strings
  import opened Protocol
  import opened Keys
  import opened ClientList

  /** One send attempt to one client. */
  datatype Send = Send(to: Socket, frame: Frame)

  /** The attempts of a broadcast of `frame` to `to`, in order. */
  function Deliver(to: seq<Socket>, frame: Frame): seq<Send> {
    seq(|to|, i requires 0 <= i < |to| => Send(to[i], frame))
  }

  /** How one round of a client's listening loop, or the whole loop, ends. */
  datatype Ending =
    | Continue  // the loop goes on
    | Waiting   // the thread is blocked in `recv`: no more data has arrived
    | Stopped   // `running` was false at the loop test: the socket is closed
    | Closed    // the client was disconnected and its socket closed
    | Crashed   // an exception the loop does not catch ended the thread

  /** The per-client loop ends the session: a failed `recv`, an empty
      message or `(EXIT)`, or a failed `recv` of a file's data. */
  predicate HangsUp(msg: Recv, chunk: Option<Recv>)
    ensures msg.Got? && !(FILE_PREFIX <= msg.data) ==> (HangsUp(msg, chunk) <==> Disconnects(msg.data))
    ensures AwaitsFileData(msg) ==> (HangsUp(msg, chunk) <==> chunk == Some(Failed))
  {
    msg.Failed? || Disconnects(msg.data) || (FILE_PREFIX <= msg.data && chunk == Some(Failed))
  }

  /** A `(FILE)` message whose data is still to arrive. The hang-up test
      comes first, but it never captures a `(FILE)` line. */
  predicate AwaitsFileData(msg: Recv)
    ensures AwaitsFileData(msg) <==> msg.Got? && FILE_PREFIX <= msg.data
  {
    CommandsAreNotFileLines();
    msg.Got? && !Disconnects(msg.data) && FILE_PREFIX <= msg.data
  }

  class ChatApp {
    var sockets: seq<Socket>
    var messages: seq<string>
    var inputBuffer: string
    var running: bool

    /** Every accepted connection is a new socket, so none is listed twice. */
    ghost predicate Valid()
      reads this
    {
      NoDup(sockets)
    }

    constructor ()
      ensures Valid()
      ensures sockets == [] && messages == [] && inputBuffer == "" && running
    {
      sockets := [];
      messages := [];
      inputBuffer := "";
      running := true;
    }

    /** The state after broadcasting `frame` from the state in `old`. */
    twostate predicate Broadcast(frame: Frame, failing: set<Socket>, sends: seq<Send>)
      reads this
    {
      && sockets == Iterate(old(sockets), 0, failing).remaining
      && sends == Deliver(Iterate(old(sockets), 0, failing).attempted, frame)
    }

    /** The loop of send_message_to_clients and send_file_to_clients: send to
        each listed client, removing during the loop a client whose send fails. */
    method SendToEach(frame: Frame, failing: set<Socket>) returns (sends: seq<Send>)
      requires Valid()
      modifies this`sockets
      ensures Valid() && Broadcast(frame, failing, sends)
      ensures Subseq(sockets, old(sockets))
    {
      ghost var whole := Iterate(sockets, 0, failing);
      ghost var attempted: seq<Socket> := [];
      BroadcastKeepsOrder(sockets, failing);
      sends := [];
      var i := 0;
      while i < |sockets|
        invariant Iterate(sockets, i, failing).remaining == whole.remaining
        invariant attempted + Iterate(sockets, i, failing).attempted == whole.attempted
        invariant sends == Deliver(attempted, frame)
        decreases |sockets| - i
      {
        var client := sockets[i];
        DeliverOneMore(attempted, client, frame);
        IterateStep(sockets, i, failing, attempted, whole);
        sends := sends + [Send(client, frame)];
        if client in failing {
          sockets := Remove(sockets, client);
        }
        i := i + 1;
        attempted := attempted + [client];
      }
    }

    /** send_message_to_clients. */
    method SendMessageToClients(message: string, failing: set<Socket>) returns (sends: seq<Send>)
      requires Valid()
      modifies this`sockets
      ensures Valid() && Broadcast(Text(message), failing, sends)
      ensures Subseq(sockets, old(sockets))
    {
      sends := SendToEach(Text(message), failing);
    }

    /** send_file_to_clients: offers the file to every client only when it
        exists, and logs exactly one status line either way. */
    method SendFileToClients(filename: string, files: set<string>, failing: set<Socket>)
      returns (sends: seq<Send>)
      requires Valid()
      modifies this`sockets, this`messages
      ensures Valid() && Subseq(sockets, old(sockets))
      ensures filename in files ==>
        Broadcast(File(filename), failing, sends) && messages == old(messages) + [FILE_SENT]
      ensures filename !in files ==>
        sockets == old(sockets) && sends == [] && messages == old(messages) + [FILE_NOT_FOUND]
    {
      if filename in files {
        sends := SendToEach(File(filename), failing);
        messages := messages + [FILE_SENT];
      } else {
        SubseqRefl(sockets);
        sends := [];
        messages := messages + [FILE_NOT_FOUND];
      }
    }

    /** The append in acquire_sockets: a newly accepted client is listed. */
    method Accept(c: Socket)
      requires Valid() && c !in sockets
      modifies this`sockets
      ensures Valid() && sockets == old(sockets) + [c]
    {
      NoDupSnoc(sockets, c);
      sockets := sockets + [c];
    }

    /** get_username: asks `c` for its name, then logs and broadcasts that it
        joined. A failed send of the question (`promptFails`) or a failed
        `recv` raises, which returns no name. The sends of the join broadcast
        fail for the clients in `failing`, which may include `c` itself. */
    method GetUsername(c: Socket, reply: Recv, promptFails: bool, failing: set<Socket>)
      returns (username: Option<string>, sends: seq<Send>)
      requires Valid()
      modifies this`sockets, this`messages
      ensures Valid() && Subseq(sockets, old(sockets))
      ensures username.Some? <==> !promptFails && reply.Got?
      ensures username.None? ==>
        sends == [Send(c, Text(USERNAME_PROMPT))] &&
        sockets == old(sockets) && messages == old(messages)
      ensures username.Some? ==>
        var p := Iterate(old(sockets), 0, failing);
        && username.value == reply.data
        && messages == old(messages) + [Joined(reply.data)]
        && sockets == p.remaining
        && sends == [Send(c, Text(USERNAME_PROMPT))] + Deliver(p.attempted, Text(Joined(reply.data)))
    {
      sends := [Send(c, Text(USERNAME_PROMPT))];
      if promptFails || reply.Failed? {
        SubseqRefl(sockets);
        return None, sends;
      }
      var name := reply.data;
      messages := messages + [Joined(name)];
      var more := SendMessageToClients(Joined(name), failing);
      sends := sends + more;
      username := Some(name);
    }

    /** Accepting a client and then running get_username for it: the join is
        logged once, and the broadcast goes over a list that already holds the
        new client as its last entry, which gets the announcement unless the
        client just before it is removed in that pass. When the announcement
        to the new client fails, the client is pruned from the list although
        its thread goes on with a name. */
    method Admit(c: Socket, reply: Recv, promptFails: bool, failing: set<Socket>)
      returns (username: Option<string>, sends: seq<Send>)
      requires Valid() && c !in sockets
      modifies this`sockets, this`messages
      ensures Valid()
      ensures username.Some? <==> !promptFails && reply.Got?
      ensures username.None? ==>
        && sends == [Send(c, Text(USERNAME_PROMPT))]
        && sockets == old(sockets) + [c] && messages == old(messages)
      ensures username.Some? ==>
        var s := old(sockets) + [c];
        var p := Iterate(s, 0, failing);
        && username.value == reply.data
        && messages == old(messages) + [Joined(reply.data)]
        && sockets == p.remaining
        && sends == [Send(c, Text(USERNAME_PROMPT))] + Deliver(p.attempted, Text(Joined(reply.data)))
        && (c in p.attempted <==> old(sockets) == [] || !(s[|s| - 2] in failing && s[|s| - 2] in p.attempted))
        && (c in sockets <==> !(c in failing && c in p.attempted))
    {
      Accept(c);
      ghost var s := sockets;
      username, sends := GetUsername(c, reply, promptFails, failing);
      if username.Some? {
        BroadcastSkipsSuccessor(s, failing, |s| - 1);
        BroadcastRemovesOnlyFailed(s, failing, c);
      }
    }

    /** handle_disconnection: logs and broadcasts the departure, then removes
        the client. `list.remove` raises when the broadcast already pruned it;
        `removed` is false then. Either way the client is no longer listed. */
    method HandleDisconnection(c: Socket, username: string, failing: set<Socket>)
      returns (sends: seq<Send>, removed: bool)
      requires Valid()
      modifies this`sockets, this`messages
      ensures Valid() && Subseq(sockets, old(sockets))
      ensures messages == old(messages) + [Left(username)]
      ensures
        var p := Iterate(old(sockets), 0, failing);
        && sends == Deliver(p.attempted, Text(Left(username)))
        && removed == (c in p.remaining)
        && sockets == (if removed then Remove(p.remaining, c) else p.remaining)
        && (c in old(sockets) ==> (removed <==> !(c in failing && c in p.attempted)))
      ensures c !in sockets
    {
      ghost var s := sockets;
      BroadcastRemovesOnlyFailed(s, failing, c);
      messages := messages + [Left(username)];
      sends := SendMessageToClients(Left(username), failing);
      removed := c in sockets;
      if removed {
        ghost var before := sockets;
        RemoveSubseq(before, c);
        SubseqNoDup(Remove(before, c), before);
        SubseqTrans(Remove(before, c), before, s);
        RemoveMembers(before, c, c);
        sockets := Remove(sockets, c);
      }
    }

    /** handle_file_transfer: reads the file data and logs its receipt under
        the name `lstrip` gives. A failed `recv` raises before anything is
        logged. */
    method HandleFileTransfer(message: string, chunk: Recv) returns (ok: bool)
      modifies this`messages
      ensures ok == chunk.Got?
      ensures ok ==> messages == old(messages) + [Receipt(FileName(message))]
      ensures !ok ==> messages == old(messages)
    {
      ok := chunk.Got?;
      if ok {
        var filename := FileName(message);
        messages := messages + [Receipt(filename)];
      }
    }

    /** One round of listen_to_client's loop for message `msg`; `chunk` is
        the next `recv`, if it has arrived, which a `(FILE)` message reads as
        the file's data. */
    method ListenStep(c: Socket, username: string, msg: Recv, chunk: Option<Recv>, failing: set<Socket>)
      returns (ending: Ending, sends: seq<Send>)
      requires Valid()
      modifies this`sockets, this`messages
      ensures Valid() && Subseq(sockets, old(sockets)) && old(messages) <= messages
      ensures HangsUp(msg, chunk) ==>
        var p := Iterate(old(sockets), 0, failing);
        && messages == old(messages) + [Left(username)]
        && sends == Deliver(p.attempted, Text(Left(username)))
        && c !in sockets
        && ending == (if c in p.remaining then Closed else Crashed)
      ensures AwaitsFileData(msg) && chunk == None ==>
        ending == Waiting && sockets == old(sockets) && messages == old(messages) && sends == []
      ensures AwaitsFileData(msg) && chunk.Some? && chunk.value.Got? ==>
        && ending == Continue && sockets == old(sockets) && sends == []
        && messages == old(messages) + [Receipt(FileName(msg.data))]
      ensures msg.Got? && !Disconnects(msg.data) && !(FILE_PREFIX <= msg.data) ==>
        var p := Iterate(old(sockets), 0, failing);
        && ending == Continue
        && messages == old(messages) + [Said(username, msg.data)]
        && sockets == p.remaining
        && sends == Deliver(p.attempted, Text(Said(username, msg.data)))
    {
      var hangUp := msg.Failed? || Disconnects(msg.data);
      if !hangUp && FILE_PREFIX <= msg.data {
        if chunk.None? {
          SubseqRefl(sockets);
          return Waiting, [];
        }
        var ok := HandleFileTransfer(msg.data, chunk.value);
        if ok {
          SubseqRefl(sockets);
          return Continue, [];
        }
        hangUp := true;
      }
      if hangUp {
        var removed;
        sends, removed := HandleDisconnection(c, username, failing);
        ending := if removed then Closed else Crashed;
      } else {
        messages := messages + [Said(username, msg.data)];
        sends := SendMessageToClients(Said(username, msg.data), failing);
        ending := Continue;
      }
    }

    /** listen_to_client: get_username on the first `recv`, then one round
        per message while `running` holds. `used` counts the entries of
        `stream` consumed. `promptFails` says whether the question for the
        name fails to send; the broadcast of the round that reads position
        `k` of `stream` fails for the clients in `failingAt(k)` (the join
        announcement is the round at position 0). */
    method ListenToClient(c: Socket, stream: seq<Recv>, promptFails: bool, failingAt: nat -> set<Socket>)
      returns (ending: Ending, used: nat, sends: seq<Send>)
      requires Valid()
      modifies this`sockets, this`messages
      ensures Valid() && Subseq(sockets, old(sockets)) && old(messages) <= messages
      ensures used <= |stream| && ending != Continue
      ensures |sends| > 0 && sends[0] == Send(c, Text(USERNAME_PROMPT))
      ensures promptFails ==> ending == Crashed && messages == old(messages) && sockets == old(sockets)
      ensures stream == [] ==> ending == (if promptFails then Crashed else Waiting) && messages == old(messages)
      ensures stream != [] && stream[0].Got? && !promptFails ==>
        |messages| > |old(messages)| && messages[|old(messages)|] == Joined(stream[0].data)
      ensures ending == Waiting ==>
        used == |stream| || (used + 1 == |stream| && AwaitsFileData(stream[used]))
      ensures ending == Stopped ==> !running
      ensures ending == Closed ==> c !in sockets
    {
      SubseqRefl(sockets);
      if stream == [] {
        sends := [Send(c, Text(USERNAME_PROMPT))];
        return if promptFails then Crashed else Waiting, 0, sends;
      }
      var name;
      name, sends := GetUsername(c, stream[0], promptFails, failingAt(0));
      used := 1;
      if name.None? {
        return Crashed, used, sends;
      }
      ghost var joinedAt := |old(messages)|;
      ending := Continue;
      while ending == Continue
        invariant Valid() && Subseq(sockets, old(sockets)) && old(messages) <= messages
        invariant |messages| > joinedAt && messages[joinedAt] == Joined(stream[0].data)
        invariant 1 <= used <= |stream|
        invariant |sends| > 0 && sends[0] == Send(c, Text(USERNAME_PROMPT))
        invariant ending == Waiting ==>
          used == |stream| || (used + 1 == |stream| && AwaitsFileData(stream[used]))
        invariant ending == Stopped ==> !running
        invariant ending == Closed ==> c !in sockets
        decreases |stream| - used + (if ending == Continue then 1 else 0)
      {
        if !running {
          ending := Stopped;
        } else if used == |stream| {
          ending := Waiting;
        } else {
          var msg := stream[used];
          var isFile := AwaitsFileData(msg);
          var chunk := if isFile && used + 1 < |stream| then Some(stream[used + 1]) else None;
          ghost var before := sockets;
          ghost var logBefore := messages;
          var more;
          ending, more := ListenStep(c, name.value, msg, chunk, failingAt(used));
          SubseqTrans(sockets, before, old(sockets));
          assert messages[joinedAt] == logBefore[joinedAt];
          sends := sends + more;
          if ending != Waiting {
            used := used + if isFile then 2 else 1;
          }
        }
      }
    }

    /** What handle_input does for the line `line`; the line is cleared in
        every case. */
    twostate predicate InputHandled(line: string, files: set<string>, failing: set<Socket>, sends: seq<Send>)
      reads this
    {
      var p := Iterate(old(sockets), 0, failing);
      && inputBuffer == ""
      && (FILE_PREFIX <= line ==>
            && running == old(running)
            && (FileName(line) in files ==>
                  messages == old(messages) + [FILE_SENT] && sockets == p.remaining &&
                  sends == Deliver(p.attempted, File(FileName(line))))
            && (FileName(line) !in files ==>
                  messages == old(messages) + [FILE_NOT_FOUND] && sockets == old(sockets) && sends == []))
      && (line == EXIT_COMMAND ==>
            !running && messages == old(messages) && sockets == old(sockets) && sends == [])
      && (line == CLEAR_COMMAND ==>
            messages == [] && running == old(running) && sockets == old(sockets) && sends == [])
      && (IsPlainLine(line) ==>
            && messages == old(messages) + [ServerSays(line)]
            && running == old(running)
            && sockets == p.remaining
            && sends == Deliver(p.attempted, Text(ServerSays(line))))
      && (line == "" ==>
            messages == old(messages) && running == old(running) && sockets == old(sockets) && sends == [])
    }

    /** handle_input: dispatches the console line. */
    method HandleInput(files: set<string>, failing: set<Socket>) returns (sends: seq<Send>)
      requires Valid()
      modifies this
      ensures Valid() && Subseq(sockets, old(sockets))
      ensures InputHandled(old(inputBuffer), files, failing, sends)
      ensures running ==> old(running)
    {
      CommandsAreNotFileLines();
      var line := inputBuffer;
      if FILE_PREFIX <= line {
        sends := SendFileToClients(FileName(line), files, failing);
      } else if line == EXIT_COMMAND {
        running := false;
        sends := [];
      } else if line == CLEAR_COMMAND {
        messages := [];
        sends := [];
      } else if line != "" {
        messages := messages + [ServerSays(line)];
        sends := SendMessageToClients(ServerSays(line), failing);
      } else {
        sends := [];
      }
      if !IsPlainLine(line) && !(FILE_PREFIX <= line) {
        SubseqRefl(sockets);
      }
      inputBuffer := "";
    }

    /** The handling of one key code in send_to_clients. `chr` of a code no
        character has raises; `crashed` reports it. */
    method HandleKey(key: int, files: set<string>, failing: set<Socket>)
      returns (sends: seq<Send>, crashed: bool)
      requires Valid()
      modifies this
      ensures Valid() && Subseq(sockets, old(sockets))
      ensures inputBuffer == Edited(old(inputBuffer), key)
      ensures running ==> old(running)
      ensures crashed <==> Classify(key) == Unprintable
      ensures Classify(key) == Submit ==> InputHandled(old(inputBuffer), files, failing, sends)
      ensures Classify(key) != Submit ==>
        sockets == old(sockets) && messages == old(messages) && running == old(running) && sends == []
    {
      sends, crashed := [], false;
      SubseqRefl(sockets);
      match Classify(key)
      case Erase =>
        inputBuffer := DropLast(inputBuffer);
      case Submit =>
        sends := HandleInput(files, failing);
      case Idle =>
      case Insert(ch) =>
        inputBuffer := inputBuffer + [ch];
      case Unprintable =>
        crashed := true;
    }

    /** The key loop of send_to_clients over the codes `getch` returns, while
        `running` holds. `consumed` counts the keys fully handled; the line
        then holds what those keys typed since the last Enter. The broadcast
        that the key at position `k` triggers fails for the clients in
        `failingAt(k)`. */
    method SendToClients(keys: seq<int>, files: set<string>, failingAt: nat -> set<Socket>)
      returns (consumed: nat, crashed: bool, sends: seq<Send>)
      requires Valid()
      modifies this
      ensures Valid() && Subseq(sockets, old(sockets))
      ensures consumed <= |keys| && inputBuffer == Typed(old(inputBuffer), keys, consumed)
      ensures !old(running) ==>
        consumed == 0 && !crashed && sends == [] &&
        sockets == old(sockets) && messages == old(messages) && inputBuffer == old(inputBuffer)
      ensures crashed ==> consumed < |keys| && Classify(keys[consumed]) == Unprintable
      ensures running && !crashed ==> consumed == |keys|
      ensures old(running) && !running ==> 0 < consumed && Classify(keys[consumed - 1]) == Submit
    {
      consumed, crashed, sends := 0, false, [];
      SubseqRefl(sockets);
      if !running {
        return;
      }
      while consumed < |keys| && running && !crashed
        invariant Valid() && Subseq(sockets, old(sockets))
        invariant consumed <= |keys| && inputBuffer == Typed(old(inputBuffer), keys, consumed)
        invariant crashed ==> consumed < |keys| && Classify(keys[consumed]) == Unprintable
        invariant !running ==> 0 < consumed && Classify(keys[consumed - 1]) == Submit
        decreases |keys| - consumed, if crashed then 0 else 1
      {
        ghost var before := sockets;
        var more, bad := HandleKey(keys[consumed], files, failingAt(consumed));
        SubseqTrans(sockets, before, old(sockets));
        sends := sends + more;
        if bad {
          crashed := true;
        } else {
          consumed := consumed + 1;
        }
      }
    }
  }

  lemma NoDupSnoc(s: seq<Socket>, c: Socket)
    requires NoDup(s) && c !in s
    ensures NoDup(s + [c])
  {
    var t := s + [c];
    forall i, j | 0 <= i < j < |t|
      ensures t[i] != t[j]
    {
      assert t[i] == s[i];
      if j < |s| {
        assert t[j] == s[j];
      }
    }
  }

  lemma DeliverOneMore(to: seq<Socket>, client: Socket, frame: Frame)
    ensures Deliver(to + [client], frame) == Deliver(to, frame) + [Send(client, frame)]
  {
  }
}
