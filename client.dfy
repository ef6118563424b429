/** The chat client's state: the message log it shows, its input line, the
    running flag, and whether its connection to the server is still open.
    The connection, files and the terminal are replaced by the inputs of each
    method: whether a send fails, the files that exist, the data each `recv`
    returns and the key codes `getch` returns. */
module Client {
  import opened Strings
  import opened Protocol
  import opened Keys

  /** How one round of the listening loop, or the whole loop, ends. */
  datatype Ending =
    | Continue  // the loop goes on
    | Waiting   // the thread is blocked in `recv`: no more data has arrived
    | Closed    // the loop ended and the connection was closed

  /** A message the listening loop ends on: a failed `recv`, or the empty
      message of a server that closed its end. */
  predicate EndsListening(msg: Recv) {
    msg.Failed? || msg.data == ""
  }

  /** A `(FILE)` message, after which the next `recv` is the file's data. */
  predicate IsFileOffer(msg: Recv) {
    msg.Got? && msg.data != "" && FILE_PREFIX <= msg.data
  }

  class ChatApp {
    var messages: seq<string>
    var inputBuffer: string
    var running: bool
    var connected: bool

    constructor ()
      ensures messages == [] && inputBuffer == "" && running && connected
    {
      messages := [];
      inputBuffer := "";
      running := true;
      connected := true;
    }

    /** stop: clears the running flag and closes the connection. */
    method Stop()
      modifies this`running, this`connected
      ensures !running && !connected
    {
      running := false;
      connected := false;
    }

    /** handle_file_receive: reads the file data and logs its receipt under
        the name `lstrip` gives. A failed `recv` raises before anything is
        logged. */
    method HandleFileReceive(message: string, chunk: Recv) returns (ok: bool)
      modifies this`messages
      ensures ok == chunk.Got?
      ensures ok ==> messages == old(messages) + [Receipt(FileName(message))]
      ensures !ok ==> messages == old(messages)
    {
      ok := chunk.Got?;
      if ok {
        var filename := FileName(message);
        messages := messages + [Receipt(filename)];
      }
    }

    /** One round of listen_to_server's loop for message `msg`; `chunk` is the
        next `recv`, if it has arrived, which a `(FILE)` message reads as the
        file's data. */
    method ListenStep(msg: Recv, chunk: Option<Recv>) returns (ending: Ending)
      modifies this`messages
      ensures EndsListening(msg) ==> ending == Closed && messages == old(messages)
      ensures IsFileOffer(msg) && chunk == None ==> ending == Waiting && messages == old(messages)
      ensures IsFileOffer(msg) && chunk == Some(Failed) ==> ending == Closed && messages == old(messages)
      ensures IsFileOffer(msg) && chunk.Some? && chunk.value.Got? ==>
        ending == Continue && messages == old(messages) + [Receipt(FileName(msg.data))]
      ensures msg.Got? && msg.data != "" && !(FILE_PREFIX <= msg.data) ==>
        ending == Continue && messages == old(messages) + [msg.data]
      ensures old(messages) <= messages
    {
      if EndsListening(msg) {
        return Closed;
      }
      if FILE_PREFIX <= msg.data {
        if chunk.None? {
          return Waiting;
        }
        var ok := HandleFileReceive(msg.data, chunk.value);
        ending := if ok then Continue else Closed;
      } else {
        messages := messages + [msg.data];
        ending := Continue;
      }
    }

    /** listen_to_server: one round per message while `running` holds; when
        the loop ends the connection is closed. `used` counts the entries of
        `stream` consumed. */
    method ListenToServer(stream: seq<Recv>) returns (ending: Ending, used: nat)
      modifies this`messages, this`connected
      ensures old(running) ==>
        var h := Listen(stream);
        messages == old(messages) + h.log && used == h.stop && ending == h.ending
      ensures !old(running) ==> ending == Closed && used == 0 && messages == old(messages)
      ensures ending == Waiting ==> connected == old(connected)
      ensures ending == Closed ==> !connected
    {
      used := 0;
      ending := Continue;
      if !running {
        ending := Closed;
        connected := false;
        return;
      }
      ghost var logged: seq<string> := [];
      while ending == Continue
        invariant used <= |stream| && messages == old(messages) + logged
        invariant ending == Continue ==>
          var rest := ListenAt(stream, used);
          Listen(stream) == Heard(logged + rest.log, rest.stop, rest.ending)
        invariant ending != Continue ==> Listen(stream) == Heard(logged, used, ending)
        invariant connected == old(connected)
        decreases |stream| - used + (if ending == Continue then 1 else 0)
      {
        if used == |stream| {
          ending := Waiting;
        } else {
          var msg := stream[used];
          var isFile := IsFileOffer(msg);
          var chunk := if isFile && used + 1 < |stream| then Some(stream[used + 1]) else None;
          ghost var start := used;
          ghost var before := messages;
          ending := ListenStep(msg, chunk);
          if ending != Waiting {
            used := used + if isFile then 2 else 1;
          }
          ghost var added := messages[|before|..];
          assert messages == before + added;
          ListenAdvance(stream, start, logged, added, used, ending);
          AppendAssoc(old(messages), logged, added);
          logged := logged + added;
        }
      }
      if ending != Waiting {
        ending := Closed;
        connected := false;
      }
    }

    /** send_file_to_server: the file named by the input line is offered to
        the server only when it exists, and exactly one status line is logged
        unless the send raises. */
    method SendFileToServer(files: set<string>, sendFails: bool) returns (sent: seq<Frame>, ok: bool)
      modifies this`messages
      ensures
        var name := FileName(old(inputBuffer));
        && sent == (if name in files then [File(name)] else [])
        && ok == !(name in files && (sendFails || !old(connected)))
        && messages == (if !ok then old(messages)
                        else old(messages) + [if name in files then FILE_SENT else FILE_NOT_FOUND])
    {
      var filename := FileName(inputBuffer);
      if filename in files {
        sent := [File(filename)];
        if sendFails || !connected {
          return sent, false;
        }
        messages := messages + [FILE_SENT];
      } else {
        sent := [];
        messages := messages + [FILE_NOT_FOUND];
      }
      ok := true;
    }

    /** What process_input does for the line `line`: the line is cleared
        unless a send raised, in which case nothing after the send happens. */
    twostate predicate InputProcessed(line: string, files: set<string>, sendFails: bool, sent: seq<Frame>, ok: bool)
      reads this
    {
      var fails := sendFails || !old(connected);
      && inputBuffer == (if ok then "" else line)
      && (FILE_PREFIX <= line ==>
            var name := FileName(line);
            && running == old(running) && connected == old(connected)
            && sent == (if name in files then [File(name)] else [])
            && ok == !(name in files && fails)
            && messages == (if !ok then old(messages)
                            else old(messages) + [if name in files then FILE_SENT else FILE_NOT_FOUND]))
      && (line == EXIT_COMMAND ==>
            && sent == [Text(EXIT_COMMAND)] && ok == !fails && messages == old(messages)
            && (ok ==> !running && !connected)
            && (!ok ==> running == old(running) && connected == old(connected)))
      && (line == CLEAR_COMMAND ==>
            ok && sent == [] && messages == [] && running == old(running) && connected == old(connected))
      && (IsPlainLine(line) ==>
            && sent == [Text(line)] && ok == !fails && messages == old(messages)
            && running == old(running) && connected == old(connected))
      && (line == "" ==>
            ok && sent == [] && messages == old(messages) && running == old(running) && connected == old(connected))
    }

    /** process_input: dispatches the input line; `ok` is false when a send
        to the server raised. */
    method ProcessInput(files: set<string>, sendFails: bool) returns (sent: seq<Frame>, ok: bool)
      modifies this
      ensures InputProcessed(old(inputBuffer), files, sendFails, sent, ok)
      ensures running ==> old(running)
    {
      CommandsAreNotFileLines();
      var line := inputBuffer;
      if FILE_PREFIX <= line {
        sent, ok := SendFileToServer(files, sendFails);
      } else if line == EXIT_COMMAND {
        sent := [Text(line)];
        ok := !(sendFails || !connected);
        if ok {
          Stop();
        }
      } else if line == CLEAR_COMMAND {
        messages := [];
        sent, ok := [], true;
      } else if line != "" {
        sent := [Text(line)];
        ok := !(sendFails || !connected);
      } else {
        sent, ok := [], true;
      }
      if ok {
        inputBuffer := "";
      }
    }

    /** The handling of one key code in send_to_server. `crashed` reports an
        exception: `chr` of a code no character has, or a failed send. */
    method HandleKey(key: int, files: set<string>, sendFails: bool) returns (sent: seq<Frame>, crashed: bool)
      modifies this
      ensures crashed <==> Classify(key) == Unprintable || (Classify(key) == Submit && !InputOk(old(inputBuffer), files, sendFails || !old(connected)))
      ensures !crashed ==> inputBuffer == Edited(old(inputBuffer), key)
      ensures crashed ==> inputBuffer == old(inputBuffer)
      ensures running ==> old(running)
      ensures Classify(key) == Submit ==> InputProcessed(old(inputBuffer), files, sendFails, sent, !crashed)
      ensures Classify(key) != Submit ==>
        messages == old(messages) && running == old(running) && connected == old(connected) && sent == []
    {
      sent, crashed := [], false;
      match Classify(key)
      case Erase =>
        inputBuffer := DropLast(inputBuffer);
      case Submit =>
        var ok;
        sent, ok := ProcessInput(files, sendFails);
        crashed := !ok;
      case Idle =>
      case Insert(ch) =>
        inputBuffer := inputBuffer + [ch];
      case Unprintable =>
        crashed := true;
    }

    /** The key loop of send_to_server over the codes `getch` returns, while
        `running` holds. `consumed` counts the keys fully handled; the line
        then holds what those keys typed since the last Enter. The send that
        the key at position `k` triggers raises when `sendFails(k)` holds. */
    method SendToServer(keys: seq<int>, files: set<string>, sendFails: nat -> bool)
      returns (consumed: nat, crashed: bool, sent: seq<Frame>)
      modifies this
      ensures consumed <= |keys| && inputBuffer == Typed(old(inputBuffer), keys, consumed)
      ensures !old(running) ==>
        consumed == 0 && !crashed && sent == [] && messages == old(messages) && inputBuffer == old(inputBuffer)
      ensures crashed ==> consumed < |keys| && Classify(keys[consumed]) in {Unprintable, Submit}
      ensures running && !crashed ==> consumed == |keys|
      ensures old(running) && !running ==> 0 < consumed && Classify(keys[consumed - 1]) == Submit
      ensures running ==> connected == old(connected)
    {
      consumed, crashed, sent := 0, false, [];
      if !running {
        return;
      }
      while consumed < |keys| && running && !crashed
        invariant consumed <= |keys| && inputBuffer == Typed(old(inputBuffer), keys, consumed)
        invariant running ==> connected == old(connected)
        invariant crashed ==> consumed < |keys| && Classify(keys[consumed]) in {Unprintable, Submit}
        invariant !running ==> 0 < consumed && Classify(keys[consumed - 1]) == Submit
        decreases |keys| - consumed, if crashed then 0 else 1
      {
        var more, bad := HandleKey(keys[consumed], files, sendFails(consumed));
        sent := sent + more;
        if bad {
          crashed := true;
        } else {
          consumed := consumed + 1;
        }
      }
    }
  }

  /** What listen_to_server makes of a stream while `running` holds: the lines
      it logs, the position in the stream where it stops and how it ends. */
  datatype Heard = Heard(log: seq<string>, stop: nat, ending: Ending)

  /** The reference definition of the listening loop, message by message,
      from position `i` of the stream. */
  function ListenAt(stream: seq<Recv>, i: nat): (h: Heard)
    requires i <= |stream|
    ensures i <= h.stop <= |stream| && h.ending != Continue
    ensures |h.log| <= h.stop - i
    decreases |stream| - i
  {
    if i == |stream| then Heard([], i, Waiting)
    else if EndsListening(stream[i]) then Heard([], i + 1, Closed)
    else if IsFileOffer(stream[i]) then
      if i + 1 == |stream| then Heard([], i, Waiting)
      else if stream[i + 1].Failed? then Heard([], i + 2, Closed)
      else
        var rest := ListenAt(stream, i + 2);
        Heard([Receipt(FileName(stream[i].data))] + rest.log, rest.stop, rest.ending)
    else
      var rest := ListenAt(stream, i + 1);
      Heard([stream[i].data] + rest.log, rest.stop, rest.ending)
  }

  function Listen(stream: seq<Recv>): Heard {
    ListenAt(stream, 0)
  }

  /** The loop invariant of listen_to_server carried across one message:
      `added`, `next` and `ending` are what one round makes of the message at
      position `used`. */
  lemma ListenAdvance(stream: seq<Recv>, used: nat, logged: seq<string>, added: seq<string>, next: nat, ending: Ending)
    requires used < |stream|
    requires
      var m := stream[used];
      var file := IsFileOffer(m);
      && (EndsListening(m) ==> ending == Closed && added == [] && next == used + 1)
      && (file && used + 1 == |stream| ==> ending == Waiting && added == [] && next == used)
      && (file && used + 1 < |stream| && stream[used + 1].Failed? ==> ending == Closed && added == [] && next == used + 2)
      && (file && used + 1 < |stream| && stream[used + 1].Got? ==>
            ending == Continue && added == [Receipt(FileName(m.data))] && next == used + 2)
      && (!EndsListening(m) && !file ==> ending == Continue && added == [m.data] && next == used + 1)
    requires
      var rest := ListenAt(stream, used);
      Listen(stream) == Heard(logged + rest.log, rest.stop, rest.ending)
    ensures next <= |stream|
    ensures ending == Continue ==>
      var rest := ListenAt(stream, next);
      Listen(stream) == Heard((logged + added) + rest.log, rest.stop, rest.ending)
    ensures ending != Continue ==> Listen(stream) == Heard(logged + added, next, ending)
  {
    if ending == Continue {
      AppendAssoc(logged, added, ListenAt(stream, next).log);
    } else {
      assert logged + added == logged;
    }
  }

  lemma AppendAssoc(a: seq<string>, b: seq<string>, c: seq<string>)
    ensures (a + b) + c == a + (b + c)
  {
  }

  /** The loop stops waiting only at the end of the data, or in the middle of
      a file offer whose data has not arrived. */
  lemma {:induction false} ListenWaits(stream: seq<Recv>, i: nat)
    requires i <= |stream| && ListenAt(stream, i).ending == Waiting
    ensures var h := ListenAt(stream, i);
      h.stop == |stream| || (h.stop + 1 == |stream| && IsFileOffer(stream[h.stop]))
    decreases |stream| - i
  {
    if i < |stream| && !EndsListening(stream[i]) {
      if !IsFileOffer(stream[i]) {
        ListenWaits(stream, i + 1);
      } else if i + 1 < |stream| {
        ListenWaits(stream, i + 2);
      }
    }
  }

  /** The loop closes the connection only on a message that ends it: the
      last entry it consumed is a failed `recv` or an empty message. */
  lemma {:induction false} ListenCloses(stream: seq<Recv>, i: nat)
    requires i <= |stream| && ListenAt(stream, i).ending == Closed
    ensures var h := ListenAt(stream, i);
      i < h.stop && EndsListening(stream[h.stop - 1])
    decreases |stream| - i
  {
    if !EndsListening(stream[i]) {
      if !IsFileOffer(stream[i]) {
        ListenCloses(stream, i + 1);
      } else if stream[i + 1].Got? {
        ListenCloses(stream, i + 2);
      }
    }
  }

  /** Every line the listening loop logs is non-empty and never a raw file
      offer: a `(FILE)` message is shown only as its receipt. */
  lemma {:induction false} ListenLogsNoOffer(stream: seq<Recv>, i: nat)
    requires i <= |stream|
    ensures forall k :: 0 <= k < |ListenAt(stream, i).log| ==>
      ListenAt(stream, i).log[k] != "" && !(FILE_PREFIX <= ListenAt(stream, i).log[k])
    decreases |stream| - i
  {
    if i < |stream| && !EndsListening(stream[i]) {
      if !IsFileOffer(stream[i]) {
        ListenLogsNoOffer(stream, i + 1);
      } else if i + 1 < |stream| && stream[i + 1].Got? {
        ListenLogsNoOffer(stream, i + 2);
        var r := Receipt(FileName(stream[i].data));
        assert r[0] == '-' && FILE_PREFIX[0] == '(';
      }
    }
  }

  /** Once the loop has closed the connection, data that would have arrived
      afterwards changes nothing. */
  lemma {:induction false} ListenIgnoresLaterData(stream: seq<Recv>, more: seq<Recv>, i: nat)
    requires i <= |stream| && ListenAt(stream, i).ending == Closed
    ensures ListenAt(stream + more, i) == ListenAt(stream, i)
    decreases |stream| - i
  {
    var t := stream + more;
    assert t[i] == stream[i];
    if !EndsListening(stream[i]) {
      assert t[i + 1] == stream[i + 1];
      if IsFileOffer(stream[i]) {
        if stream[i + 1].Got? {
          ListenIgnoresLaterData(stream, more, i + 2);
        }
      } else {
        ListenIgnoresLaterData(stream, more, i + 1);
      }
    }
  }

  /** While the loop waits for data, more data only adds to what it logs. */
  lemma {:induction false} ListenLogGrows(stream: seq<Recv>, more: seq<Recv>, i: nat)
    requires i <= |stream| && ListenAt(stream, i).ending == Waiting
    ensures ListenAt(stream, i).log <= ListenAt(stream + more, i).log
    ensures ListenAt(stream, i).stop <= ListenAt(stream + more, i).stop
    decreases |stream| - i
  {
    var t := stream + more;
    if i < |stream| && !(IsFileOffer(stream[i]) && i + 1 == |stream|) {
      assert t[i] == stream[i];
      var k := if IsFileOffer(stream[i]) then 2 else 1;
      if k == 2 {
        assert t[i + 1] == stream[i + 1];
      }
      ListenLogGrows(stream, more, i + k);
      var line := if k == 2 then Receipt(FileName(stream[i].data)) else stream[i].data;
      PrefixCons(line, ListenAt(stream, i + k).log, ListenAt(t, i + k).log);
    }
  }

  lemma PrefixCons(x: string, a: seq<string>, b: seq<string>)
    requires a <= b
    ensures [x] + a <= [x] + b
  {
    assert ([x] + b)[..|a| + 1] == [x] + b[..|a|];
  }

  /** Whether process_input completes on `line` when sends fail exactly when
      `fails` holds: only a line that sends something can raise. */
  predicate InputOk(line: string, files: set<string>, fails: bool)
    ensures !fails ==> InputOk(line, files, fails)
    ensures line == CLEAR_COMMAND || line == "" ==> InputOk(line, files, fails)
    ensures line == EXIT_COMMAND ==> (InputOk(line, files, fails) <==> !fails)
  {
    CommandsAreNotFileLines();
    if FILE_PREFIX <= line then !(FileName(line) in files && fails)
    else if line == EXIT_COMMAND || IsPlainLine(line) then !fails
    else true
  }
}
