/** The strings the server and the client exchange and log: reserved line
    prefixes, status lines, and how a file name is read off a `(FILE)` line. */
module Protocol {
  import opened Strings

  datatype Option<T> = None | Some(value: T)

  /** The result of one `recv` on a connection: the decoded text, or a
      `socket.error`. A peer that closed its end yields `Got("")`. */
  datatype Recv = Got(data: string) | Failed

  /** What one send puts on a connection: a text message, or a file offer
      (the line `(FILE)<name>` followed by the file's bytes, which are not
      modelled). */
  datatype Frame = Text(body: string) | File(name: string)

  const FILE_PREFIX := "(FILE)"
  const EXIT_COMMAND := "(EXIT)"
  const CLEAR_COMMAND := "(CLEAR)"
  const FILE_SENT := "-File sent successfully-"
  const FILE_NOT_FOUND := "-File not found-"
  const USERNAME_PROMPT := "SERVER: What Is Your Username?"

  /** The file name in a `(FILE)` line, taken as both programs take it, with
      `lstrip("(FILE)")`. */
  function FileName(line: string): (name: string)
    ensures |name| <= |line| && name == line[|line| - |name|..]
    ensures name == [] || name[0] !in FILE_PREFIX
    ensures forall i :: 0 <= i < |line| - |name| ==> line[i] in FILE_PREFIX
  {
    LStrip(line, FILE_PREFIX)
  }

  /** The text of the line that announces a file offer for `name`. */
  function FileHeader(name: string): string {
    FILE_PREFIX + name
  }

  function Receipt(name: string): string {
    "-" + name + " file received successfully-"
  }

  function Joined(username: string): string {
    username + " has joined the chat"
  }

  function Left(username: string): string {
    username + " disconnected"
  }

  function Said(username: string, text: string): string {
    username + ": " + text
  }

  /** What the server logs and broadcasts for a line typed at its console. */
  function ServerSays(line: string): string {
    "SERVER: " + line
  }

  /** An incoming message the server's per-client loop treats as a hang-up. */
  predicate Disconnects(message: string) {
    message == "" || message == EXIT_COMMAND
  }

  /** A console line that is neither a command nor empty: sent as chat text. */
  predicate IsPlainLine(line: string) {
    line != "" && !(FILE_PREFIX <= line) && line != EXIT_COMMAND && line != CLEAR_COMMAND
  }

  /** The file test comes first, but neither command line is a file line. */
  lemma CommandsAreNotFileLines()
    ensures !(FILE_PREFIX <= EXIT_COMMAND) && !(FILE_PREFIX <= CLEAR_COMMAND)
  {
    assert EXIT_COMMAND[1] != FILE_PREFIX[1];
    assert CLEAR_COMMAND[1] != FILE_PREFIX[1];
  }

  /** A file name survives the trip through a `(FILE)` line exactly when it
      does not itself start with one of the characters `(`, `F`, `I`, `L`,
      `E`, `)`; otherwise the receiver reads a shorter name. */
  lemma HeaderRoundTrip(name: string)
    ensures FileName(FileHeader(name)) == name <==> (name == [] || name[0] !in FILE_PREFIX)
  {
    var line := FileHeader(name);
    if name == [] || name[0] !in FILE_PREFIX {
      assert line[|line| - |name|..] == name;
      forall i | 0 <= i < |line| - |name|
        ensures line[i] in FILE_PREFIX
      {
        assert line[i] == FILE_PREFIX[i];
      }
      LStripUnique(line, FILE_PREFIX, name);
    }
  }

  /** File-name extraction applied to its own result changes nothing. */
  lemma FileNameIdempotent(line: string)
    ensures FileName(FileName(line)) == FileName(line)
  {
    LStripIdempotent(line, FILE_PREFIX);
  }

  /** `lstrip` strips characters, not the prefix: the name in
      `(FILE)FILE.txt` is `.txt`. */
  lemma FileNameStripsCharacters()
    ensures FileName("(FILE)FILE.txt") == ".txt"
  {
    var a := "(FILE)FILE.txt";
    assert a[10..] == ".txt";
    assert a[10] == '.' && '.' !in FILE_PREFIX;
    forall i | 0 <= i < 10
      ensures a[i] in FILE_PREFIX
    {
      assert a[..10] == "(FILE)FILE";
      assert a[i] == a[..10][i];
    }
    LStripUnique(a, FILE_PREFIX, ".txt");
  }

  /** A name that starts with none of the stripped characters is read back
      whole, and a bare `(FILE)` line names the empty string. */
  lemma FileNameExamples()
    ensures FileName("(FILE)report.txt") == "report.txt"
    ensures FileName("(FILE)") == ""
  {
    var name := "report.txt";
    assert name[0] == 'r' && 'r' !in FILE_PREFIX;
    HeaderRoundTrip(name);
    assert FileHeader(name) == "(FILE)report.txt";
    HeaderRoundTrip("");
    assert FileHeader("") == FILE_PREFIX;
  }
}
