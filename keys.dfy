/** The line editor both programs run on key codes read from the terminal. */
module Keys {
  import opened Strings

  /** curses.KEY_BACKSPACE and curses.KEY_ENTER as ncurses defines them. */
  const KEY_BACKSPACE := 263
  const KEY_ENTER := 343
  /** What `getch` returns when no key is waiting. */
  const NO_KEY := -1

  /** What a key code does to the input line. `Unprintable` is a code that
      `chr` rejects, so the key loop ends with an exception. */
  datatype KeyAction = Erase | Submit | Idle | Insert(ch: char) | Unprintable

  /** The code points a Dafny `char` can hold. */
  predicate IsScalar(key: int) {
    0 <= key < 0xD800 || 0xE000 <= key < 0x11_0000
  }

  /** The tests of the key loop, in its order: backspace (KEY_BACKSPACE or
      127), Enter (KEY_ENTER, 10 or 13), no key (-1), anything else `chr(key)`. */
  function Classify(key: int): (a: KeyAction)
    ensures a == Erase <==> key == KEY_BACKSPACE || key == 127
    ensures a == Submit <==> key == KEY_ENTER || key == 10 || key == 13
    ensures a == Idle <==> key == NO_KEY
    ensures a.Insert? ==> a.ch as int == key
    ensures a == Unprintable ==> key < 0 || key >= 0x11_0000 || 0xD800 <= key < 0xE000
  {
    if key == KEY_BACKSPACE || key == 127 then Erase
    else if key == KEY_ENTER || key == 10 || key == 13 then Submit
    else if key == NO_KEY then Idle
    else if IsScalar(key) then Insert(key as char)
    else Unprintable
  }

  /** The input line after one key has been handled. Submitting always leaves
      an empty line, because the dispatch routine ends by clearing it. */
  function Edited(line: string, key: int): (r: string)
    ensures Classify(key) == Submit ==> r == []
    ensures Classify(key).Insert? ==> r == line + [Classify(key).ch]
    ensures Classify(key) == Erase ==> |r| == if line == [] then 0 else |line| - 1
    ensures Classify(key) == Erase ==> r <= line
    ensures Classify(key) == Idle || Classify(key) == Unprintable ==> r == line
  {
    match Classify(key)
    case Erase => DropLast(line)
    case Submit => ""
    case Idle => line
    case Insert(ch) => line + [ch]
    case Unprintable => line
  }

  /** The input line after the first `n` keys of `keys`, each handled in
      turn. */
  function Typed(line: string, keys: seq<int>, n: nat): (r: string)
    requires n <= |keys|
    ensures n > 0 && Classify(keys[n - 1]) == Submit ==> r == ""
    ensures (forall i :: 0 <= i < n ==> Classify(keys[i]) in {Idle, Unprintable}) ==> r == line
  {
    if n == 0 then line else Edited(Typed(line, keys, n - 1), keys[n - 1])
  }

  /** Backspace undoes the character just typed. */
  lemma EraseUndoesInsert(line: string, key: int)
    requires Classify(key).Insert?
    ensures Edited(Edited(line, key), KEY_BACKSPACE) == line
  {
    assert Classify(KEY_BACKSPACE) == Erase;
  }

  /** Whatever was on the line before an Enter key has no effect on the line
      afterwards: it holds only what the keys after the last Enter typed. */
  lemma {:induction false} TypedForgetsBeforeSubmit(line: string, keys: seq<int>, k: nat, n: nat)
    requires k < n <= |keys| && Classify(keys[k]) == Submit
    ensures Typed(line, keys, n) == Typed("", keys[k + 1..], n - k - 1)
  {
    if n > k + 1 {
      TypedForgetsBeforeSubmit(line, keys, k, n - 1);
      assert keys[k + 1..][n - k - 2] == keys[n - 1];
    }
  }

  /** Each key adds at most one character to the line. */
  lemma {:induction false} TypedLength(line: string, keys: seq<int>, n: nat)
    requires n <= |keys|
    ensures |Typed(line, keys, n)| <= |line| + n
  {
    if n > 0 {
      TypedLength(line, keys, n - 1);
    }
  }

  /** Keys that each insert a character append exactly those characters. */
  lemma {:induction false} TypedInserts(line: string, keys: seq<int>, n: nat)
    requires n <= |keys|
    requires forall i :: 0 <= i < n ==> Classify(keys[i]).Insert?
    ensures |Typed(line, keys, n)| == |line| + n
    ensures Typed(line, keys, n)[..|line|] == line
    ensures forall i :: 0 <= i < n ==> Typed(line, keys, n)[|line| + i] == Classify(keys[i]).ch
  {
    if n > 0 {
      TypedInserts(line, keys, n - 1);
    }
  }
}
