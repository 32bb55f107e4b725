/** A keyboard language: its code, display name, and the character rows of its plain and shifted layouts. */
module KeyboardLanguageConfig {
  import opened Keys

  datatype KeyboardLanguageConfig = KeyboardLanguageConfig(
    code: string,
    name: string,
    rows: seq<seq<Key>>,
    shiftedRows: seq<seq<Key>>
  )

  /** `.map { Key.Character(it.toString()) }`: one character key per character, in order. */
  function CharacterKeys(chars: seq<char>): (keys: seq<Key>)
    ensures |keys| == |chars|
    ensures forall i :: 0 <= i < |chars| ==> keys[i] == Character([chars[i]])
  {
    seq(|chars|, i requires 0 <= i < |chars| => Character([chars[i]]))
  }

  /** The English layout. */
  const English: KeyboardLanguageConfig := KeyboardLanguageConfig(
    "en",
    "EN",
    [CharacterKeys("qwertyuiop"), CharacterKeys("asdfghjkl"), CharacterKeys("zxcvbnm")],
    [CharacterKeys("QWERTYUIOP"), CharacterKeys("ASDFGHJKL"), CharacterKeys("ZXCVBNM")]
  )

  /** ASCII upper-casing: 'a'..'z' become 'A'..'Z', every other character is kept. */
  function UpperCase(c: char): (u: char)
    ensures 'a' <= c <= 'z' ==> 'A' <= u <= 'Z' && u as int == c as int - 32
    ensures !('a' <= c <= 'z') ==> u == c
  {
    if 'a' <= c <= 'z' then (c as int - 32) as char else c
  }

  /** Upper-casing a string character by character. */
  function UpperString(s: string): (u: string)
    ensures |u| == |s|
    ensures forall i :: 0 <= i < |s| ==> u[i] == UpperCase(s[i])
  {
    seq(|s|, i requires 0 <= i < |s| => UpperCase(s[i]))
  }

  /** The key Shift turns a key into: a character key upper-cased, any other key unchanged. */
  function ShiftKey(k: Key): Key
  {
    match k
    case Character(v) => Character(UpperString(v))
    case _ => k
  }

  /** Every key of a layout is a character key holding exactly one character. */
  ghost predicate SingleCharacterKeys(layout: seq<seq<Key>>)
  {
    forall r, c :: 0 <= r < |layout| && 0 <= c < |layout[r]| ==>
      layout[r][c].Character? && |layout[r][c].value| == 1
  }

  /** Two layouts have the same number of rows and the same row lengths. */
  ghost predicate SameShape(a: seq<seq<Key>>, b: seq<seq<Key>>)
  {
    |a| == |b| && forall r :: 0 <= r < |a| ==> |a[r]| == |b[r]|
  }

  /** Upper-casing a row of characters and then making keys is shifting each key of the row. */
  lemma CharacterKeysShifted(s: string, t: string)
    requires t == UpperString(s)
    ensures |CharacterKeys(t)| == |CharacterKeys(s)|
    ensures forall i :: 0 <= i < |s| ==> CharacterKeys(t)[i] == ShiftKey(CharacterKeys(s)[i])
  {
  }

  /** English has code "en" and display name "EN". */
  lemma EnglishIdentity()
    ensures English.code == "en" && English.name == "EN"
  {
  }

  /** English has three rows of 10, 9 and 7 keys, and its shifted layout has the same shape. */
  lemma EnglishShape()
    ensures |English.rows| == 3
    ensures |English.rows[0]| == 10 && |English.rows[1]| == 9 && |English.rows[2]| == 7
    ensures SameShape(English.rows, English.shiftedRows)
  {
  }

  /** Every English key, plain or shifted, is a character key of one character. */
  lemma EnglishSingleCharacters()
    ensures SingleCharacterKeys(English.rows) && SingleCharacterKeys(English.shiftedRows)
  {
  }

  /** Each shifted English key is the upper-case form of the plain key at the same row and column. */
  lemma EnglishShiftedIsUpperCase()
    ensures SameShape(English.rows, English.shiftedRows)
    ensures forall r, c :: 0 <= r < |English.rows| && 0 <= c < |English.rows[r]| ==>
      English.shiftedRows[r][c] == ShiftKey(English.rows[r][c])
  {
    assert UpperString("qwertyuiop") == "QWERTYUIOP";
    assert UpperString("asdfghjkl") == "ASDFGHJKL";
    assert UpperString("zxcvbnm") == "ZXCVBNM";
    CharacterKeysShifted("qwertyuiop", "QWERTYUIOP");
    CharacterKeysShifted("asdfghjkl", "ASDFGHJKL");
    CharacterKeysShifted("zxcvbnm", "ZXCVBNM");
  }
}
