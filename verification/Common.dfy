/** Small datatypes and text helpers shared by every module of the model. */
module Common {

  datatype Option<+T> = None | Some(value: T)

  datatype Result<+T, +E> = Ok(value: T) | Err(error: E)

  /** A database identifier (the source's UUIDs): only equality and order matter. */
  type Id = nat

  function Max(a: int, b: int): int { if a < b then b else a }

  function Min(a: int, b: int): int { if a < b then a else b }

  /** The code points Python's `str.strip` removes. */
  predicate IsSpace(c: char) {
    var n := c as int;
    || 9 <= n <= 13 || 28 <= n <= 32 || n == 0x85 || n == 0xA0 || n == 0x1680
    || 0x2000 <= n <= 0x200A || n == 0x2028 || n == 0x2029 || n == 0x202F || n == 0x205F || n == 0x3000
  }

  /** `not text.strip()`. */
  predicate IsBlank(text: string) {
    forall c | c in text :: IsSpace(c)
  }

  function StripLeft(text: string): string {
    if text != [] && IsSpace(text[0]) then StripLeft(text[1..]) else text
  }

  function StripRight(text: string): string {
    if text != [] && IsSpace(text[|text| - 1]) then StripRight(text[..|text| - 1]) else text
  }

  /** `text.strip()`. */
  function Strip(text: string): string {
    StripRight(StripLeft(text))
  }

  lemma {:induction false} StripLeftBlank(text: string)
    ensures IsBlank(text) <==> StripLeft(text) == []
    ensures StripLeft(text) != [] ==> !IsSpace(StripLeft(text)[0])
  {
    if text != [] && IsSpace(text[0]) {
      StripLeftBlank(text[1..]);
      assert text == [text[0]] + text[1..];
    } else if text != [] {
      assert text[0] in text;
    }
  }

  lemma {:induction false} StripRightKeeps(text: string)
    requires text != [] && !IsSpace(text[0])
    ensures StripRight(text) != [] && StripRight(text)[0] == text[0]
  {
    if IsSpace(text[|text| - 1]) {
      StripRightKeeps(text[..|text| - 1]);
    }
  }

  /** Stripping empties exactly the blank texts, and what is left is never blank. */
  lemma StripBlank(text: string)
    ensures Strip(text) == [] <==> IsBlank(text)
    ensures Strip(text) != [] ==> !IsBlank(Strip(text))
  {
    StripLeftBlank(text);
    if StripLeft(text) != [] {
      StripRightKeeps(StripLeft(text));
      assert Strip(text)[0] in Strip(text);
    }
  }

  lemma {:induction false} StripLeftCuts(text: string) returns (left: string)
    ensures text == left + StripLeft(text) && IsBlank(left)
    ensures StripLeft(text) == "" || !IsSpace(StripLeft(text)[0])
  {
    if text != [] && IsSpace(text[0]) {
      left := StripLeftCuts(text[1..]);
      left := [text[0]] + left;
    } else {
      left := "";
    }
  }

  lemma {:induction false} StripRightCuts(text: string) returns (right: string)
    ensures text == StripRight(text) + right && IsBlank(right)
    ensures StripRight(text) == "" || !IsSpace(StripRight(text)[|StripRight(text)| - 1])
  {
    right := "";
    if text != [] && IsSpace(text[|text| - 1]) {
      var rest := StripRightCuts(text[..|text| - 1]);
      right := rest + [text[|text| - 1]];
      Append(StripRight(text), rest, text);
    }
  }

  lemma Append(core: string, rest: string, text: string)
    requires text != [] && text[..|text| - 1] == core + rest
    ensures text == core + (rest + [text[|text| - 1]])
  {
    assert text == text[..|text| - 1] + [text[|text| - 1]];
  }

  /** `strip` removes the white space at both ends and nothing else. */
  lemma StripCuts(text: string) returns (left: string, right: string)
    ensures text == left + Strip(text) + right && IsBlank(left) && IsBlank(right)
    ensures Strip(text) == "" || (!IsSpace(Strip(text)[0]) && !IsSpace(Strip(text)[|Strip(text)| - 1]))
  {
    left := StripLeftCuts(text);
    right := StripRightCuts(StripLeft(text));
    assert text == left + (Strip(text) + right);
    if Strip(text) != "" {
      assert StripLeft(text)[0] == Strip(text)[0];
    }
  }
}
