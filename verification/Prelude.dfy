// Small shared vocabulary: optional values and text helpers.
module Prelude {

  datatype Option<+T> = None | Some(value: T)

  predicate StartsWithAt(text: string, word: string, i: int)
  {
    0 <= i <= |text| - |word| && text[i..i + |word|] == word
  }

  predicate Contains(text: string, word: string)
  {
    exists i | 0 <= i <= |text| :: StartsWithAt(text, word, i)
  }

  function Min(a: int, b: int): int { if a < b then a else b }
  function Max(a: int, b: int): int { if a < b then b else a }
}
