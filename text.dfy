/** Case-insensitive comparison of configuration tokens, as Python's str.lower() does it on ASCII. */
module Text {

  function LowerChar(c: char): char {
    if 'A' <= c <= 'Z' then (c as int + 32) as char else c
  }

  /** The string with every ASCII capital replaced by its small letter. */
  function Lower(s: string): (r: string)
    ensures |r| == |s|
  {
    seq(|s|, i requires 0 <= i < |s| => LowerChar(s[i]))
  }

  /** A word written only in small ASCII letters. */
  predicate IsLowerWord(word: string) {
    forall i :: 0 <= i < |word| ==> 'a' <= word[i] <= 'z'
  }

  /** Reference definition: `s` spells `word` with each letter in either case. */
  predicate SpelledInAnyCase(s: string, word: string) {
    |s| == |word| &&
    forall i :: 0 <= i < |s| ==> s[i] == word[i] || s[i] as int == word[i] as int - 32
  }

  /** Lower-casing and comparing is exactly spelling the word in any letter case. */
  lemma {:induction false} LowerIsAnyCase(s: string, word: string)
    requires IsLowerWord(word)
    ensures Lower(s) == word <==> SpelledInAnyCase(s, word)
  {
    if Lower(s) == word {
      forall i | 0 <= i < |s|
        ensures s[i] == word[i] || s[i] as int == word[i] as int - 32
      {
        assert LowerChar(s[i]) == word[i];
      }
    }
    if SpelledInAnyCase(s, word) {
      forall i | 0 <= i < |s|
        ensures Lower(s)[i] == word[i]
      {
        assert LowerChar(s[i]) == word[i];
      }
    }
  }
}
