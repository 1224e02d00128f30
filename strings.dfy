/** String helpers: Python's `str.lower()` on ASCII letters, `in` on strings, `startswith`. */
module Strings {

  /** Lower-cases one ASCII letter; every other character is left as it is. */
  function LowerChar(c: char): char {
    if 'A' <= c <= 'Z' then (c as int + 32) as char else c
  }

  predicate IsLowerChar(c: char) { !('A' <= c <= 'Z') }

  /** `s.lower()`, restricted to ASCII case folding. */
  function Lower(s: string): (r: string)
    ensures |r| == |s|
    ensures forall i :: 0 <= i < |s| ==> r[i] == LowerChar(s[i])
    ensures forall i :: 0 <= i < |r| ==> IsLowerChar(r[i])
  {
    if s == [] then [] else [LowerChar(s[0])] + Lower(s[1..])
  }

  /** Lower-casing twice changes nothing more. */
  lemma {:induction false} LowerIdempotent(s: string)
    ensures Lower(Lower(s)) == Lower(s)
  {
    var l := Lower(s);
    assert forall i :: 0 <= i < |l| ==> LowerChar(l[i]) == l[i];
  }

  /** Strings joined end to end (`"".join(parts)`). */
  function Concat(parts: seq<string>): string {
    if parts == [] then "" else Concat(parts[..|parts| - 1]) + parts[|parts| - 1]
  }

  lemma {:induction false} ConcatAppend(a: seq<string>, b: seq<string>)
    ensures Concat(a + b) == Concat(a) + Concat(b)
    decreases |b|
  {
    if b == [] {
      assert a + b == a;
    } else {
      var b', z := b[..|b| - 1], b[|b| - 1];
      assert (a + b)[..|a + b| - 1] == a + b';
      ConcatAppend(a, b');
      var x, y := Concat(a), Concat(b');
      assert (x + y) + z == x + (y + z);
    }
  }

  predicate StartsWith(s: string, prefix: string) {
    |prefix| <= |s| && s[..|prefix|] == prefix
  }

  /** Python's `word in text` for strings: `word` occurs as a contiguous substring. */
  predicate Contains(text: string, word: string)
    decreases |text|
  {
    if |word| > |text| then false
    else if text[..|word|] == word then true
    else Contains(text[1..], word)
  }

  /** `word` occurs in `text` starting at position `i`. */
  predicate OccursAt(text: string, word: string, i: int) {
    0 <= i && i + |word| <= |text| && text[i..i + |word|] == word
  }

  /** `Contains` holds exactly when some position of `text` starts an occurrence of `word`. */
  lemma {:induction false} ContainsIffOccurrence(text: string, word: string)
    ensures Contains(text, word) <==> exists i :: OccursAt(text, word, i)
    decreases |text|
  {
    if |word| > |text| {
    } else if text[..|word|] == word {
      assert OccursAt(text, word, 0);
    } else {
      ContainsIffOccurrence(text[1..], word);
      if Contains(text[1..], word) {
        var j :| OccursAt(text[1..], word, j);
        assert 0 <= j && j + |word| <= |text| - 1;
        assert text[j + 1..j + 1 + |word|] == text[1..][j..j + |word|] == word;
        assert OccursAt(text, word, j + 1);
      } else {
        forall i | OccursAt(text, word, i)
          ensures false
        {
          if i > 0 {
            assert text[i..i + |word|] == text[1..][i - 1..i - 1 + |word|];
            assert OccursAt(text[1..], word, i - 1);
          }
        }
      }
    }
  }

  /** An occurrence at a known position is found. */
  lemma ContainsAt(text: string, word: string, i: nat)
    requires OccursAt(text, word, i)
    ensures Contains(text, word)
  {
    ContainsIffOccurrence(text, word);
  }
}
