/**
 * The short restaurant code the admin page derives from a restaurant's name
 * (packages/app/src/pages/Restaurants.tsx, `generateCode`): its first three
 * ASCII letters in upper case, or `XXX` when it has none.
 */
module RestaurantCode {

  predicate IsAsciiLetter(c: char) {
    'a' <= c <= 'z' || 'A' <= c <= 'Z'
  }

  predicate IsUpper(c: char) {
    'A' <= c <= 'Z'
  }

  /** `replace(/[^a-zA-Z]/g, '')`. */
  function AsciiLetters(s: string): (r: string)
    ensures |r| <= |s|
    ensures forall i :: 0 <= i < |r| ==> IsAsciiLetter(r[i])
  {
    if s == [] then [] else (if IsAsciiLetter(s[0]) then [s[0]] else []) + AsciiLetters(s[1..])
  }

  /** `toUpperCase` on an ASCII letter. */
  function UpperChar(c: char): (d: char)
    requires IsAsciiLetter(c)
    ensures IsUpper(d)
    ensures 'a' <= c <= 'z' ==> d as int == c as int - 32
    ensures IsUpper(c) ==> d == c
  {
    if 'a' <= c <= 'z' then (c as int - 32) as char else c
  }

  /** `toUpperCase` on a string of ASCII letters. */
  function Upper(s: string): (r: string)
    requires forall i :: 0 <= i < |s| ==> IsAsciiLetter(s[i])
    ensures |r| == |s|
    ensures forall i :: 0 <= i < |s| ==> r[i] == UpperChar(s[i])
  {
    if s == [] then [] else [UpperChar(s[0])] + Upper(s[1..])
  }

  /**
   * `generateCode(name)`: one to three upper-case letters; `XXX` for a name
   * without ASCII letters, otherwise its first (up to) three letters upper-cased.
   */
  function GenerateCode(name: string): (code: string)
    ensures 1 <= |code| <= 3
    ensures forall i :: 0 <= i < |code| ==> IsUpper(code[i])
    ensures AsciiLetters(name) == [] ==> code == "XXX"
    ensures AsciiLetters(name) != [] ==> |code| == if |AsciiLetters(name)| < 3 then |AsciiLetters(name)| else 3
    ensures AsciiLetters(name) != [] ==> forall i :: 0 <= i < |code| ==> code[i] == UpperChar(AsciiLetters(name)[i])
  {
    var letters := AsciiLetters(name);
    var prefix := if |letters| <= 3 then letters else letters[..3];
    var upper := Upper(prefix);
    if upper == "" then "XXX" else upper
  }

  lemma {:induction false} AsciiLettersAppend(a: string, b: string)
    ensures AsciiLetters(a + b) == AsciiLetters(a) + AsciiLetters(b)
  {
    if a != [] {
      assert (a + b)[1..] == a[1..] + b;
      AsciiLettersAppend(a[1..], b);
    } else {
      assert a + b == b;
    }
  }

  /** Inserting a character that is not an ASCII letter anywhere in the name does not change the code. */
  lemma NonLettersIgnored(a: string, c: char, b: string)
    requires !IsAsciiLetter(c)
    ensures GenerateCode(a + [c] + b) == GenerateCode(a + b)
  {
    AsciiLettersAppend(a + [c], b);
    AsciiLettersAppend(a, [c]);
    AsciiLettersAppend(a, b);
    assert AsciiLetters([c]) == [];
    assert AsciiLetters(a + [c] + b) == AsciiLetters(a + b);
  }

  /** Letters of an upper-case string are the string itself. */
  lemma {:induction false} UpperLettersKept(s: string)
    requires forall i :: 0 <= i < |s| ==> IsUpper(s[i])
    ensures AsciiLetters(s) == s
  {
    if s != [] {
      UpperLettersKept(s[1..]);
    }
  }

  /** A code is its own code. */
  lemma GenerateCodeIdempotent(name: string)
    ensures GenerateCode(GenerateCode(name)) == GenerateCode(name)
  {
    var code := GenerateCode(name);
    UpperLettersKept(code);
    assert Upper(code) == code;
  }
}
