/**
  Short-token generation (generateShortURL, identical in main.go and v2/main.go).

  The generator fills a six-byte buffer, one byte per call of rand.Intn(62), each byte
  being the character of LETTERS at the drawn index. The random source is not modelled:
  the indices it returns are given to the generator as a sequence of draws.
*/
module ShortToken {

  /** The alphabet the generator draws from, in source order. */
  const LETTERS: string := "abcdefghijklmnopqrstuvwxyzABCDEFGHIJKLMNOPQRSTUVWXYZ0123456789"

  /** len(letters): the bound passed to rand.Intn. */
  const ALPHABET_SIZE: nat := 62

  /** Length of the buffer make([]byte, 6). */
  const TOKEN_LENGTH: nat := 6

  /** A value rand.Intn(len(letters)) can return. */
  type Draw = i: int | 0 <= i < ALPHABET_SIZE

  predicate IsAlphanumeric(c: char) {
    'a' <= c <= 'z' || 'A' <= c <= 'Z' || '0' <= c <= '9'
  }

  /** A string the generator can produce: six alphanumeric characters. */
  predicate IsToken(s: string) {
    |s| == TOKEN_LENGTH && forall i :: 0 <= i < |s| ==> IsAlphanumeric(s[i])
  }

  /** Reference definition of the alphabet: 26 lower-case letters, 26 upper-case letters, 10 digits. */
  function AlphabetAt(d: Draw): (c: char)
    ensures IsAlphanumeric(c)
  {
    if d < 26 then ('a' as int + d) as char
    else if d < 52 then ('A' as int + (d - 26)) as char
    else ('0' as int + (d - 52)) as char
  }

  /** The position of an alphanumeric character in the alphabet. */
  function IndexOf(c: char): (d: Draw)
    requires IsAlphanumeric(c)
    ensures AlphabetAt(d) == c
  {
    if 'a' <= c <= 'z' then c as int - 'a' as int
    else if 'A' <= c <= 'Z' then 26 + (c as int - 'A' as int)
    else 52 + (c as int - '0' as int)
  }

  /** The alphabet has no repeated character: a character determines its index. */
  lemma AlphabetAtInjective(d: Draw)
    ensures IndexOf(AlphabetAt(d)) == d
  {
  }

  /*
    The four lemmas below relate LETTERS to the reference alphabet one run at a time,
    because the solver cannot look deep into a 62-character literal. Each takes its
    run as a parameter equal to a short literal, so that these literals stay out of
    every other proof.
  */

  /** The literal LETTERS is its three runs of letters and digits one after the other. */
  lemma LettersRuns(lower: string, upper: string, digits: string)
    requires lower == "abcdefghijklmnopqrstuvwxyz"
    requires upper == "ABCDEFGHIJKLMNOPQRSTUVWXYZ"
    requires digits == "0123456789"
    ensures LETTERS == lower + upper + digits
  {
  }

  lemma LowerRun(lower: string)
    requires lower == "abcdefghijklmnopqrstuvwxyz"
    ensures |lower| == 26
    ensures forall d :: 0 <= d < 26 ==> lower[d] == AlphabetAt(d)
  {
  }

  lemma UpperRun(upper: string)
    requires upper == "ABCDEFGHIJKLMNOPQRSTUVWXYZ"
    ensures |upper| == 26
    ensures forall d :: 26 <= d < 52 ==> upper[d - 26] == AlphabetAt(d)
  {
  }

  lemma DigitRun(digits: string)
    requires digits == "0123456789"
    ensures |digits| == 10
    ensures forall d :: 52 <= d < ALPHABET_SIZE ==> digits[d - 52] == AlphabetAt(d)
  {
  }

  /** The literal LETTERS is exactly the reference alphabet. */
  lemma LettersIsAlphabet()
    ensures |LETTERS| == ALPHABET_SIZE
    ensures forall d :: 0 <= d < ALPHABET_SIZE ==> LETTERS[d] == AlphabetAt(d)
  {
    var lower, upper, digits := "abcdefghijklmnopqrstuvwxyz", "ABCDEFGHIJKLMNOPQRSTUVWXYZ", "0123456789";
    LettersRuns(lower, upper, digits);
    LowerRun(lower);
    UpperRun(upper);
    DigitRun(digits);
  }

  /** A character occurs in LETTERS exactly when it is alphanumeric. */
  lemma InLettersIffAlphanumeric(c: char)
    ensures c in LETTERS <==> IsAlphanumeric(c)
  {
    LettersIsAlphabet();
    if IsAlphanumeric(c) {
      assert LETTERS[IndexOf(c)] == c;
    }
  }

  /** The string the generator writes for a sequence of drawn indices. */
  function Spell(draws: seq<Draw>): (s: string)
    ensures |s| == |draws|
    ensures forall i :: 0 <= i < |draws| ==> s[i] == LETTERS[draws[i]]
  {
    if draws == [] then [] else [LETTERS[draws[0]]] + Spell(draws[1..])
  }

  /** The indices that spell an alphanumeric string. */
  function Indices(s: string): (draws: seq<Draw>)
    requires forall i :: 0 <= i < |s| ==> IsAlphanumeric(s[i])
    ensures |draws| == |s|
    ensures forall i :: 0 <= i < |s| ==> AlphabetAt(draws[i]) == s[i]
  {
    if s == [] then [] else [IndexOf(s[0])] + Indices(s[1..])
  }

  /** Every character the generator writes is alphanumeric. */
  lemma SpellIsAlphanumeric(draws: seq<Draw>)
    ensures forall i :: 0 <= i < |draws| ==> IsAlphanumeric(Spell(draws)[i])
  {
    LettersIsAlphabet();
  }

  /** Six draws always give a token. */
  lemma SpellIsToken(draws: seq<Draw>)
    requires |draws| == TOKEN_LENGTH
    ensures IsToken(Spell(draws))
  {
    SpellIsAlphanumeric(draws);
  }

  /** The index a character was drawn at is determined by the character. */
  lemma DrawOfLetter(drawn: Draw, read: Draw)
    requires LETTERS[drawn] == AlphabetAt(read)
    ensures drawn == read
  {
    LettersIsAlphabet();
    AlphabetAtInjective(drawn);
    AlphabetAtInjective(read);
  }

  /** Round trip one way: reading back the indices of a generated string gives the draws. */
  lemma IndicesOfSpell(draws: seq<Draw>)
    ensures forall i :: 0 <= i < |draws| ==> IsAlphanumeric(Spell(draws)[i])
    ensures Indices(Spell(draws)) == draws
  {
    SpellIsAlphanumeric(draws);
    var back := Indices(Spell(draws));
    forall i | 0 <= i < |draws|
      ensures back[i] == draws[i]
    {
      DrawOfLetter(draws[i], back[i]);
    }
  }

  /** Round trip the other way: every alphanumeric string is spelled by its indices. */
  lemma SpellOfIndices(s: string)
    requires forall i :: 0 <= i < |s| ==> IsAlphanumeric(s[i])
    ensures Spell(Indices(s)) == s
  {
    LettersIsAlphabet();
  }

  /** Distinct draws give distinct tokens. */
  lemma SpellInjective(a: seq<Draw>, b: seq<Draw>)
    requires Spell(a) == Spell(b)
    ensures a == b
  {
    IndicesOfSpell(a);
    IndicesOfSpell(b);
  }

  /** Every six-character alphanumeric string is a token the generator can produce. */
  lemma EveryTokenIsGenerated(t: string)
    requires IsToken(t)
    ensures exists draws: seq<Draw> :: |draws| == TOKEN_LENGTH && Spell(draws) == t
  {
    SpellOfIndices(t);
    var draws := Indices(t);
    assert |draws| == TOKEN_LENGTH && Spell(draws) == t;
  }

  /**
    generateShortURL: fills a buffer of TOKEN_LENGTH characters, the i-th being
    LETTERS[draws[i]], and returns it as a string.
  */
  method GenerateShortUrl(draws: seq<Draw>) returns (shortUrl: string)
    requires |draws| == TOKEN_LENGTH
    ensures shortUrl == Spell(draws)
    ensures IsToken(shortUrl)
  {
    LettersIsAlphabet();
    var buffer := new char[TOKEN_LENGTH];
    for i := 0 to buffer.Length
      invariant forall k :: 0 <= k < i ==> buffer[k] == LETTERS[draws[k]]
    {
      buffer[i] := LETTERS[draws[i]];
    }
    shortUrl := buffer[..];
    SpellIsToken(draws);
  }
}
