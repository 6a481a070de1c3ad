/** The random code generator shared by the letter of intent (its unique
    submission code) and sign-up (the account passcode): `length` characters,
    each chosen as `chars.charAt(Math.floor(Math.random() * chars.length))`
    from a 36-symbol alphabet. */
module Codes {

  /** `chars` in the generator. */
  const Alphabet: string := "ABCDEFGHIJKLMNOPQRSTUVWXYZ0123456789"

  /** The `length = 8` default of the generator. */
  const DefaultLength: nat := 8

  /** One draw, `Math.floor(Math.random() * 36)`: an index into the alphabet. */
  type Draw = i: int | 0 <= i < 36

  /** The random number source as a stream of draws: `rng(k)` is the k-th
      draw the page makes. */
  type RandomSource = nat -> Draw

  /** The draws `pos`, `pos + 1`, ..., `pos + length - 1` of the source. */
  function Draws(rng: RandomSource, pos: nat, length: nat): seq<Draw>
  {
    seq(length, i requires 0 <= i < length => rng(pos + i))
  }

  /** Every character of `s` is a symbol of the alphabet. */
  predicate Spelled(s: string) {
    forall i :: 0 <= i < |s| ==> s[i] in Alphabet
  }

  /** The symbols a sequence of draws selects. */
  function Spell(draws: seq<Draw>): string
  {
    seq(|draws|, i requires 0 <= i < |draws| => Alphabet[draws[i]])
  }

  /** The symbol that draw `k` selects. */
  function Symbol(rng: RandomSource, k: nat): char {
    Alphabet[rng(k)]
  }

  /** The code that the draws `pos`, ..., `pos + length - 1` spell, one
      symbol appended per draw. */
  function CodeFrom(rng: RandomSource, pos: nat, length: nat): (r: string)
    ensures |r| == length
  {
    if length == 0 then "" else CodeFrom(rng, pos, length - 1) + [Symbol(rng, pos + length - 1)]
  }

  /** The generator's loop: appends one alphabet symbol per draw. The result
      has exactly `length` characters, every one of them from the alphabet. */
  method GenerateCode(rng: RandomSource, pos: nat, length: nat) returns (code: string)
    ensures code == CodeFrom(rng, pos, length)
    ensures |code| == length && Spelled(code)
  {
    code := "";
    for i := 0 to length
      invariant code == CodeFrom(rng, pos, i)
    {
      code := code + [Symbol(rng, pos + i)];
    }
    CodeFromWellFormed(rng, pos, length);
  }

  /** A code is its draws spelled out. */
  lemma {:induction false} CodeFromSpells(rng: RandomSource, pos: nat, length: nat)
    ensures CodeFrom(rng, pos, length) == Spell(Draws(rng, pos, length))
  {
    if length > 0 {
      CodeFromSpells(rng, pos, length - 1);
    }
  }

  /** Every code has the requested length and is spelled from the alphabet. */
  lemma CodeFromWellFormed(rng: RandomSource, pos: nat, length: nat)
    ensures |CodeFrom(rng, pos, length)| == length && Spelled(CodeFrom(rng, pos, length))
  {
    CodeFromSpells(rng, pos, length);
  }

  /** Symbol `i` of the alphabet: the letters A-Z, then the digits 0-9. */
  lemma AlphabetAt(i: nat)
    requires i < 36
    ensures |Alphabet| == 36
    ensures Alphabet[i] as int == if i < 26 then 'A' as int + i else '0' as int + (i - 26)
  {
  }

  /** The alphabet is exactly the upper-case Latin letters and the digits. */
  lemma AlphabetIsUpperAlnum(c: char)
    ensures c in Alphabet <==> ('A' <= c <= 'Z' || '0' <= c <= '9')
  {
    if 'A' <= c <= 'Z' {
      AlphabetAt(c as int - 'A' as int);
      assert Alphabet[c as int - 'A' as int] == c;
    } else if '0' <= c <= '9' {
      AlphabetAt(c as int - '0' as int + 26);
      assert Alphabet[c as int - '0' as int + 26] == c;
    } else if c in Alphabet {
      var i :| 0 <= i < |Alphabet| && Alphabet[i] == c;
      AlphabetAt(i);
    }
  }

  /** Different draws give different symbols. */
  lemma AlphabetDistinct(i: nat, j: nat)
    requires i < 36 && j < 36 && i != j
    ensures Alphabet[i] != Alphabet[j]
  {
    AlphabetAt(i);
    AlphabetAt(j);
  }

  /** A code determines the draws it was made from. */
  lemma SpellInjective(d1: seq<Draw>, d2: seq<Draw>)
    ensures Spell(d1) == Spell(d2) <==> d1 == d2
  {
    if Spell(d1) == Spell(d2) {
      forall i | 0 <= i < |d1| ensures d1[i] == d2[i] {
        assert Spell(d1)[i] == Spell(d2)[i];
        if d1[i] != d2[i] {
          AlphabetDistinct(d1[i], d2[i]);
        }
      }
    }
  }
}
