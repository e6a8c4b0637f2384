/**
 * Random password generation (internal/id/pw/generator.go). Every random draw is taken
 * from a parameter sequence of naturals, reduced into the range the draw asks for.
 */
module PasswordGenerator {
  /** charOption: digit, lower, upper, special. */
  const OptionsCount: int := 4

  const AllowedSpecials: seq<char> := ['!', '@', '#', '$', '%', '^', '&', '*']

  predicate IsDigitChar(c: char) { '0' <= c <= '9' }
  predicate IsLowerChar(c: char) { 'a' <= c <= 'z' }
  predicate IsUpperChar(c: char) { 'A' <= c <= 'Z' }
  predicate IsSpecialChar(c: char) { c in AllowedSpecials }

  /** The characters a generated password is made of. */
  predicate Allowed(c: char) {
    IsDigitChar(c) || IsLowerChar(c) || IsUpperChar(c) || IsSpecialChar(c)
  }

  /** randRune: `min` plus `rand.Int31n(max - min + 1)`, so within [min, max]. */
  function RandRune(min: char, max: char, draw: nat): (c: char)
    requires min <= max && max as int < 0xD800
    ensures min <= c <= max
  {
    (min as int + draw % (max as int - min as int + 1)) as char
  }

  /** randSpecial: one of the eight allowed specials. */
  function RandSpecial(draw: nat): (c: char)
    ensures IsSpecialChar(c)
  {
    AllowedSpecials[draw % 8]
  }

  /**
   * applyOption: a character of the requested class. Go panics for an option outside the
   * four; every call in this file passes one in range, which the precondition states.
   */
  function ApplyOption(option: int, draw: nat): (c: char)
    requires 0 <= option < OptionsCount
    ensures option == 0 ==> IsDigitChar(c)
    ensures option == 1 ==> IsLowerChar(c)
    ensures option == 2 ==> IsUpperChar(c)
    ensures option == 3 ==> IsSpecialChar(c)
    ensures Allowed(c)
  {
    if option == 0 then RandRune('0', '9', draw)
    else if option == 1 then RandRune('a', 'z', draw)
    else if option == 2 then RandRune('A', 'Z', draw)
    else RandSpecial(draw)
  }

  /** randChar: a random class (`rand.Intn(4)`), then a random character of it. */
  function RandChar(optionDraw: nat, draw: nat): (c: char)
    ensures Allowed(c)
  {
    ApplyOption(optionDraw % OptionsCount, draw)
  }

  /** shuffle: `rand.Shuffle`'s swaps from the last position down, in place. */
  method Shuffle(a: array<char>, draw: nat -> nat)
    modifies a
    ensures multiset(a[..]) == multiset(old(a[..]))
  {
    var i := a.Length - 1;
    while i > 0
      invariant -1 <= i < a.Length
      invariant multiset(a[..]) == multiset(old(a[..]))
    {
      var j := draw(i) % (i + 1);
      a[i], a[j] := a[j], a[i];
      i := i - 1;
    }
  }

  /**
   * Generate: at least four characters; the first four are one of each class, the rest
   * random, and the whole is shuffled.
   */
  method Generate(length: int, optionDraw: nat -> nat, charDraw: nat -> nat, shuffleDraw: nat -> nat)
    returns (password: string)
    ensures |password| == if length < OptionsCount then OptionsCount else length
    ensures forall i :: 0 <= i < |password| ==> Allowed(password[i])
    ensures exists i :: 0 <= i < |password| && IsDigitChar(password[i])
    ensures exists i :: 0 <= i < |password| && IsLowerChar(password[i])
    ensures exists i :: 0 <= i < |password| && IsUpperChar(password[i])
    ensures exists i :: 0 <= i < |password| && IsSpecialChar(password[i])
  {
    var n := if length < OptionsCount then OptionsCount else length;
    var chars := new char[n];
    for i := 0 to n
      invariant forall k :: 0 <= k < i ==> Allowed(chars[k])
      invariant i > 0 ==> IsDigitChar(chars[0])
      invariant i > 1 ==> IsLowerChar(chars[1])
      invariant i > 2 ==> IsUpperChar(chars[2])
      invariant i > 3 ==> IsSpecialChar(chars[3])
    {
      if i < OptionsCount {
        chars[i] := ApplyOption(i, charDraw(i));
      } else {
        chars[i] := RandChar(optionDraw(i), charDraw(i));
      }
    }
    ghost var before := chars[..];
    assert IsDigitChar(before[0]) && IsLowerChar(before[1]) && IsUpperChar(before[2]) && IsSpecialChar(before[3]);
    Shuffle(chars, shuffleDraw);
    password := chars[..];
    KeptByPermutation(before, password);
  }

  /** A permutation keeps every class that was present, and adds no other character. */
  lemma KeptByPermutation(before: seq<char>, after: seq<char>)
    requires multiset(before) == multiset(after) && |before| >= 4
    requires forall k :: 0 <= k < |before| ==> Allowed(before[k])
    requires IsDigitChar(before[0]) && IsLowerChar(before[1]) && IsUpperChar(before[2]) && IsSpecialChar(before[3])
    ensures |after| == |before|
    ensures forall i :: 0 <= i < |after| ==> Allowed(after[i])
    ensures exists i :: 0 <= i < |after| && IsDigitChar(after[i])
    ensures exists i :: 0 <= i < |after| && IsLowerChar(after[i])
    ensures exists i :: 0 <= i < |after| && IsUpperChar(after[i])
    ensures exists i :: 0 <= i < |after| && IsSpecialChar(after[i])
  {
    assert |after| == |multiset(after)| == |multiset(before)| == |before|;
    forall i | 0 <= i < |after|
      ensures Allowed(after[i])
    {
      assert after[i] in multiset(after);
      assert after[i] in before;
    }
    assert before[0] in multiset(after);
    assert before[1] in multiset(after);
    assert before[2] in multiset(after);
    assert before[3] in multiset(after);
  }
}
