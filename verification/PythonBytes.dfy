/** The byte-string operations the capture analyser relies on, as Python defines them. */
module PythonBytes {
  import opened Wrappers
  import opened SettingsCodec

  type Bytes = seq<Byte>

  const CR: Byte := 13
  const LF: Byte := 10
  const CRLF: Bytes := [CR, LF]
  const BLANK: Bytes := [CR, LF, CR, LF]
  const COLON: Byte := 58
  const SEMICOLON: Byte := 59

  // ------------------------------------------------------------ slices and searches

  /** An index as a slice takes it: negative ones count from the end. */
  function Clip(i: int, count: nat): (r: nat)
    ensures r <= count && (0 <= i <= count ==> r == i)
  {
    if i < 0 then if count + i < 0 then 0 else count + i else if i > count then count else i
  }

  function Slice(data: Bytes, a: int, b: int): (r: Bytes)
    ensures 0 <= a <= b <= |data| ==> r == data[a..b]
  {
    var x, y := Clip(a, |data|), Clip(b, |data|);
    if x <= y then data[x..y] else []
  }

  predicate At(data: Bytes, pattern: Bytes, i: nat) {
    i + |pattern| <= |data| && data[i..i + |pattern|] == pattern
  }

  function Find(data: Bytes, pattern: Bytes, start: nat): (r: Option<nat>)
    ensures r.Some? ==> start <= r.value && At(data, pattern, r.value)
    decreases |data| - start
  {
    if start + |pattern| > |data| then None
    else if At(data, pattern, start) then Some(start) else Find(data, pattern, start + 1)
  }

  /** A search finds the first occurrence. */
  lemma {:induction false} FindsFirst(data: Bytes, pattern: Bytes, start: nat, found: nat)
    requires start <= found && At(data, pattern, found)
    requires forall i | start <= i < found :: !At(data, pattern, i)
    ensures Find(data, pattern, start) == Some(found)
    decreases found - start
  {
    if start < found { FindsFirst(data, pattern, start + 1, found); }
  }

  lemma {:induction false} AtShifts(before: Bytes, data: Bytes, pattern: Bytes, i: nat)
    ensures At(before + data, pattern, |before| + i) <==> At(data, pattern, i)
  {
    if i + |pattern| <= |data| {
      assert (before + data)[|before| + i..|before| + i + |pattern|] == data[i..i + |pattern|];
    }
  }

  lemma {:induction false} AtReads(data: Bytes, pattern: Bytes, i: nat, k: nat)
    requires At(data, pattern, i) && k < |pattern|
    ensures data[i + k] == pattern[k]
  {
    assert data[i..i + |pattern|][k] == data[i + k];
  }

  /** A pattern that starts with CR is not found where there is no CR. */
  lemma {:induction false} NeedsCr(data: Bytes, pattern: Bytes, i: nat)
    requires pattern != [] && pattern[0] == CR && i < |data| && data[i] != CR
    ensures !At(data, pattern, i)
  {
    if i + |pattern| <= |data| { assert data[i..i + |pattern|][0] == data[i]; }
  }

  // ------------------------------------------------------------ text

  predicate IsSpace(b: Byte) {
    9 <= b <= 13 || b == 32
  }

  /** What text calls a space, Latin-1 bytes included. */
  predicate IsTextSpace(b: Byte) {
    IsSpace(b) || 28 <= b <= 31 || b == 133 || b == 160
  }

  predicate Space(b: Byte, text: bool) {
    if text then IsTextSpace(b) else IsSpace(b)
  }

  function Strip(s: Bytes, text: bool): Bytes
    decreases |s|
  {
    if s == [] then []
    else if Space(s[0], text) then Strip(s[1..], text)
    else if Space(s[|s| - 1], text) then Strip(s[..|s| - 1], text)
    else s
  }

  function Lower(s: Bytes): Bytes {
    seq(|s|, i requires 0 <= i < |s| =>
      if 65 <= s[i] <= 90 || (192 <= s[i] <= 222 && s[i] != 215) then s[i] + 32 else s[i])
  }

  /** Everything before the first separator. */
  function Before(s: Bytes, separator: Byte): (r: Bytes)
    ensures separator in s ==> |r| < |s| && s[|r|] == separator
  {
    if s == [] || s[0] == separator then [] else [s[0]] + Before(s[1..], separator)
  }

  predicate Contains(s: Bytes, pattern: Bytes) {
    Find(s, pattern, 0).Some?
  }

  function SplitLines(block: Bytes): seq<Bytes>
    decreases |block|
  {
    var end := Find(block, CRLF, 0);
    if end.None? then [block] else [block[..end.value]] + SplitLines(block[end.value + 2..])
  }

  /** A block holds its lines with two bytes between any two. */
  lemma {:induction false} LineFits(block: Bytes, i: nat)
    requires i < |SplitLines(block)|
    ensures |SplitLines(block)[i]| + 2 * i <= |block|
    decreases |block|
  {
    var end := Find(block, CRLF, 0);
    if end.Some? && i > 0 { LineFits(block[end.value + 2..], i - 1); }
  }

  // ------------------------------------------------------------ numbers

  function DigitOf(b: Byte, base: nat): Option<nat> {
    var d := if 48 <= b <= 57 then b - 48 else if 65 <= b <= 70 then b - 55 else if 97 <= b <= 102 then b - 87 else 99;
    if d < base then Some(d) else None
  }

  /** Digits with single underscores between them. */
  function Digits(s: Bytes, base: nat): Option<nat>
    decreases |s|
  {
    if s == [] || DigitOf(s[|s| - 1], base).None? then None
    else
      var d := DigitOf(s[|s| - 1], base).value;
      var high := s[..|s| - 1];
      if high == [] then Some(d)
      else
        var rest := Digits(if high[|high| - 1] == 95 then high[..|high| - 1] else high, base);
        if rest.None? then None else Some(rest.value * base + d)
  }

  function Unprefixed(s: Bytes, base: nat): Bytes {
    if base != 16 || |s| < 2 || s[0] != 48 || (s[1] != 88 && s[1] != 120) then s
    else if |s| >= 3 && s[2] == 95 then s[3..] else s[2..]
  }

  /** `int(s, base)` of bytes or of text: spaces around, one sign, a prefix for base 16, then
      digits. */
  function IntOf(s: Bytes, base: nat, text: bool): Option<int> {
    var t := Strip(s, text);
    if t != [] && (t[0] == 43 || t[0] == 45) then
      var n := Digits(Unprefixed(t[1..], base), base);
      if n.None? then None
      else
        var magnitude: int := n.value;
        if t[0] == 45 then Some(-magnitude) else Some(magnitude)
    else
      var n := Digits(Unprefixed(t, base), base);
      if n.None? then None else Some(n.value)
  }

  lemma {:induction false} StripIsShorter(s: Bytes, text: bool)
    ensures |Strip(s, text)| <= |s|
    decreases |s|
  {
    if s != [] {
      StripIsShorter(s[1..], text);
      StripIsShorter(s[..|s| - 1], text);
    }
  }

  lemma {:induction false} BeforeIsShorter(s: Bytes, separator: Byte)
    ensures |Before(s, separator)| <= |s|
    decreases |s|
  {
    if s != [] { BeforeIsShorter(s[1..], separator); }
  }

  /** A negative number has a sign and a digit, one with two decimal digits two digits. */
  lemma {:induction false} NegativesTakeRoom(s: Bytes, base: nat, text: bool)
    requires IntOf(s, base, text).Some? && IntOf(s, base, text).value < 0
    ensures |s| >= 2 && (base == 10 && IntOf(s, base, text).value <= -10 ==> |s| >= 3)
  {
    StripIsShorter(s, text);
    var t := Strip(s, text);
    hide Strip;
    assert t != [] && t[0] == 45;
    var digits := Unprefixed(t[1..], base);
    assert |digits| <= |t| - 1 && digits != [];
    if |digits| == 1 { assert digits[..|digits| - 1] == []; }
  }

  predicate AllDigits(s: Bytes, base: nat) {
    s != [] && forall b | b in s :: DigitOf(b, base).Some?
  }

  /** Plain positional notation. */
  function Positional(s: Bytes, base: nat): nat
    requires forall b | b in s :: DigitOf(b, base).Some?
  {
    if s == [] then 0 else Positional(s[..|s| - 1], base) * base + DigitOf(s[|s| - 1], base).value
  }

  lemma {:induction false} DigitsArePositional(s: Bytes, base: nat)
    requires AllDigits(s, base) && base <= 16
    ensures Digits(s, base) == Some(Positional(s, base))
  {
    var high := s[..|s| - 1];
    assert forall b :: b in high ==> b in s;
    assert s[|s| - 1] in s;
    if high == [] {
      assert Positional(high, base) == 0;
    } else {
      assert high[|high| - 1] in high;
      DigitsArePositional(high, base);
    }
  }

  lemma {:induction false} NumbersAreRead(s: Bytes, base: nat, text: bool)
    requires AllDigits(s, base) && base <= 16
    ensures IntOf(s, base, text) == Some(Positional(s, base))
  {
    assert s[0] in s && s[|s| - 1] in s;
    assert |s| >= 2 ==> s[1] in s;
    assert Strip(s, text) == s;
    assert Unprefixed(s, base) == s;
    DigitsArePositional(s, base);
  }

  // ------------------------------------------------------------ numbers in any form

  const UNDERSCORE: Byte := 95

  predicate Spaces(s: Bytes, text: bool) {
    forall b | b in s :: Space(b, text)
  }

  /** Digits, with at most one underscore between any two. */
  predicate Numeral(s: Bytes, base: nat) {
    && s != [] && s[0] != UNDERSCORE && s[|s| - 1] != UNDERSCORE
    && (forall b | b in s :: b == UNDERSCORE || DigitOf(b, base).Some?)
    && forall i :: 0 <= i < |s| - 1 ==> !(s[i] == UNDERSCORE == s[i + 1])
  }

  /** The digits alone. */
  function Plain(s: Bytes): Bytes {
    if s == [] then [] else Plain(s[..|s| - 1]) + if s[|s| - 1] == UNDERSCORE then [] else [s[|s| - 1]]
  }

  lemma {:induction false} PlainIsPlain(s: Bytes, base: nat)
    requires forall b | b in s :: b == UNDERSCORE || DigitOf(b, base).Some?
    ensures forall b | b in Plain(s) :: DigitOf(b, base).Some?
    decreases |s|
  {
    if s != [] {
      assert s == s[..|s| - 1] + [s[|s| - 1]];
      PlainIsPlain(s[..|s| - 1], base);
    }
  }

  /** Digits are read exactly if they are a numeral, as their positional value. */
  lemma {:induction false} DigitsExactly(s: Bytes, base: nat)
    requires base <= 16
    ensures Digits(s, base).Some? <==> Numeral(s, base)
    ensures Numeral(s, base) ==>
      (forall b | b in Plain(s) :: DigitOf(b, base).Some?) && Digits(s, base) == Some(Positional(Plain(s), base))
    decreases |s|
  {
    if |s| == 1 {
      OneDigit(s, base);
    } else if |s| >= 2 && DigitOf(s[|s| - 1], base).Some? {
      var rest := if s[|s| - 2] == UNDERSCORE then s[..|s| - 2] else s[..|s| - 1];
      LastDigit(s, base, rest);
      DigitsExactly(rest, base);
      ShorterNumeral(s, base, rest);
      if Numeral(s, base) { LongerValue(s, base, rest); }
    } else if |s| >= 2 {
      assert s[|s| - 1] in s;
    }
  }

  lemma {:induction false} OneDigit(s: Bytes, base: nat)
    requires |s| == 1 && base <= 16
    ensures Digits(s, base).Some? <==> Numeral(s, base)
    ensures Numeral(s, base) ==>
      (forall b | b in Plain(s) :: DigitOf(b, base).Some?) && Digits(s, base) == Some(Positional(Plain(s), base))
  {
    var d := s[0];
    assert s == [d] && s[..0] == [];
    if d == UNDERSCORE {
      assert !Numeral(s, base);
    } else {
      assert Plain(s[..0]) == [] && Plain(s) == [] + [d];
      if DigitOf(d, base).Some? { ValueOfOne(d, base); } else { assert d in s; }
    }
  }

  lemma {:induction false} ValueOfOne(d: Byte, base: nat)
    requires DigitOf(d, base).Some?
    ensures Positional([d], base) == DigitOf(d, base).value
  {
    assert [d][..0] == [] && Positional([], base) == 0;
  }

  lemma {:induction false} LastDigit(s: Bytes, base: nat, rest: Bytes)
    requires |s| >= 2 && DigitOf(s[|s| - 1], base).Some?
    requires rest == if s[|s| - 2] == UNDERSCORE then s[..|s| - 2] else s[..|s| - 1]
    ensures Digits(s, base) ==
      if Digits(rest, base).None? then None else Some(Digits(rest, base).value * base + DigitOf(s[|s| - 1], base).value)
  {
    var high := s[..|s| - 1];
    assert high[..|high| - 1] == s[..|s| - 2];
  }

  /** Taking the last digit off, with the underscore before it, leaves a numeral exactly if it
      was one. */
  lemma {:induction false} ShorterNumeral(s: Bytes, base: nat, rest: Bytes)
    requires |s| >= 2 && base <= 16 && DigitOf(s[|s| - 1], base).Some?
    requires rest == if s[|s| - 2] == UNDERSCORE then s[..|s| - 2] else s[..|s| - 1]
    ensures Numeral(s, base) <==> Numeral(rest, base)
  {
    var n := |s|;
    assert s == s[..n - 2] + [s[n - 2], s[n - 1]] && s == s[..n - 1] + [s[n - 1]];
    assert rest <= s;
    if Numeral(rest, base) {
      assert rest[|rest| - 1] in rest;
      forall i | 0 <= i < n - 1
        ensures !(s[i] == UNDERSCORE == s[i + 1])
      {
        if i + 1 < |rest| { assert rest[i] == s[i] && rest[i + 1] == s[i + 1]; }
      }
    }
    if Numeral(s, base) {
      assert s[n - 2] in s;
      assert rest != [];
      forall i | 0 <= i < |rest| - 1
        ensures !(rest[i] == UNDERSCORE == rest[i + 1])
      {
        assert rest[i] == s[i] && rest[i + 1] == s[i + 1];
      }
    }
  }

  lemma {:induction false} LongerValue(s: Bytes, base: nat, rest: Bytes)
    requires |s| >= 2 && base <= 16 && Numeral(s, base) && DigitOf(s[|s| - 1], base).Some?
    requires rest == if s[|s| - 2] == UNDERSCORE then s[..|s| - 2] else s[..|s| - 1]
    ensures (forall b | b in Plain(s) :: DigitOf(b, base).Some?) && forall b | b in Plain(rest) :: DigitOf(b, base).Some?
    ensures Positional(Plain(s), base) == Positional(Plain(rest), base) * base + DigitOf(s[|s| - 1], base).value
  {
    PlainIsPlain(s, base);
    assert forall b :: b in rest ==> b in s;
    PlainIsPlain(rest, base);
    var high, d := s[..|s| - 1], s[|s| - 1];
    assert Plain(high) == Plain(rest) by {
      if high[|high| - 1] == UNDERSCORE { assert rest == high[..|high| - 1]; }
    }
    assert d != UNDERSCORE && Plain(s) == Plain(rest) + [d];
    assert Plain(s)[..|Plain(s)| - 1] == Plain(rest);
  }

  // ------------------------------------------------------------ the grammar of int()

  predicate Sign(s: Bytes) {
    s == [] || s == [43] || s == [45]
  }

  /** Base 16 may say so. */
  predicate Prefix(s: Bytes, base: nat) {
    || s == []
    || (base == 16 && (s == [48, 120] || s == [48, 88] || s == [48, 120, UNDERSCORE] || s == [48, 88, UNDERSCORE]))
  }

  /** Spaces, a sign, a prefix, a numeral and spaces; all but the numeral may be missing. */
  predicate Writes(s: Bytes, base: nat, text: bool, before: Bytes, sign: Bytes, prefix: Bytes, numeral: Bytes, after: Bytes) {
    && s == before + (sign + prefix + numeral) + after
    && Spaces(before, text) && Spaces(after, text) && Sign(sign) && Prefix(prefix, base) && Numeral(numeral, base)
  }

  function Signed(sign: Bytes, n: nat): int {
    var magnitude: int := n;
    if sign == [45] then -magnitude else magnitude
  }

  lemma {:induction false} StripsSpaces(before: Bytes, core: Bytes, after: Bytes, text: bool)
    requires Spaces(before, text) && Spaces(after, text)
    requires core != [] && !Space(core[0], text) && !Space(core[|core| - 1], text)
    ensures Strip(before + core + after, text) == core
    decreases |before| + |after|
  {
    var s := before + core + after;
    if before != [] {
      assert s[0] == before[0] && before[0] in before && s[1..] == before[1..] + core + after;
      StripsSpaces(before[1..], core, after, text);
    } else if after != [] {
      assert s == core + after && s[|s| - 1] == after[|after| - 1] && after[|after| - 1] in after;
      assert s[..|s| - 1] == before + core + after[..|after| - 1];
      StripsSpaces(before, core, after[..|after| - 1], text);
    } else {
      assert s == core;
    }
  }

  /** What stands between `i` and `j` is left of `s`; around it are spaces, but not at its own
      ends. */
  predicate Leaves(s: Bytes, text: bool, i: nat, j: nat) {
    && i <= j <= |s| && Strip(s, text) == s[i..j] && Spaces(s[..i], text) && Spaces(s[j..], text)
    && (i < j ==> !Space(s[i], text) && !Space(s[j - 1], text))
  }

  lemma {:induction false} StripLeaves(s: Bytes, text: bool)
    ensures exists i: nat, j: nat :: Leaves(s, text, i, j)
    decreases |s|
  {
    if s == [] {
      assert Leaves(s, text, 0, 0);
    } else if Space(s[0], text) {
      StripLeaves(s[1..], text);
      var i: nat, j: nat :| Leaves(s[1..], text, i, j);
      LeavesAfter(s, text, i, j);
    } else if Space(s[|s| - 1], text) {
      StripLeaves(s[..|s| - 1], text);
      var i: nat, j: nat :| Leaves(s[..|s| - 1], text, i, j);
      LeavesBefore(s, text, i, j);
    } else {
      assert s[0..|s|] == s;
      assert Leaves(s, text, 0, |s|);
    }
  }

  lemma {:induction false} LeavesAfter(s: Bytes, text: bool, i: nat, j: nat)
    requires s != [] && Space(s[0], text) && Leaves(s[1..], text, i, j)
    ensures Leaves(s, text, i + 1, j + 1)
  {
    assert s[1..][i..j] == s[i + 1..j + 1] && s[..i + 1] == [s[0]] + s[1..][..i] && s[j + 1..] == s[1..][j..];
  }

  lemma {:induction false} LeavesBefore(s: Bytes, text: bool, i: nat, j: nat)
    requires s != [] && !Space(s[0], text) && Space(s[|s| - 1], text) && Leaves(s[..|s| - 1], text, i, j)
    ensures Leaves(s, text, i, j)
  {
    var rest := s[..|s| - 1];
    assert rest[i..j] == s[i..j] && s[..i] == rest[..i] && s[j..] == rest[j..] + [s[|s| - 1]];
  }

  lemma {:induction false} SignedParts(sign: Bytes, prefix: Bytes, numeral: Bytes, base: nat, text: bool)
    requires base <= 16 && Sign(sign) && Prefix(prefix, base) && Numeral(numeral, base)
    ensures var core := sign + prefix + numeral;
      && core != [] && !Space(core[0], text) && !Space(core[|core| - 1], text)
      && (core[0] == 43 || core[0] == 45 <==> sign != [])
      && Unprefixed(if sign == [] then core else core[1..], base) == numeral
  {
    hide Unprefixed, Numeral, Prefix, Space;
    PrefixComesOff(prefix, numeral, base);
    var core, body := sign + prefix + numeral, prefix + numeral;
    BodyEnds(prefix, numeral, base, text);
    assert core == sign + body;
    if sign == [] {
      assert core == body;
    } else {
      assert core[0] == sign[0] && core[1..] == body && core[|core| - 1] == body[|body| - 1];
      assert !Space(sign[0], text) by { SignIsNoSpace(sign, text); }
    }
  }

  lemma {:induction false} SignIsNoSpace(sign: Bytes, text: bool)
    requires Sign(sign) && sign != []
    ensures !Space(sign[0], text)
  {
  }

  /** A number starts and ends with a digit. */
  lemma {:induction false} BodyEnds(prefix: Bytes, numeral: Bytes, base: nat, text: bool)
    requires base <= 16 && Prefix(prefix, base) && Numeral(numeral, base)
    ensures var body := prefix + numeral;
      && body != [] && !Space(body[0], text) && !Space(body[|body| - 1], text) && body[0] != 43 && body[0] != 45
  {
    assert numeral[0] in numeral && numeral[|numeral| - 1] in numeral;
    var body := prefix + numeral;
    assert body[0] == (if prefix == [] then numeral[0] else 48) && body[|body| - 1] == numeral[|numeral| - 1];
  }

  lemma {:induction false} PrefixComesOff(prefix: Bytes, numeral: Bytes, base: nat)
    requires base <= 16 && Prefix(prefix, base) && Numeral(numeral, base)
    ensures Unprefixed(prefix + numeral, base) == numeral
  {
    var body := prefix + numeral;
    if prefix == [] {
      assert body == numeral;
      if |numeral| >= 2 { assert numeral[1] in numeral; }
    } else {
      assert body[0] == 48 && body[1] == prefix[1] && body[|prefix|..] == numeral && body[|prefix|] == numeral[0];
      assert |prefix| == 3 ==> body[2] == UNDERSCORE;
    }
  }

  /** Bytes or text are read as a number exactly if they are written as one: the value is that
      of the digits alone, with the sign. */
  lemma {:induction false} NumbersExactly(s: Bytes, base: nat, text: bool)
    requires base <= 16
    ensures IntOf(s, base, text).Some? <==>
      exists before, sign, prefix, numeral, after :: Writes(s, base, text, before, sign, prefix, numeral, after)
    ensures forall before, sign, prefix, numeral, after | Writes(s, base, text, before, sign, prefix, numeral, after) ::
      && (forall b | b in Plain(numeral) :: DigitOf(b, base).Some?)
      && IntOf(s, base, text) == Some(Signed(sign, Positional(Plain(numeral), base)))
  {
    hide Digits, Strip, Numeral, Positional, Plain, Unprefixed;
    forall before, sign, prefix, numeral, after | Writes(s, base, text, before, sign, prefix, numeral, after)
      ensures (forall b | b in Plain(numeral) :: DigitOf(b, base).Some?)
        && IntOf(s, base, text) == Some(Signed(sign, Positional(Plain(numeral), base)))
    {
      WrittenIsRead(s, base, text, before, sign, prefix, numeral, after);
    }
    if IntOf(s, base, text).Some? { ReadIsWritten(s, base, text); }
  }

  lemma {:induction false} WrittenIsRead(
      s: Bytes, base: nat, text: bool, before: Bytes, sign: Bytes, prefix: Bytes, numeral: Bytes, after: Bytes)
    requires base <= 16 && Writes(s, base, text, before, sign, prefix, numeral, after)
    ensures (forall b | b in Plain(numeral) :: DigitOf(b, base).Some?)
      && IntOf(s, base, text) == Some(Signed(sign, Positional(Plain(numeral), base)))
  {
    hide Digits, Strip, Numeral, Positional, Plain, Unprefixed;
    SignedParts(sign, prefix, numeral, base, text);
    StripsSpaces(before, sign + prefix + numeral, after, text);
    DigitsExactly(numeral, base);
  }

  function SignOf(t: Bytes): (sign: Bytes)
    ensures sign <= t && Sign(sign)
  {
    if t != [] && (t[0] == 43 || t[0] == 45) then [t[0]] else []
  }

  lemma {:induction false} ReadIsWritten(s: Bytes, base: nat, text: bool)
    requires base <= 16 && IntOf(s, base, text).Some?
    ensures exists before, sign, prefix, numeral, after :: Writes(s, base, text, before, sign, prefix, numeral, after)
  {
    hide Leaves, IntOf, Writes;
    StripLeaves(s, text);
    var i: nat, j: nat :| Leaves(s, text, i, j);
    LeftIsWritten(s, base, text, i, j);
  }

  lemma {:induction false} LeftIsWritten(s: Bytes, base: nat, text: bool, i: nat, j: nat)
    requires base <= 16 && IntOf(s, base, text).Some? && Leaves(s, text, i, j)
    ensures exists before, sign, prefix, numeral, after :: Writes(s, base, text, before, sign, prefix, numeral, after)
  {
    hide Digits, Strip, Numeral, Unprefixed, Prefix, Spaces, SignOf, Space, IntOf;
    CoreIsWritten(s[i..j], base);
    ReadsBody(s, base, text);
    var sign := SignOf(s[i..j]);
    var body := s[i..j][|sign|..];
    var numeral := Unprefixed(body, base);
    assert s == s[..i] + s[i..j] + s[j..];
    assert Writes(s, base, text, s[..i], sign, body[..|body| - |numeral|], numeral, s[j..]);
  }

  lemma {:induction false} ReadsBody(s: Bytes, base: nat, text: bool)
    requires IntOf(s, base, text).Some?
    ensures var t := Strip(s, text); Digits(Unprefixed(t[|SignOf(t)|..], base), base).Some?
  {
    hide Digits, Strip, Unprefixed;
    assert Strip(s, text)[0..] == Strip(s, text);
  }

  lemma {:induction false} CoreIsWritten(t: Bytes, base: nat)
    requires base <= 16
    ensures var sign := SignOf(t);
      var body := t[|sign|..];
      var numeral := Unprefixed(body, base);
      && |numeral| <= |body| && t == sign + body[..|body| - |numeral|] + numeral && Prefix(body[..|body| - |numeral|], base)
      && (Digits(numeral, base).Some? ==> Numeral(numeral, base))
  {
    hide Digits, Numeral, Unprefixed, Prefix;
    var sign := SignOf(t);
    var body := t[|sign|..];
    PrefixIsOff(body, base);
    DigitsExactly(Unprefixed(body, base), base);
    assert t == sign + body;
  }

  lemma {:induction false} PrefixIsOff(body: Bytes, base: nat)
    ensures var numeral := Unprefixed(body, base);
      |numeral| <= |body| && Prefix(body[..|body| - |numeral|], base) && body == body[..|body| - |numeral|] + numeral
  {
    var numeral := Unprefixed(body, base);
    var prefix := body[..|body| - |numeral|];
    if |prefix| == 2 {
      assert prefix == [body[0], body[1]];
    } else if |prefix| == 3 {
      assert prefix == [body[0], body[1], body[2]];
    }
  }

  lemma {:induction false} BeforeStops(s: Bytes, separator: Byte, rest: Bytes)
    requires separator !in s && (rest == [] || rest[0] == separator)
    ensures Before(s + rest, separator) == s
  {
    if s == [] {
      assert s + rest == rest;
    } else {
      assert (s + rest)[1..] == s[1..] + rest;
      BeforeStops(s[1..], separator, rest);
    }
  }

  // ------------------------------------------------------------ lines

  predicate IsLine(s: Bytes) {
    CR !in s
  }

  /** Lines with CRLF between them. */
  function Text(lines: seq<Bytes>): Bytes
    requires lines != []
  {
    if |lines| == 1 then lines[0] else lines[0] + CRLF + Text(lines[1..])
  }

  lemma {:induction false} LineEnds(line: Bytes, rest: Bytes)
    requires IsLine(line)
    ensures Find(line + CRLF + rest, CRLF, 0) == Some(|line|)
  {
    var data := line + CRLF + rest;
    assert data[|line|..|line| + 2] == CRLF;
    forall i | 0 <= i < |line| ensures !At(data, CRLF, i) {
      assert data[i] == line[i];
      NeedsCr(data, CRLF, i);
    }
    FindsFirst(data, CRLF, 0, |line|);
  }

  lemma {:induction false} LinesSplit(lines: seq<Bytes>)
    requires lines != [] && forall line | line in lines :: IsLine(line)
    ensures SplitLines(Text(lines)) == lines
  {
    var line := lines[0];
    if |lines| == 1 {
      var end := Find(line, CRLF, 0);
      assert line in lines;
      if end.Some? { AtReads(line, CRLF, end.value, 0); }
    } else {
      var rest := Text(lines[1..]);
      assert Text(lines) == line + CRLF + rest;
      LineEnds(line, rest);
      assert Text(lines)[..|line|] == line && Text(lines)[|line| + 2..] == rest;
      LinesSplit(lines[1..]);
    }
  }

  /** No blank line inside a block whose later lines are not empty. */
  lemma {:induction false} NoBlankInside(lines: seq<Bytes>, rest: Bytes, i: nat)
    requires lines != [] && (forall line | line in lines :: IsLine(line)) && (forall line | line in lines[1..] :: line != [])
    requires i < |Text(lines)|
    ensures !At(Text(lines) + BLANK + rest, BLANK, i)
  {
    var line := lines[0];
    var data := Text(lines) + BLANK + rest;
    assert line in lines;
    if i < |line| {
      assert data[i] == line[i] && line[i] in line;
      NeedsCr(data, BLANK, i);
    } else {
      var next := lines[1..];
      assert Text(lines) == line + CRLF + Text(next);
      assert next[0] in next && next[0] in lines;
      if i < |line| + 2 {
        assert Text(next)[0] == next[0][0] && next[0][0] in next[0];
        assert data[|line| + 1] == LF && data[|line| + 2] == Text(next)[0];
        if At(data, BLANK, i) {
          AtReads(data, BLANK, i, 0);
          AtReads(data, BLANK, i, 2);
        }
      } else {
        var j := i - |line| - 2;
        assert forall l :: l in next[1..] ==> l in next;
        NoBlankInside(next, rest, j);
        assert data == (line + CRLF) + (Text(next) + BLANK + rest);
        AtShifts(line + CRLF, Text(next) + BLANK + rest, BLANK, j);
      }
    }
  }

  lemma {:induction false} BlankEndsBlock(lines: seq<Bytes>, rest: Bytes)
    requires lines != [] && (forall line | line in lines :: IsLine(line)) && (forall line | line in lines[1..] :: line != [])
    ensures Find(Text(lines) + BLANK + rest, BLANK, 0) == Some(|Text(lines)|)
  {
    var data := Text(lines) + BLANK + rest;
    assert data[|Text(lines)|..|Text(lines)| + 4] == BLANK;
    forall i | 0 <= i < |Text(lines)| ensures !At(data, BLANK, i) { NoBlankInside(lines, rest, i); }
    FindsFirst(data, BLANK, 0, |Text(lines)|);
  }

  /** A search that starts after some bytes does not see them. */
  lemma {:induction false} FindShifts(before: Bytes, data: Bytes, pattern: Bytes, start: nat)
    ensures Find(before + data, pattern, |before| + start)
         == if Find(data, pattern, start).None? then None else Some(|before| + Find(data, pattern, start).value)
    decreases |data| - start
  {
    hide At;
    AtShifts(before, data, pattern, start);
    if start + |pattern| <= |data| && !At(data, pattern, start) { FindShifts(before, data, pattern, start + 1); }
  }
}
