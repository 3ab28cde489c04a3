/** The string handling the service relies on: splitting into words and decimal numerals. */
module Text {
  import opened Prelude

  // ---- words ----

  function Flush(word: Str): seq<Str> { if word == [] then [] else [word] }

  /** The maximal runs of non-separators in `word + text`, where `word` holds no separator. */
  function WordsFrom(text: Str, separator: byte -> bool, word: Str): seq<Str> {
    if text == [] then Flush(word)
    else if separator(text[0]) then Flush(word) + WordsFrom(text[1..], separator, [])
    else WordsFrom(text[1..], separator, word + [text[0]])
  }

  function Words(text: Str, separator: byte -> bool): seq<Str> { WordsFrom(text, separator, []) }

  predicate IsWord(separator: byte -> bool, word: Str) {
    word != [] && forall i :: 0 <= i < |word| ==> !separator(word[i])
  }

  /** Words are non-empty and free of separators. */
  lemma {:induction false} WordsAreWords(text: Str, separator: byte -> bool, word: Str)
    requires forall i :: 0 <= i < |word| ==> !separator(word[i])
    ensures forall k :: 0 <= k < |WordsFrom(text, separator, word)| ==> IsWord(separator, WordsFrom(text, separator, word)[k])
  {
    if text != [] {
      if separator(text[0]) {
        WordsAreWords(text[1..], separator, []);
      } else {
        WordsAreWords(text[1..], separator, word + [text[0]]);
      }
    }
  }

  function Join(words: seq<Str>, glue: byte): Str {
    if words == [] then [] else if |words| == 1 then words[0] else words[0] + [glue] + Join(words[1..], glue)
  }

  lemma {:induction false} WordsSkip(run: Str, rest: Str, separator: byte -> bool, word: Str)
    requires forall i :: 0 <= i < |run| ==> !separator(run[i])
    ensures WordsFrom(run + rest, separator, word) == WordsFrom(rest, separator, word + run)
  {
    if run == [] {
      assert run + rest == rest && word + run == word;
    } else {
      assert (run + rest)[0] == run[0] && (run + rest)[1..] == run[1..] + rest;
      WordsSkip(run[1..], rest, separator, word + [run[0]]);
      assert word + [run[0]] + run[1..] == word + run;
    }
  }

  /** Splitting undoes joining. */
  lemma {:induction false} WordsOfJoin(words: seq<Str>, glue: byte, separator: byte -> bool)
    requires separator(glue) && forall k :: 0 <= k < |words| ==> IsWord(separator, words[k])
    ensures Words(Join(words, glue), separator) == words
  {
    if |words| == 1 {
      WordsSkip(words[0], [], separator, []);
      assert words[0] + [] == words[0] && [] + words[0] == words[0];
    } else if |words| > 1 {
      var rest := [glue] + Join(words[1..], glue);
      WordsSkip(words[0], rest, separator, []);
      assert words[0] + [glue] + Join(words[1..], glue) == words[0] + rest;
      assert [] + words[0] == words[0] && rest[1..] == Join(words[1..], glue);
      WordsOfJoin(words[1..], glue, separator);
    }
  }

  // ---- numerals ----

  const ZERO: byte := '0' as int
  const MINUS: byte := '-' as int
  const PLUS: byte := '+' as int

  predicate IsDigit(c: byte) { ZERO <= c <= ZERO + 9 }

  function Digits(n: nat): (s: Str)
    ensures s != [] && forall i :: 0 <= i < |s| ==> IsDigit(s[i])
  {
    if n < 10 then [ZERO + n] else Digits(n / 10) + [ZERO + n % 10]
  }

  /** The decimal form of a number, as std::to_string prints it. */
  function Decimal(n: int): Str { if n < 0 then [MINUS] + Digits(-n) else Digits(n) }

  predicate IsBlank(c: byte) { c == 32 || 9 <= c <= 13 }

  function SkipBlanks(s: Str): Str { if s != [] && IsBlank(s[0]) then SkipBlanks(s[1..]) else s }

  /** The number the leading digits of `s` denote, `high` being what was read before them. */
  function LeadingNumber(s: Str, high: nat): nat {
    if s == [] || !IsDigit(s[0]) then high else LeadingNumber(s[1..], 10 * high + (s[0] - ZERO))
  }

  /** std::stoll: blanks, an optional sign, then the leading digits; None where it throws. */
  function Stoll(text: Str): Option<i64> {
    var s := SkipBlanks(text);
    var negative := s != [] && s[0] == MINUS;
    var digits := if s != [] && (s[0] == MINUS || s[0] == PLUS) then s[1..] else s;
    if digits == [] || !IsDigit(digits[0]) then None
    else
      var n: int := LeadingNumber(digits, 0);
      var value: int := if negative then -n else n;
      if -0x8000_0000_0000_0000 <= value < 0x8000_0000_0000_0000 then Some(value) else None
  }

  lemma {:induction false} LeadingNumberAppend(s: Str, c: byte, high: nat)
    requires IsDigit(c) && forall i :: 0 <= i < |s| ==> IsDigit(s[i])
    ensures LeadingNumber(s + [c], high) == 10 * LeadingNumber(s, high) + (c - ZERO)
  {
    if s == [] {
      assert s + [c] == [c] && [c][1..] == [];
    } else {
      assert (s + [c])[0] == s[0] && (s + [c])[1..] == s[1..] + [c];
      LeadingNumberAppend(s[1..], c, 10 * high + (s[0] - ZERO));
    }
  }

  lemma {:induction false} DigitsDenote(n: nat)
    ensures LeadingNumber(Digits(n), 0) == n
  {
    if n >= 10 {
      DigitsDenote(n / 10);
      LeadingNumberAppend(Digits(n / 10), ZERO + n % 10, 0);
    }
  }

  /** Parsing undoes printing. */
  lemma StollOfDecimal(n: i64)
    ensures Stoll(Decimal(n)) == Some(n)
  {
    if n < 0 {
      var magnitude: int := n;
      DigitsDenote(-magnitude);
      assert Decimal(n)[1..] == Digits(-magnitude);
    } else {
      DigitsDenote(n);
    }
  }

  /** The decimal form identifies the number. */
  lemma DecimalInjective(m: i64, n: i64)
    ensures Decimal(m) == Decimal(n) <==> m == n
  {
    StollOfDecimal(m);
    StollOfDecimal(n);
  }

  lemma DigitsInjective(m: nat, n: nat)
    ensures Digits(m) == Digits(n) <==> m == n
  {
    DigitsDenote(m);
    DigitsDenote(n);
  }
}
