/** The string handling by its cases: what splitting, normalizing and reading a number give for a text put together from
    parts (normalize_failure_text in include/qiven/context/runtime.hpp, the reference lists and std::stoll in
    src/persistence.cpp). */
module TextLaws {
  import opened Prelude
  import opened Text
  import opened Transactions
  import opened Gates
  import opened FailureText

  // ---- words ----

  lemma {:induction false} WordsFromSplit(a: Str, c: byte, b: Str, separator: byte -> bool, word: Str)
    requires separator(c)
    ensures WordsFrom(a + [c] + b, separator, word) == WordsFrom(a, separator, word) + Words(b, separator)
  {
    var all := a + [c] + b;
    if a == [] {
      assert all == [c] + b && all[1..] == b;
    } else {
      assert all[1..] == a[1..] + [c] + b;
      if separator(a[0]) {
        WordsFromSplit(a[1..], c, b, separator, []);
      } else {
        WordsFromSplit(a[1..], c, b, separator, word + [a[0]]);
      }
    }
  }

  /** The three cases that determine a splitting: nothing, one word, and two texts with a separator between them. */
  lemma WordsByCases(a: Str, c: byte, b: Str, separator: byte -> bool)
    ensures Words([], separator) == []
    ensures IsWord(separator, a) ==> Words(a, separator) == [a]
    ensures separator(c) ==> Words(a + [c] + b, separator) == Words(a, separator) + Words(b, separator)
  {
    if IsWord(separator, a) {
      WordsSkip(a, [], separator, []);
      assert a + [] == a && [] + a == a;
    }
    if separator(c) {
      WordsFromSplit(a, c, b, separator, []);
    }
  }

  /** References are listed between commas; empty ones do not count. */
  lemma ReferencesByCases(a: Str, b: Str)
    ensures SplitRefs([]) == []
    ensures a != [] && 44 !in a ==> SplitRefs(a) == [a]
    ensures SplitRefs(a + [44] + b) == SplitRefs(a) + SplitRefs(b)
  {
    WordsByCases(a, 44, b, IsComma);
  }

  // ---- failure texts ----

  predicate Around(word: Str, a: Str, part: Str, b: Str) { word == a + part + b }

  ghost predicate HasPart(word: Str, part: Str) { exists a: Str, b: Str :: Around(word, a, part, b) }

  /** Digits at four places, or one of two tokens of temporary paths. */
  ghost predicate Dropped(word: Str) {
    (exists i, j, k, l :: DigitsAt(word, i, j, k, l)) || HasPart(word, [116, 109, 112])
    || HasPart(word, [46, 103, 101, 110, 101, 114, 97, 116, 101, 100, 45, 116, 101, 109, 112])
  }

  lemma PartIsContained(word: Str, part: Str)
    ensures HasPart(word, part) <==> Contains(word, part)
  {
    if i :| 0 <= i <= |word| && OccursAt(word, part, i) {
      assert Around(word, word[..i], part, word[i + |part|..]);
    }
    if a: Str, b: Str :| Around(word, a, part, b) {
      assert OccursAt(word, part, |a|);
    }
  }

  lemma Literals()
    ensures Ascii("tmp") == [116, 109, 112]
    ensures Ascii(".generated-temp") == [46, 103, 101, 110, 101, 114, 97, 116, 101, 100, 45, 116, 101, 109, 112]
  {
  }

  lemma DroppedIsVolatile(word: Str)
    ensures Dropped(word) <==> Volatile(word)
  {
    hide DigitCount, Contains, HasPart, Ascii;
    CountedExactly(word);
    Literals();
    PartIsContained(word, Ascii("tmp"));
    PartIsContained(word, Ascii(".generated-temp"));
  }

  predicate Blank(c: byte) { c in {32, 9, 10} }

  lemma OneWord(word: Str)
    requires word != [] && forall i :: 0 <= i < |word| ==> !Blank(word[i])
    ensures StableWords(word) == if Dropped(word) then [] else [word]
  {
    hide Volatile, Dropped;
    DroppedIsVolatile(word);
    WordsByCases(word, 32, [], IsBreak);
    assert IsWord(IsBreak, word);
    assert Words(word, IsBreak) == [word];
    assert [word][..0] == [];
    assert Stable([word]) == Stable([]) + if Volatile(word) then [] else [word];
  }

  lemma NoWords()
    ensures StableWords([]) == [] && Normalize([]) == []
  {
  }

  lemma WordsApart(a: Str, c: byte, b: Str)
    requires Blank(c)
    ensures StableWords(a + [c] + b) == StableWords(a) + StableWords(b)
  {
    WordsByCases(a, c, b, IsBreak);
    StableConcat(Words(a, IsBreak), Words(b, IsBreak));
  }

  lemma {:induction false} JoinApart(xs: seq<Str>, ys: seq<Str>)
    ensures Join(xs + ys, SPACE) ==
      if xs == [] then Join(ys, SPACE) else if ys == [] then Join(xs, SPACE) else Join(xs, SPACE) + [SPACE] + Join(ys,
          SPACE)
  {
    if ys == [] {
      assert xs + ys == xs;
    } else if xs == [] {
      assert xs + ys == ys;
    } else if |xs| == 1 {
      assert (xs + ys)[1..] == ys;
    } else {
      assert (xs + ys)[1..] == xs[1..] + ys;
      JoinApart(xs[1..], ys);
      assert xs[0] + [SPACE] + (Join(xs[1..], SPACE) + [SPACE] + Join(ys, SPACE)) ==
        xs[0] + [SPACE] + Join(xs[1..], SPACE) + [SPACE] + Join(ys, SPACE);
    }
  }

  function Glued(a: Str, b: Str): Str { if a == [] then b else if b == [] then a else a + [32] + b }

  /** Normalizing by cases: a word stays as it is unless it is dropped, and two texts with a blank, a tab or a line
      break between them are normalized one by one, with one blank between what is left of them. */
  lemma NormalizesByCases(word: Str, a: Str, c: byte, b: Str)
    ensures Normalize([]) == []
    ensures word != [] && (forall i :: 0 <= i < |word| ==> !Blank(word[i])) ==>
      Normalize(word) == if Dropped(word) then [] else word
    ensures Blank(c) ==> Normalize(a + [c] + b) == Glued(Normalize(a), Normalize(b))
  {
    hide Words, Stable, Dropped, IsBreak;
    NoWords();
    if word != [] && forall i :: 0 <= i < |word| ==> !Blank(word[i]) {
      OneWord(word);
    }
    if Blank(c) {
      hide StableWords;
      WordsApart(a, c, b);
      JoinApart(StableWords(a), StableWords(b));
      NothingLeftOf(a);
      NothingLeftOf(b);
    }
  }

  lemma NothingLeftOf(a: Str)
    ensures Normalize(a) == [] <==> StableWords(a) == []
  {
    WordsAreWords(a, IsBreak, []);
    StableAreWords(Words(a, IsBreak));
    JoinOfWordsEmpty(StableWords(a));
  }

  // ---- numbers ----

  predicate Digital(d: Str) { forall i :: 0 <= i < |d| ==> 48 <= d[i] <= 57 }

  /** The number a row of digits stands for. */
  function NumberOf(d: Str): nat
    requires Digital(d)
  {
    if d == [] then 0 else 10 * NumberOf(d[..|d| - 1]) + (d[|d| - 1] - 48)
  }

  lemma {:induction false} LeadingIsNumber(d: Str)
    requires Digital(d)
    ensures LeadingNumber(d, 0) == NumberOf(d)
  {
    if d != [] {
      var init := d[..|d| - 1];
      LeadingIsNumber(init);
      LeadingNumberAppend(init, d[|d| - 1], 0);
      assert d == init + [d[|d| - 1]];
    }
  }

  lemma {:induction false} LeadingStops(d: Str, e: Str, high: nat)
    requires Digital(d) && (e != [] ==> !(48 <= e[0] <= 57))
    ensures LeadingNumber(d + e, high) == LeadingNumber(d, high)
  {
    if d == [] {
      assert d + e == e;
    } else {
      assert (d + e)[1..] == d[1..] + e;
      LeadingStops(d[1..], e, 10 * high + (d[0] - ZERO));
    }
  }

  predicate White(c: byte) { c in {32, 9, 10, 11, 12, 13} }

  lemma {:induction false} BlanksSkipped(p: Str, s: Str)
    requires (forall i :: 0 <= i < |p| ==> White(p[i])) && (s != [] ==> !White(s[0]))
    ensures SkipBlanks(p + s) == s
  {
    if p == [] {
      assert p + s == s;
    } else {
      assert (p + s)[1..] == p[1..] + s;
      BlanksSkipped(p[1..], s);
    }
  }

  predicate NumberRange(n: int) { -0x8000_0000_0000_0000 <= n < 0x8000_0000_0000_0000 }

  /** Reading a number: white space, a sign or none, a row of digits, and whatever follows; refused when out of range.
      */
  lemma StollReads(p: Str, sign: Str, d: Str, e: Str)
    requires (forall i :: 0 <= i < |p| ==> White(p[i])) && sign in {[], [43], [45]} && d != [] && Digital(d)
    requires e != [] ==> !(48 <= e[0] <= 57)
    ensures var m: int := NumberOf(d);
      var n := if sign == [45] then -m else m;
      Stoll(p + (sign + (d + e))) == if NumberRange(n) then Some(n) else None
  {
    var s := sign + (d + e);
    assert s[0] == if sign == [] then d[0] else sign[0];
    BlanksSkipped(p, s);
    LeadingStops(d, e, 0);
    LeadingIsNumber(d);
    if sign != [] {
      assert s[1..] == d + e;
    } else {
      assert s == d + e;
    }
    hide LeadingNumber, SkipBlanks, NumberOf;
  }

  /** Without a digit after white space and sign it is refused. */
  lemma StollRefuses(p: Str, sign: Str, e: Str)
    requires (forall i :: 0 <= i < |p| ==> White(p[i])) && sign in {[], [43], [45]}
    requires e != [] ==> !(48 <= e[0] <= 57) && (sign == [] ==> !White(e[0]) && e[0] !in {43, 45})
    ensures Stoll(p + (sign + e)) == None
  {
    var s := sign + e;
    assert sign == [] ==> s == e;
    BlanksSkipped(p, s);
    if sign != [] {
      assert s[1..] == e;
    }
  }

  /** A number is printed without leading zeros, a negative one behind a minus sign. */
  lemma DecimalIsShortest(n: nat)
    ensures Digital(Decimal(n)) && NumberOf(Decimal(n)) == n && (Decimal(n)[0] == 48 <==> n == 0) && Decimal(0) == [48]
    ensures n > 0 ==> var m: int := n; Decimal(-m) == [45] + Decimal(m)
  {
    hide LeadingNumber;
    DigitsDenote(n);
    LeadingIsNumber(Digits(n));
    if n > 0 {
      NoLeadingZero(n);
    }
  }

  lemma {:induction false} NoLeadingZero(n: nat)
    requires n > 0
    ensures Digits(n)[0] != 48
  {
    if n >= 10 {
      NoLeadingZero(n / 10);
    }
  }
}
