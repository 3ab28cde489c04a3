/** Failure fingerprints: the one-pass normalization and the retry rule it serves (normalize_failure_text and
    retry_permitted in include/qiven/context/runtime.hpp). */
module FailureText {
  import opened Prelude
  import opened Text

  const SPACE: byte := 32

  predicate IsBreak(c: byte) { c == 32 || c == 9 || c == 10 }

  function DigitCount(word: Str): nat {
    if word == [] then 0 else DigitCount(word[..|word| - 1]) + if IsDigit(word[|word| - 1]) then 1 else 0
  }

  predicate OccursAt(text: Str, part: Str, i: nat) { i + |part| <= |text| && text[i..i + |part|] == part }

  predicate Contains(text: Str, part: Str) { exists i :: 0 <= i <= |text| && OccursAt(text, part, i) }

  /** Time stamps, large ids and temporary paths. */
  predicate Volatile(word: Str) {
    DigitCount(word) >= 4 || Temporary(word)
  }

  predicate Temporary(word: Str) { Contains(word, Ascii("tmp")) || Contains(word, Ascii(".generated-temp")) }

  function Stable(words: seq<Str>): seq<Str> {
    if words == [] then [] else Stable(words[..|words| - 1]) + if Volatile(words[|words| - 1]) then [] else [words[|words| - 1]]
  }

  /** What identifies a message: its words, without the volatile ones. */
  function StableWords(message: Str): seq<Str> { Stable(Words(message, IsBreak)) }

  /** The stable words with one space between them. */
  function Normalize(message: Str): Str { Join(StableWords(message), SPACE) }

  // ---- digits in a row, or anywhere ----

  predicate AllDigits(text: Str) { forall i :: 0 <= i < |text| ==> IsDigit(text[i]) }

  predicate RunAt(word: Str, i: nat) { i + 4 <= |word| && AllDigits(word[i..i + 4]) }

  /** What the comment on the code calls volatile: long digit runs and temporary paths. */
  predicate DescribedVolatile(word: Str) { HasRun(word) || Temporary(word) }

  predicate HasRun(word: Str) { exists i :: 0 <= i <= |word| && RunAt(word, i) }

  lemma {:induction false} DigitsConcat(a: Str, b: Str)
    ensures DigitCount(a + b) == DigitCount(a) + DigitCount(b)
  {
    if b == [] {
      assert a + b == a;
    } else {
      assert (a + b)[..|a + b| - 1] == a + b[..|b| - 1];
      DigitsConcat(a, b[..|b| - 1]);
    }
  }

  lemma {:induction false} DigitsOfRun(run: Str)
    requires AllDigits(run)
    ensures DigitCount(run) == |run|
  {
    if run != [] {
      DigitsOfRun(run[..|run| - 1]);
    }
  }

  lemma RunIsCounted(word: Str)
    requires HasRun(word)
    ensures DigitCount(word) >= 4
  {
    var i :| 0 <= i <= |word| && RunAt(word, i);
    hide AllDigits, DigitCount;
    var run := word[i..i + 4];
    DigitsOfRun(run);
    DigitsConcat(word[..i], run);
    DigitsConcat(word[..i] + run, word[i + 4..]);
    assert word == word[..i] + run + word[i + 4..];
  }

  /** Digits at four places in order. */
  predicate DigitsAt(word: Str, i: int, j: int, k: int, l: int) {
    0 <= i < j < k < l < |word| && IsDigit(word[i]) && IsDigit(word[j]) && IsDigit(word[k]) && IsDigit(word[l])
  }

  lemma {:induction false} LastDigit(word: Str) returns (l: nat)
    requires DigitCount(word) > 0
    ensures l < |word| && IsDigit(word[l]) && DigitCount(word[..l]) == DigitCount(word) - 1
  {
    var init := word[..|word| - 1];
    if IsDigit(word[|word| - 1]) {
      l := |word| - 1;
    } else {
      l := LastDigit(init);
      assert init[..l] == word[..l];
    }
  }

  lemma {:induction false} DigitCounts(word: Str, l: nat)
    requires l < |word| && IsDigit(word[l])
    ensures DigitCount(word) > DigitCount(word[..l])
  {
    DigitsConcat(word[..l], word[l..]);
    DigitsConcat([word[l]], word[l + 1..]);
    DigitsOfRun([word[l]]);
    assert word == word[..l] + word[l..] && word[l..] == [word[l]] + word[l + 1..];
  }

  /** Four digits are counted exactly when there are four places with a digit. */
  lemma CountedExactly(word: Str)
    ensures DigitCount(word) >= 4 <==> exists i, j, k, l :: DigitsAt(word, i, j, k, l)
  {
    hide DigitCount, IsDigit;
    if DigitCount(word) >= 4 {
      var l := LastDigit(word);
      var k := LastDigit(word[..l]);
      assert word[..l][..k] == word[..k];
      var j := LastDigit(word[..k]);
      assert word[..k][..j] == word[..j];
      var i := LastDigit(word[..j]);
      assert DigitsAt(word, i, j, k, l);
    }
    if i, j, k, l :| DigitsAt(word, i, j, k, l) {
      DigitCounts(word, l);
      assert word[..l][..k] == word[..k] && word[..l][k] == word[k];
      DigitCounts(word[..l], k);
      assert word[..k][..j] == word[..j] && word[..k][j] == word[j];
      DigitCounts(word[..k], j);
      assert word[..j][..i] == word[..i] && word[..j][i] == word[i];
      DigitCounts(word[..j], i);
    }
  }

  /** A run of four is four places with a digit of which the last is three after the first. */
  lemma RunExactly(word: Str)
    ensures HasRun(word) <==> exists i, j, k, l :: DigitsAt(word, i, j, k, l) && l == i + 3
  {
    if i :| 0 <= i <= |word| && RunAt(word, i) {
      var run := word[i..i + 4];
      assert run[0] == word[i] && run[1] == word[i + 1] && run[2] == word[i + 2] && run[3] == word[i + 3];
      assert DigitsAt(word, i, i + 1, i + 2, i + 3);
    }
    if i, j, k, l :| DigitsAt(word, i, j, k, l) && l == i + 3 {
      assert RunAt(word, i);
    }
  }

  /** Every word described as volatile is dropped. The others that are dropped are exactly those with digits at four
      places, at no four in a row, and no temporary path. */
  lemma VolatileAsDescribedExactly(word: Str)
    ensures DescribedVolatile(word) ==> Volatile(word)
    ensures Volatile(word) && !DescribedVolatile(word) <==>
      && (exists i, j, k, l :: DigitsAt(word, i, j, k, l))
      && (forall i, j, k, l :: DigitsAt(word, i, j, k, l) ==> l > i + 3) && !Temporary(word)
  {
    hide Temporary, DigitCount, HasRun;
    CountedExactly(word);
    RunExactly(word);
    if HasRun(word) {
      RunIsCounted(word);
    }
  }

  /** The word a1b2c3d4: four digits, never two in a row. */
  const SCATTERED: Str := [97, 49, 98, 50, 99, 51, 100, 52]

  lemma ScatteredDigitsAreDropped()
    ensures Volatile(SCATTERED) && !DescribedVolatile(SCATTERED) && Normalize(SCATTERED) == []
  {
    hide Temporary, Volatile, Join, Stable;
    ScatteredDigits();
    ScatteredIsNotTemporary();
    WordsSkip(SCATTERED, [], IsBreak, []);
    assert SCATTERED + [] == SCATTERED && [] + SCATTERED == SCATTERED;
    assert Words(SCATTERED, IsBreak) == [SCATTERED];
    NothingLeft(SCATTERED);
  }

  lemma LetterAndDigit(a: byte, b: byte)
    requires !IsDigit(a) && IsDigit(b)
    ensures DigitCount([a, b]) == 1
  {
    assert [a, b][..1] == [a] && [a][..0] == [];
    assert DigitCount([a]) == 0;
  }

  lemma ScatteredDigits()
    ensures Volatile(SCATTERED) && !HasRun(SCATTERED)
  {
    hide Temporary, DigitCount;
    var s := SCATTERED;
    LetterAndDigit(97, 49);
    LetterAndDigit(98, 50);
    LetterAndDigit(99, 51);
    LetterAndDigit(100, 52);
    DigitsConcat([97, 49], [98, 50]);
    DigitsConcat([97, 49] + [98, 50], [99, 51]);
    DigitsConcat([97, 49] + [98, 50] + [99, 51], [100, 52]);
    assert s == [97, 49] + [98, 50] + [99, 51] + [100, 52];
    forall i | 0 <= i <= |s| ensures !RunAt(s, i) {
      if i + 4 <= |s| {
        assert s[i..i + 4][0] == s[i] && s[i..i + 4][1] == s[i + 1];
      }
    }
  }

  lemma ScatteredIsNotTemporary()
    ensures !Temporary(SCATTERED)
  {
    assert Ascii("tmp")[0] == 116;
  }

  lemma NothingLeft(word: Str)
    requires Volatile(word)
    ensures Join(Stable([word]), SPACE) == []
  {
    hide Volatile;
    assert [word][..0] == [];
  }

  // ---- the one-pass loop ----

  method CountDigits(word: Str) returns (n: nat)
    ensures n == DigitCount(word)
  {
    n := 0;
    for i := 0 to |word|
      invariant n == DigitCount(word[..i])
    {
      assert word[..i + 1][..i] == word[..i];
      if IsDigit(word[i]) {
        n := n + 1;
      }
    }
    assert word[..|word|] == word;
  }

  method FindPart(text: Str, part: Str) returns (found: bool)
    ensures found == Contains(text, part)
  {
    var i := 0;
    while i + |part| <= |text|
      invariant i <= |text| + 1
      invariant forall j :: 0 <= j < i ==> !OccursAt(text, part, j)
    {
      if text[i..i + |part|] == part {
        assert OccursAt(text, part, i);
        return true;
      }
      i := i + 1;
    }
    return false;
  }

  lemma {:induction false} JoinSnoc(words: seq<Str>, word: Str)
    ensures Join(words + [word], SPACE) == if words == [] then word else Join(words, SPACE) + [SPACE] + word
  {
    if words != [] {
      var all := words + [word];
      assert all[1..] == words[1..] + [word];
      JoinSnoc(words[1..], word);
      if |words| == 1 {
        assert words[1..] == [];
        assert Join(all, SPACE) == words[0] + [SPACE] + word;
      } else {
        assert Join(all, SPACE) == words[0] + [SPACE] + (Join(words[1..], SPACE) + [SPACE] + word);
        assert Join(words, SPACE) == words[0] + [SPACE] + Join(words[1..], SPACE);
      }
    }
  }

  lemma {:induction false} JoinOfWordsEmpty(words: seq<Str>)
    requires forall k :: 0 <= k < |words| ==> words[k] != []
    ensures Join(words, SPACE) == [] <==> words == []
  {
  }

  /** The flush of the loop: the word read so far goes to the output unless it is empty or volatile. */
  method FlushWord(out: Str, word: Str, ghost kept: seq<Str>) returns (next: Str)
    requires out == Join(kept, SPACE) && forall k :: 0 <= k < |kept| ==> kept[k] != []
    ensures next == Join(kept + Stable(Flush(word)), SPACE)
  {
    next := out;
    JoinSnoc(kept, word);
    JoinOfWordsEmpty(kept);
    assert kept + [] == kept;
    if word == [] {
      return;
    }
    assert Stable([word]) == if Volatile(word) then [] else [word] by { assert [word][..0] == []; }
    var digits := CountDigits(word);
    var temporary := FindPart(word, Ascii("tmp"));
    var generated := FindPart(word, Ascii(".generated-temp"));
    if digits >= 4 || temporary || generated {
      return;
    }
    if out != [] {
      next := next + [SPACE];
    }
    next := next + word;
  }

  lemma {:induction false} StableConcat(a: seq<Str>, b: seq<Str>)
    ensures Stable(a + b) == Stable(a) + Stable(b)
  {
    if b == [] {
      assert a + b == a && Stable(a) + [] == Stable(a);
    } else {
      assert (a + b)[..|a + b| - 1] == a + b[..|b| - 1];
      StableConcat(a, b[..|b| - 1]);
    }
  }

  lemma {:induction false} StableAreWords(words: seq<Str>)
    requires forall k :: 0 <= k < |words| ==> IsWord(IsBreak, words[k])
    ensures forall k :: 0 <= k < |Stable(words)| ==> IsWord(IsBreak, Stable(words)[k]) && !Volatile(Stable(words)[k])
  {
    if words != [] {
      StableAreWords(words[..|words| - 1]);
    }
  }

  lemma NothingJoined()
    ensures Join(Stable([]), SPACE) == []
  {
  }

  method NormalizeFailureText(message: Str) returns (out: Str)
    ensures out == Normalize(message)
  {
    hide Volatile, Join, Stable;
    assert Join(Stable([]), SPACE) == [] by { NothingJoined(); }
    out := [];
    var word: Str := [];
    ghost var done: seq<Str> := [];
    var i := 0;
    while i < |message|
      invariant i <= |message|
      invariant Words(message, IsBreak) == done + WordsFrom(message[i..], IsBreak, word)
      invariant forall k :: 0 <= k < |done| ==> IsWord(IsBreak, done[k])
      invariant forall k :: 0 <= k < |word| ==> !IsBreak(word[k])
      invariant out == Join(Stable(done), SPACE)
    {
      assert message[i..][1..] == message[i + 1..];
      if IsBreak(message[i]) {
        StableAreWords(done);
        out := FlushWord(out, word, Stable(done));
        StableConcat(done, Flush(word));
        ghost var rest := WordsFrom(message[i + 1..], IsBreak, []);
        assert done + (Flush(word) + rest) == (done + Flush(word)) + rest;
        done := done + Flush(word);
        word := [];
      } else {
        word := word + [message[i]];
      }
      i := i + 1;
    }
    assert message[i..] == [];
    StableAreWords(done);
    out := FlushWord(out, word, Stable(done));
    StableConcat(done, Flush(word));
  }

  // ---- what normalization identifies ----

  lemma {:induction false} StableIsStable(words: seq<Str>)
    requires forall k :: 0 <= k < |words| ==> !Volatile(words[k])
    ensures Stable(words) == words
  {
    if words != [] {
      StableIsStable(words[..|words| - 1]);
    }
  }

  /** The stable words survive normalization unchanged. */
  lemma NormalizeKeepsStableWords(message: Str)
    ensures StableWords(Normalize(message)) == StableWords(message)
  {
    var words := StableWords(message);
    WordsAreWords(message, IsBreak, []);
    StableAreWords(Words(message, IsBreak));
    WordsOfJoin(words, SPACE, IsBreak);
    StableIsStable(words);
  }

  /** Normalizing again changes nothing. */
  lemma NormalizeIsIdempotent(message: Str)
    ensures Normalize(Normalize(message)) == Normalize(message)
  {
    NormalizeKeepsStableWords(message);
  }

  /** Two messages normalize alike exactly when their stable words are the same in the same order. */
  lemma NormalizeIdentifiesStableWords(a: Str, b: Str)
    ensures Normalize(a) == Normalize(b) <==> StableWords(a) == StableWords(b)
  {
    NormalizeKeepsStableWords(a);
    NormalizeKeepsStableWords(b);
  }

  // ---- the retry rule ----

  /** The parts of a fingerprint and of an intent the rule looks at. */
  datatype Fingerprint = Fingerprint(operation: Str, tool: Str, stableMessage: Str)
  datatype Intent = Intent(tool: Str, operation: Str, priorFailure: Option<Fingerprint>)

  method RetryPermitted(prior: Fingerprint, candidate: Intent, hasNewEvidence: bool) returns (permitted: bool)
    ensures permitted <==>
      || hasNewEvidence || candidate.tool != prior.tool || candidate.operation != prior.operation
      || (candidate.priorFailure.Some? && StableWords(candidate.priorFailure.value.stableMessage) != StableWords(prior.stableMessage))
  {
    if hasNewEvidence {
      return true;
    }
    var message := if candidate.priorFailure.Some? then candidate.priorFailure.value.stableMessage else prior.stableMessage;
    var mine := NormalizeFailureText(message);
    var theirs := NormalizeFailureText(prior.stableMessage);
    NormalizeIdentifiesStableWords(message, prior.stableMessage);
    permitted := !(candidate.tool == prior.tool && candidate.operation == prior.operation && mine == theirs);
  }
}
