/**
 * Whether the name on a receipt may be the configured beneficiary. A name is the list of its
 * folded words; a masked name shows only the initials.
 */
module Beneficiary {
  const NOISE: set<string> := {"de", "del", "la", "las", "los", "y", "da", "do", "dos"}
  const MIN_PREFIX: nat := 3

  predicate Words(words: seq<string>) {
    forall i :: 0 <= i < |words| ==> words[i] != ""
  }

  /** The words that carry identity. */
  function Tokens(words: seq<string>): (tokens: seq<string>)
    ensures Words(words) ==> Words(tokens)
  {
    if words == [] then []
    else if words[0] in NOISE then Tokens(words[1..])
    else [words[0]] + Tokens(words[1..])
  }

  /** Same word, or one cut short of the other with at least three letters left. */
  predicate SameWord(token: string, candidate: string) {
    || token == candidate
    || (|token| >= MIN_PREFIX && |candidate| >= MIN_PREFIX && (token <= candidate || candidate <= token))
  }

  predicate Present(token: string, candidates: seq<string>) {
    exists i :: 0 <= i < |candidates| && SameWord(token, candidates[i])
  }

  method TokenPresent(token: string, candidates: seq<string>) returns (found: bool)
    ensures found == Present(token, candidates)
  {
    for i := 0 to |candidates|
      invariant forall k :: 0 <= k < i ==> !SameWord(token, candidates[k])
    {
      if token == candidates[i] {
        return true;
      }
      var longEnough := |token| >= MIN_PREFIX && |candidates[i]| >= MIN_PREFIX;
      if longEnough && (token <= candidates[i] || candidates[i] <= token) {
        return true;
      }
    }
    return false;
  }

  function Initials(tokens: seq<string>): (initials: seq<char>)
    requires Words(tokens)
    ensures |initials| == |tokens| && forall i :: 0 <= i < |tokens| ==> initials[i] == tokens[i][0]
  {
    seq(|tokens|, i requires 0 <= i < |tokens| => tokens[i][0])
  }

  function Insert(c: char, sorted: seq<char>): seq<char> {
    if sorted == [] || c <= sorted[0] then [c] + sorted else [sorted[0]] + Insert(c, sorted[1..])
  }

  function Sort(s: seq<char>): seq<char> {
    if s == [] then [] else Insert(s[0], Sort(s[1..]))
  }

  predicate MatchesMasked(expected: seq<string>, found: seq<string>)
    requires Words(expected) && Words(found)
  {
    |expected| == |found| && Sort(Initials(expected)) == Sort(Initials(found))
  }

  /** `found` may be `expected`. */
  predicate Matches(expected: seq<string>, found: seq<string>, masked: bool)
    requires Words(expected) && Words(found)
  {
    var e, f := Tokens(expected), Tokens(found);
    && e != [] && f != []
    && if masked then MatchesMasked(e, f) else forall i :: 0 <= i < |e| ==> Present(e[i], f)
  }

  /** The name without one of its words. */
  function Dropped(words: seq<string>, i: nat): seq<string>
    requires i < |words|
  {
    words[..i] + words[i + 1..]
  }

  // ---------------------------------------------------------------- sorting

  predicate Sorted(s: seq<char>) {
    forall i, j :: 0 <= i < j < |s| ==> s[i] <= s[j]
  }

  lemma SortedCons(x: char, rest: seq<char>)
    requires Sorted(rest)
    requires forall y :: y in multiset(rest) ==> x <= y
    ensures Sorted([x] + rest)
  {
    var s := [x] + rest;
    forall i, j | 0 <= i < j < |s| ensures s[i] <= s[j] {
      assert s[j] == rest[j - 1] && rest[j - 1] in multiset(rest);
      assert i > 0 ==> s[i] == rest[i - 1];
    }
  }

  lemma HeadIsLeast(s: seq<char>, y: char)
    requires Sorted(s) && y in multiset(s)
    ensures s != [] && s[0] <= y
  {
    assert y in s;
    var i :| 0 <= i < |s| && s[i] == y;
  }

  lemma {:induction false} InsertKeepsLetters(c: char, sorted: seq<char>)
    ensures multiset(Insert(c, sorted)) == multiset(sorted) + multiset{c}
  {
    if sorted != [] {
      assert sorted == [sorted[0]] + sorted[1..];
      if c > sorted[0] {
        InsertKeepsLetters(c, sorted[1..]);
      }
    }
  }

  lemma {:induction false} InsertSorts(c: char, sorted: seq<char>)
    requires Sorted(sorted)
    ensures Sorted(Insert(c, sorted))
  {
    forall y | y in multiset(sorted) ensures sorted[0] <= y {
      HeadIsLeast(sorted, y);
    }
    if sorted == [] || c <= sorted[0] {
      SortedCons(c, sorted);
    } else {
      var tail := sorted[1..];
      assert sorted == [sorted[0]] + tail;
      InsertSorts(c, tail);
      InsertKeepsLetters(c, tail);
      SortedCons(sorted[0], Insert(c, tail));
    }
  }

  lemma {:induction false} SortSorts(s: seq<char>)
    ensures Sorted(Sort(s)) && multiset(Sort(s)) == multiset(s)
  {
    if s != [] {
      SortSorts(s[1..]);
      InsertSorts(s[0], Sort(s[1..]));
      InsertKeepsLetters(s[0], Sort(s[1..]));
      assert s == [s[0]] + s[1..];
    }
  }

  lemma RemovesOne<T>(s: seq<T>, j: nat)
    requires j < |s|
    ensures multiset(s[..j] + s[j + 1..]) == multiset(s) - multiset{s[j]}
  {
    assert s == s[..j] + [s[j]] + s[j + 1..];
  }

  lemma TailLosesHead<T>(s: seq<T>)
    requires s != []
    ensures multiset(s[1..]) == multiset(s) - multiset{s[0]}
  {
    RemovesOne(s, 0);
    assert s[..0] + s[1..] == s[1..];
  }

  lemma HeadsAgree(a: seq<char>, b: seq<char>)
    requires Sorted(a) && Sorted(b) && multiset(a) == multiset(b) && a != []
    ensures b != [] && a[0] == b[0]
  {
    assert a[0] in multiset(a);
    HeadIsLeast(b, a[0]);
    assert b[0] in multiset(b);
    HeadIsLeast(a, b[0]);
  }

  /** Two sorted lists with the same letters are the same list. */
  lemma {:induction false} SortedIsUnique(a: seq<char>, b: seq<char>)
    requires Sorted(a) && Sorted(b) && multiset(a) == multiset(b)
    ensures a == b
  {
    if a == [] {
      assert |multiset(b)| == 0;
    } else {
      HeadsAgree(a, b);
      TailLosesHead(a);
      TailLosesHead(b);
      SortedIsUnique(a[1..], b[1..]);
      assert a == [a[0]] + a[1..];
    }
  }

  /** A masked match is: as many words, with the same initials, in any order. */
  lemma MaskedComparesInitials(expected: seq<string>, found: seq<string>)
    requires Words(expected) && Words(found)
    ensures MatchesMasked(expected, found) <==> multiset(Initials(expected)) == multiset(Initials(found))
  {
    var e, f := Initials(expected), Initials(found);
    SortSorts(e);
    SortSorts(f);
    if multiset(e) == multiset(f) {
      SortedIsUnique(Sort(e), Sort(f));
      assert |multiset(e)| == |e| && |multiset(f)| == |f|;
    }
  }

  /** A masked name matches exactly where the words that carry identity, some, have the same initials on both sides. */
  lemma MaskedMatchesExactly(expected: seq<string>, found: seq<string>)
    requires Words(expected) && Words(found)
    ensures Matches(expected, found, true) <==>
              Tokens(expected) != [] && multiset(Initials(Tokens(expected))) == multiset(Initials(Tokens(found)))
  {
    var e, f := Tokens(expected), Tokens(found);
    MaskedComparesInitials(e, f);
    if multiset(Initials(e)) == multiset(Initials(f)) {
      assert |multiset(Initials(e))| == |e| && |multiset(Initials(f))| == |f|;
    }
  }

  // ---------------------------------------------------------------- order of the words

  lemma {:induction false} TokensCount(words: seq<string>, x: string)
    ensures multiset(Tokens(words))[x] == if x in NOISE then 0 else multiset(words)[x]
  {
    if words != [] {
      TokensCount(words[1..], x);
      assert words == [words[0]] + words[1..];
    }
  }

  lemma TokensPermute(a: seq<string>, b: seq<string>)
    requires multiset(a) == multiset(b)
    ensures multiset(Tokens(a)) == multiset(Tokens(b))
  {
    forall x ensures multiset(Tokens(a))[x] == multiset(Tokens(b))[x] {
      TokensCount(a, x);
      TokensCount(b, x);
    }
  }

  lemma {:induction false} InitialsPermute(a: seq<string>, b: seq<string>)
    requires Words(a) && Words(b) && multiset(a) == multiset(b)
    ensures multiset(Initials(a)) == multiset(Initials(b))
    decreases |a|
  {
    if a == [] {
      assert |multiset(b)| == 0;
    } else {
      var j := CommonWord(a, b);
      InitialsPermute(Dropped(a, 0), Dropped(b, j));
      InitialsAt(a, 0);
      InitialsAt(b, j);
    }
  }

  lemma CommonWord(a: seq<string>, b: seq<string>) returns (j: nat)
    requires Words(a) && Words(b) && multiset(a) == multiset(b) && a != []
    ensures j < |b| && b[j] == a[0]
    ensures Words(Dropped(a, 0)) && Words(Dropped(b, j))
    ensures multiset(Dropped(a, 0)) == multiset(Dropped(b, j))
  {
    assert a[0] in multiset(a);
    j :| 0 <= j < |b| && b[j] == a[0];
    RemovesOne(a, 0);
    RemovesOne(b, j);
  }

  lemma InitialsAt(b: seq<string>, j: nat)
    requires Words(b) && j < |b|
    ensures Words(Dropped(b, j))
    ensures multiset(Initials(b)) == multiset(Initials(Dropped(b, j))) + multiset{b[j][0]}
  {
    assert Initials(b) == Initials(b)[..j] + [b[j][0]] + Initials(b)[j + 1..];
    assert Initials(Dropped(b, j)) == Initials(b)[..j] + Initials(b)[j + 1..];
  }

  lemma PresentInPermutation(token: string, a: seq<string>, b: seq<string>)
    requires multiset(a) == multiset(b) && Present(token, a)
    ensures Present(token, b)
  {
    var i :| 0 <= i < |a| && SameWord(token, a[i]);
    assert a[i] in multiset(b);
  }

  lemma MatchSurvivesReorder(e1: seq<string>, e2: seq<string>, f1: seq<string>, f2: seq<string>, masked: bool)
    requires Words(e1) && Words(e2) && Words(f1) && Words(f2)
    requires multiset(e1) == multiset(e2) && multiset(f1) == multiset(f2)
    requires Matches(e1, f1, masked)
    ensures Matches(e2, f2, masked)
  {
    TokensPermute(e1, e2);
    TokensPermute(f1, f2);
    var e, f := Tokens(e2), Tokens(f2);
    assert |multiset(Tokens(e1))| == |multiset(e)| && |multiset(Tokens(f1))| == |multiset(f)|;
    if masked {
      MaskedComparesInitials(Tokens(e1), Tokens(f1));
      InitialsPermute(Tokens(e1), e);
      InitialsPermute(Tokens(f1), f);
      MaskedComparesInitials(e, f);
    } else {
      forall i | 0 <= i < |e| ensures Present(e[i], f) {
        assert e[i] in multiset(Tokens(e1));
        PresentInPermutation(e[i], Tokens(f1), f);
      }
    }
  }

  /** The order of the words never matters, on either side, masked or not. */
  lemma OrderIsIrrelevant(e1: seq<string>, e2: seq<string>, f1: seq<string>, f2: seq<string>, masked: bool)
    requires Words(e1) && Words(e2) && Words(f1) && Words(f2)
    requires multiset(e1) == multiset(e2) && multiset(f1) == multiset(f2)
    ensures Matches(e1, f1, masked) <==> Matches(e2, f2, masked)
  {
    if Matches(e1, f1, masked) {
      MatchSurvivesReorder(e1, e2, f1, f2, masked);
    } else if Matches(e2, f2, masked) {
      MatchSurvivesReorder(e2, e1, f2, f1, masked);
    }
  }

  /** A name matches itself, masked or not, exactly when some word of it carries identity. */
  lemma MatchesItself(words: seq<string>, masked: bool)
    requires Words(words)
    ensures Matches(words, words, masked) <==> exists i :: 0 <= i < |words| && words[i] !in NOISE
  {
    var tokens := Tokens(words);
    forall i | 0 <= i < |tokens| ensures Present(tokens[i], tokens) {
      assert SameWord(tokens[i], tokens[i]);
    }
    TokensAreWords(words);
    if exists i :: 0 <= i < |words| && words[i] !in NOISE {
      var i :| 0 <= i < |words| && words[i] !in NOISE;
      assert words[i] in tokens;
    }
    if tokens != [] {
      assert tokens[0] in tokens;
    }
  }

  lemma TokensAreWords(words: seq<string>)
    ensures forall x :: x in Tokens(words) <==> x in words && x !in NOISE
  {
    forall x ensures x in Tokens(words) <==> x in words && x !in NOISE {
      TokensCount(words, x);
      assert x in Tokens(words) <==> multiset(Tokens(words))[x] > 0;
      assert x in words <==> multiset(words)[x] > 0;
    }
  }

  // ---------------------------------------------------------------- what the bank may do to the name

  /** `short` is `word`, or `word` cut to at least three letters. */
  predicate CutOf(short: string, word: string) {
    short == word || (|short| >= MIN_PREFIX && short <= word)
  }

  /** Every identity word of `found` still stands in `other`, whole or cut; other words may come. */
  predicate Keeps(found: seq<string>, other: seq<string>) {
    forall i :: 0 <= i < |found| && found[i] !in NOISE ==> KeptIn(found[i], other)
  }

  predicate KeptIn(word: string, other: seq<string>) {
    exists j :: 0 <= j < |other| && other[j] !in NOISE && CutOf(other[j], word)
  }

  lemma CutStaysSameWord(token: string, word: string, short: string)
    requires SameWord(token, word) && CutOf(short, word)
    ensures SameWord(token, short)
  {
    if short != word && |token| < |short| && token != word {
      assert token <= word;
      assert forall k :: 0 <= k < |token| ==> token[k] == word[k] == short[k];
    } else if short != word && token != word {
      assert forall k :: 0 <= k < |short| ==> short[k] == word[k];
    }
  }

  /** Adding words to the receipt, reordering them and cutting them never loses a match. */
  lemma KeptWordsKeepTheMatch(expected: seq<string>, found: seq<string>, other: seq<string>)
    requires Words(expected) && Words(found) && Words(other)
    requires Matches(expected, found, false) && Keeps(found, other)
    ensures Matches(expected, other, false)
  {
    var e, f, o := Tokens(expected), Tokens(found), Tokens(other);
    forall i | 0 <= i < |e| ensures Present(e[i], o) {
      var k :| 0 <= k < |f| && SameWord(e[i], f[k]);
      PresentAfter(e[i], f[k], found, other);
    }
    assert Present(e[0], o);
  }

  lemma PresentAfter(token: string, word: string, found: seq<string>, other: seq<string>)
    requires word in Tokens(found) && SameWord(token, word) && Keeps(found, other)
    ensures Present(token, Tokens(other))
  {
    TokensAreWords(found);
    TokensAreWords(other);
    var i :| 0 <= i < |found| && found[i] == word;
    assert KeptIn(found[i], other);
    var j :| 0 <= j < |other| && other[j] !in NOISE && CutOf(other[j], word);
    CutStaysSameWord(token, word, other[j]);
    assert other[j] in Tokens(other);
  }

  function Cut(found: seq<string>, i: nat, letters: nat): seq<string>
    requires i < |found| && letters <= |found[i]|
  {
    found[i := found[i][..letters]]
  }

  /** The cut leaves a noise word where an identity word was. */
  predicate CutsIntoNoise(found: seq<string>, i: nat, letters: nat)
    requires i < |found| && letters <= |found[i]|
  {
    found[i] !in NOISE && found[i][..letters] in NOISE
  }

  lemma {:induction false} TokensConcat(a: seq<string>, b: seq<string>)
    ensures Tokens(a + b) == Tokens(a) + Tokens(b)
  {
    if a == [] {
      assert a + b == b;
    } else {
      assert (a + b)[1..] == a[1..] + b;
      TokensConcat(a[1..], b);
    }
  }

  lemma CutIntoNoiseDrops(found: seq<string>, i: nat, letters: nat)
    requires i < |found| && letters <= |found[i]| && found[i][..letters] in NOISE
    ensures Tokens(Cut(found, i, letters)) == Tokens(Dropped(found, i))
  {
    var short := found[i][..letters];
    assert Cut(found, i, letters) == found[..i] + ([short] + found[i + 1..]);
    TokensConcat(found[..i], [short] + found[i + 1..]);
    assert ([short] + found[i + 1..])[1..] == found[i + 1..];
    TokensConcat(found[..i], found[i + 1..]);
  }

  /**
   * Cutting one word of the receipt to three letters or more keeps a match, except that a cut
   * that happens to spell a noise word acts as if the word were missing.
   */
  lemma CuttingKeepsExactly(expected: seq<string>, found: seq<string>, i: nat, letters: nat)
    requires Words(expected) && Words(found) && Matches(expected, found, false)
    requires i < |found| && MIN_PREFIX <= letters <= |found[i]|
    ensures Words(Cut(found, i, letters)) && Words(Dropped(found, i))
    ensures Matches(expected, Cut(found, i, letters), false)
            <==> !CutsIntoNoise(found, i, letters) || Matches(expected, Dropped(found, i), false)
  {
    var cut := Cut(found, i, letters);
    if found[i] in NOISE {
      NoiseStaysHarmless(expected, found, i, letters);
    } else if found[i][..letters] in NOISE {
      CutIntoNoiseDrops(found, i, letters);
    } else {
      forall k | 0 <= k < |found| && found[k] !in NOISE ensures KeptIn(found[k], cut) {
        assert cut[k] == if k == i then found[i][..letters] else found[k];
        assert CutOf(cut[k], found[k]);
      }
      KeptWordsKeepTheMatch(expected, found, cut);
    }
  }

  lemma NoiseStaysHarmless(expected: seq<string>, found: seq<string>, i: nat, letters: nat)
    requires Words(expected) && Words(found) && Matches(expected, found, false)
    requires i < |found| && MIN_PREFIX <= letters <= |found[i]| && found[i] in NOISE
    ensures Matches(expected, Cut(found, i, letters), false)
  {
    var cut := Cut(found, i, letters);
    forall k | 0 <= k < |found| && found[k] !in NOISE ensures KeptIn(found[k], cut) {
      assert cut[k] == found[k];
    }
    KeptWordsKeepTheMatch(expected, found, cut);
  }

  /** A truncated surname that spells a particle loses the only match. */
  lemma DelgadoIsLost()
    ensures Matches(["delgado"], ["delgado"], false)
    ensures !Matches(["delgado"], Cut(["delgado"], 0, 3), false)
  {
    var name := ["delgado"];
    assert name[0] !in NOISE by { assert |name[0]| == 7; }
    MatchesItself(name, false);
    assert "delgado"[..3] == "del";
    CuttingKeepsExactly(name, name, 0, 3);
    assert Dropped(name, 0) == [];
  }

  /**
   * A different name does not pass: when an unmasked match is declared, every identity word
   * expected has on the receipt either itself or a word with the same first three letters.
   */
  lemma MatchIsEvidence(expected: seq<string>, found: seq<string>, word: string)
    requires Words(expected) && Words(found) && Matches(expected, found, false)
    requires word in expected && word !in NOISE
    ensures word in found || exists other :: other in found && |word| >= 3 && |other| >= 3 && word[..3] == other[..3]
  {
    TokensAreWords(expected);
    TokensAreWords(found);
    var e, f := Tokens(expected), Tokens(found);
    assert word in e;
    var i :| 0 <= i < |e| && e[i] == word;
    var k :| 0 <= k < |f| && SameWord(word, f[k]);
    assert f[k] in found;
    if word != f[k] {
      assert word[..3] == f[k][..3];
    }
  }
}
