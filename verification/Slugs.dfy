// Field keys derived from labels: always of the shape the filter compiler
// accepts, and free as long as fewer than 999 keys are taken.

module Slugs {
  import opened Prelude
  import opened FilterCompiler

  // --- from a label to a base ---------------------------------------------------------

  predicate Alnum(c: char) { 'a' <= c <= 'z' || '0' <= c <= '9' }

  function Lower(s: string): string {
    seq(|s|, i requires 0 <= i < |s| => if 'A' <= s[i] <= 'Z' then (s[i] as int + 32) as char else s[i])
  }

  /** Each run of other characters becomes one underscore. */
  function Collapse(s: string, inGap: bool): string {
    if s == "" then ""
    else if Alnum(s[0]) then [s[0]] + Collapse(s[1..], false)
    else (if inGap then "" else "_") + Collapse(s[1..], true)
  }

  function StripLeft(s: string): string { if s != "" && s[0] == '_' then StripLeft(s[1..]) else s }

  function StripRight(s: string): string { if s != "" && s[|s| - 1] == '_' then StripRight(s[..|s| - 1]) else s }

  function Slug(text: string): string { StripRight(StripLeft(Collapse(Lower(text), false))) }

  /** The label's words: its maximal runs of letters and digits. */
  function Words(s: string, current: string): seq<string> {
    var ended := if current == "" then [] else [current];
    if s == "" then ended
    else if Alnum(s[0]) then Words(s[1..], current + [s[0]])
    else ended + Words(s[1..], "")
  }

  function Join(words: seq<string>): string {
    if |words| == 0 then "" else if |words| == 1 then words[0] else words[0] + "_" + Join(words[1..])
  }

  lemma {:induction false} StripRightAfter(prefix: string, s: string)
    ensures StripRight(s) != "" ==> StripRight(prefix + s) == prefix + StripRight(s)
    ensures StripRight(s) == "" ==> StripRight(prefix + s) == StripRight(prefix)
  {
    if s == "" {
      assert prefix + s == prefix;
    } else if s[|s| - 1] == '_' {
      assert (prefix + s)[..|prefix + s| - 1] == prefix + s[..|s| - 1];
      StripRightAfter(prefix, s[..|s| - 1]);
    }
  }

  lemma WordStays(word: string)
    requires word != "" && forall c | c in word :: Alnum(c)
    ensures StripRight(word) == word && StripRight(word + "_") == word
  {
    assert word[|word| - 1] in word;
    assert (word + "_")[..|word|] == word;
  }

  lemma GapStep(word: string, rest: string, words: seq<string>)
    requires word != "" && forall c | c in word :: Alnum(c)
    requires StripRight(rest) == Join(words) && (Join(words) == "" <==> words == [])
    ensures StripRight(word + ("_" + rest)) == Join([word] + words) != ""
  {
    hide StripRight;
    WordStays(word);
    assert word + ("_" + rest) == (word + "_") + rest;
    StripRightAfter(word + "_", rest);
    assert ([word] + words)[1..] == words;
    assert (word + "_") + Join(words) == word + "_" + Join(words);
  }

  lemma {:induction false} WordsJoin(s: string, current: string)
    requires forall c | c in current :: Alnum(c)
    ensures current != "" ==> StripRight(current + Collapse(s, false)) == Join(Words(s, current))
    ensures current == "" ==> StripRight(Collapse(s, true)) == Join(Words(s, current))
    ensures Join(Words(s, current)) == "" <==> Words(s, current) == []
    ensures current != "" ==> Words(s, current) != []
    decreases |s|
  {
    hide StripRight, Join, Alnum;
    EmptyEnds();
    if s == "" {
      assert current + "" == current;
      if current != "" {
        WordStays(current);
      }
    } else if Alnum(s[0]) {
      WordsJoin(s[1..], current + [s[0]]);
      assert current == "" ==> current + [s[0]] == [s[0]];
      assert current + ([s[0]] + Collapse(s[1..], false)) == (current + [s[0]]) + Collapse(s[1..], false);
    } else {
      WordsJoin(s[1..], "");
      if current != "" {
        GapStep(current, Collapse(s[1..], true), Words(s[1..], ""));
      } else {
        assert [] + Words(s[1..], "") == Words(s[1..], "");
        assert "" + Collapse(s[1..], true) == Collapse(s[1..], true);
      }
    }
  }

  lemma EmptyEnds()
    ensures StripRight("") == "" && Join([]) == "" && forall word :: Join([word]) == word
  {}

  /** A slug is the text's words joined by underscores. */
  lemma SlugIsWords(text: string)
    ensures Slug(text) == Join(Words(Lower(text), ""))
  {
    var s := Lower(text);
    if s != "" {
      if Alnum(s[0]) {
        WordsJoin(s[1..], [s[0]]);
        assert "" + [s[0]] == [s[0]];
      } else {
        WordsJoin(s[1..], "");
        NoGapFirst(s[1..]);
        assert ("_" + Collapse(s[1..], true))[1..] == Collapse(s[1..], true);
        assert StripLeft(Collapse(s, false)) == Collapse(s[1..], true);
        assert [] + Words(s[1..], "") == Words(s[1..], "");
      }
    }
  }

  lemma {:induction false} NoGapFirst(s: string)
    ensures Collapse(s, true) != "" ==> Collapse(s, true)[0] != '_'
  {
    if s != "" && !Alnum(s[0]) {
      NoGapFirst(s[1..]);
    }
  }

  // --- a free key -----------------------------------------------------------------------

  function Digit(d: nat): char
    requires d < 10
  {
    ('0' as int + d) as char
  }

  function Decimal(n: nat): string { if n < 10 then [Digit(n)] else Decimal(n / 10) + [Digit(n % 10)] }

  lemma {:induction false} DecimalInjective(m: nat, n: nat)
    requires Decimal(m) == Decimal(n)
    ensures m == n
  {
    var a, b := Decimal(m), Decimal(n);
    assert a[|a| - 1] == b[|b| - 1];
    assert a[..|a| - 1] == b[..|b| - 1];
    DecimalNonEmpty(m / 10);
    DecimalNonEmpty(n / 10);
    if m >= 10 && n >= 10 {
      DecimalInjective(m / 10, n / 10);
    }
  }

  lemma {:induction false} DecimalNonEmpty(n: nat)
    ensures Decimal(n) != "" && forall c | c in Decimal(n) :: '0' <= c <= '9'
  {
    if n >= 10 {
      DecimalNonEmpty(n / 10);
    }
  }

  lemma {:induction false} DecimalWidth(n: nat, width: nat)
    requires n < Pow10(width) && width > 0
    ensures |Decimal(n)| <= width
  {
    if n >= 10 {
      DecimalWidth(n / 10, width - 1);
    }
  }

  function Pow10(n: nat): nat { if n == 0 then 1 else 10 * Pow10(n - 1) }

  function Base(text: string): string {
    var slug := Slug(text);
    var named := if slug == "" then "field" else slug;
    if |named| <= 56 then named else named[..56]
  }

  function Candidate(base: string, n: nat): string { if n < 2 then base else base + "_" + Decimal(n) }

  function Letters(s: string): string {
    if s == "" then ""
    else (if 'a' <= s[0] <= 'z' || '0' <= s[0] <= '9' then [s[0]] else "") + Letters(s[1..])
  }

  function Concat(words: seq<string>): string { if words == [] then "" else words[0] + Concat(words[1..]) }

  /** The words hold all the small letters and digits of a text, in order, and nothing else. */
  lemma {:induction false} WordsAreLetters(s: string, current: string)
    ensures Concat(Words(s, current)) == current + Letters(s)
    ensures forall word | word in Words(s, current) :: word != ""
  {
    if s != "" {
      if Alnum(s[0]) {
        WordsAreLetters(s[1..], current + [s[0]]);
      } else {
        WordsAreLetters(s[1..], "");
        if current != "" {
          assert ([current] + Words(s[1..], ""))[1..] == Words(s[1..], "");
        } else {
          assert [] + Words(s[1..], "") == Words(s[1..], "");
        }
      }
    }
  }

  /** The base is the words joined by underscores, cut after 56 characters, or "field" without any. */
  lemma BaseIsWords(text: string)
    ensures var joined := Join(Words(Lower(text), ""));
      && (joined == "" ==> Base(text) == "field")
      && (joined != "" ==> Base(text) <= joined && |Base(text)| == Min(|joined|, 56))
  {
    SlugIsWords(text);
  }

  lemma TwoWords()
    ensures Base("A b!") == "a_b"
  {
    assert Lower("A b!") == "a b!";
    assert Words("a b!", "") == ["a", "b"] by {
      assert Words("", "") == [];
      assert Words("!", "b") == ["b"];
      assert "" + ['b'] == "b" && "" + ['a'] == "a";
      assert Words("b!", "") == ["b"];
      assert Words(" b!", "a") == ["a", "b"];
    }
    BaseIsWords("A b!");
  }

  /** The number a row of digits writes. */
  function Reads(digits: string): int {
    if digits == "" then 0 else 10 * Reads(digits[..|digits| - 1]) + (digits[|digits| - 1] as int - '0' as int)
  }

  lemma {:induction false} DecimalReads(n: nat)
    ensures forall c | c in Decimal(n) :: '0' <= c <= '9'
    ensures Reads(Decimal(n)) == n
    ensures n > 0 ==> Decimal(n)[0] != '0'
  {
    DecimalNonEmpty(n);
    if n >= 10 {
      DecimalReads(n / 10);
      DecimalNonEmpty(n / 10);
      assert Decimal(n)[..|Decimal(n)| - 1] == Decimal(n / 10);
    }
  }

  /** The first n candidates: the base and the suffixes 2 to n. */
  function Candidates(base: string, n: nat): set<string> {
    if n == 0 then {} else Candidates(base, n - 1) + {Candidate(base, n)}
  }

  lemma CandidatesDiffer(base: string, m: nat, n: nat)
    requires 1 <= m < n
    ensures Candidate(base, m) != Candidate(base, n)
  {
    if m == 1 {
      assert |Candidate(base, n)| > |base|;
    } else if Candidate(base, m) == Candidate(base, n) {
      assert Candidate(base, m)[|base| + 1..] == Decimal(m);
      assert Candidate(base, n)[|base| + 1..] == Decimal(n);
      DecimalInjective(m, n);
    }
  }

  lemma {:induction false} CandidatesAreMany(base: string, n: nat)
    ensures |Candidates(base, n)| == n
    ensures forall key | key in Candidates(base, n) :: exists m | 1 <= m <= n :: key == Candidate(base, m)
  {
    if n > 0 {
      CandidatesAreMany(base, n - 1);
      forall m | 1 <= m < n
        ensures Candidate(base, m) != Candidate(base, n)
      {
        CandidatesDiffer(base, m, n);
      }
    }
  }

  /** Keys that hold every candidate are at least as many. */
  lemma AllTakenIsMany(base: string, n: nat, taken: set<string>)
    requires forall m | 1 <= m <= n :: Candidate(base, m) in taken
    ensures |taken| >= n
  {
    CandidatesAreMany(base, n);
    assert Candidates(base, n) <= taken;
    SubsetSize(Candidates(base, n), taken);
  }

  /** The key for a new field; `hex` is the random tail of the last resort. */
  method SlugifyKey(text: string, taken: set<string>, hex: string) returns (key: string)
    requires |hex| == 6 && forall c | c in hex :: KeyChar(c)
    ensures KeyShape(key)
    ensures 1 <= |key| <= 64 && forall c | c in key :: 'a' <= c <= 'z' || '0' <= c <= '9' || c == '_'
    ensures Base(text) !in taken ==> key == Base(text)
    ensures key in taken ==> |taken| >= 999 && key == Base(text) + "_" + hex
    ensures (exists n | 1 <= n <= 999 :: key == Candidate(Base(text), n) && key !in taken
                                         && forall m | 1 <= m < n :: Candidate(Base(text), m) in taken)
         || (key == Base(text) + "_" + hex && forall m | 1 <= m <= 999 :: Candidate(Base(text), m) in taken)
  {
    var base := Base(text);
    BaseShape(text);
    if base !in taken {
      assert base == Candidate(base, 1);
      return base;
    }
    for suffix := 2 to 1000
      invariant forall m | 1 <= m < suffix :: Candidate(base, m) in taken
    {
      var candidate := base + "_" + Decimal(suffix);
      if candidate !in taken {
        assert candidate == Candidate(base, suffix);
        CandidateShape(base, suffix);
        return candidate;
      }
    }
    AllTakenIsMany(base, 999, taken);
    return base + "_" + hex;
  }

  lemma CandidateShape(base: string, n: nat)
    requires KeyShape(base) && |base| <= 56 && 2 <= n <= 999
    ensures KeyShape(Candidate(base, n))
  {
    DecimalNonEmpty(n);
    assert Pow10(3) == 1000;
    DecimalWidth(n, 3);
  }

  lemma BaseShape(text: string)
    ensures KeyShape(Base(text)) && |Base(text)| <= 56
  {
    var collapsed := Collapse(Lower(text), false);
    CollapseChars(Lower(text), false);
    StripKeeps(collapsed);
  }

  lemma {:induction false} CollapseChars(s: string, inGap: bool)
    ensures forall c | c in Collapse(s, inGap) :: KeyChar(c)
  {
    if s != "" {
      CollapseChars(s[1..], !Alnum(s[0]));
    }
  }

  lemma StripKeeps(s: string)
    ensures forall c | c in StripRight(StripLeft(s)) :: c in s
  {
    StripLeftKeeps(s);
    StripRightKeeps(StripLeft(s));
  }

  lemma {:induction false} StripLeftKeeps(s: string)
    ensures forall c | c in StripLeft(s) :: c in s
  {
    if s != "" && s[0] == '_' {
      StripLeftKeeps(s[1..]);
    }
  }

  lemma {:induction false} StripRightKeeps(s: string)
    ensures forall c | c in StripRight(s) :: c in s
  {
    if s != "" && s[|s| - 1] == '_' {
      StripRightKeeps(s[..|s| - 1]);
    }
  }
}
