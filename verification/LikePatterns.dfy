// LIKE with escape character '\' (section 8.5 of ISO/IEC 9075-2) and the
// escaping the filter compiler applies to a user's search text.

module LikePatterns {
  const ESCAPE := '\\'
  const ANY_RUN := '%'
  const ANY_ONE := '_'

  predicate Special(c: char) { c == ESCAPE || c == ANY_RUN || c == ANY_ONE }

  /** `s LIKE p ESCAPE '\'`. A pattern that ends in a bare escape matches nothing. */
  predicate Like(s: string, p: string)
    decreases |s| + |p|
  {
    if p == "" then s == ""
    else if p[0] == ESCAPE then |p| >= 2 && s != "" && s[0] == p[1] && Like(s[1..], p[2..])
    else if p[0] == ANY_RUN then Like(s, p[1..]) || (s != "" && Like(s[1..], p))
    else if p[0] == ANY_ONE then s != "" && Like(s[1..], p[1..])
    else s != "" && s[0] == p[0] && Like(s[1..], p[1..])
  }

  /** `text.replace(c, repl)` for a one-character `c`. */
  function ReplaceChar(text: string, c: char, repl: string): string {
    if text == "" then ""
    else (if text[0] == c then repl else [text[0]]) + ReplaceChar(text[1..], c, repl)
  }

  /** The three replacements, backslash first. */
  function EscapeLike(text: string): string {
    ReplaceChar(ReplaceChar(ReplaceChar(text, '\\', "\\\\"), '%', "\\%"), '_', "\\_")
  }

  /** What the replacements are for: each special character gets one escape before it. */
  function EscapeEach(text: string): string {
    if text == "" then ""
    else (if Special(text[0]) then [ESCAPE, text[0]] else [text[0]]) + EscapeEach(text[1..])
  }

  lemma {:induction false} ReplaceConcat(a: string, b: string, c: char, repl: string)
    ensures ReplaceChar(a + b, c, repl) == ReplaceChar(a, c, repl) + ReplaceChar(b, c, repl)
  {
    if a == "" {
      assert a + b == b;
    } else {
      var head := if a[0] == c then repl else [a[0]];
      ReplaceConcat(a[1..], b, c, repl);
      assert (a + b)[1..] == a[1..] + b && (a + b)[0] == a[0];
      assert head + (ReplaceChar(a[1..], c, repl) + ReplaceChar(b, c, repl))
          == head + ReplaceChar(a[1..], c, repl) + ReplaceChar(b, c, repl);
    }
  }

  lemma ReplaceTwo(x: char, y: char, c: char, repl: string)
    ensures ReplaceChar([x], c, repl) == (if x == c then repl else [x])
    ensures ReplaceChar([x, y], c, repl)
         == (if x == c then repl else [x]) + (if y == c then repl else [y])
  {
    assert [x][1..] == "" && [x, y][1..] == [y];
    assert ReplaceChar([y], c, repl) == (if y == c then repl else [y]) by { assert [y][1..] == ""; }
  }

  /** The order of the replacements is right: no escape is itself escaped. */
  lemma {:induction false} EscapeIsPerCharacter(text: string)
    ensures EscapeLike(text) == EscapeEach(text)
  {
    if text != "" {
      var c, rest := text[0], text[1..];
      EscapeIsPerCharacter(rest);
      var step1 := if c == '\\' then "\\\\" else [c];
      var step2 := if c == '\\' then "\\\\" else if c == '%' then "\\%" else [c];
      var step3 := if Special(c) then [ESCAPE, c] else [c];
      var rest1 := ReplaceChar(rest, '\\', "\\\\");
      var rest2 := ReplaceChar(rest1, '%', "\\%");
      ReplaceConcat(step1, rest1, '%', "\\%");
      ReplaceConcat(step2, rest2, '_', "\\_");
      ReplaceTwo(c, c, '%', "\\%");
      ReplaceTwo('\\', '\\', '%', "\\%");
      ReplaceTwo(c, c, '_', "\\_");
      ReplaceTwo('\\', '\\', '_', "\\_");
      ReplaceTwo('\\', '%', '_', "\\_");
      assert ReplaceChar(step1, '%', "\\%") == step2;
      assert ReplaceChar(step2, '_', "\\_") == step3;
    }
  }

  predicate OccursAt(s: string, t: string, i: int) {
    0 <= i <= |s| - |t| && s[i..i + |t|] == t
  }

  predicate Contains(s: string, t: string) {
    exists i | 0 <= i <= |s| :: OccursAt(s, t, i)
  }

  /** An escaped text consumes exactly itself, whatever pattern follows. */
  lemma {:induction false} LikeEscaped(s: string, t: string, rest: string)
    ensures Like(s, EscapeEach(t) + rest) <==> OccursAt(s, t, 0) && Like(s[|t|..], rest)
  {
    var p := EscapeEach(t) + rest;
    if t == "" {
      assert p == rest && s[0..0] == "" && s[0..] == s;
    } else if s == "" {
      assert p[0] != ANY_RUN;
    } else {
      LikeEscaped(s[1..], t[1..], rest);
      if Special(t[0]) {
        assert p[2..] == EscapeEach(t[1..]) + rest;
      } else {
        assert p[1..] == EscapeEach(t[1..]) + rest;
      }
      if |s| >= |t| {
        assert s[1..][|t| - 1..] == s[|t|..];
        assert s[0..|t|] == [s[0]] + s[1..][0..|t| - 1];
        assert t == [t[0]] + t[1..];
        if s[0..|t|] == t {
          assert s[1..][0..|t| - 1] == s[0..|t|][1..];
        }
      }
    }
  }

  lemma {:induction false} LikeAnyRun(s: string, rest: string)
    ensures Like(s, [ANY_RUN] + rest) <==> exists i | 0 <= i <= |s| :: Like(s[i..], rest)
  {
    var p := [ANY_RUN] + rest;
    assert p[1..] == rest && s[0..] == s;
    if s != "" {
      LikeAnyRun(s[1..], rest);
      if Like(s[1..], p) {
        var i :| 0 <= i <= |s[1..]| && Like(s[1..][i..], rest);
        assert s[1..][i..] == s[i + 1..];
      }
      if i :| 0 < i <= |s| && Like(s[i..], rest) {
        assert s[1..][i - 1..] == s[i..];
      }
    }
  }

  lemma LikeTrailingRun(s: string)
    ensures Like(s, [ANY_RUN])
  {
    assert [ANY_RUN] == [ANY_RUN] + "";
    LikeAnyRun(s, "");
    assert s[|s|..] == "" && Like(s[|s|..], "");
  }

  lemma StartsWithPattern(s: string, t: string)
    ensures Like(s, EscapeLike(t) + "%") <==> t <= s
  {
    EscapeIsPerCharacter(t);
    LikeEscaped(s, t, "%");
    if |t| <= |s| { LikeTrailingRun(s[|t|..]); }
  }

  lemma EndsWithPattern(s: string, t: string)
    ensures Like(s, "%" + EscapeLike(t)) <==> |t| <= |s| && s[|s| - |t|..] == t
  {
    EscapeIsPerCharacter(t);
    LikeAnyRun(s, EscapeEach(t));
    forall i | 0 <= i <= |s|
      ensures Like(s[i..], EscapeEach(t)) <==> s[i..] == t
    {
      LikeEscaped(s[i..], t, "");
      assert EscapeEach(t) + "" == EscapeEach(t);
      if OccursAt(s[i..], t, 0) && s[i..][|t|..] == "" {
        assert s[i..][0..|t|] == s[i..];
      }
      if s[i..] == t {
        assert s[i..][0..|t|] == t && s[i..][|t|..] == "";
      }
    }
    if i :| 0 <= i <= |s| && Like(s[i..], EscapeEach(t)) {
      assert i == |s| - |t|;
    }
  }

  lemma ContainsPattern(s: string, t: string)
    ensures Like(s, "%" + EscapeLike(t) + "%") <==> Contains(s, t)
  {
    EscapeIsPerCharacter(t);
    var rest := EscapeEach(t) + "%";
    assert "%" + EscapeLike(t) + "%" == [ANY_RUN] + rest;
    LikeAnyRun(s, rest);
    forall i | 0 <= i <= |s|
      ensures Like(s[i..], rest) <==> OccursAt(s, t, i)
    {
      LikeEscaped(s[i..], t, "%");
      if |t| <= |s[i..]| {
        LikeTrailingRun(s[i..][|t|..]);
        assert s[i..][0..|t|] == s[i..i + |t|];
      }
    }
  }

  // --- case-insensitive matching ---------------------------------------------

  function Fold(fold: char -> char, s: string): string {
    seq(|s|, i requires 0 <= i < |s| => fold(s[i]))
  }

  /** A case fold leaves the three LIKE metacharacters alone and maps nothing else onto them. */
  ghost predicate FoldLaw(fold: char -> char) {
    && (forall c | Special(c) :: fold(c) == c)
    && (forall c | !Special(c) :: !Special(fold(c)))
  }

  /** `s ILIKE p ESCAPE '\'`: both sides are folded, then matched. */
  predicate ILike(fold: char -> char, s: string, p: string) {
    Like(Fold(fold, s), Fold(fold, p))
  }

  lemma {:induction false} FoldEscape(fold: char -> char, t: string)
    requires FoldLaw(fold)
    ensures Fold(fold, EscapeEach(t)) == EscapeEach(Fold(fold, t))
  {
    if t != "" {
      FoldEscape(fold, t[1..]);
      assert Fold(fold, t)[1..] == Fold(fold, t[1..]);
    }
  }

  lemma FoldedPatterns(fold: char -> char, t: string)
    requires FoldLaw(fold)
    ensures Fold(fold, EscapeLike(t)) == EscapeLike(Fold(fold, t))
    ensures Fold(fold, EscapeLike(t) + "%") == EscapeLike(Fold(fold, t)) + "%"
    ensures Fold(fold, "%" + EscapeLike(t)) == "%" + EscapeLike(Fold(fold, t))
    ensures Fold(fold, "%" + EscapeLike(t) + "%") == "%" + EscapeLike(Fold(fold, t)) + "%"
  {
    EscapeIsPerCharacter(t);
    EscapeIsPerCharacter(Fold(fold, t));
    FoldEscape(fold, t);
  }

  /** The three patterns the compiler builds mean substring, prefix and suffix, up to case. */
  lemma ILikePatterns(fold: char -> char, s: string, t: string)
    requires FoldLaw(fold)
    ensures ILike(fold, s, "%" + EscapeLike(t) + "%") <==> Contains(Fold(fold, s), Fold(fold, t))
    ensures ILike(fold, s, EscapeLike(t) + "%") <==> Fold(fold, t) <= Fold(fold, s)
    ensures ILike(fold, s, "%" + EscapeLike(t))
       <==> |t| <= |s| && Fold(fold, s)[|s| - |t|..] == Fold(fold, t)
  {
    FoldedPatterns(fold, t);
    ContainsPattern(Fold(fold, s), Fold(fold, t));
    StartsWithPattern(Fold(fold, s), Fold(fold, t));
    EndsWithPattern(Fold(fold, s), Fold(fold, t));
  }
}
