/**
 The string operations that names, subjects and predicates go through: Rust's `trim`,
 `to_lowercase`, `replace` and `split_whitespace`, and `text_normalize` of
 crates/core/src/predicate.rs, which crates/core/src/entity.rs has too as `normalize`.

 Lower-casing is that of any tables that have the properties of Unicode's that matter; the capital
 sigma, whose lower case depends on what is around it, is as in the source's library.
 */
module Text {
  const SPACE := ' '
  const CAPITAL_SIGMA := '\U{3A3}'
  const SIGMA := '\U{3C3}'
  const FINAL_SIGMA := '\U{3C2}'

  /**
   What these operations read of the Unicode database: white space, lower-case mappings (but for the
   capital sigma), and which characters are cased and which are ignored inside a word.
   */
  datatype Letters = Letters(white: char -> bool, fold: char -> string, cased: char -> bool, ignorable: char -> bool)

  /** What holds of these tables in Unicode: white space is no letter, and lower case is its own lower case. */
  ghost predicate Sane(u: Letters) {
    && (forall c :: SaneAt(u, c)) && u.white(SPACE) && Small(u, SIGMA) && Small(u, FINAL_SIGMA)
    && !u.white(CAPITAL_SIGMA) && !u.white(SIGMA) && !u.white(FINAL_SIGMA)
  }

  ghost predicate SaneAt(u: Letters, c: char) {
    && (u.white(c) ==> u.fold(c) == [c] && !u.cased(c) && !u.ignorable(c))
    && (!u.white(c) ==> u.fold(c) != [] && forall i :: 0 <= i < |u.fold(c)| ==> !u.white(u.fold(c)[i]))
    && (c != CAPITAL_SIGMA ==> forall i :: 0 <= i < |u.fold(c)| ==> Small(u, u.fold(c)[i]))
  }

  predicate Small(u: Letters, c: char) {
    c != CAPITAL_SIGMA && u.fold(c) == [c]
  }

  const ASCII := Letters(
    c => c == SPACE || 9 <= c as int <= 13,
    c => if 'A' <= c <= 'Z' then [(c as int + 32) as char] else [c],
    c => 'A' <= c <= 'Z' || 'a' <= c <= 'z',
    c => c == '\'' || c == '.')

  type Unicode = u: Letters | Sane(u) witness ASCII

  // ----- to_lowercase

  /** Whether there is a cased letter before place `n`, but for what is ignored. */
  predicate CasedBefore(u: Unicode, s: string, n: nat)
    requires n <= |s|
    decreases n
  {
    n > 0 && if u.ignorable(s[n - 1]) then CasedBefore(u, s, n - 1) else u.cased(s[n - 1])
  }

  /** Whether there is one from place `n` on. */
  predicate CasedFrom(u: Unicode, s: string, n: nat)
    requires n <= |s|
    decreases |s| - n
  {
    n < |s| && if u.ignorable(s[n]) then CasedFrom(u, s, n + 1) else u.cased(s[n])
  }

  /** A capital sigma at the end of a word has a lower case of its own. */
  function LowerAt(u: Unicode, s: string, n: nat): string
    requires n < |s|
  {
    if s[n] != CAPITAL_SIGMA then u.fold(s[n])
    else if CasedBefore(u, s, n) && !CasedFrom(u, s, n + 1) then [FINAL_SIGMA]
    else [SIGMA]
  }

  lemma LowerAtIs(u: Unicode, s: string, n: nat)
    requires n < |s|
    ensures var low := LowerAt(u, s, n);
            && low != [] && (u.white(s[n]) || Small(u, s[n]) ==> low == [s[n]])
            && (!u.white(s[n]) ==> forall i :: 0 <= i < |low| ==> !u.white(low[i]))
            && forall i :: 0 <= i < |low| ==> Small(u, low[i])
  {
    assert SaneAt(u, s[n]) && SaneAt(u, SIGMA) && SaneAt(u, FINAL_SIGMA);
  }

  /** The lower case of the first `n` characters of `s`. */
  function LowerTo(u: Unicode, s: string, n: nat): string
    requires n <= |s|
    decreases n
  {
    if n == 0 then [] else LowerTo(u, s, n - 1) + LowerAt(u, s, n - 1)
  }

  function Lower(u: Unicode, s: string): string {
    LowerTo(u, s, |s|)
  }

  /** A capital sigma after a letter is a final one, unless a letter follows; on its own it is not. */
  lemma LowerOfSigma(u: Unicode, c: char)
    requires u.cased(c) && !u.ignorable(c) && c != CAPITAL_SIGMA
    ensures Lower(u, [c, CAPITAL_SIGMA]) == u.fold(c) + [FINAL_SIGMA]
    ensures Lower(u, [c, CAPITAL_SIGMA, c]) == u.fold(c) + [SIGMA] + u.fold(c)
    ensures Lower(u, [CAPITAL_SIGMA]) == [SIGMA]
  {
    var two, three := [c, CAPITAL_SIGMA], [c, CAPITAL_SIGMA, c];
    assert LowerTo(u, two, 1) == u.fold(c) && LowerTo(u, three, 1) == u.fold(c);
    assert CasedBefore(u, two, 1) && CasedBefore(u, three, 1) && CasedFrom(u, three, 2);
    assert LowerTo(u, three, 2) == u.fold(c) + [SIGMA];
    assert LowerTo(u, [CAPITAL_SIGMA], 0) == [];
  }

  predicate AllWhite(u: Unicode, s: string) {
    forall i :: 0 <= i < |s| ==> u.white(s[i])
  }

  /** `t` stands in `all` from `k` on, with nothing but white space around it. */
  predicate Stands(u: Unicode, all: string, t: string, k: nat) {
    && k + |t| <= |all|
    && (forall i :: 0 <= i < |t| ==> t[i] == all[k + i])
    && (forall i :: 0 <= i < |all| && !(k <= i < k + |t|) ==> u.white(all[i]))
  }

  lemma {:induction false} CasedBeforeStands(u: Unicode, all: string, t: string, k: nat, n: nat)
    requires Stands(u, all, t, k) && n <= |t|
    ensures CasedBefore(u, all, k + n) == CasedBefore(u, t, n)
    decreases n
  {
    if n > 0 {
      CasedBeforeStands(u, all, t, k, n - 1);
      assert t[n - 1] == all[k + n - 1];
    } else if k > 0 {
      assert SaneAt(u, all[k - 1]);
    }
  }

  lemma {:induction false} CasedFromStands(u: Unicode, all: string, t: string, k: nat, n: nat)
    requires Stands(u, all, t, k) && n <= |t|
    ensures CasedFrom(u, all, k + n) == CasedFrom(u, t, n)
    decreases |t| - n
  {
    if n < |t| {
      CasedFromStands(u, all, t, k, n + 1);
      assert t[n] == all[k + n];
    } else if k + n < |all| {
      assert SaneAt(u, all[k + n]);
    }
  }

  lemma LowerAtStands(u: Unicode, all: string, t: string, k: nat, n: nat)
    requires Stands(u, all, t, k) && n < |t|
    ensures LowerAt(u, all, k + n) == LowerAt(u, t, n)
  {
    CasedBeforeStands(u, all, t, k, n);
    CasedFromStands(u, all, t, k, n + 1);
    assert t[n] == all[k + n];
  }

  lemma LowerToNext(u: Unicode, all: string, t: string, k: nat, n: nat)
    requires k + n < |all| && n < |t| && LowerAt(u, all, k + n) == LowerAt(u, t, n)
    requires LowerTo(u, all, k + n) == LowerTo(u, all, k) + LowerTo(u, t, n)
    ensures LowerTo(u, all, k + n + 1) == LowerTo(u, all, k) + LowerTo(u, t, n + 1)
  {
  }

  /** White space around a string does not change the lower case of what is in it. */
  lemma {:induction false} LowerToStands(u: Unicode, all: string, t: string, k: nat, n: nat)
    requires Stands(u, all, t, k) && n <= |t|
    ensures LowerTo(u, all, k + n) == LowerTo(u, all, k) + LowerTo(u, t, n)
    decreases n
  {
    if n > 0 {
      var m := n - 1;
      LowerToStands(u, all, t, k, m);
      LowerAtStands(u, all, t, k, m);
      LowerToNext(u, all, t, k, m);
    }
  }

  /** White space is its own lower case. */
  lemma {:induction false} LowerToWhite(u: Unicode, all: string, m: nat, n: nat)
    requires m <= n <= |all| && forall i :: m <= i < n ==> u.white(all[i])
    ensures LowerTo(u, all, n) == LowerTo(u, all, m) + all[m..n]
    decreases n
  {
    if m < n {
      LowerToWhite(u, all, m, n - 1);
      LowerAtIs(u, all, n - 1);
      assert all[m..n] == all[m..n - 1] + [all[n - 1]];
    }
  }

  lemma LowerToEnd(u: Unicode, all: string, t: string, k: nat)
    requires Stands(u, all, t, k)
    ensures LowerTo(u, all, k + |t|) == all[..k] + Lower(u, t)
  {
    LowerToWhite(u, all, 0, k);
    LowerToStands(u, all, t, k, |t|);
    assert all[0..k] == all[..k];
  }

  lemma LowerStands(u: Unicode, all: string, t: string, k: nat)
    requires Stands(u, all, t, k)
    ensures Lower(u, all) == all[..k] + Lower(u, t) + all[k + |t|..]
  {
    LowerToEnd(u, all, t, k);
    LowerToWhite(u, all, k + |t|, |all|);
  }

  lemma LowerAround(u: Unicode, w1: string, t: string, w2: string)
    requires AllWhite(u, w1) && AllWhite(u, w2)
    ensures Lower(u, w1 + t + w2) == w1 + Lower(u, t) + w2
  {
    LowerStands(u, w1 + t + w2, t, |w1|);
  }

  // ----- trim

  function TrimStart(u: Unicode, s: string): string {
    if s != [] && u.white(s[0]) then TrimStart(u, s[1..]) else s
  }

  function TrimEnd(u: Unicode, s: string): string {
    if s != [] && u.white(s[|s| - 1]) then TrimEnd(u, s[..|s| - 1]) else s
  }

  function Trim(u: Unicode, s: string): string {
    TrimEnd(u, TrimStart(u, s))
  }

  predicate Trimmed(u: Unicode, s: string) {
    s != [] ==> !u.white(s[0]) && !u.white(s[|s| - 1])
  }

  lemma {:induction false} TrimStartIs(u: Unicode, s: string) returns (white: string)
    ensures AllWhite(u, white) && s == white + TrimStart(u, s)
    ensures TrimStart(u, s) != [] ==> !u.white(TrimStart(u, s)[0])
  {
    white := [];
    if s != [] && u.white(s[0]) {
      var rest := TrimStartIs(u, s[1..]);
      white := [s[0]] + rest;
      assert s == [s[0]] + s[1..];
    }
  }

  lemma {:induction false} TrimEndIs(u: Unicode, s: string) returns (white: string)
    ensures AllWhite(u, white) && s == TrimEnd(u, s) + white
    ensures TrimEnd(u, s) != [] ==> !u.white(TrimEnd(u, s)[|TrimEnd(u, s)| - 1])
  {
    white := [];
    if s != [] && u.white(s[|s| - 1]) {
      var rest := TrimEndIs(u, s[..|s| - 1]);
      white := rest + [s[|s| - 1]];
      assert s == s[..|s| - 1] + [s[|s| - 1]];
    }
  }

  lemma TrimIs(u: Unicode, s: string) returns (w1: string, w2: string)
    ensures AllWhite(u, w1) && AllWhite(u, w2) && s == w1 + Trim(u, s) + w2 && Trimmed(u, Trim(u, s))
  {
    w1 := TrimStartIs(u, s);
    w2 := TrimEndIs(u, TrimStart(u, s));
    if Trim(u, s) != [] { assert Trim(u, s)[0] == TrimStart(u, s)[0]; }
  }

  lemma {:induction false} TrimStartWhite(u: Unicode, white: string, s: string)
    requires AllWhite(u, white) && (s != [] ==> !u.white(s[0]))
    ensures TrimStart(u, white + s) == s
    decreases |white|
  {
    if white == [] {
      assert white + s == s;
    } else {
      assert (white + s)[1..] == white[1..] + s;
      TrimStartWhite(u, white[1..], s);
    }
  }

  lemma {:induction false} TrimEndWhite(u: Unicode, s: string, white: string)
    requires AllWhite(u, white) && (s != [] ==> !u.white(s[|s| - 1]))
    ensures TrimEnd(u, s + white) == s
    decreases |white|
  {
    if white == [] {
      assert s + white == s;
    } else {
      assert (s + white)[..|s + white| - 1] == s + white[..|white| - 1];
      TrimEndWhite(u, s, white[..|white| - 1]);
    }
  }

  /** Trimming takes off just the white space around what begins and ends with something else. */
  lemma {:induction false} TrimOf(u: Unicode, w1: string, s: string, w2: string)
    requires AllWhite(u, w1) && AllWhite(u, w2) && Trimmed(u, s)
    ensures Trim(u, w1 + s + w2) == s
  {
    if s == [] {
      TrimStartWhite(u, w1 + w2, []);
      assert w1 + s + w2 == (w1 + w2) + [];
    } else {
      assert w1 + s + w2 == w1 + (s + w2);
      TrimStartWhite(u, w1, s + w2);
      TrimEndWhite(u, s, w2);
    }
  }

  lemma {:induction false} LowerBegins(u: Unicode, s: string, n: nat)
    requires 0 < n <= |s|
    ensures LowerTo(u, s, n) != [] && LowerAt(u, s, 0) != [] && LowerTo(u, s, n)[0] == LowerAt(u, s, 0)[0]
  {
    LowerAtIs(u, s, 0);
    if n > 1 { LowerBegins(u, s, n - 1); }
  }

  lemma LowerOfTrimmed(u: Unicode, s: string)
    requires Trimmed(u, s)
    ensures Trimmed(u, Lower(u, s)) && (Lower(u, s) == [] <==> s == [])
  {
    if s != [] {
      LowerBegins(u, s, |s|);
      LowerAtIs(u, s, 0);
      LowerAtIs(u, s, |s| - 1);
    }
  }

  /**
   A subject is stored trimmed and then lower-cased, and looked up lower-cased and then trimmed:
   it is the same.
   */
  lemma LowerTrimCommute(u: Unicode, s: string)
    ensures Lower(u, Trim(u, s)) == Trim(u, Lower(u, s))
  {
    var w1, w2 := TrimIs(u, s);
    var t := Trim(u, s);
    LowerAround(u, w1, t, w2);
    LowerOfTrimmed(u, t);
    TrimOf(u, w1, Lower(u, t), w2);
  }

  // ----- text_normalize

  predicate Separator(c: char) {
    c == '-' || c == '_' || c == '/'
  }

  function Replace(s: string): string {
    if s == [] then [] else [if Separator(s[0]) then SPACE else s[0]] + Replace(s[1..])
  }

  /** Where the first word of `s`, which begins here, ends. */
  function WordEnd(u: Unicode, s: string): (n: nat)
    ensures n <= |s| && forall i :: 0 <= i < n ==> !u.white(s[i])
    ensures n < |s| ==> u.white(s[n])
  {
    if s == [] || u.white(s[0]) then 0 else 1 + WordEnd(u, s[1..])
  }

  /** `split_whitespace`. */
  function Words(u: Unicode, s: string): seq<string>
    decreases |s|
  {
    if s == [] then []
    else if u.white(s[0]) then Words(u, s[1..])
    else [s[..WordEnd(u, s)]] + Words(u, s[WordEnd(u, s)..])
  }

  function Join(words: seq<string>): string {
    if words == [] then []
    else if |words| == 1 then words[0]
    else words[0] + [SPACE] + Join(words[1..])
  }

  function Normalize(u: Unicode, s: string): string {
    Join(Words(u, Replace(Lower(u, Trim(u, s)))))
  }

  /** A character that `Normalize` leaves in a word as it is. */
  predicate Plain(u: Unicode, c: char) {
    !u.white(c) && !Separator(c) && Small(u, c)
  }

  predicate PlainWord(u: Unicode, w: string) {
    w != [] && forall i :: 0 <= i < |w| ==> Plain(u, w[i])
  }

  ghost predicate PlainWords(u: Unicode, words: seq<string>) {
    forall w :: w in words ==> PlainWord(u, w)
  }

  predicate Lowered(u: Unicode, s: string) {
    forall i :: 0 <= i < |s| ==> Small(u, s[i])
  }

  lemma {:induction false} LowerIsLowered(u: Unicode, s: string, n: nat)
    requires n <= |s|
    ensures Lowered(u, LowerTo(u, s, n))
  {
    if n > 0 {
      LowerIsLowered(u, s, n - 1);
      LowerAtIs(u, s, n - 1);
    }
  }

  lemma {:induction false} LowerOfLowered(u: Unicode, s: string, n: nat)
    requires Lowered(u, s) && n <= |s|
    ensures LowerTo(u, s, n) == s[..n]
  {
    if n > 0 {
      LowerOfLowered(u, s, n - 1);
      LowerAtIs(u, s, n - 1);
    }
  }

  lemma {:induction false} ReplaceIs(s: string)
    ensures |Replace(s)| == |s|
    ensures forall i :: 0 <= i < |s| ==> Replace(s)[i] == if Separator(s[i]) then SPACE else s[i]
  {
    if s != [] { ReplaceIs(s[1..]); }
  }

  lemma {:induction false} WordsArePlain(u: Unicode, s: string)
    requires Lowered(u, s) && forall i :: 0 <= i < |s| ==> !Separator(s[i])
    ensures PlainWords(u, Words(u, s))
    decreases |s|
  {
    if s != [] {
      if u.white(s[0]) {
        WordsArePlain(u, s[1..]);
      } else {
        var n := WordEnd(u, s);
        WordsArePlain(u, s[n..]);
        assert PlainWord(u, s[..n]);
      }
    }
  }

  lemma {:induction false} WordEndOf(u: Unicode, w: string, rest: string)
    requires (forall i :: 0 <= i < |w| ==> !u.white(w[i])) && (rest != [] ==> u.white(rest[0]))
    ensures WordEnd(u, w + rest) == |w|
  {
    if w != [] {
      assert (w + rest)[1..] == w[1..] + rest;
      WordEndOf(u, w[1..], rest);
    } else {
      assert w + rest == rest;
    }
  }

  lemma {:induction false} WordsOfJoin(u: Unicode, words: seq<string>)
    requires PlainWords(u, words)
    ensures Words(u, Join(words)) == words
  {
    if words != [] {
      var w := words[0];
      assert PlainWord(u, w);
      var rest := if |words| == 1 then [] else [SPACE] + Join(words[1..]);
      assert Join(words) == w + rest;
      WordEndOf(u, w, rest);
      assert (w + rest)[..|w|] == w && (w + rest)[|w|..] == rest;
      WordsOfJoin(u, words[1..]);
      if |words| > 1 { assert rest[1..] == Join(words[1..]); }
    }
  }

  lemma SpaceIsSmall(u: Unicode)
    ensures Small(u, SPACE)
  {
    assert SaneAt(u, SPACE);
  }

  /** What a normal form is made of: plain words with one space between them. */
  lemma {:induction false} JoinIsNormal(u: Unicode, words: seq<string>)
    requires PlainWords(u, words)
    ensures var s := Join(words); Lowered(u, s) && Trimmed(u, s) && (forall i :: 0 <= i < |s| ==> !Separator(s[i]))
    ensures words != [] ==> Join(words) != []
  {
    if words != [] {
      assert PlainWord(u, words[0]);
      if |words| > 1 {
        JoinIsNormal(u, words[1..]);
        SpaceIsSmall(u);
        var s, t := Join(words), Join(words[1..]);
        assert s[|s| - 1] == t[|t| - 1];
      }
    }
  }

  lemma NormalizeOfJoin(u: Unicode, words: seq<string>)
    requires PlainWords(u, words)
    ensures Normalize(u, Join(words)) == Join(words)
  {
    var s := Join(words);
    JoinIsNormal(u, words);
    TrimOf(u, [], s, []);
    assert [] + s + [] == s;
    LowerOfLowered(u, s, |s|);
    assert s[..|s|] == s;
    ReplaceIs(s);
    assert Replace(s) == s;
    WordsOfJoin(u, words);
  }

  lemma NormalFormIsPlain(u: Unicode, s: string)
    ensures PlainWords(u, Words(u, Replace(Lower(u, Trim(u, s)))))
  {
    LowerIsLowered(u, Trim(u, s), |Trim(u, s)|);
    SpaceIsSmall(u);
    ReplaceIs(Lower(u, Trim(u, s)));
    WordsArePlain(u, Replace(Lower(u, Trim(u, s))));
  }

  /** A normal form is its own normal form. */
  lemma NormalizeIsIdempotent(u: Unicode, s: string)
    ensures Normalize(u, Normalize(u, s)) == Normalize(u, s)
  {
    NormalFormIsPlain(u, s);
    NormalizeOfJoin(u, Words(u, Replace(Lower(u, Trim(u, s)))));
  }

  // ----- The normal form, said at once

  /** A character between words. */
  predicate Between(u: Unicode, c: char) {
    u.white(c) || Separator(c)
  }

  /** Where the run of characters that are, or are not, between words ends. */
  function RunEnd(u: Unicode, s: string, between: bool): (n: nat)
    ensures n <= |s| && forall i :: 0 <= i < n ==> Between(u, s[i]) == between
    ensures n < |s| ==> Between(u, s[n]) != between
  {
    if s == [] || Between(u, s[0]) != between then 0 else 1 + RunEnd(u, s[1..], between)
  }

  /** The words of `s`: its longest runs of characters that are neither white space nor separators. */
  function Tokens(u: Unicode, s: string): seq<string>
    decreases |s|
  {
    if s == [] then []
    else if Between(u, s[0]) then Tokens(u, s[1..])
    else [s[..RunEnd(u, s, false)]] + Tokens(u, s[RunEnd(u, s, false)..])
  }

  lemma {:induction false} WordEndIsRunEnd(u: Unicode, s: string)
    ensures WordEnd(u, Replace(s)) == RunEnd(u, s, false)
    ensures Replace(s)[..RunEnd(u, s, false)] == s[..RunEnd(u, s, false)]
  {
    ReplaceIs(s);
    if s != [] && !Between(u, s[0]) {
      WordEndIsRunEnd(u, s[1..]);
    }
  }

  lemma {:induction false} ReplaceDrop(s: string, n: nat)
    requires n <= |s|
    ensures |Replace(s)| == |s| && Replace(s)[n..] == Replace(s[n..])
  {
    ReplaceIs(s);
    ReplaceIs(s[n..]);
  }

  lemma {:induction false} WordsAreTokens(u: Unicode, s: string)
    ensures Words(u, Replace(s)) == Tokens(u, s)
    decreases |s|
  {
    ReplaceIs(s);
    if s != [] {
      if Between(u, s[0]) {
        ReplaceDrop(s, 1);
        WordsAreTokens(u, s[1..]);
      } else {
        var n := RunEnd(u, s, false);
        WordEndIsRunEnd(u, s);
        ReplaceDrop(s, n);
        WordsAreTokens(u, s[n..]);
      }
    }
  }

  lemma {:induction false} TokensBeforeWhite(u: Unicode, s: string, w: string)
    requires AllWhite(u, w)
    ensures Tokens(u, s + w) == Tokens(u, s)
    decreases |s| + |w|
  {
    if s == [] {
      assert s + w == w;
      if w != [] {
        assert [] + w[1..] == w[1..];
        TokensBeforeWhite(u, [], w[1..]);
      }
    } else if Between(u, s[0]) {
      assert (s + w)[1..] == s[1..] + w;
      TokensBeforeWhite(u, s[1..], w);
    } else {
      var n := RunEnd(u, s, false);
      RunEndBeforeWhite(u, s, w);
      assert (s + w)[..n] == s[..n] && (s + w)[n..] == s[n..] + w;
      TokensBeforeWhite(u, s[n..], w);
    }
  }

  lemma {:induction false} RunEndBeforeWhite(u: Unicode, s: string, w: string)
    requires AllWhite(u, w)
    ensures RunEnd(u, s + w, false) == RunEnd(u, s, false)
  {
    if s == [] {
      assert s + w == w;
    } else {
      assert (s + w)[1..] == s[1..] + w;
      RunEndBeforeWhite(u, s[1..], w);
    }
  }

  lemma {:induction false} TokensAfterWhite(u: Unicode, w: string, s: string)
    requires AllWhite(u, w)
    ensures Tokens(u, w + s) == Tokens(u, s)
    decreases |w|
  {
    if w == [] {
      assert w + s == s;
    } else {
      assert (w + s)[1..] == w[1..] + s;
      TokensAfterWhite(u, w[1..], s);
    }
  }

  /** A normal form is the words of the lower case, with one space between them. */
  lemma NormalizeIsTokens(u: Unicode, s: string)
    ensures Normalize(u, s) == Join(Tokens(u, Lower(u, s)))
  {
    var w1, w2 := TrimIs(u, s);
    var low := Lower(u, Trim(u, s));
    LowerAround(u, w1, Trim(u, s), w2);
    WordsAreTokens(u, low);
    TokensBeforeWhite(u, w1 + low, w2);
    TokensAfterWhite(u, w1, low);
  }
}
