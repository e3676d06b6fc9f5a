/** Slugs and variable keys (hub/dashboard/db.go:137-153, agent/internal/config/config.go:214-230,
    hub/dashboard/variables.go:24-37). */
module Slugs {
  import opened Common

  predicate IsAlnum(c: char) {
    'a' <= c <= 'z' || '0' <= c <= '9'
  }

  /** What the scanning loop writes for the rest `s` of the text when it last wrote `last`. */
  function Emit(s: string, last: char): string {
    if s == [] then []
    else if IsAlnum(s[0]) then [s[0]] + Emit(s[1..], s[0])
    else if last != '-' then ['-'] + Emit(s[1..], '-')
    else Emit(s[1..], last)
  }

  function TrimLeftDash(s: string): string {
    if s != [] && s[0] == '-' then TrimLeftDash(s[1..]) else s
  }

  function TrimRightDash(s: string): string {
    if s != [] && s[|s| - 1] == '-' then TrimRightDash(s[..|s| - 1]) else s
  }

  function Slug(s: string): string {
    TrimRightDash(TrimLeftDash(Emit(Lower(TrimSpace(s)), '-')))
  }

  lemma {:induction false} EmitAppend(s: string, c: char, last: char)
    ensures Emit(s + [c], last) == Emit(s, last) + Emit([c], LastOf(s, last))
  {
    if s == [] {
      assert s + [c] == [c];
    } else {
      var next := if IsAlnum(s[0]) then s[0] else '-';
      assert (s + [c])[1..] == s[1..] + [c];
      EmitAppend(s[1..], c, next);
      assert LastOf(s, last) == LastOf(s[1..], next);
    }
  }

  /** What was last written once `s` has been scanned. */
  function LastOf(s: string, last: char): char {
    if s == [] then last
    else if IsAlnum(s[|s| - 1]) then s[|s| - 1]
    else '-'
  }

  method Slugify(s: string) returns (r: string)
    ensures r == Slug(s)
  {
    var text := Lower(TrimSpace(s));
    var b, last := "", '-';
    for i := 0 to |text|
      invariant b == Emit(text[..i], '-') && last == LastOf(text[..i], '-')
    {
      assert text[..i + 1] == text[..i] + [text[i]];
      EmitAppend(text[..i], text[i], '-');
      if IsAlnum(text[i]) {
        b := b + [text[i]];
        last := text[i];
      } else if last != '-' {
        b := b + ['-'];
        last := '-';
      }
    }
    assert text[..|text|] == text;
    r := TrimRightDash(TrimLeftDash(b));
  }

  // ----- a slug is the words of the text, joined with dashes -----

  function Opt(word: string): seq<string> {
    if word == "" then [] else [word]
  }

  /** The maximal runs of letters and digits in `word + s`, where `word` is the run under way. */
  function WordsFrom(word: string, s: string): seq<string>
    decreases |s|
  {
    if s == [] then Opt(word)
    else if IsAlnum(s[0]) then WordsFrom(word + [s[0]], s[1..])
    else Opt(word) + WordsFrom("", s[1..])
  }

  function Words(s: string): seq<string> {
    WordsFrom("", s)
  }

  function Join(ws: seq<string>): string {
    if ws == [] then "" else if |ws| == 1 then ws[0] else ws[0] + "-" + Join(ws[1..])
  }

  predicate AllAlnum(s: string) {
    forall i :: 0 <= i < |s| ==> IsAlnum(s[i])
  }

  lemma {:induction false} TrimRightAppend(a: string, x: string)
    ensures TrimRightDash(a + x) == if TrimRightDash(x) == "" then TrimRightDash(a) else a + TrimRightDash(x)
    decreases |x|
  {
    if x == [] {
      assert a + x == a;
    } else if x[|x| - 1] == '-' {
      assert (a + x)[..|a + x| - 1] == a + x[..|x| - 1];
      TrimRightAppend(a, x[..|x| - 1]);
    }
  }

  predicate AreWords(ws: seq<string>) {
    forall i :: 0 <= i < |ws| ==> ws[i] != "" && AllAlnum(ws[i])
  }

  lemma {:induction false} WordsAreWords(word: string, s: string)
    requires AllAlnum(word)
    ensures AreWords(WordsFrom(word, s))
    decreases |s|
  {
    if s != [] {
      WordsAreWords(if IsAlnum(s[0]) then word + [s[0]] else "", s[1..]);
    }
  }

  /** The end of a non-empty word: a dash is written, and kept only if another word follows. */
  lemma EndOfWord(word: string, x: string, rest: seq<string>)
    requires word != "" && AllAlnum(word) && AreWords(rest) && TrimRightDash(x) == Join(rest)
    ensures TrimRightDash(word + ("-" + x)) == Join([word] + rest)
  {
    assert word + ("-" + x) == word + "-" + x;
    TrimRightAppend(word + "-", x);
    assert TrimRightDash(word + "-") == word by {
      assert (word + "-")[..|word|] == word;
    }
    if rest != [] {
      assert Join(rest) != "" by { assert rest[0] != ""; }
      assert ([word] + rest)[1..] == rest;
    }
  }

  lemma {:induction false} EmitIsJoin(word: string, s: string)
    requires AllAlnum(word)
    ensures TrimRightDash(word + Emit(s, LastOf(word, '-'))) == Join(WordsFrom(word, s))
    decreases |s|
  {
    if s == [] {
      assert word + [] == word;
    } else if IsAlnum(s[0]) {
      assert word + ([s[0]] + Emit(s[1..], s[0])) == word + [s[0]] + Emit(s[1..], s[0]);
      EmitIsJoin(word + [s[0]], s[1..]);
    } else {
      EmitIsJoin("", s[1..]);
      var x, rest := Emit(s[1..], '-'), WordsFrom("", s[1..]);
      assert "" + x == x;
      WordsAreWords("", s[1..]);
      if word == "" {
        assert [] + rest == rest;
      } else {
        EndOfWord(word, x, rest);
      }
    }
  }

  lemma {:induction false} EmitStartsClean(s: string)
    ensures Emit(s, '-') != [] ==> Emit(s, '-')[0] != '-'
  {
    if s != [] && !IsAlnum(s[0]) {
      EmitStartsClean(s[1..]);
    }
  }

  lemma {:induction false} WordsIgnoreTail(word: string, s: string, c: char)
    requires !IsAlnum(c)
    ensures WordsFrom(word, s + [c]) == WordsFrom(word, s)
    decreases |s|
  {
    if s == [] {
      assert s + [c] == [c] && [c][1..] == [];
      assert Opt(word) + [] == Opt(word);
    } else {
      assert (s + [c])[1..] == s[1..] + [c];
      WordsIgnoreTail(if IsAlnum(s[0]) then word + [s[0]] else "", s[1..], c);
    }
  }

  lemma {:induction false} TrimLeftKeepsWords(s: string)
    ensures Words(Lower(TrimLeft(s))) == Words(Lower(s))
  {
    if s != [] && IsSpace(s[0]) {
      TrimLeftKeepsWords(s[1..]);
      assert Lower(s)[1..] == Lower(s[1..]);
      assert [] + Words(Lower(s[1..])) == Words(Lower(s[1..]));
    }
  }

  lemma {:induction false} TrimRightKeepsWords(s: string)
    ensures Words(Lower(TrimRight(s))) == Words(Lower(s))
  {
    if s != [] && IsSpace(s[|s| - 1]) {
      var init := s[..|s| - 1];
      TrimRightKeepsWords(init);
      assert Lower(s) == Lower(init) + [LowerChar(s[|s| - 1])];
      WordsIgnoreTail("", Lower(init), LowerChar(s[|s| - 1]));
    }
  }

  /** A slug is the words of the lower-cased text joined with single dashes. */
  lemma SlugIsWords(s: string)
    ensures Slug(s) == Join(Words(Lower(s)))
    ensures AreWords(Words(Lower(s)))
  {
    WordsAreWords("", Lower(s));
    var text := Lower(TrimSpace(s));
    EmitIsJoin("", text);
    assert "" + Emit(text, '-') == Emit(text, '-');
    EmitStartsClean(text);
    TrimLeftKeepsWords(s);
    TrimRightKeepsWords(TrimLeft(s));
  }

  // ----- canonical form -----

  /** Letters, digits and single inner dashes. */
  predicate Canonical(s: string) {
    && (forall i :: 0 <= i < |s| ==> IsAlnum(s[i]) || s[i] == '-')
    && (s != "" ==> s[0] != '-' && s[|s| - 1] != '-')
    && (forall i :: 0 <= i < |s| - 1 ==> s[i] != '-' || s[i + 1] != '-')
  }

  lemma {:induction false} JoinCanonical(ws: seq<string>)
    requires AreWords(ws)
    ensures Canonical(Join(ws)) && (ws != [] ==> Join(ws) != "")
  {
    if |ws| > 1 {
      var rest := Join(ws[1..]);
      JoinCanonical(ws[1..]);
      var r := Join(ws);
      assert forall i :: 0 <= i < |r| ==>
        r[i] == if i < |ws[0]| then ws[0][i] else if i == |ws[0]| then '-' else rest[i - |ws[0]| - 1];
    }
  }

  lemma {:induction false} CanonicalEmit(s: string, last: char)
    requires forall i :: 0 <= i < |s| ==> IsAlnum(s[i]) || s[i] == '-'
    requires s != "" && last == '-' ==> s[0] != '-'
    requires forall i :: 0 <= i < |s| - 1 ==> s[i] != '-' || s[i + 1] != '-'
    ensures Emit(s, last) == s
  {
    if s != [] {
      assert forall i :: 0 <= i < |s[1..]| ==> s[1..][i] == s[i + 1];
      CanonicalEmit(s[1..], s[0]);
    }
  }

  /** Slugs are canonical, and canonical texts are exactly those that `slugify` leaves alone;
      so `slugify` is idempotent. */
  lemma SlugFixpoints(s: string)
    ensures Canonical(Slug(s))
    ensures Slug(s) == s <==> Canonical(s)
    ensures Slug(Slug(s)) == Slug(s)
  {
    SlugIsWords(s);
    JoinCanonical(Words(Lower(s)));
    CanonicalIsFixed(s);
    CanonicalIsFixed(Slug(s));
  }

  lemma CanonicalIsFixed(s: string)
    ensures Canonical(s) ==> Slug(s) == s
  {
    if Canonical(s) {
      CanonicalIsLower(s);
      CanonicalEmit(s, '-');
      assert TrimLeftDash(s) == s && TrimRightDash(s) == s;
    }
  }

  lemma CanonicalIsLower(s: string)
    requires Canonical(s)
    ensures TrimSpace(s) == s && Lower(s) == s
  {
    assert TrimLeft(s) == s && TrimRight(s) == s;
    forall i | 0 <= i < |s| ensures LowerChar(s[i]) == s[i] {}
  }

  // ----- variable keys -----

  /** The ASCII transliteration of an accented letter. */
  function Plain(c: char): string {
    if c in "\U{E0}\U{E2}\U{E4}\U{E1}\U{E3}\U{E5}" then "a"
    else if c == '\U{E7}' then "c"
    else if c in "\U{E9}\U{E8}\U{EA}\U{EB}" then "e"
    else if c in "\U{EE}\U{EF}\U{ED}\U{EC}" then "i"
    else if c in "\U{F4}\U{F6}\U{F3}\U{F2}\U{F5}" then "o"
    else if c in "\U{F9}\U{FB}\U{FC}\U{FA}" then "u"
    else if c == '\U{FF}' then "y"
    else if c == '\U{F1}' then "n"
    else if c == '\U{E6}' then "ae"
    else if c == '\U{153}' then "oe"
    else [c]
  }

  function PlainAll(s: string): string {
    if s == [] then [] else Plain(s[0]) + PlainAll(s[1..])
  }

  function Unaccent(s: string): string {
    PlainAll(Lower(s))
  }

  function Underscored(s: string): string {
    seq(|s|, i requires 0 <= i < |s| => if s[i] == '-' then '_' else s[i])
  }

  function VarKey(s: string): string {
    Underscored(Slug(Unaccent(s)))
  }

  predicate IsKeyPart(s: string) {
    forall i :: 0 <= i < |s| ==> IsAlnum(s[i]) || s[i] == '_'
  }

  lemma {:induction false} PlainAllCanonical(s: string)
    requires forall i :: 0 <= i < |s| ==> IsAlnum(s[i]) || s[i] == '-'
    ensures PlainAll(s) == s
  {
    if s != [] {
      PlainAllCanonical(s[1..]);
    }
  }

  /** A stored slug's key is the slug with underscores for dashes. */
  lemma VarKeyOfSlug(s: string)
    requires Canonical(s)
    ensures VarKey(s) == Underscored(s)
  {
    CanonicalIsLower(s);
    PlainAllCanonical(s);
    CanonicalIsFixed(s);
  }

  /** Letter by letter: whatever is not a dash stays as it is. */
  lemma VarKeyReads(s: string)
    requires Canonical(s)
    ensures |VarKey(s)| == |s| && forall i :: 0 <= i < |s| ==> VarKey(s)[i] == if s[i] == '-' then '_' else s[i]
  {
    VarKeyOfSlug(s);
  }

  lemma VarKeyIsKeyPart(s: string)
    ensures IsKeyPart(VarKey(s))
  {
    SlugFixpoints(Unaccent(s));
  }

  /** Two stored slugs never share a key. */
  lemma VarKeyInjective(a: string, b: string)
    requires Canonical(a) && Canonical(b) && VarKey(a) == VarKey(b)
    ensures a == b
  {
    VarKeyOfSlug(a);
    VarKeyOfSlug(b);
    forall i | 0 <= i < |a| ensures a[i] == b[i] {
      assert Underscored(a)[i] == Underscored(b)[i];
    }
  }
}
