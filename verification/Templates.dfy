/** Placeholders `{{ key }}` in action templates (hub/dashboard/variables.go:267-345, 372-388). */
module Templates {
  import opened Common

  /** `\s` and the key class of the placeholder expression. */
  predicate IsBlank(c: char) {
    c == ' ' || c == '\t' || c == '\n' || c == '\U{0C}' || c == '\r'
  }

  predicate IsKeyChar(c: char) {
    'a' <= c <= 'z' || 'A' <= c <= 'Z' || '0' <= c <= '9' || c == '_' || c == '.'
  }

  // ----- what the expression matches -----

  /** `{{`, blanks up to `a`, the key up to `b`, blanks up to `c`, `}}`. */
  predicate Spells(s: string, i: nat, a: nat, b: nat, c: nat) {
    && i + 2 <= a < b <= c && c + 2 <= |s|
    && s[i] == '{' && s[i + 1] == '{' && s[c] == '}' && s[c + 1] == '}'
    && (forall k :: i + 2 <= k < a ==> IsBlank(s[k]))
    && (forall k :: a <= k < b ==> IsKeyChar(s[k]))
    && (forall k :: b <= k < c ==> IsBlank(s[k]))
  }

  /** `s[i..j]` is a placeholder for `key`. */
  ghost predicate Occurs(s: string, i: nat, j: nat, key: string) {
    exists a: nat, b: nat :: j >= 2 && Spells(s, i, a, b, j - 2) && key == s[a..b]
  }

  lemma SpelledOnce(s: string, i: nat, a: nat, b: nat, c: nat, a': nat, b': nat, c': nat)
    requires Spells(s, i, a, b, c) && Spells(s, i, a', b', c')
    ensures a == a' && b == b' && c == c'
  {
    assert a == a' by { assert IsKeyChar(s[a]) && IsKeyChar(s[a']); }
    assert b == b' by { assert !IsKeyChar(s[b]) && !IsKeyChar(s[b']); }
  }

  lemma SpelledApart(s: string, i: nat, a: nat, b: nat, c: nat, i': nat, a': nat, b': nat, c': nat)
    requires Spells(s, i, a, b, c) && Spells(s, i', a', b', c') && i < i'
    ensures c + 2 <= i'
  {
    assert s[i'] == '{' && s[i' + 1] == '{';
  }

  /** Two placeholders of the same text are equal or apart: the expression is deterministic, and
      scanning from the left misses none. */
  lemma OccurrencesApart(s: string, i: nat, j: nat, key: string, i': nat, j': nat, key': string)
    requires Occurs(s, i, j, key) && Occurs(s, i', j', key') && i <= i'
    ensures if i == i' then j == j' && key == key' else j <= i'
  {
    var a: nat, b: nat :| Spells(s, i, a, b, j - 2) && key == s[a..b];
    var a': nat, b': nat :| Spells(s, i', a', b', j' - 2) && key' == s[a'..b'];
    if i == i' {
      SpelledOnce(s, i, a, b, j - 2, a', b', j' - 2);
    } else {
      SpelledApart(s, i, a, b, j - 2, i', a', b', j' - 2);
    }
  }

  // ----- the scanner -----

  function SkipBlank(s: string, i: nat): (r: nat)
    requires i <= |s|
    ensures i <= r <= |s|
    decreases |s| - i
  {
    if i < |s| && IsBlank(s[i]) then SkipBlank(s, i + 1) else i
  }

  function SkipKey(s: string, i: nat): (r: nat)
    requires i <= |s|
    ensures i <= r <= |s|
    decreases |s| - i
  {
    if i < |s| && IsKeyChar(s[i]) then SkipKey(s, i + 1) else i
  }

  lemma {:induction false} SkipBlankIs(s: string, i: nat, r: nat)
    requires i <= |s|
    ensures r == SkipBlank(s, i) <==>
      i <= r <= |s| && (forall k :: i <= k < r ==> IsBlank(s[k])) && (r < |s| ==> !IsBlank(s[r]))
    decreases |s| - i
  {
    if i < |s| && IsBlank(s[i]) {
      SkipBlankIs(s, i + 1, r);
    }
  }

  lemma {:induction false} SkipKeyIs(s: string, i: nat, r: nat)
    requires i <= |s|
    ensures r == SkipKey(s, i) <==>
      i <= r <= |s| && (forall k :: i <= k < r ==> IsKeyChar(s[k])) && (r < |s| ==> !IsKeyChar(s[r]))
    decreases |s| - i
  {
    if i < |s| && IsKeyChar(s[i]) {
      SkipKeyIs(s, i + 1, r);
    }
  }

  datatype Match = Match(start: nat, end: nat, key: string)

  /** The placeholder that starts at `i`, if any. */
  function MatchAt(s: string, i: nat): (r: Option<Match>)
    requires i <= |s|
    ensures r.Some? ==> r.value.start == i && i < r.value.end <= |s|
  {
    if i + 2 <= |s| && s[i] == '{' && s[i + 1] == '{' then
      var a := SkipBlank(s, i + 2);
      var b := SkipKey(s, a);
      var c := SkipBlank(s, b);
      if a < b && c + 2 <= |s| && s[c] == '}' && s[c + 1] == '}' then Some(Match(i, c + 2, s[a..b])) else None
    else None
  }

  /** The scanner finds at `i` exactly what the expression matches there. */
  lemma MatchAtIs(s: string, i: nat, j: nat, key: string)
    requires i <= |s|
    ensures MatchAt(s, i) == Some(Match(i, j, key)) <==> Occurs(s, i, j, key)
  {
    if Occurs(s, i, j, key) {
      OccurrenceIsScanned(s, i, j, key);
    }
    if MatchAt(s, i) == Some(Match(i, j, key)) {
      var a := SkipBlank(s, i + 2);
      var b := SkipKey(s, a);
      SkipBlankIs(s, i + 2, a);
      SkipKeyIs(s, a, b);
      SkipBlankIs(s, b, j - 2);
      assert Spells(s, i, a, b, j - 2);
    }
  }

  lemma SpelledIsScanned(s: string, i: nat, a: nat, b: nat, c: nat)
    requires Spells(s, i, a, b, c)
    ensures SkipBlank(s, i + 2) == a && SkipKey(s, a) == b && SkipBlank(s, b) == c
  {
    assert IsKeyChar(s[a]) && !IsBlank(s[a]);
    SkipBlankIs(s, i + 2, a);
    assert !IsKeyChar(s[b]);
    SkipKeyIs(s, a, b);
    assert s[c] == '}';
    SkipBlankIs(s, b, c);
  }

  /** An occurrence determines every step of the scanner. */
  lemma OccurrenceIsScanned(s: string, i: nat, j: nat, key: string)
    requires Occurs(s, i, j, key)
    ensures i + 2 <= |s| && s[i] == '{' && s[i + 1] == '{'
    ensures var a := SkipBlank(s, i + 2); var b := SkipKey(s, a); var c := SkipBlank(s, b);
            a < b && c + 2 == j <= |s| && s[c] == '}' && s[c + 1] == '}' && key == s[a..b]
  {
    var a: nat, b: nat :| j >= 2 && Spells(s, i, a, b, j - 2) && key == s[a..b];
    SpelledIsScanned(s, i, a, b, j - 2);
  }

  /** A text cut into characters and placeholders. */
  datatype Piece = Lit(c: char) | Hole(m: Match, raw: string)

  function PieceAt(s: string, i: nat): Piece
    requires i < |s|
  {
    match MatchAt(s, i)
    case Some(m) => Hole(m, s[i..m.end])
    case None => Lit(s[i])
  }

  function NextAt(s: string, i: nat): (n: nat)
    requires i < |s|
    ensures i < n <= |s|
  {
    match MatchAt(s, i)
    case Some(m) => m.end
    case None => i + 1
  }

  function Pieces(s: string, i: nat): seq<Piece>
    requires i <= |s|
    decreases |s| - i
  {
    if i == |s| then [] else [PieceAt(s, i)] + Pieces(s, NextAt(s, i))
  }

  /** `m` is a placeholder of the text, written `raw`. */
  ghost predicate IsHole(s: string, m: Match, raw: string) {
    m.start < m.end <= |s| && raw == s[m.start..m.end] && Occurs(s, m.start, m.end, m.key)
  }

  lemma HoleHere(s: string, i: nat, m: Match, raw: string)
    requires i < |s|
    ensures PieceAt(s, i) == Hole(m, raw) <==> m.start == i && IsHole(s, m, raw)
  {
    MatchAtIs(s, i, m.end, m.key);
  }

  lemma NoHoleInside(s: string, i: nat, m: Match)
    requires i < |s| && Occurs(s, m.start, m.end, m.key) && i < m.start
    ensures NextAt(s, i) <= m.start
  {
    if MatchAt(s, i).Some? {
      var n := MatchAt(s, i).value;
      MatchAtIs(s, i, n.end, n.key);
      OccurrencesApart(s, i, n.end, n.key, m.start, m.end, m.key);
    }
  }

  /** The holes of the pieces are exactly the placeholders of the text. */
  lemma {:induction false} HolesAreOccurrences(s: string, i: nat, m: Match, raw: string)
    requires i <= |s|
    ensures Hole(m, raw) in Pieces(s, i) <==> i <= m.start && IsHole(s, m, raw)
    decreases |s| - i
  {
    if i < |s| {
      HoleHere(s, i, m, raw);
      HolesAreOccurrences(s, NextAt(s, i), m, raw);
      if i < m.start && IsHole(s, m, raw) {
        NoHoleInside(s, i, m);
      }
    }
  }

  // ----- substitution -----

  function FillOne(p: Piece, vars: map<string, string>): string {
    match p
    case Lit(c) => [c]
    case Hole(m, raw) => if m.key in vars then vars[m.key] else raw
  }

  function UnknownOne(p: Piece, vars: map<string, string>): seq<string> {
    if p.Hole? && p.m.key !in vars then [p.m.key] else []
  }

  /** Each piece from `i` on is rendered once: known keys by their value, everything else as written. */
  function Fill(s: string, i: nat, vars: map<string, string>): string
    requires i <= |s|
    decreases |s| - i
  {
    if i == |s| then [] else FillOne(PieceAt(s, i), vars) + Fill(s, NextAt(s, i), vars)
  }

  /** The keys without a value from `i` on, in the order of the text. */
  function Unknown(s: string, i: nat, vars: map<string, string>): seq<string>
    requires i <= |s|
    decreases |s| - i
  {
    if i == |s| then [] else UnknownOne(PieceAt(s, i), vars) + Unknown(s, NextAt(s, i), vars)
  }

  function Resolved(s: string, vars: map<string, string>): (string, seq<string>) {
    (Fill(s, 0, vars), Unknown(s, 0, vars))
  }

  method ResolveVars(s: string, vars: map<string, string>) returns (out: string, missing: seq<string>)
    ensures out == Resolved(s, vars).0 && missing == Resolved(s, vars).1
  {
    out, missing := "", [];
    var i := 0;
    while i < |s|
      invariant i <= |s|
      invariant out + Fill(s, i, vars) == Fill(s, 0, vars)
      invariant missing + Unknown(s, i, vars) == Unknown(s, 0, vars)
      decreases |s| - i
    {
      var m := MatchAt(s, i);
      var next := if m.Some? then m.value.end else i + 1;
      var piece, absent := [s[i]], [];
      if m.Some? {
        if m.value.key in vars {
          piece := vars[m.value.key];
        } else {
          piece, absent := s[i..next], [m.value.key];
        }
      }
      assert piece == FillOne(PieceAt(s, i), vars) && absent == UnknownOne(PieceAt(s, i), vars);
      Shift(out, piece, Fill(s, next, vars), Fill(s, i, vars), Fill(s, 0, vars));
      Shift(missing, absent, Unknown(s, next, vars), Unknown(s, i, vars), Unknown(s, 0, vars));
      out, missing, i := out + piece, missing + absent, next;
    }
    assert out + [] == out && missing + [] == missing;
  }

  /** The pieces say the text back: with no variable at all nothing changes. */
  lemma {:induction false} PiecesSpellText(s: string, i: nat)
    requires i <= |s|
    ensures Fill(s, i, map[]) == s[i..]
    decreases |s| - i
  {
    if i < |s| {
      PieceSpells(s, i);
      PiecesSpellText(s, NextAt(s, i));
      CutAt(s, i, NextAt(s, i));
    }
  }

  lemma PieceSpells(s: string, i: nat)
    requires i < |s|
    ensures FillOne(PieceAt(s, i), map[]) == s[i..NextAt(s, i)]
  {
  }

  /** The rendering of the pieces, which is what the text becomes: a placeholder with a value is replaced by it,
      all else stays as written. */
  function Rendered(ps: seq<Piece>, vars: map<string, string>): string {
    if ps == [] then []
    else
      var p := ps[0];
      (if p.Lit? then [p.c] else if p.m.key in vars then vars[p.m.key] else p.raw) + Rendered(ps[1..], vars)
  }

  lemma {:induction false} FillRendersPieces(s: string, i: nat, vars: map<string, string>)
    requires i <= |s|
    ensures Fill(s, i, vars) == Rendered(Pieces(s, i), vars)
    decreases |s| - i
  {
    if i < |s| {
      FillRendersPieces(s, NextAt(s, i), vars);
      assert Pieces(s, i)[1..] == Pieces(s, NextAt(s, i));
    }
  }

  /** The keys of the placeholders among the pieces that have no value. */
  function KeysWithout(ps: seq<Piece>, vars: map<string, string>): seq<string> {
    if ps == [] then []
    else if ps[0].Hole? && ps[0].m.key !in vars then [ps[0].m.key] + KeysWithout(ps[1..], vars)
    else KeysWithout(ps[1..], vars)
  }

  lemma KeysOfFirst(p: Piece, ps: seq<Piece>, vars: map<string, string>)
    ensures KeysWithout([p] + ps, vars) ==
            if p.Hole? && p.m.key !in vars then [p.m.key] + KeysWithout(ps, vars) else KeysWithout(ps, vars)
  {
    assert ([p] + ps)[1..] == ps;
  }

  /** The missing keys are those of the placeholders without a value, piece by piece. */
  lemma {:induction false} UnknownListsPieces(s: string, i: nat, vars: map<string, string>)
    requires i <= |s|
    ensures Unknown(s, i, vars) == KeysWithout(Pieces(s, i), vars)
    decreases |s| - i
  {
    if i < |s| {
      UnknownListsPieces(s, NextAt(s, i), vars);
      KeysOfFirst(PieceAt(s, i), Pieces(s, NextAt(s, i)), vars);
    }
  }

  /** The pieces stand in the order of the text: each placeholder ends before the next one starts. */
  lemma {:induction false} PiecesInOrder(s: string, i: nat, j: nat, k: nat)
    requires i <= |s| && j < k < |Pieces(s, i)| && Pieces(s, i)[j].Hole? && Pieces(s, i)[k].Hole?
    ensures Pieces(s, i)[j].m.end <= Pieces(s, i)[k].m.start
    decreases |s| - i
  {
    var rest := Pieces(s, NextAt(s, i));
    assert Pieces(s, i)[k] == rest[k - 1];
    if j > 0 {
      assert Pieces(s, i)[j] == rest[j - 1];
      PiecesInOrder(s, NextAt(s, i), j - 1, k - 1);
    } else {
      var p := rest[k - 1];
      assert p in rest;
      HolesAreOccurrences(s, NextAt(s, i), p.m, p.raw);
    }
  }

  /** The text has, from `i` on, a placeholder for `key`. */
  ghost predicate Mentions(s: string, i: nat, key: string) {
    exists j: nat, k: nat :: i <= j && Occurs(s, j, k, key)
  }

  lemma MentionsFirst(s: string, i: nat, key: string)
    requires i < |s|
    ensures Mentions(s, i, key) <==>
      (PieceAt(s, i).Hole? && PieceAt(s, i).m.key == key) || Mentions(s, NextAt(s, i), key)
  {
    if PieceAt(s, i).Hole? {
      var m := PieceAt(s, i).m;
      HoleHere(s, i, m, PieceAt(s, i).raw);
    }
    if j: nat, k: nat :| i <= j && Occurs(s, j, k, key) {
      if i == j {
        HoleHere(s, i, Match(i, k, key), s[i..k]);
      } else {
        NoHoleInside(s, i, Match(j, k, key));
      }
    }
  }

  lemma {:induction false} UnknownAre(s: string, i: nat, vars: map<string, string>, key: string)
    requires i <= |s|
    ensures key in Unknown(s, i, vars) <==> key !in vars && Mentions(s, i, key)
    decreases |s| - i
  {
    if i < |s| {
      MentionsFirst(s, i, key);
      UnknownAre(s, NextAt(s, i), vars, key);
    }
  }

  /** A key is reported missing exactly when the text has a placeholder for it and it has no value. */
  lemma MissingIffUnknown(s: string, vars: map<string, string>, key: string)
    ensures key in Resolved(s, vars).1 <==> key !in vars && exists i: nat, j: nat :: Occurs(s, i, j, key)
  {
    UnknownAre(s, 0, vars, key);
  }

  predicate AgreeOn(key: string, v: map<string, string>, w: map<string, string>) {
    (key in v <==> key in w) && (key in v ==> v[key] == w[key])
  }

  lemma {:induction false} FillAgree(s: string, i: nat, v: map<string, string>, w: map<string, string>)
    requires i <= |s| && forall key :: Mentions(s, i, key) ==> AgreeOn(key, v, w)
    ensures Fill(s, i, v) == Fill(s, i, w) && Unknown(s, i, v) == Unknown(s, i, w)
    decreases |s| - i
  {
    if i < |s| {
      forall key | Mentions(s, NextAt(s, i), key) ensures AgreeOn(key, v, w) {
        MentionsFirst(s, i, key);
      }
      FillAgree(s, NextAt(s, i), v, w);
      if PieceAt(s, i).Hole? {
        MentionsFirst(s, i, PieceAt(s, i).m.key);
      }
    }
  }

  /** Only the values of the keys that occur in the text matter; inserted values are never read again. */
  lemma OnlyOccurringKeysMatter(s: string, v: map<string, string>, w: map<string, string>)
    requires forall i: nat, j: nat, key :: Occurs(s, i, j, key) ==> AgreeOn(key, v, w)
    ensures Resolved(s, v) == Resolved(s, w)
  {
    FillAgree(s, 0, v, w);
  }

  /** Once nothing is missing, further keys change nothing. */
  lemma CompleteIsStable(s: string, v: map<string, string>, w: map<string, string>)
    requires Resolved(s, v).1 == [] && forall key :: key in v ==> AgreeOn(key, v, w)
    ensures Resolved(s, w) == Resolved(s, v)
  {
    forall i: nat, j: nat, key | Occurs(s, i, j, key) ensures key in v {
      MissingIffUnknown(s, v, key);
    }
    OnlyOccurringKeysMatter(s, v, w);
  }

  // ----- actions -----

  datatype Action = Action(url: string, body: string, headers: map<string, string>)

  datatype ActionError = UnknownVars(keys: seq<string>) | BadURL(url: string)

  datatype Request = Request(url: string, headers: map<string, string>, body: string)

  /** The occurrences kept once each, in the order in which they first appear. */
  function Firsts(s: seq<string>): seq<string> {
    if s == [] then []
    else
      var init, last := s[..|s| - 1], s[|s| - 1];
      if last in init then Firsts(init) else Firsts(init) + [last]
  }

  lemma {:induction false} FirstsAre(s: seq<string>)
    ensures forall k :: k in Firsts(s) <==> k in s
    ensures forall i, j :: 0 <= i < j < |Firsts(s)| ==> Firsts(s)[i] != Firsts(s)[j]
  {
    if s != [] {
      var init := s[..|s| - 1];
      FirstsAre(init);
      assert s == init + [s[|s| - 1]];
    }
  }

  /** The place at which a text first stands in a list. */
  function FirstAt(s: seq<string>, x: string): (i: nat)
    requires x in s
    ensures i < |s| && s[i] == x && x !in s[..i]
  {
    if s[0] == x then 0 else 1 + FirstAt(s[1..], x)
  }

  lemma {:induction false} FirstAtStays(s: seq<string>, x: string, last: string)
    requires x in s
    ensures FirstAt(s + [last], x) == FirstAt(s, x)
  {
    if s[0] != x {
      assert (s + [last])[1..] == s[1..] + [last];
      FirstAtStays(s[1..], x, last);
    }
  }

  /** They are kept in the order of their first appearance. */
  lemma {:induction false} FirstsInOrder(s: seq<string>, i: nat, j: nat)
    requires i < j < |Firsts(s)|
    ensures Firsts(s)[i] in s && Firsts(s)[j] in s && FirstAt(s, Firsts(s)[i]) < FirstAt(s, Firsts(s)[j])
  {
    var init, last := s[..|s| - 1], s[|s| - 1];
    FirstsAre(s);
    FirstsAre(init);
    assert s == init + [last];
    FirstAtStays(init, Firsts(s)[i], last);
    if j < |Firsts(init)| {
      FirstsInOrder(init, i, j);
      FirstAtStays(init, Firsts(s)[j], last);
    }
  }

  method Dedupe(s: seq<string>) returns (out: seq<string>)
    ensures out == Firsts(s)
  {
    var seen: set<string> := {};
    out := [];
    for i := 0 to |s|
      invariant seen == set k | 0 <= k < i :: s[k]
      invariant out == Firsts(s[..i])
    {
      assert s[..i + 1][..i] == s[..i];
      assert s[i] in s[..i] <==> s[i] in seen;
      if s[i] !in seen {
        seen := seen + {s[i]};
        out := out + [s[i]];
      }
    }
    assert s[..|s|] == s;
  }

  function WithValue(vars: map<string, string>, value: Option<string>): map<string, string> {
    match value case None => vars case Some(v) => vars["value" := v]
  }

  /** `order` is a visiting order of the header map. The map visits each header once; nothing below
      depends on that. */
  predicate Visits(order: seq<string>, a: Action) {
    && (forall i :: 0 <= i < |order| ==> order[i] in a.headers)
    && (forall h :: h in a.headers ==> h in order)
  }

  /** The missing keys of each header visited. */
  function HeadersMissing(a: Action, order: seq<string>, vars: map<string, string>): seq<seq<string>>
    requires Visits(order, a)
  {
    seq(|order|, i requires 0 <= i < |order| => Resolved(a.headers[order[i]], vars).1)
  }

  function HeadersFilled(a: Action, vars: map<string, string>): map<string, string> {
    map h | h in a.headers :: Resolved(a.headers[h], vars).0
  }

  function Missing(a: Action, order: seq<string>, vars: map<string, string>): seq<string>
    requires Visits(order, a)
  {
    Resolved(a.url, vars).1 + Resolved(a.body, vars).1 + Flat(HeadersMissing(a, order, vars), |order|)
  }

  /** The outcome of an action: refused when a key is unknown, or when the URL is unusable once resolved. */
  function Outcome(a: Action, order: seq<string>, catalogue: map<string, string>, value: Option<string>,
                   usable: string -> bool): Result<Request, ActionError>
    requires Visits(order, a)
  {
    var vars := WithValue(catalogue, value);
    var url := Resolved(a.url, vars).0;
    if Missing(a, order, vars) != [] then Err(UnknownVars(Firsts(Missing(a, order, vars))))
    else if !usable(url) then Err(BadURL(url))
    else Ok(Request(url, HeadersFilled(a, vars), Resolved(a.body, vars).0))
  }

  function HeaderTexts(a: Action, order: seq<string>, vars: map<string, string>): seq<string>
    requires Visits(order, a)
  {
    seq(|order|, i requires 0 <= i < |order| => Resolved(a.headers[order[i]], vars).0)
  }

  method ResolveHeaders(a: Action, order: seq<string>, vars: map<string, string>)
    returns (headers: map<string, string>, missing: seq<string>)
    requires Visits(order, a)
    ensures missing == Flat(HeadersMissing(a, order, vars), |order|)
    ensures headers == Table(order, HeaderTexts(a, order, vars), |order|)
  {
    hide Resolved;
    headers, missing := map[], [];
    for i := 0 to |order|
      invariant missing == Flat(HeadersMissing(a, order, vars), i)
      invariant headers == Table(order, HeaderTexts(a, order, vars), i)
    {
      var text, absent := ResolveVars(a.headers[order[i]], vars);
      missing := missing + absent;
      headers := headers[order[i] := text];
    }
  }

  lemma AllVisited(a: Action, order: seq<string>, vars: map<string, string>)
    requires Visits(order, a)
    ensures Table(order, HeaderTexts(a, order, vars), |order|) == HeadersFilled(a, vars)
  {
    var t := Table(order, HeaderTexts(a, order, vars), |order|);
    TableHas(order, HeaderTexts(a, order, vars), |order|);
    forall h | h in a.headers ensures h in t {
      var i :| 0 <= i < |order| && order[i] == h;
    }
  }

  method ResolveAction(a: Action, order: seq<string>, catalogue: map<string, string>, value: Option<string>,
                       usable: string -> bool) returns (r: Result<Request, ActionError>)
    requires Visits(order, a)
    ensures r == Outcome(a, order, catalogue, value, usable)
  {
    var vars := catalogue;
    if value.Some? {
      vars := vars["value" := value.value];
    }
    var url, missing := ResolveVars(a.url, vars);
    var body, more := ResolveVars(a.body, vars);
    var headers, absent := ResolveHeaders(a, order, vars);
    AllVisited(a, order, vars);
    missing := missing + more + absent;
    if missing != [] {
      var keys := Dedupe(missing);
      return Err(UnknownVars(keys));
    }
    if !usable(url) {
      return Err(BadURL(url));
    }
    return Ok(Request(url, headers, body));
  }

  // ----- the slider parameter -----

  ghost predicate HoldsValue(s: string) {
    exists i: nat, j: nat :: Occurs(s, i, j, "value")
  }

  /** Some part of the action, taken by itself, has a placeholder for `value`. */
  ghost predicate PartHoldsValue(a: Action) {
    HoldsValue(a.url) || HoldsValue(a.body) || exists h :: h in a.headers && HoldsValue(a.headers[h])
  }

  ghost predicate NeedsValue(a: Action) {
    HoldsValue(a.url + "\n" + a.body) || exists h :: h in a.headers && HoldsValue(a.headers[h])
  }

  method HasValue(s: string) returns (b: bool)
    ensures b <==> HoldsValue(s)
  {
    var i := 0;
    while i < |s|
      invariant i <= |s|
      invariant forall k: nat, j: nat :: k < i ==> !Occurs(s, k, j, "value")
    {
      var m := MatchAt(s, i);
      forall j: nat ensures m == Some(Match(i, j, "value")) <==> Occurs(s, i, j, "value") {
        MatchAtIs(s, i, j, "value");
      }
      match m
      case Some(h) =>
        if h.key == "value" {
          assert Occurs(s, i, h.end, "value");
          return true;
        }
        MatchAtIs(s, i, h.end, h.key);
        forall k: nat, j: nat | i <= k < h.end ensures !Occurs(s, k, j, "value") {
          if Occurs(s, k, j, "value") {
            OccurrencesApart(s, i, h.end, h.key, k, j, "value");
          }
        }
        i := h.end;
      case None =>
        i := i + 1;
    }
    return false;
  }

  method ActionNeedsValue(a: Action, order: seq<string>) returns (b: bool)
    requires Visits(order, a)
    ensures b <==> NeedsValue(a)
  {
    b := HasValue(a.url + "\n" + a.body);
    if b {
      return;
    }
    for i := 0 to |order|
      invariant forall k :: 0 <= k < i ==> !HoldsValue(a.headers[order[k]])
    {
      b := HasValue(a.headers[order[i]]);
      if b {
        assert order[i] in a.headers;
        return;
      }
    }
    forall h | h in a.headers ensures !HoldsValue(a.headers[h]) {
      assert h in order;
    }
    return false;
  }

  lemma SpellsInside(s: string, t: string, n: nat, i: nat, a: nat, b: nat, c: nat)
    requires n + |s| <= |t| && (forall k :: n <= k < n + |s| ==> t[k] == s[k - n]) && Spells(s, i, a, b, c)
    ensures Spells(t, n + i, n + a, n + b, n + c) && t[n + a..n + b] == s[a..b]
  {
  }

  /** A placeholder stays one when text is put before or after it. */
  lemma OccursInside(before: string, s: string, after: string, i: nat, j: nat, key: string)
    requires Occurs(s, i, j, key)
    ensures Occurs(before + s + after, |before| + i, |before| + j, key)
  {
    var n := |before|;
    var a: nat, b: nat :| Spells(s, i, a, b, j - 2) && key == s[a..b];
    SpellsInside(s, before + s + after, n, i, a, b, j - 2);
    assert Spells(before + s + after, n + i, n + a, n + b, n + j - 2);
  }

  lemma HoldsInside(before: string, s: string, after: string)
    requires HoldsValue(s)
    ensures HoldsValue(before + s + after)
  {
    var i: nat, j: nat :| Occurs(s, i, j, "value");
    OccursInside(before, s, after, i, j, "value");
  }

  lemma PartHoldsNeeds(a: Action)
    requires PartHoldsValue(a)
    ensures NeedsValue(a)
  {
    if HoldsValue(a.url) {
      HoldsInside("", a.url, "\n" + a.body);
      assert "" + a.url + ("\n" + a.body) == a.url + "\n" + a.body;
    } else if HoldsValue(a.body) {
      HoldsInside(a.url + "\n", a.body, "");
      assert a.url + "\n" + a.body + "" == a.url + "\n" + a.body;
    }
  }

  lemma HeadersAgree(a: Action, order: seq<string>, v: map<string, string>, w: map<string, string>)
    requires Visits(order, a) && forall h :: h in a.headers ==> Resolved(a.headers[h], v) == Resolved(a.headers[h], w)
    ensures HeadersMissing(a, order, v) == HeadersMissing(a, order, w)
    ensures HeadersFilled(a, v) == HeadersFilled(a, w)
  {
  }

  /** An action none of whose parts has the placeholder gives the same outcome with a slider value and
      without. */
  lemma WithoutPlaceholder(a: Action, order: seq<string>, catalogue: map<string, string>, v: string,
                           usable: string -> bool)
    requires Visits(order, a) && !PartHoldsValue(a)
    ensures Outcome(a, order, catalogue, Some(v), usable) == Outcome(a, order, catalogue, None, usable)
  {
    SameWithoutValue(a.url, catalogue, v);
    SameWithoutValue(a.body, catalogue, v);
    assert HeadersMissing(a, order, catalogue) == HeadersMissing(a, order, WithValue(catalogue, Some(v)))
        && HeadersFilled(a, catalogue) == HeadersFilled(a, WithValue(catalogue, Some(v))) by {
      forall h | h in a.headers
        ensures Resolved(a.headers[h], catalogue) == Resolved(a.headers[h], WithValue(catalogue, Some(v)))
      {
        SameWithoutValue(a.headers[h], catalogue, v);
      }
      HeadersAgree(a, order, catalogue, WithValue(catalogue, Some(v)));
    }
  }

  /** In particular an action that is not flagged. */
  lemma SliderDoesNotInterfere(a: Action, order: seq<string>, catalogue: map<string, string>, v: string,
                               usable: string -> bool)
    requires Visits(order, a) && !NeedsValue(a)
    ensures Outcome(a, order, catalogue, Some(v), usable) == Outcome(a, order, catalogue, None, usable)
  {
    if PartHoldsValue(a) {
      PartHoldsNeeds(a);
    }
    WithoutPlaceholder(a, order, catalogue, v, usable);
  }

  lemma MissingHasNoValue(a: Action, order: seq<string>, vars: map<string, string>, key: string)
    requires Visits(order, a) && key in Missing(a, order, vars)
    ensures key !in vars
  {
    MissingIffUnknown(a.url, vars, key);
    MissingIffUnknown(a.body, vars, key);
    var lists := HeadersMissing(a, order, vars);
    FlatHas(lists, |order|, key);
    if key in Flat(lists, |order|) {
      var i :| 0 <= i < |order| && key in lists[i];
      MissingIffUnknown(a.headers[order[i]], vars, key);
    }
  }

  /** With no catalogue key of that name, a slider value makes a difference exactly when some part has the
      placeholder. */
  lemma SliderMatters(a: Action, order: seq<string>, catalogue: map<string, string>, v: string, usable: string -> bool)
    requires Visits(order, a) && "value" !in catalogue
    ensures Outcome(a, order, catalogue, Some(v), usable) != Outcome(a, order, catalogue, None, usable) <==>
            PartHoldsValue(a)
  {
    if PartHoldsValue(a) {
      var vars := WithValue(catalogue, Some(v));
      RefusedForWantOfValue(a, order, catalogue, usable);
      FirstsAre(Missing(a, order, vars));
      if "value" in Missing(a, order, vars) {
        MissingHasNoValue(a, order, vars, "value");
      }
    } else {
      WithoutPlaceholder(a, order, catalogue, v, usable);
    }
  }

  lemma SameWithoutValue(s: string, vars: map<string, string>, v: string)
    requires !HoldsValue(s)
    ensures Resolved(s, vars) == Resolved(s, WithValue(vars, Some(v)))
  {
    OnlyOccurringKeysMatter(s, vars, WithValue(vars, Some(v)));
  }

  lemma ValueMissing(a: Action, order: seq<string>, catalogue: map<string, string>)
    requires Visits(order, a) && "value" !in catalogue
    ensures "value" in Missing(a, order, catalogue) <==> PartHoldsValue(a)
  {
    MissingIffUnknown(a.url, catalogue, "value");
    MissingIffUnknown(a.body, catalogue, "value");
    HeaderValueMissing(a, order, catalogue);
  }

  lemma HeaderValueMissing(a: Action, order: seq<string>, catalogue: map<string, string>)
    requires Visits(order, a) && "value" !in catalogue
    ensures "value" in Flat(HeadersMissing(a, order, catalogue), |order|) <==>
      exists h :: h in a.headers && HoldsValue(a.headers[h])
  {
    var lists := HeadersMissing(a, order, catalogue);
    FlatHas(lists, |order|, "value");
    forall i | 0 <= i < |order| ensures "value" in lists[i] <==> HoldsValue(a.headers[order[i]]) {
      MissingIffUnknown(a.headers[order[i]], catalogue, "value");
    }
  }

  /** Without a value, and with no catalogue key of that name, the action is refused for want of `value`
      exactly when one of its parts has a placeholder for it. */
  lemma RefusedForWantOfValue(a: Action, order: seq<string>, catalogue: map<string, string>, usable: string -> bool)
    requires Visits(order, a) && "value" !in catalogue
    ensures var r := Outcome(a, order, catalogue, None, usable);
            (r.Err? && r.error.UnknownVars? && "value" in r.error.keys) <==> PartHoldsValue(a)
  {
    FirstsAre(Missing(a, order, catalogue));
    ValueMissing(a, order, catalogue);
  }
}
