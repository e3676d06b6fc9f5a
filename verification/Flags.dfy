/** When the flag for a slider value is raised (hub/dashboard/variables.go:372-388): the address and the body
    are searched as one text, joined by a line break. */
module Flags {
  import opened Templates

  predicate Blanks(s: string, i: nat, j: nat) {
    i <= j <= |s| && forall k :: i <= k < j ==> IsBlank(s[k])
  }

  predicate Opens(s: string, i: nat) {
    i + 2 <= |s| && s[i] == '{' && s[i + 1] == '{'
  }

  predicate Closes(s: string, i: nat) {
    i + 2 <= |s| && s[i] == '}' && s[i + 1] == '}'
  }

  predicate ValueAt(s: string, i: nat) {
    i + 5 <= |s| && s[i..i + 5] == "value"
  }

  /** A placeholder for `value`: `{{` at `i`, the key at `a`, `}}` at `c`, blanks between. */
  predicate ValueHole(s: string, i: nat, a: nat, c: nat) {
    Opens(s, i) && Blanks(s, i + 2, a) && ValueAt(s, a) && Blanks(s, a + 5, c) && Closes(s, c)
  }

  /** The text ends with `{{` and blanks. */
  ghost predicate EndsOpen(s: string) {
    exists i: nat :: Opens(s, i) && Blanks(s, i + 2, |s|)
  }

  /** The text starts with blanks, `value`, blanks and `}}`. */
  ghost predicate StartsValue(s: string) {
    exists a: nat, c: nat :: Blanks(s, 0, a) && ValueAt(s, a) && Blanks(s, a + 5, c) && Closes(s, c)
  }

  /** The text ends with `{{`, blanks, `value` and blanks. */
  ghost predicate EndsValue(s: string) {
    exists i: nat, a: nat :: Opens(s, i) && Blanks(s, i + 2, a) && ValueAt(s, a) && Blanks(s, a + 5, |s|)
  }

  /** The text starts with blanks and `}}`. */
  ghost predicate StartsClosed(s: string) {
    exists c: nat :: Blanks(s, 0, c) && Closes(s, c)
  }

  /** A line break between the two completes a placeholder that neither has. */
  ghost predicate Spans(url: string, body: string) {
    (EndsOpen(url) && StartsValue(body)) || (EndsValue(url) && StartsClosed(body))
  }

  // ----- what a placeholder for the value is made of -----

  lemma HoleHolds(s: string, i: nat, a: nat, c: nat)
    requires ValueHole(s, i, a, c)
    ensures HoldsValue(s)
  {
    assert forall k :: a <= k < a + 5 ==> s[k] == "value"[k - a];
    assert Spells(s, i, a, a + 5, c);
    assert Occurs(s, i, c + 2, "value");
  }

  lemma HoldsHole(s: string) returns (i: nat, a: nat, c: nat)
    requires HoldsValue(s)
    ensures ValueHole(s, i, a, c)
  {
    var i0: nat, j: nat :| Occurs(s, i0, j, "value");
    var a0: nat, b: nat :| j >= 2 && Spells(s, i0, a0, b, j - 2) && "value" == s[a0..b];
    assert |s[a0..b]| == b - a0;
    i, a, c := i0, a0, j - 2;
  }

  // ----- the joined text, part by part -----

  function Joined(url: string, body: string): string {
    url + "\n" + body
  }

  lemma JoinedOpens(url: string, body: string, i: nat)
    ensures i + 2 <= |url| ==> (Opens(Joined(url, body), i) <==> Opens(url, i))
    ensures i > |url| ==> (Opens(Joined(url, body), i) <==> Opens(body, i - |url| - 1))
    ensures Opens(Joined(url, body), i) ==> i + 2 <= |url| || i > |url|
  {
  }

  lemma JoinedCloses(url: string, body: string, i: nat)
    ensures i + 2 <= |url| ==> (Closes(Joined(url, body), i) <==> Closes(url, i))
    ensures i > |url| ==> (Closes(Joined(url, body), i) <==> Closes(body, i - |url| - 1))
    ensures Closes(Joined(url, body), i) ==> i + 2 <= |url| || i > |url|
  {
  }

  lemma JoinedValue(url: string, body: string, a: nat)
    ensures a + 5 <= |url| ==> (ValueAt(Joined(url, body), a) <==> ValueAt(url, a))
    ensures a > |url| ==> (ValueAt(Joined(url, body), a) <==> ValueAt(body, a - |url| - 1))
    ensures ValueAt(Joined(url, body), a) ==> a + 5 <= |url| || a > |url|
  {
    var t, n := Joined(url, body), |url|;
    if a + 5 <= n {
      assert t[a..a + 5] == url[a..a + 5];
    } else if n < a && a + 5 <= |t| {
      assert t[a..a + 5] == body[a - n - 1..a - n - 1 + 5];
    }
    assert t[n] == '\n';
    assert ValueAt(t, a) ==> forall k :: a <= k < a + 5 ==> t[k] == "value"[k - a];
  }

  lemma JoinedBlanks(url: string, body: string, i: nat, j: nat)
    ensures j <= |url| ==> (Blanks(Joined(url, body), i, j) <==> Blanks(url, i, j))
    ensures i > |url| ==> (Blanks(Joined(url, body), i, j) <==> j > |url| && Blanks(body, i - |url| - 1, j - |url| - 1))
    ensures i <= |url| < j ==>
      (Blanks(Joined(url, body), i, j) <==> Blanks(url, i, |url|) && Blanks(body, 0, j - |url| - 1))
  {
    var t, n := Joined(url, body), |url|;
    assert forall k :: 0 <= k < n ==> t[k] == url[k];
    assert forall k :: 0 <= k < |body| ==> body[k] == t[n + 1 + k];
    assert forall k :: n < k < |t| ==> t[k] == body[k - n - 1];
    assert IsBlank(t[n]);
  }

  lemma HoleIsSomewhere(url: string, body: string, i: nat, a: nat, c: nat)
    requires ValueHole(Joined(url, body), i, a, c)
    ensures HoldsValue(url) || HoldsValue(body) || Spans(url, body)
  {
    var n := |url|;
    JoinedOpens(url, body, i);
    JoinedBlanks(url, body, i + 2, a);
    JoinedValue(url, body, a);
    JoinedBlanks(url, body, a + 5, c);
    JoinedCloses(url, body, c);
    if i > n {
      HoleHolds(body, i - n - 1, a - n - 1, c - n - 1);
    } else if a > n {
      assert EndsOpen(url) && StartsValue(body);
    } else if c > n {
      assert EndsValue(url) && StartsClosed(body);
    } else {
      HoleHolds(url, i, a, c);
    }
  }

  lemma OpenedThenValue(url: string, body: string, i: nat, a: nat, c: nat)
    requires Opens(url, i) && Blanks(url, i + 2, |url|)
    requires Blanks(body, 0, a) && ValueAt(body, a) && Blanks(body, a + 5, c) && Closes(body, c)
    ensures HoldsValue(Joined(url, body))
  {
    var n := |url| + 1;
    JoinedOpens(url, body, i);
    JoinedBlanks(url, body, i + 2, n + a);
    JoinedValue(url, body, n + a);
    JoinedBlanks(url, body, n + a + 5, n + c);
    JoinedCloses(url, body, n + c);
    HoleHolds(Joined(url, body), i, n + a, n + c);
  }

  lemma ValueThenClosed(url: string, body: string, i: nat, a: nat, c: nat)
    requires Opens(url, i) && Blanks(url, i + 2, a) && ValueAt(url, a) && Blanks(url, a + 5, |url|)
    requires Blanks(body, 0, c) && Closes(body, c)
    ensures HoldsValue(Joined(url, body))
  {
    var n := |url| + 1;
    JoinedOpens(url, body, i);
    JoinedBlanks(url, body, i + 2, a);
    JoinedValue(url, body, a);
    JoinedBlanks(url, body, a + 5, n + c);
    JoinedCloses(url, body, n + c);
    HoleHolds(Joined(url, body), i, a, n + c);
  }

  lemma SpansHolds(url: string, body: string)
    requires Spans(url, body)
    ensures HoldsValue(Joined(url, body))
  {
    if EndsOpen(url) && StartsValue(body) {
      var i: nat :| Opens(url, i) && Blanks(url, i + 2, |url|);
      var a: nat, c: nat :| Blanks(body, 0, a) && ValueAt(body, a) && Blanks(body, a + 5, c) && Closes(body, c);
      OpenedThenValue(url, body, i, a, c);
    } else {
      var i: nat, a: nat :| Opens(url, i) && Blanks(url, i + 2, a) && ValueAt(url, a) && Blanks(url, a + 5, |url|);
      var c: nat :| Blanks(body, 0, c) && Closes(body, c);
      ValueThenClosed(url, body, i, a, c);
    }
  }

  /** The flag is raised exactly when some part has the placeholder, or the end of the address and the start of
      the body complete one between them. */
  lemma FlaggedIff(a: Action)
    ensures NeedsValue(a) <==> PartHoldsValue(a) || Spans(a.url, a.body)
  {
    if HoldsValue(Joined(a.url, a.body)) {
      var i, v, c := HoldsHole(Joined(a.url, a.body));
      HoleIsSomewhere(a.url, a.body, i, v, c);
    }
    if PartHoldsValue(a) {
      PartHoldsNeeds(a);
    }
    if Spans(a.url, a.body) {
      SpansHolds(a.url, a.body);
    }
  }

  /** For instance here the flag is raised, and no part needs the value. */
  lemma FlagMaySpan()
    ensures var a := Action("http://x/{{", "value}}", map[]);
            NeedsValue(a) && !PartHoldsValue(a)
  {
    var a := Action("http://x/{{", "value}}", map[]);
    assert Opens(a.url, 9) && Blanks(a.url, 11, |a.url|);
    assert Blanks(a.body, 0, 0) && ValueAt(a.body, 0) && Blanks(a.body, 5, 5) && Closes(a.body, 5);
    OpenedThenValue(a.url, a.body, 9, 0, 5);
    NoHoleThere();
  }

  lemma NoHoleThere()
    ensures !HoldsValue("http://x/{{") && !HoldsValue("value}}")
  {
    if HoldsValue("http://x/{{") {
      var i, a, c := HoldsHole("http://x/{{");
    }
    if HoldsValue("value}}") {
      var i, a, c := HoldsHole("value}}");
    }
  }
}
