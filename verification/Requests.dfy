/** What an action sends (hub/dashboard/variables.go:300-333): exactly when it is sent, with what, and what a
    refusal says. `Outcome` is what `Templates.ResolveAction` answers. */
module Requests {
  import opened Common
  import opened Templates

  /** The texts of an action. */
  ghost predicate IsPart(a: Action, s: string) {
    s == a.url || s == a.body || exists h :: h in a.headers && a.headers[h] == s
  }

  ghost predicate Written(s: string, key: string) {
    exists i: nat, j: nat :: Occurs(s, i, j, key)
  }

  /** Some part has a placeholder for the key. */
  ghost predicate Needs(a: Action, key: string) {
    exists s :: IsPart(a, s) && Written(s, key)
  }

  ghost predicate AllKnown(a: Action, vars: map<string, string>) {
    forall key :: Needs(a, key) ==> key in vars
  }

  /** The values at hand: the catalogue, and under `value` the parameter if there is one. */
  function Vars(catalogue: map<string, string>, value: Option<string>): map<string, string> {
    if value.Some? then catalogue["value" := value.value] else catalogue
  }

  /** The text with each placeholder replaced by its value. */
  function Sent(s: string, vars: map<string, string>): string {
    Rendered(Pieces(s, 0), vars)
  }

  lemma ResolvedIs(s: string, vars: map<string, string>)
    ensures Resolved(s, vars) == (Sent(s, vars), KeysWithout(Pieces(s, 0), vars))
  {
    FillRendersPieces(s, 0, vars);
    UnknownListsPieces(s, 0, vars);
  }

  lemma MissingOfPart(s: string, vars: map<string, string>, key: string)
    ensures key in Resolved(s, vars).1 <==> key !in vars && Written(s, key)
  {
    MissingIffUnknown(s, vars, key);
  }

  lemma MissingIs(a: Action, order: seq<string>, vars: map<string, string>, key: string)
    requires Visits(order, a)
    ensures key in Missing(a, order, vars) <==> key !in vars && Needs(a, key)
  {
    hide Resolved, Written;
    MissingOfPart(a.url, vars, key);
    MissingOfPart(a.body, vars, key);
    var lists := HeadersMissing(a, order, vars);
    FlatHas(lists, |order|, key);
    forall i | 0 <= i < |order| ensures key in lists[i] <==> key !in vars && Written(a.headers[order[i]], key) {
      MissingOfPart(a.headers[order[i]], vars, key);
    }
    if key in Flat(lists, |order|) {
      var i :| 0 <= i < |order| && key in lists[i];
      assert IsPart(a, a.headers[order[i]]);
    }
    assert IsPart(a, a.url) && IsPart(a, a.body);
    if key !in vars && Needs(a, key) {
      var s :| IsPart(a, s) && Written(s, key);
      if s != a.url && s != a.body {
        var h :| h in a.headers && a.headers[h] == s;
        var i :| 0 <= i < |order| && order[i] == h;
        assert key in lists[i];
      }
    }
  }

  lemma NothingMissingIff(a: Action, order: seq<string>, vars: map<string, string>)
    requires Visits(order, a)
    ensures Missing(a, order, vars) == [] <==> AllKnown(a, vars)
  {
    hide Missing, Needs;
    var missing := Missing(a, order, vars);
    forall key ensures key in missing <==> key !in vars && Needs(a, key) {
      MissingIs(a, order, vars, key);
    }
    if missing != [] {
      assert missing[0] in missing;
    }
  }

  /** Every part of the request is its own part of the action, with the values put in. */
  predicate Carries(r: Request, a: Action, vars: map<string, string>) {
    && r.url == Sent(a.url, vars) && r.body == Sent(a.body, vars)
    && r.headers.Keys == a.headers.Keys
    && forall h :: h in a.headers ==> r.headers[h] == Sent(a.headers[h], vars)
  }

  lemma FilledCarries(a: Action, vars: map<string, string>, r: Request)
    ensures r == Request(Resolved(a.url, vars).0, HeadersFilled(a, vars), Resolved(a.body, vars).0) <==>
            Carries(r, a, vars)
  {
    ResolvedIs(a.url, vars);
    ResolvedIs(a.body, vars);
    var filled := HeadersFilled(a, vars);
    forall h | h in a.headers ensures filled[h] == Sent(a.headers[h], vars) {
      ResolvedIs(a.headers[h], vars);
    }
    if Carries(r, a, vars) {
      assert r.headers == filled;
    }
  }

  /** An action is sent exactly when every key it mentions has a value and its address, once filled, is usable;
      and then every part is sent under its own name with the values put in. */
  lemma SentIff(a: Action, order: seq<string>, catalogue: map<string, string>, value: Option<string>,
                usable: string -> bool, r: Request)
    requires Visits(order, a)
    ensures var vars := Vars(catalogue, value);
            Outcome(a, order, catalogue, value, usable) == Ok(r) <==>
              AllKnown(a, vars) && usable(Sent(a.url, vars)) && Carries(r, a, vars)
  {
    hide Missing, HeadersFilled, Resolved, Carries, AllKnown;
    var vars := Vars(catalogue, value);
    NothingMissingIff(a, order, vars);
    FilledCarries(a, vars, r);
    ResolvedIs(a.url, vars);
  }

  /** It is refused for its address exactly when nothing is missing and the filled address is unusable; the
      refusal shows that address. */
  lemma BadAddressIff(a: Action, order: seq<string>, catalogue: map<string, string>, value: Option<string>,
                      usable: string -> bool, address: string)
    requires Visits(order, a)
    ensures var vars := Vars(catalogue, value);
            Outcome(a, order, catalogue, value, usable) == Err(BadURL(address)) <==>
              AllKnown(a, vars) && !usable(Sent(a.url, vars)) && address == Sent(a.url, vars)
  {
    hide Missing, HeadersFilled, Resolved, AllKnown;
    var vars := Vars(catalogue, value);
    NothingMissingIff(a, order, vars);
    ResolvedIs(a.url, vars);
  }

  /** The keys without a value: those of the address, those of the body, then those of the headers in the order
      in which they are visited. */
  function WithoutValue(a: Action, order: seq<string>, vars: map<string, string>): seq<string>
    requires Visits(order, a)
  {
    KeysWithout(Pieces(a.url, 0), vars) + KeysWithout(Pieces(a.body, 0), vars)
      + Flat(seq(|order|, i requires 0 <= i < |order| => KeysWithout(Pieces(a.headers[order[i]], 0), vars)), |order|)
  }

  lemma MissingInOrder(a: Action, order: seq<string>, vars: map<string, string>)
    requires Visits(order, a)
    ensures Missing(a, order, vars) == WithoutValue(a, order, vars)
  {
    hide Resolved;
    ResolvedIs(a.url, vars);
    ResolvedIs(a.body, vars);
    forall i | 0 <= i < |order|
      ensures Resolved(a.headers[order[i]], vars).1 == KeysWithout(Pieces(a.headers[order[i]], 0), vars)
    {
      ResolvedIs(a.headers[order[i]], vars);
    }
    assert HeadersMissing(a, order, vars) ==
      seq(|order|, i requires 0 <= i < |order| => KeysWithout(Pieces(a.headers[order[i]], 0), vars));
  }

  /** It is refused for keys exactly when some key it mentions has no value; the refusal names every such key once,
      in the order of the parts. */
  lemma MissingKeysIff(a: Action, order: seq<string>, catalogue: map<string, string>, value: Option<string>,
                       usable: string -> bool, keys: seq<string>)
    requires Visits(order, a)
    ensures var vars := Vars(catalogue, value);
            Outcome(a, order, catalogue, value, usable) == Err(UnknownVars(keys)) <==>
              !AllKnown(a, vars) && keys == Firsts(WithoutValue(a, order, vars))
    ensures Outcome(a, order, catalogue, value, usable) == Err(UnknownVars(keys)) ==>
              forall key :: key in keys <==> key !in Vars(catalogue, value) && Needs(a, key)
  {
    hide Missing, HeadersFilled, Resolved, AllKnown, WithoutValue, Needs;
    var vars := Vars(catalogue, value);
    NothingMissingIff(a, order, vars);
    MissingInOrder(a, order, vars);
    FirstsAre(Missing(a, order, vars));
    forall key ensures key in Missing(a, order, vars) <==> key !in vars && Needs(a, key) {
      MissingIs(a, order, vars, key);
    }
  }

  lemma {:induction false} PlainIsSent(s: string, i: nat, vars: map<string, string>)
    requires i <= |s| && forall key :: !Mentions(s, i, key)
    ensures Fill(s, i, vars) == s[i..]
    decreases |s| - i
  {
    FillAgree(s, i, vars, map[]);
    PiecesSpellText(s, i);
  }

  lemma PlainPart(s: string, vars: map<string, string>)
    requires forall key :: !Written(s, key)
    ensures Sent(s, vars) == s
  {
    forall key ensures !Mentions(s, 0, key) {
      assert !Written(s, key);
    }
    PlainIsSent(s, 0, vars);
    FillRendersPieces(s, 0, vars);
    assert s[0..] == s;
  }

  /** Without placeholders an action is sent exactly as it is written. */
  lemma SentAsWritten(a: Action, order: seq<string>, catalogue: map<string, string>, value: Option<string>,
                      usable: string -> bool)
    requires Visits(order, a) && (forall key :: !Needs(a, key)) && usable(a.url)
    ensures Outcome(a, order, catalogue, value, usable) == Ok(Request(a.url, a.headers, a.body))
  {
    var vars, r := Vars(catalogue, value), Request(a.url, a.headers, a.body);
    forall s | IsPart(a, s) ensures Sent(s, vars) == s {
      forall key ensures !Written(s, key) {
        assert !Needs(a, key);
      }
      PlainPart(s, vars);
    }
    assert IsPart(a, a.url) && IsPart(a, a.body) && forall h :: h in a.headers ==> IsPart(a, a.headers[h]);
    SentIff(a, order, catalogue, value, usable, r);
  }

  // ----- a placeholder by itself -----

  predicate IsKey(key: string) {
    key != "" && forall i :: 0 <= i < |key| ==> IsKeyChar(key[i])
  }

  function Placeholder(key: string): string {
    "{{ " + key + " }}"
  }

  lemma PlaceholderIsOne(key: string)
    requires IsKey(key)
    ensures var s := Placeholder(key); MatchAt(s, 0) == Some(Match(0, |s|, key))
  {
    var s := Placeholder(key);
    var b := 3 + |key|;
    assert s[3..b] == key;
    assert forall k :: 3 <= k < b ==> s[k] == key[k - 3];
    assert s[b..] == " }}";
    assert s[b] == s[b..][0] && s[b + 1] == s[b..][1] && s[b + 2] == s[b..][2];
    assert Spells(s, 0, 3, b, b + 1);
    assert Occurs(s, 0, |s|, key);
    MatchAtIs(s, 0, |s|, key);
  }

  /** A placeholder for a key with a value is replaced by that value, and nothing is missing. */
  lemma PlaceholderResolves(key: string, vars: map<string, string>)
    requires IsKey(key) && key in vars
    ensures Resolved(Placeholder(key), vars) == (vars[key], [])
  {
    var s := Placeholder(key);
    PlaceholderIsOne(key);
    assert NextAt(s, 0) == |s| && PieceAt(s, 0) == Hole(Match(0, |s|, key), s[0..|s|]);
    assert Fill(s, |s|, vars) == [] && Unknown(s, |s|, vars) == [];
    assert Fill(s, 0, vars) == vars[key] + [];
    assert Unknown(s, 0, vars) == [] + [];
    NothingMore(vars[key]);
  }
}
