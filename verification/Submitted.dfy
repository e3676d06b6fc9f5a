/** What becomes of the configuration that is submitted (hub/dashboard/portal.go:576-643): which forwards are
    stored and on which protocol, and what the agent then relays (agent/cmd/agent/main.go:566-593). */
module Submitted {
  import opened Common
  import opened Links
  import opened Saving
  import Access
  import Convergence
  import Ports
  import Replica

  // ----- white space and letter case -----

  predicate AllSpace(s: string) {
    forall i :: 0 <= i < |s| ==> IsSpace(s[i])
  }

  /** `s[i..j]` is all of the text but the space around it. */
  ghost predicate Inner(s: string, i: nat, j: nat) {
    && i <= j <= |s| && (forall k :: 0 <= k < i || j <= k < |s| ==> IsSpace(s[k]))
    && (i < j ==> !IsSpace(s[i]) && !IsSpace(s[j - 1]))
  }

  lemma {:induction false} TrimLeftIs(s: string) returns (i: nat)
    ensures i <= |s| && TrimLeft(s) == s[i..] && AllSpace(s[..i]) && (i < |s| ==> !IsSpace(s[i]))
  {
    if s != [] && IsSpace(s[0]) {
      var k := TrimLeftIs(s[1..]);
      i := k + 1;
      assert s[1..][k..] == s[i..] && s[..i] == [s[0]] + s[1..][..k];
    } else {
      i := 0;
    }
  }

  lemma {:induction false} TrimRightIs(s: string) returns (j: nat)
    ensures j <= |s| && TrimRight(s) == s[..j] && AllSpace(s[j..]) && (j > 0 ==> !IsSpace(s[j - 1]))
  {
    if s != [] && IsSpace(s[|s| - 1]) {
      var init := s[..|s| - 1];
      j := TrimRightIs(init);
      assert init[..j] == s[..j] && s[j..] == init[j..] + [s[|s| - 1]];
    } else {
      j := |s|;
    }
  }

  /** Trimming takes the space off both ends and nothing else. */
  lemma TrimIs(s: string) returns (i: nat, j: nat)
    ensures Inner(s, i, j) && TrimSpace(s) == s[i..j]
  {
    i := TrimLeftIs(s);
    var k := TrimRightIs(s[i..]);
    j := i + k;
    assert s[i..][..k] == s[i..j];
    assert forall n :: 0 <= n < i ==> IsSpace(s[..i][n]) && s[..i][n] == s[n];
    assert forall n :: j <= n < |s| ==> IsSpace(s[i..][k..][n - j]) && s[i..][k..][n - j] == s[n];
    assert k > 0 ==> s[i..][k - 1] == s[j - 1];
  }

  /** The two ends are determined, unless the text is all space. */
  lemma InnerIsOne(s: string, i: nat, j: nat, i': nat, j': nat)
    requires Inner(s, i, j) && Inner(s, i', j') && i' < j'
    ensures i == i' && j == j'
  {
    assert !IsSpace(s[i']) && !IsSpace(s[j' - 1]);
  }

  /** The letter, small or capital. */
  predicate SameLetter(c: char, letter: char) {
    c == letter || ('A' <= c <= 'Z' && c as int + 32 == letter as int)
  }

  predicate Spelled(s: string, word: string) {
    |s| == |word| && forall k :: 0 <= k < |word| ==> SameLetter(s[k], word[k])
  }

  /** The text is the word, but for letter case and the space around it. */
  ghost predicate Says(s: string, word: string) {
    exists i: nat, j: nat :: Inner(s, i, j) && Spelled(s[i..j], word)
  }

  /** The letters of the two protocols. */
  predicate IsProtoLetter(c: char) {
    c == 't' || c == 'c' || c == 'p' || c == 'u' || c == 'd'
  }

  lemma LowerIs(s: string, word: string)
    requires forall k :: 0 <= k < |word| ==> IsProtoLetter(word[k])
    ensures Lower(s) == word <==> Spelled(s, word)
  {
    if |s| == |word| {
      forall k | 0 <= k < |s| ensures LowerChar(s[k]) == word[k] <==> SameLetter(s[k], word[k]) {}
      assert Lower(s) == word <==> forall k :: 0 <= k < |s| ==> Lower(s)[k] == word[k];
    }
  }

  /** What is read as a protocol: the word `word`, but for letter case and the space around it. */
  lemma ReadAs(s: string, word: string)
    requires word != "" && forall k :: 0 <= k < |word| ==> IsProtoLetter(word[k])
    ensures Lower(TrimSpace(s)) == word <==> Says(s, word)
  {
    var i, j := TrimIs(s);
    LowerIs(s[i..j], word);
    if Says(s, word) {
      var i': nat, j': nat :| Inner(s, i', j') && Spelled(s[i'..j'], word);
      InnerIsOne(s, i, j, i', j');
    }
  }

  lemma BlankIs(s: string)
    ensures Lower(TrimSpace(s)) == "" <==> AllSpace(s)
  {
    var i, j := TrimIs(s);
    assert i < j ==> !IsSpace(s[i]);
  }

  /** The protocol that a submitted text asks for; a blank one asks for tcp. */
  ghost function AskedProto(s: string): Option<string> {
    if AllSpace(s) || Says(s, "tcp") then Some("tcp") else if Says(s, "udp") then Some("udp") else None
  }

  /** A forward keeps the protocol it asks for, and is refused when it asks for none of the two. */
  lemma ProtoIsKept(f: Forward)
    ensures match AskedProto(f.proto)
            case Some(proto) => WithProto(f) == f.(proto := proto)
            case None => !Ports.TcpOrUdp(WithProto(f).proto) && WithProto(f) == f.(proto := WithProto(f).proto)
  {
    ReadAs(f.proto, "tcp");
    ReadAs(f.proto, "udp");
    BlankIs(f.proto);
  }

  // ----- the stored forwards -----

  /** The forwards picked at the places `at`. */
  predicate PickedAt(fs: seq<Forward>, at: seq<nat>, picked: seq<Forward>) {
    && |picked| == |at|
    && (forall k :: 0 <= k < |at| ==> at[k] < |fs| && picked[k] == fs[at[k]])
    && (forall k, l :: 0 <= k < l < |at| ==> at[k] < at[l])
  }

  ghost predicate AllUnmarked(fs: seq<Forward>, at: seq<nat>) {
    forall i: nat :: i in at <==> i < |fs| && fs[i].sub == ""
  }

  lemma PickNext(fs: seq<Forward>, f: Forward, at: seq<nat>, picked: seq<Forward>)
    requires PickedAt(fs, at, picked)
    ensures PickedAt(fs + [f], at, picked) && PickedAt(fs + [f], at + [|fs|], picked + [f])
  {
  }

  lemma UnmarkedNext(fs: seq<Forward>, f: Forward, at: seq<nat>)
    requires AllUnmarked(fs, at)
    ensures AllUnmarked(fs + [f], if f.sub == "" then at + [|fs|] else at)
  {
    var gs := fs + [f];
    forall i: nat ensures i in (if f.sub == "" then at + [|fs|] else at) <==> i < |gs| && gs[i].sub == "" {
      assert i < |fs| ==> gs[i] == fs[i];
    }
  }

  lemma FreeNext(fs: seq<Forward>, f: Forward)
    ensures Access.FreeOf(fs + [f]) == if f.sub == "" then Access.FreeOf(fs) + [f] else Access.FreeOf(fs)
  {
    assert (fs + [f])[..|fs|] == fs;
  }

  /** The places of the free forwards, with one forward more. */
  lemma FreeOneMore(fs: seq<Forward>, f: Forward, at: seq<nat>)
    requires PickedAt(fs, at, Access.FreeOf(fs)) && AllUnmarked(fs, at)
    ensures var at' := if f.sub == "" then at + [|fs|] else at;
            PickedAt(fs + [f], at', Access.FreeOf(fs + [f])) && AllUnmarked(fs + [f], at')
  {
    hide PickedAt, AllUnmarked, Access.FreeOf;
    PickNext(fs, f, at, Access.FreeOf(fs));
    UnmarkedNext(fs, f, at);
    FreeNext(fs, f);
  }

  function FreePlaces(fs: seq<Forward>): seq<nat> {
    if fs == [] then []
    else
      var before := FreePlaces(fs[..|fs| - 1]);
      if fs[|fs| - 1].sub == "" then before + [|fs| - 1] else before
  }

  lemma NoneFree()
    ensures PickedAt([], [], Access.FreeOf([])) && AllUnmarked([], [])
  {
  }

  /** The free forwards are the unmarked ones, all of them and in their order. */
  lemma {:induction false} FreeInOrder(fs: seq<Forward>)
    ensures PickedAt(fs, FreePlaces(fs), Access.FreeOf(fs)) && AllUnmarked(fs, FreePlaces(fs))
  {
    hide PickedAt, AllUnmarked, Access.FreeOf;
    if fs == [] {
      NoneFree();
    } else {
      var init, f := fs[..|fs| - 1], fs[|fs| - 1];
      FreeInOrder(init);
      FreeOneMore(init, f, FreePlaces(init));
      assert fs == init + [f];
    }
  }

  /** The forward is stored as submitted, on the protocol it asks for. */
  ghost predicate StoredAs(g: Forward, f: Forward) {
    AskedProto(f.proto).Some? && g == f.(proto := AskedProto(f.proto).value)
  }

  ghost predicate AllStoredAs(gs: seq<Forward>, fs: seq<Forward>) {
    |gs| == |fs| && forall k :: 0 <= k < |fs| ==> StoredAs(gs[k], fs[k])
  }

  lemma AcceptedProtos(accesses: seq<Forward>, free: seq<Forward>)
    requires var fs := accesses + WithProtos(free); forall i :: 0 <= i < |fs| ==> Ports.Stands(fs, i)
    ensures AllStoredAs(WithProtos(free), free)
  {
    var fs := accesses + WithProtos(free);
    forall k | 0 <= k < |free| ensures StoredAs(WithProtos(free)[k], free[k]) {
      assert Ports.Stands(fs, |accesses| + k) && fs[|accesses| + k] == WithProto(free[k]);
      ProtoIsKept(free[k]);
    }
  }

  /** The sub-devices that the handler works on. */
  function SubsOf(raw: Config): seq<SubDevice> {
    TrimmedAll(Normalized(raw).subDevices)
  }

  /** What is stored, in one list: the access of each exposed sub-device, then every submitted forward that
      belongs to none, in order, each unchanged but for its protocol, which is the one it asks for. */
  lemma SaveKeepsForwards(raw: Config, slug: string, isIP: string -> bool)
    requires Accepted(raw, slug, isIP)
    ensures var free, fs := Access.FreeOf(Normalized(raw).forwards), Stored(raw, slug).forwards;
            var open := Ports.Reachable(SubsOf(raw), |SubsOf(raw)|);
            |fs| == |open| + |free| && Ports.AllOpen(fs[..|open|], open) && AllStoredAs(fs[|open|..], free)
  {
    hide Stored, SubsOf, Normalized, Access.FreeOf, Access.Accesses, Accepted;
    var subs, free, fs := SubsOf(raw), Access.FreeOf(Normalized(raw).forwards), Stored(raw, slug).forwards;
    var accesses := Access.Accesses(subs, |subs|);
    StoredParts(raw, slug);
    Ports.AccessesOpen(subs, |subs|);
    Ports.AcceptedIff(raw, slug, isIP);
    AcceptedProtos(accesses, free);
    assert fs[..|accesses|] == accesses && fs[|accesses|..] == WithProtos(free);
  }

  lemma StoredParts(raw: Config, slug: string)
    ensures Stored(raw, slug).forwards ==
            Access.Accesses(SubsOf(raw), |SubsOf(raw)|) + WithProtos(Access.FreeOf(Normalized(raw).forwards))
  {
    StoredIsBuilt(raw, slug);
  }

  // ----- the routes -----

  /** The route that a submitted forward asks for. */
  ghost function AskedRoute(f: Forward): Access.Route {
    Access.Route(if AskedProto(f.proto).Some? then AskedProto(f.proto).value else f.proto, f.listen, f.target)
  }

  ghost function AskedRoutes(fs: seq<Forward>): multiset<Access.Route> {
    multiset(seq(|fs|, i requires 0 <= i < |fs| => AskedRoute(fs[i])))
  }

  lemma RoutesAsAsked(gs: seq<Forward>, fs: seq<Forward>)
    requires AllStoredAs(gs, fs)
    ensures Access.Routes(gs) == AskedRoutes(fs)
  {
    forall k | 0 <= k < |fs| ensures Access.RouteOf(gs[k]) == AskedRoute(fs[k]) {
      assert StoredAs(gs[k], fs[k]);
    }
    assert Access.RouteList(gs) == seq(|fs|, i requires 0 <= i < |fs| => AskedRoute(fs[i]));
  }

  /** The routes of a stored configuration: those of its accesses and those that the forwards of no sub-device
      ask for, with the same multiplicities. */
  lemma SaveKeepsRoutes(raw: Config, slug: string, isIP: string -> bool)
    requires Accepted(raw, slug, isIP)
    ensures var free, fs := Access.FreeOf(Normalized(raw).forwards), Stored(raw, slug).forwards;
            |free| <= |fs| &&
            Access.Routes(fs) == Access.Routes(fs[..|fs| - |free|]) + AskedRoutes(free)
  {
    hide Stored, Normalized, Access.FreeOf, Accepted, SubsOf;
    var free, fs := Access.FreeOf(Normalized(raw).forwards), Stored(raw, slug).forwards;
    SaveKeepsForwards(raw, slug, isIP);
    var m := |fs| - |free|;
    RoutesAsAsked(fs[m..], free);
    Access.RoutesAppend(fs[..m], fs[m..]);
    assert fs == fs[..m] + fs[m..];
  }

  // ----- what the agent then runs -----

  /** The rule relays what the forward asks for. */
  ghost predicate Relays(rule: AgentForward, f: Forward) {
    AskedProto(f.proto).Some? && rule == AgentForward(f.name, AskedProto(f.proto).value, f.listen, f.target)
  }

  /** The rule gives access to the sub-device. */
  ghost predicate Admits(rule: AgentForward, sd: SubDevice) {
    && rule.proto == "tcp" && rule.listen == (if sd.listen > 0 then sd.listen else sd.port)
    && sd.port >= 0 && Ports.Addresses(rule.target, sd.ip, sd.port)
  }

  ghost predicate RulesAre(rules: seq<AgentForward>, open: seq<SubDevice>, free: seq<Forward>) {
    && |rules| == |open| + |free|
    && (forall k :: 0 <= k < |open| ==> Admits(rules[k], open[k]))
    && (forall k :: 0 <= k < |free| ==> Relays(rules[|open| + k], free[k]))
  }

  lemma SentRules(fs: seq<Forward>, sent: seq<Forward>, open: seq<SubDevice>, free: seq<Forward>)
    requires ForwardsPass(fs, |fs|) && |sent| == |fs| == |open| + |free|
    requires forall k :: 0 <= k < |fs| ==> sent[k] == fs[k].(sub := sent[k].sub)
    requires Ports.AllOpen(fs[..|open|], open) && AllStoredAs(fs[|open|..], free)
    ensures RulesAre(ReceivedAll(sent), open, free)
  {
    SentAsStored(fs, sent);
    forall k | 0 <= k < |open| ensures Admits(ReceivedAll(sent)[k], open[k]) {
      assert Ports.Opens(fs[..|open|][k], open[k]) && fs[..|open|][k] == fs[k];
    }
    forall k | 0 <= k < |free| ensures Relays(ReceivedAll(sent)[|open| + k], free[k]) {
      assert StoredAs(fs[|open|..][k], free[k]) && fs[|open|..][k] == fs[|open| + k];
    }
  }

  lemma SentOfStored(raw: Config, slug: string, isIP: string -> bool)
    requires Accepted(raw, slug, isIP)
    ensures RulesAre(ReceivedAll(Replica.Sent(Stored(raw, slug)).forwards),
                     Ports.Reachable(SubsOf(raw), |SubsOf(raw)|), Access.FreeOf(Normalized(raw).forwards))
  {
    hide Stored, Normalized, Access.FreeOf, SubsOf, ReceivedAll;
    var fs, sent := Stored(raw, slug).forwards, Convergence.NormalizedTimes(Stored(raw, slug), 2).forwards;
    LoadsKeepForwards(Stored(raw, slug), 2);
    SaveKeepsForwards(raw, slug, isIP);
    SentRules(fs, sent, Ports.Reachable(SubsOf(raw), |SubsOf(raw)|), Access.FreeOf(Normalized(raw).forwards));
  }

  /** From the form to the network: an accepted configuration whose targets split as host and port, saved while
      the agent is idle, is what it relays after one undisturbed heartbeat: an access to each exposed sub-device,
      and every other forward as it was submitted, on the protocol it asks for. */
  lemma SubmittedIsRun(first: Config, steps: seq<Replica.Step>, raw: Config, slug: string, isIP: string -> bool,
                       splits: string -> bool)
    requires Replica.After(Replica.Real(splits), first, steps).phase.Idle? && Accepted(raw, slug, isIP)
    requires forall k :: 0 <= k < |Stored(raw, slug).forwards| ==> splits(Stored(raw, slug).forwards[k].target)
    ensures var s := Replica.After(Replica.Real(splits), first,
                                   steps + [Replica.Save(Stored(raw, slug))] + Replica.Reload());
            && s.view.running.Some?
            && RulesAre(s.view.running.value, Ports.Reachable(SubsOf(raw), |SubsOf(raw)|),
                        Access.FreeOf(Normalized(raw).forwards))
  {
    hide Stored, Normalized, Access.FreeOf, SubsOf, ReceivedAll;
    Replica.SavedIsRun(first, steps, raw, slug, isIP, splits);
    SentOfStored(raw, slug, isIP);
  }
}
