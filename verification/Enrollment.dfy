/** The hub's side of enrolment, approval and network keys (hub/dashboard/agentapi.go:29-143, 262-325,
    hub/dashboard/portal.go:86-106, 537-570). Each handler is one step. Tokens and keys come from a supply
    that never repeats, as numbers; tokens are compared directly rather than through their hashes. */
module Enrollment {
  import opened Common

  /** What the unique index on devices identifies. */
  datatype Site = Site(project: int, slug: string)

  datatype Status = Pending | Approved | Rejected | Revoked

  /** The part of a device row that enrolment and keys live in; no key is the empty key. */
  datatype Row = Row(status: Status, token: nat, key: Option<nat>, delivered: bool)

  /** Whether the hub drives a Headscale server, and the address it gives to the agents. */
  datatype Network = Network(enabled: bool, url: string)

  /** How the hub answers an administrator. */
  datatype Answer = Success | NotFound | NotApproved | NoServer | ServerFailed

  datatype Reply = Reply(status: Status, control: string, key: Option<nat>)

  /** The rows and how many tokens and keys were made so far. */
  datatype Hub = Hub(rows: map<Site, Row>, tokens: nat, keys: nat)

  predicate IsApproved(h: Hub, site: Site) {
    site in h.rows && h.rows[site].status == Approved
  }

  // ----- what each handler does -----

  /** A device that enrols again keeps its status, unless it was turned away, and its key. */
  function Enrolled(row: Row, token: nat): Row {
    row.(status := if row.status == Revoked || row.status == Rejected then Pending else row.status,
         token := token, delivered := false)
  }

  function EnrollAt(h: Hub, site: Site): Hub {
    var row := if site in h.rows then Enrolled(h.rows[site], h.tokens) else Row(Pending, h.tokens, None, false);
    h.(rows := h.rows[site := row], tokens := h.tokens + 1)
  }

  /** A key is shown only to an approved device that has not confirmed it. */
  function ReplyFor(net: Network, row: Row): Reply {
    if row.status != Approved then Reply(row.status, "", None)
    else Reply(row.status, net.url, if row.delivered then None else row.key)
  }

  function AckAt(h: Hub, site: Site): Hub {
    if site !in h.rows then h else h.(rows := h.rows[site := h.rows[site].(key := None, delivered := true)])
  }

  /** Approval needs a fresh key when there is a Headscale server, and fails when that one does. */
  function ApproveAt(net: Network, h: Hub, site: Site, works: bool): Hub {
    if site !in h.rows || (net.enabled && !works) then h
    else
      var key := if net.enabled then Some(h.keys) else None;
      h.(rows := h.rows[site := h.rows[site].(status := Approved, key := key, delivered := false)],
         keys := if net.enabled then h.keys + 1 else h.keys)
  }

  function RevokeAt(h: Hub, site: Site, to: Status): Hub {
    if site !in h.rows then h
    else h.(rows := h.rows[site := h.rows[site].(status := to, key := None, delivered := false)])
  }

  function DeleteAt(h: Hub, site: Site): Hub {
    h.(rows := h.rows - {site})
  }

  function RekeyAt(net: Network, h: Hub, site: Site, works: bool): Hub {
    if site !in h.rows || h.rows[site].status != Approved || !net.enabled || !works then h
    else h.(rows := h.rows[site := h.rows[site].(key := Some(h.keys), delivered := false)], keys := h.keys + 1)
  }

  // ----- what they keep -----

  /** A key is stored only while the device is approved and until it is confirmed. */
  predicate RowSound(row: Row) {
    row.key.Some? ==> row.status == Approved && !row.delivered
  }

  /** The token and the key of the device were made before. */
  predicate Known(h: Hub, row: Row) {
    row.token < h.tokens && (row.key.Some? ==> row.key.value < h.keys)
  }

  /** Two devices share neither token nor key. */
  predicate Apart(row: Row, other: Row) {
    row.token != other.token && (row.key.Some? ==> row.key != other.key)
  }

  predicate Sound(h: Hub) {
    && (forall a :: a in h.rows ==> RowSound(h.rows[a]) && Known(h, h.rows[a]))
    && (forall a, b :: a in h.rows && b in h.rows && a != b ==> Apart(h.rows[a], h.rows[b]))
  }

  /** The step changes at most the row of one site, where a token or a key is either the old one or new. */
  ghost predicate Local(h: Hub, h': Hub, site: Site) {
    && h.tokens <= h'.tokens && h.keys <= h'.keys
    && (forall b :: b != site ==> (b in h'.rows <==> b in h.rows))
    && (forall b :: b != site && b in h.rows ==> h'.rows[b] == h.rows[b])
    && (site in h'.rows ==>
          var row := h'.rows[site];
          && RowSound(row)
          && ((site in h.rows && row.token == h.rows[site].token) || h.tokens == row.token < h'.tokens)
          && (row.key == None || (site in h.rows && row.key == h.rows[site].key) ||
              (row.key == Some(h.keys) && h.keys < h'.keys)))
  }

  lemma LocalKeepsSound(h: Hub, h': Hub, site: Site)
    requires Sound(h) && Local(h, h', site)
    ensures Sound(h')
  {
    forall a, b | a in h'.rows && b in h'.rows && a != b ensures Apart(h'.rows[a], h'.rows[b]) {
      if a in h.rows && b in h.rows {
        assert Apart(h.rows[a], h.rows[b]) && Apart(h.rows[b], h.rows[a]);
      }
      assert a in h.rows ==> Known(h, h.rows[a]);
      assert b in h.rows ==> Known(h, h.rows[b]);
    }
  }

  lemma EnrollIsLocal(h: Hub, site: Site)
    requires Sound(h)
    ensures Local(h, EnrollAt(h, site), site)
  {
  }

  lemma AckIsLocal(h: Hub, site: Site)
    requires Sound(h)
    ensures Local(h, AckAt(h, site), site)
  {
  }

  lemma AdminIsLocal(net: Network, h: Hub, site: Site, works: bool, to: Status)
    requires Sound(h)
    ensures Local(h, ApproveAt(net, h, site, works), site)
    ensures Local(h, RevokeAt(h, site, to), site)
    ensures Local(h, DeleteAt(h, site), site)
    ensures Local(h, RekeyAt(net, h, site, works), site)
  {
  }

  lemma DeleteAfterRevoke(h: Hub, site: Site, to: Status)
    ensures DeleteAt(RevokeAt(h, site, to), site) == DeleteAt(h, site)
  {
    assert DeleteAt(RevokeAt(h, site, to), site).rows == DeleteAt(h, site).rows;
  }

  /** The device that a token belongs to. */
  ghost predicate Holds(h: Hub, site: Site, token: nat) {
    site in h.rows && h.rows[site].token == token
  }

  ghost function Holder(h: Hub, token: nat): Option<Site> {
    if site: Site :| Holds(h, site, token) then Some(site) else None
  }

  lemma HolderIsUnique(h: Hub, site: Site, token: nat)
    requires Sound(h) && Holds(h, site, token)
    ensures Holder(h, token) == Some(site)
  {
  }

  /** What the hub answers to a request for the status; nothing to an unknown token. */
  ghost function AnswerTo(net: Network, h: Hub, token: nat): Option<Reply> {
    var holder := Holder(h, token);
    if holder.Some? && holder.value in h.rows then Some(ReplyFor(net, h.rows[holder.value])) else None
  }

  // ----- the handlers -----

  class Portal {
    const net: Network
    var hub: Hub

    constructor (net: Network)
      ensures this.net == net && hub == Hub(map[], 0, 0) && Sound(hub)
    {
      this.net, hub := net, Hub(map[], 0, 0);
    }

    method Enroll(site: Site) returns (token: nat)
      requires Sound(hub)
      modifies this
      ensures Sound(hub) && hub == EnrollAt(old(hub), site)
      ensures Holder(hub, token) == Some(site)
      ensures var row := hub.rows[site];
              if site !in old(hub).rows then row.status == Pending && row.key.None?
              else
                var was := old(hub).rows[site];
                row.key == was.key &&
                row.status == (if was.status == Revoked || was.status == Rejected then Pending else was.status)
      ensures forall b :: b in old(hub).rows ==> old(hub).rows[b].token != token
    {
      EnrollIsLocal(hub, site);
      LocalKeepsSound(hub, EnrollAt(hub, site), site);
      token := hub.tokens;
      if site in hub.rows {
        var row := hub.rows[site];
        var status := row.status;
        if status == Revoked || status == Rejected {
          status := Pending;
        }
        hub := hub.(rows := hub.rows[site := row.(token := token, status := status, delivered := false)]);
      } else {
        hub := hub.(rows := hub.rows[site := Row(Pending, token, None, false)]);
      }
      hub := hub.(tokens := hub.tokens + 1);
      HolderIsUnique(hub, site, token);
    }

    /** Looks the device of a token up. */
    method FromRequest(token: nat) returns (site: Option<Site>)
      requires Sound(hub)
      ensures site == Holder(hub, token)
    {
      var left := hub.rows.Keys;
      while left != {}
        invariant left <= hub.rows.Keys
        invariant forall b :: b in hub.rows && b !in left ==> hub.rows[b].token != token
        decreases left
      {
        var b :| b in left;
        if hub.rows[b].token == token {
          HolderIsUnique(hub, b, token);
          return Some(b);
        }
        left := left - {b};
      }
      return None;
    }

    method Status(token: nat) returns (reply: Option<Reply>)
      requires Sound(hub)
      ensures reply == AnswerTo(net, hub, token)
    {
      var site := FromRequest(token);
      if site.None? {
        return None;
      }
      var row := hub.rows[site.value];
      if row.status != Approved {
        return Some(Reply(row.status, "", None));
      }
      var key := None;
      if row.key.Some? && !row.delivered {
        key := row.key;
      }
      return Some(Reply(row.status, net.url, key));
    }

    method AckKey(token: nat) returns (known: bool)
      requires Sound(hub)
      modifies this
      ensures Sound(hub) && (known <==> Holder(old(hub), token).Some?)
      ensures hub == if known then AckAt(old(hub), Holder(old(hub), token).value) else old(hub)
      ensures known ==> var site := Holder(old(hub), token).value;
                        hub.rows[site].key.None? && hub.rows[site].status == old(hub).rows[site].status
    {
      var site := FromRequest(token);
      if site.None? {
        return false;
      }
      AckIsLocal(hub, site.value);
      LocalKeepsSound(hub, AckAt(hub, site.value), site.value);
      hub := hub.(rows := hub.rows[site.value := hub.rows[site.value].(key := None, delivered := true)]);
      return true;
    }

    method Approve(site: Site, works: bool) returns (answer: Answer)
      requires Sound(hub)
      modifies this
      ensures Sound(hub) && hub == ApproveAt(net, old(hub), site, works)
      ensures answer == if site !in old(hub).rows then NotFound
                        else if net.enabled && !works then ServerFailed
                        else Success
      ensures answer == Success ==> hub.rows[site].status == Approved && !hub.rows[site].delivered &&
                                    hub.rows[site].key == if net.enabled then Some(old(hub).keys) else None
    {
      if site !in hub.rows {
        return NotFound;
      }
      AdminIsLocal(net, hub, site, works, Revoked);
      LocalKeepsSound(hub, ApproveAt(net, hub, site, works), site);
      var key := None;
      if net.enabled {
        if !works {
          return ServerFailed;
        }
        key := Some(hub.keys);
        hub := hub.(keys := hub.keys + 1);
      }
      hub := hub.(rows := hub.rows[site := hub.rows[site].(status := Approved, key := key, delivered := false)]);
      return Success;
    }

    /** Revokes or rejects. */
    method TurnAway(site: Site, to: Status) returns (answer: Answer)
      requires Sound(hub) && (to == Revoked || to == Rejected)
      modifies this
      ensures Sound(hub) && hub == RevokeAt(old(hub), site, to)
      ensures answer == if site !in old(hub).rows then NotFound else Success
      ensures answer == Success ==> hub.rows[site].status == to && hub.rows[site].key.None?
    {
      if site !in hub.rows {
        return NotFound;
      }
      AdminIsLocal(net, hub, site, true, to);
      LocalKeepsSound(hub, RevokeAt(hub, site, to), site);
      hub := hub.(rows := hub.rows[site := hub.rows[site].(status := to, key := None, delivered := false)]);
      return Success;
    }

    method Delete(site: Site) returns (answer: Answer)
      requires Sound(hub)
      modifies this
      ensures Sound(hub) && hub == DeleteAt(old(hub), site)
      ensures answer == if site !in old(hub).rows then NotFound else Success
    {
      if site !in hub.rows {
        assert hub.rows - {site} == hub.rows;
        return NotFound;
      }
      DeleteAfterRevoke(hub, site, Revoked);
      answer := TurnAway(site, Revoked);
      AdminIsLocal(net, hub, site, true, Revoked);
      LocalKeepsSound(hub, DeleteAt(hub, site), site);
      hub := hub.(rows := hub.rows - {site});
    }

    method Rekey(site: Site, works: bool) returns (answer: Answer)
      requires Sound(hub)
      modifies this
      ensures Sound(hub) && hub == RekeyAt(net, old(hub), site, works)
      ensures answer == if site !in old(hub).rows then NotFound
                        else if old(hub).rows[site].status != Approved then NotApproved
                        else if !net.enabled then NoServer
                        else if !works then ServerFailed
                        else Success
      ensures answer == Success ==> hub.rows[site].status == Approved && !hub.rows[site].delivered &&
                                    hub.rows[site].key == Some(old(hub).keys)
    {
      if site !in hub.rows {
        return NotFound;
      }
      if hub.rows[site].status != Approved {
        return NotApproved;
      }
      if !net.enabled {
        return NoServer;
      }
      if !works {
        return ServerFailed;
      }
      AdminIsLocal(net, hub, site, works, Revoked);
      LocalKeepsSound(hub, RekeyAt(net, hub, site, works), site);
      var row := hub.rows[site].(key := Some(hub.keys), delivered := false);
      hub := hub.(rows := hub.rows[site := row], keys := hub.keys + 1);
      return Success;
    }
  }
}
