/**
  Reconciling the peer set against the live members: which peer clients are published,
  which are cancelled and reported gone, and which side of a pair dials.
 */
module PeerSet {
  import opened Wrappers

  datatype Member = Member(id: string, role: string, addr: string)

  /** One peerClient ever created; dials records whether a route goroutine was started for it. */
  datatype Client = Client(member: string, addr: string, dials: bool)

  /** The byte-wise order of member ids. */
  predicate Less(a: string, b: string) {
    if b == "" then false
    else if a == "" then true
    else a[0] < b[0] || (a[0] == b[0] && Less(a[1..], b[1..]))
  }

  lemma {:induction false} LessIsTotal(a: string, b: string)
    requires a != b
    ensures Less(a, b) <==> !Less(b, a)
  {
    if a != "" && b != "" && a[0] == b[0] {
      assert a == [a[0]] + a[1..] && b == [b[0]] + b[1..];
      LessIsTotal(a[1..], b[1..]);
    }
  }

  /** A member the mesh routes to. */
  predicate Eligible(mb: Member, selfID: string) {
    mb.id != selfID && (mb.role == "broker" || mb.role == "all") && mb.addr != ""
  }

  ghost predicate DistinctIds(members: seq<Member>) {
    forall i, j | 0 <= i < j < |members| :: members[i].id != members[j].id
  }

  ghost predicate Lists(members: seq<Member>, selfID: string, id: string) {
    exists i :: 0 <= i < |members| && members[i].id == id && Eligible(members[i], selfID)
  }

  ghost predicate Enumerates(order: seq<string>, peers: map<string, nat>) {
    && (forall id :: id in order <==> id in peers)
    && (forall i, j | 0 <= i < j < |order| :: order[i] != order[j])
  }

  ghost predicate CreatedBy(selfID: string, c: Client) {
    c.member != selfID && c.dials == Less(selfID, c.member)
  }

  /** What a listed member gets: its existing client when the address is unchanged, a new one otherwise. */
  ghost predicate Placed(mb: Member, clients: seq<Client>, next: map<string, nat>, prev: map<string, nat>, known: nat) {
    && mb.id in next && next[mb.id] < |clients|
    && clients[next[mb.id]].member == mb.id && clients[next[mb.id]].addr == mb.addr
    && ((mb.id in prev && prev[mb.id] < |clients| && clients[prev[mb.id]].addr == mb.addr) <==> next[mb.id] < known)
    && (next[mb.id] < known ==> mb.id in prev && next[mb.id] == prev[mb.id])
  }

  /** next is the snapshot for the members: known is how many clients existed before. */
  ghost predicate NextOk(selfID: string, members: seq<Member>, clients: seq<Client>,
                         next: map<string, nat>, prev: map<string, nat>, known: nat) {
    && (forall id :: id in next <==> Lists(members, selfID, id))
    && (forall i | 0 <= i < |members| && Eligible(members[i], selfID) :: Placed(members[i], clients, next, prev, known))
    && (forall c: nat | known <= c < |clients| :: clients[c].member in next && next[clients[c].member] == c)
  }

  ghost predicate PrevOk(clients: seq<Client>, prev: map<string, nat>, known: nat) {
    known <= |clients| && forall id | id in prev :: prev[id] < known && clients[prev[id]].member == id
  }

  lemma ListsOneMore(members: seq<Member>, selfID: string, i: nat, id: string)
    requires i < |members|
    ensures Lists(members[..i + 1], selfID, id) <==>
            Lists(members[..i], selfID, id) || (members[i].id == id && Eligible(members[i], selfID))
  {
    assert members[..i + 1] == members[..i] + [members[i]];
    if Lists(members[..i], selfID, id) {
      var j :| 0 <= j < i && members[..i][j].id == id && Eligible(members[..i][j], selfID);
      assert members[..i + 1][j] == members[..i][j];
    }
    if Lists(members[..i + 1], selfID, id) {
      var j :| 0 <= j < i + 1 && members[..i + 1][j].id == id && Eligible(members[..i + 1][j], selfID);
      if j < i { assert members[..i][j] == members[..i + 1][j]; }
    }
    assert members[..i + 1][i] == members[i];
  }

  lemma SkipOk(selfID: string, members: seq<Member>, i: nat, clients: seq<Client>,
               next: map<string, nat>, prev: map<string, nat>, known: nat)
    requires i < |members| && NextOk(selfID, members[..i], clients, next, prev, known) && !Eligible(members[i], selfID)
    ensures NextOk(selfID, members[..i + 1], clients, next, prev, known)
  {
    forall id ensures id in next <==> Lists(members[..i + 1], selfID, id) { ListsOneMore(members, selfID, i, id); }
    var longer := members[..i + 1];
    forall j | 0 <= j < i + 1 && Eligible(longer[j], selfID)
      ensures Placed(longer[j], clients, next, prev, known)
    {
      assert members[..i][j] == members[j];
    }
  }

  lemma NotYetListed(selfID: string, members: seq<Member>, i: nat)
    requires i < |members| && DistinctIds(members)
    ensures !Lists(members[..i], selfID, members[i].id)
  {
  }

  lemma ReuseOk(selfID: string, members: seq<Member>, i: nat, clients: seq<Client>,
                next: map<string, nat>, prev: map<string, nat>, known: nat)
    requires i < |members| && NextOk(selfID, members[..i], clients, next, prev, known) && DistinctIds(members)
    requires PrevOk(clients, prev, known) && Eligible(members[i], selfID)
    requires members[i].id in prev && clients[prev[members[i].id]].addr == members[i].addr
    ensures NextOk(selfID, members[..i + 1], clients, next[members[i].id := prev[members[i].id]], prev, known)
  {
    var mb := members[i];
    var next' := next[mb.id := prev[mb.id]];
    NotYetListed(selfID, members, i);
    forall id ensures id in next' <==> Lists(members[..i + 1], selfID, id) { ListsOneMore(members, selfID, i, id); }
    var longer := members[..i + 1];
    forall j | 0 <= j < i + 1 && Eligible(longer[j], selfID)
      ensures Placed(longer[j], clients, next', prev, known)
    {
      if j < i { assert members[..i][j] == members[j] && members[j].id != mb.id; }
    }
  }

  lemma DialOk(selfID: string, members: seq<Member>, i: nat, clients: seq<Client>, c: Client,
               next: map<string, nat>, prev: map<string, nat>, known: nat)
    requires i < |members| && NextOk(selfID, members[..i], clients, next, prev, known) && DistinctIds(members)
    requires PrevOk(clients, prev, known) && Eligible(members[i], selfID)
    requires c.member == members[i].id && c.addr == members[i].addr
    requires members[i].id in prev ==> clients[prev[members[i].id]].addr != members[i].addr
    ensures NextOk(selfID, members[..i + 1], clients + [c], next[members[i].id := |clients|], prev, known)
  {
    var mb := members[i];
    var next' := next[mb.id := |clients|];
    NotYetListed(selfID, members, i);
    forall id ensures id in next' <==> Lists(members[..i + 1], selfID, id) { ListsOneMore(members, selfID, i, id); }
    var longer := members[..i + 1];
    forall j | 0 <= j < i + 1 && Eligible(longer[j], selfID)
      ensures Placed(longer[j], clients + [c], next', prev, known)
    {
      if j < i { assert members[..i][j] == members[j] && members[j].id != mb.id; }
    }
  }

  ghost predicate AllCreated(selfID: string, clients: seq<Client>) {
    forall c: nat | c < |clients| :: CreatedBy(selfID, clients[c])
  }

  /** The snapshot for a listing: the first loop of refreshOnce. */
  method BuildNext(selfID: string, clients: seq<Client>, prev: map<string, nat>, members: seq<Member>)
    returns (all: seq<Client>, next: map<string, nat>)
    requires PrevOk(clients, prev, |clients|) && AllCreated(selfID, clients) && DistinctIds(members)
    ensures clients <= all && AllCreated(selfID, all)
    ensures NextOk(selfID, members, all, next, prev, |clients|)
  {
    next, all := map[], clients;
    for i := 0 to |members|
      invariant clients <= all && AllCreated(selfID, all)
      invariant PrevOk(all, prev, |clients|) && NextOk(selfID, members[..i], all, next, prev, |clients|)
    {
      var mb := members[i];
      if !Eligible(mb, selfID) {
        SkipOk(selfID, members, i, all, next, prev, |clients|);
      } else if mb.id in prev && all[prev[mb.id]].addr == mb.addr {
        ReuseOk(selfID, members, i, all, next, prev, |clients|);
        next := next[mb.id := prev[mb.id]];
      } else {
        var c := Client(mb.id, mb.addr, Less(selfID, mb.id));
        DialOk(selfID, members, i, all, c, next, prev, |clients|);
        next := next[mb.id := |all|];
        all := all + [c];
      }
    }
    assert members[..|members|] == members;
  }

  /** Carried by the published snapshot, but not by the next one. */
  ghost predicate Leaves(c: nat, clients: seq<Client>, prev: map<string, nat>, next: map<string, nat>) {
    c < |clients| && clients[c].member in prev && prev[clients[c].member] == c
    && !(clients[c].member in next && next[clients[c].member] == c)
  }

  ghost predicate ReportedOnce(cancelled: set<nat>, reported: seq<nat>) {
    forall c: nat :: multiset(reported)[c] == if c in cancelled then 1 else 0
  }

  /** Cancel and report what the next snapshot drops: the second loop of refreshOnce. */
  method CancelDeparted(clients: seq<Client>, prev: map<string, nat>, next: map<string, nat>, order: seq<string>,
                        cancelled: set<nat>, reported: seq<nat>)
    returns (cancelled': set<nat>, reported': seq<nat>)
    requires Enumerates(order, prev) && ReportedOnce(cancelled, reported)
    requires PrevOk(clients, prev, |clients|) && (forall id | id in prev :: prev[id] !in cancelled)
    ensures forall c: nat :: c in cancelled' <==> c in cancelled || Leaves(c, clients, prev, next)
    ensures ReportedOnce(cancelled', reported') && reported <= reported'
  {
    cancelled', reported' := cancelled, reported;
    for i := 0 to |order|
      invariant forall c: nat :: c in cancelled' <==>
                  c in cancelled || (Leaves(c, clients, prev, next) && clients[c].member in order[..i])
      invariant ReportedOnce(cancelled', reported') && reported <= reported'
    {
      var id := order[i];
      var c := prev[id];
      assert order[..i + 1] == order[..i] + [id];
      if !(id in next && next[id] == c) {
        assert Leaves(c, clients, prev, next) && id !in order[..i];
        cancelled' := cancelled' + {c};
        reported' := reported' + [c];
      }
    }
    assert order[..|order|] == order;
  }

  class PeerSet {
    const selfID: string
    var clients: seq<Client>
    var peers: map<string, nat>      // the published snapshot: member id to client
    var cancelled: set<nat>
    var reported: seq<nat>           // onPeerGone calls

    constructor (selfID: string)
      ensures Valid() && this.selfID == selfID && peers == map[] && clients == []
    {
      this.selfID := selfID;
      clients, peers, cancelled, reported := [], map[], {}, [];
    }

    /**
      The un-cancelled clients are exactly the published ones, each under its own member id
      and never this broker's own; each cancelled client was reported gone exactly once.
     */
    ghost predicate Valid()
      reads this
    {
      && AllCreated(selfID, clients)
      && PrevOk(clients, peers, |clients|) && (forall id | id in peers :: peers[id] !in cancelled)
      && (forall c: nat | c < |clients| && c !in cancelled :: clients[c].member in peers && peers[clients[c].member] == c)
      && (forall c | c in cancelled :: c < |clients|)
      && ReportedOnce(cancelled, reported)
    }

    /**
      One refresh. A failed listing changes nothing; otherwise the snapshot is the eligible
      members, and what left it is cancelled and reported.
     */
    method RefreshOnce(listing: Result<seq<Member>, string>, order: seq<string>)
      requires Valid() && Enumerates(order, peers) && (listing.Ok? ==> DistinctIds(listing.value))
      modifies this
      ensures Valid() && old(clients) <= clients
      ensures listing.Err? ==> peers == old(peers) && clients == old(clients) && cancelled == old(cancelled) && reported == old(reported)
      ensures listing.Ok? ==> forall id :: id in peers <==> Lists(listing.value, selfID, id)
      ensures listing.Ok? ==> forall i | 0 <= i < |listing.value| && Eligible(listing.value[i], selfID) ::
                                Placed(listing.value[i], clients, peers, old(peers), |old(clients)|)
      ensures old(cancelled) <= cancelled && old(reported) <= reported
    {
      if listing.Err? { return; }
      var all, next := BuildNext(selfID, clients, peers, listing.value);
      clients := all;
      cancelled, reported := CancelDeparted(clients, peers, next, order, cancelled, reported);
      peers := next;
    }
  }

  /** For two brokers that publish each other, exactly one starts the route. */
  lemma OneSideDials(a: PeerSet, b: PeerSet)
    requires a.Valid() && b.Valid() && a.selfID != b.selfID && b.selfID in a.peers && a.selfID in b.peers
    ensures a.clients[a.peers[b.selfID]].dials <==> !b.clients[b.peers[a.selfID]].dials
  {
    LessIsTotal(a.selfID, b.selfID);
  }
}
