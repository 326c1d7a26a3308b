/**
  The executor as an object: its tables are fields, and each method is one call of the
  source, run without interruption, statement by statement. A pendingStage or configSub is
  an entry of a table, named by its key. Each method is proved to act on the slot accounts
  exactly as the critical sections of SlotTable do, so what is proved of those holds of it.
 */
module Executor {
  import opened Wrappers
  import opened BrokerTypes
  import opened SlotTable
  import Protocol

  // ---------------------------------------------------------------- what a whole call does to the accounts

  /** The release a critical section captured, executed after the lock is dropped. */
  ghost function Released(t: Table, w: Option<SubKey>): Table {
    if w.Some? then ExecuteRelease(t, w.value) else t
  }

  ghost function Resolved(t: Table, k: StageKey): Table {
    Released(Resolve(t, k), if k in t.inflight && k in t.stages then t.stages[k].gateSub else None)
  }

  ghost function Unattributed(t: Table, k: StageKey): Table {
    Released(Unattribute(t, k), if k in t.stages && t.stages[k].slotHeld then t.stages[k].sentBy else None)
  }

  /** Freeing a stage's credit slot, at most once. */
  ghost function CreditFreed(t: Table, k: StageKey): Table {
    if k !in t.stages || !t.stages[k].slotHeld then t
    else t.(stages := t.stages[k := t.stages[k].(slotHeld := false, sentBy := None)],
            subs := Decrement(t.subs, t.stages[k].sentBy))
  }

  /** A release captured and executed by the same call leaves the captured ones as they were. */
  lemma CaptureCancels(t: Table, w: Option<SubKey>)
    requires w.Some?
    ensures t.releases + Captured(w) - multiset{w.value} == t.releases
  {
  }

  /** What drop and deliver do under the lock, before the credit part. */
  ghost function Unlinked(t: Table, k: StageKey): Table
    requires k in t.stages
  {
    t.(inflight := t.inflight - {k}, stages := t.stages[k := t.stages[k].(gateSub := None)])
  }

  ghost function SlotReturned(t: Table, w: Option<SubKey>): Table {
    if w.Some? then ReturnSlot(t, w.value) else t
  }

  /** The statements of drop and deliver, in their order, amount to resolving the stage and executing its release. */
  lemma ResolvedInSteps(t: Table, k: StageKey)
    requires k in t.inflight && k in t.stages
    ensures SlotReturned(CreditFreed(Unlinked(t, k), k), t.stages[k].gateSub) == Resolved(t, k)
  {
    var w := t.stages[k].gateSub;
    if w.Some? { CaptureCancels(t, w); }
    assert CreditFreed(Unlinked(t, k), k) == Resolve(t, k).(releases := t.releases);
  }

  /** Resolving twice is resolving once: a drop or an unattribute that follows a deliver frees nothing more. */
  lemma ResolvedOnce(t: Table, k: StageKey)
    requires WellLinked(t)
    ensures Resolved(Resolved(t, k), k) == Resolved(t, k)
    ensures Unattributed(Resolved(t, k), k) == Resolved(t, k)
  {
    if k in t.inflight && k in t.stages && t.stages[k].gateSub.Some? {
      assert k !in Resolved(t, k).inflight;
    }
  }

  lemma ReleasedSets(t: Table, g: Option<SubKey>, w: SubKey)
    ensures GateSet(Released(t, g), w) == GateSet(t, w) && CreditSet(Released(t, g), w) == CreditSet(t, w)
    ensures Released(t, g).subs.Keys == t.subs.Keys
    ensures w in t.subs ==> Released(t, g).subs[w].inflight == t.subs[w].inflight
    ensures w in t.subs ==> Released(t, g).subs[w].slots == t.subs[w].slots - (if g == Some(w) && t.subs[w].slots > 0 then 1 else 0)
  {
  }

  /** A whole drop or deliver keeps, for every stream, what its slots channel holds beyond its in-flight stages. */
  lemma ResolvedBalances(t: Table, k: StageKey, w: SubKey)
    requires WellLinked(t) && CreditExact(t) && w in t.subs && |GateSet(t, w)| <= t.subs[w].slots
    ensures w in Resolved(t, k).subs
    ensures Resolved(t, k).subs[w].slots - |GateSet(Resolved(t, k), w)| == t.subs[w].slots - |GateSet(t, w)|
    ensures Resolved(t, k).subs[w].inflight == |CreditSet(Resolved(t, k), w)|
  {
    ResolveKeeps(t, k);
    if k in t.inflight && k in t.stages {
      ResolveSets(t, k, w);
      ReleasedSets(Resolve(t, k), t.stages[k].gateSub, w);
      if t.stages[k].gateSub == Some(w) { assert k in GateSet(t, w); }
    }
  }

  /** Filtering one token more. */
  lemma {:induction false} KeepLiveAppend(tokens: seq<Token>, i: nat, b: nat, inflight: set<StageKey>)
    requires i < |tokens|
    ensures Protocol.KeepLive(tokens[..i + 1], b, inflight)
         == Protocol.KeepLive(tokens[..i], b, inflight) + if StageKey(b, tokens[i]) in inflight then [tokens[i]] else []
  {
    if i > 0 {
      KeepLiveAppend(tokens[1..], i - 1, b, inflight);
      assert tokens[1..][..i] == tokens[..i + 1][1..] && tokens[1..][..i - 1] == tokens[..i][1..];
    }
  }

  class FanoutExecutor {
    const broker: nat
    var inflight: set<StageKey>
    var stages: map<StageKey, Stage>
    var subs: map<SubKey, Sub>
    var results: map<StageKey, StageComplete>   // values waiting in the buffered(1) channels
    var pushedTo: map<StageKey, PeerKey>
    ghost var releases: multiset<SubKey>
    ghost var drift: Drift

    constructor (broker: nat)
      ensures View() == NewTable() && results == map[] && pushedTo == map[]
    {
      this.broker := broker;
      inflight, stages, subs, results, pushedTo := {}, map[], map[], map[], map[];
      releases, drift := multiset{}, NoDrift();
    }

    ghost function View(): Table
      reads this
    {
      Table(stages, inflight, subs, releases, drift)
    }

    /** dispatchStage (foreign false) or onRouteTask (foreign true) registering a stage with a fresh channel. */
    method RegisterStage(task: StageTask, foreign: bool) returns (k: StageKey)
      modifies this
      ensures k == StageKey(broker, task.leaseToken) && View() == Register(old(View()), k, task, foreign)
      ensures results == old(results) - {k} && pushedTo == old(pushedTo) - {k}
    {
      k := StageKey(broker, task.leaseToken);
      stages := stages[k := Stage(task, foreign, None, false, None)];
      results, pushedTo := results - {k}, pushedTo - {k};
      inflight := inflight + {k};
    }

    method AttributeToStream(k: StageKey, w: SubKey) returns (ok: bool)
      requires k in stages && w in subs
      modifies this`stages, this`subs
      ensures ok == Attributable(old(View()), k)
      ensures View() == Attribute(old(View()), k, w)
    {
      if stages[k].foreign { return true; }
      if k !in inflight { return false; }
      if !stages[k].slotHeld {
        stages := stages[k := stages[k].(sentBy := Some(w))];
        subs := subs[w := subs[w].(inflight := subs[w].inflight + 1)];
        stages := stages[k := stages[k].(slotHeld := true)];
      }
      return true;
    }

    method ClaimGateSlot(k: StageKey, w: SubKey)
      requires k in stages
      modifies this`stages, this`drift
      ensures View() == ClaimGate(old(View()), k, w)
    {
      drift := if k in inflight then drift.(regated := drift.regated + Captured(stages[k].gateSub))
               else drift.(stranded := drift.stranded + multiset{w});
      stages := stages[k := stages[k].(gateSub := Some(w))];
    }

    /** The credit part of drop, deliver and unattribute: free the slot at most once. */
    method FreeCredit(k: StageKey)
      requires k in stages
      modifies this`stages, this`subs
      ensures View() == CreditFreed(old(View()), k)
    {
      if stages[k].slotHeld {
        var owner := stages[k].sentBy;
        if owner.Some? && owner.value in subs && subs[owner.value].inflight > 0 {
          subs := subs[owner.value := subs[owner.value].(inflight := subs[owner.value].inflight - 1)];
        }
        stages := stages[k := stages[k].(slotHeld := false)];
        stages := stages[k := stages[k].(sentBy := None)];
      }
    }

    /** releaseSlot: a non-blocking receive from the stream's slots channel. */
    method ReleaseSlot(w: Option<SubKey>)
      modifies this`subs, this`drift
      ensures View() == SlotReturned(old(View()), w)
    {
      if w.Some? && w.value in subs {
        if subs[w.value].slots > 0 {
          subs := subs[w.value := subs[w.value].(slots := subs[w.value].slots - 1)];
        } else {
          drift := drift.(missed := drift.missed + multiset{w.value});
        }
      }
    }

    method UnattributeFromStream(k: StageKey)
      requires k in stages
      modifies this`stages, this`subs, this`drift
      ensures View() == Unattributed(old(View()), k)
    {
      var freed := if stages[k].slotHeld then stages[k].sentBy else None;
      FreeCredit(k);
      drift := drift.(doubled := drift.doubled + Captured(freed));
      ReleaseSlot(freed);
      if freed.Some? { CaptureCancels(old(View()), freed); }
    }

    method Drop(token: Token)
      requires inflight <= stages.Keys
      modifies this`inflight, this`stages, this`subs, this`drift
      ensures View() == Resolved(old(View()), StageKey(broker, token))
    {
      var k := StageKey(broker, token);
      if k !in inflight { return; }
      inflight := inflight - {k};
      var gate := stages[k].gateSub;
      stages := stages[k := stages[k].(gateSub := None)];
      assert View() == Unlinked(old(View()), k);
      FreeCredit(k);
      ReleaseSlot(gate);
      ResolvedInSteps(old(View()), k);
    }

    /** A Complete for an unknown token changes nothing; otherwise its stage resolves and the result is offered once. */
    method Deliver(token: Token, sc: StageComplete)
      requires inflight <= stages.Keys
      modifies this`inflight, this`stages, this`subs, this`drift, this`results
      ensures View() == Resolved(old(View()), StageKey(broker, token))
      ensures results == if StageKey(broker, token) in old(inflight)
                         then Protocol.TrySend(old(results), StageKey(broker, token), sc) else old(results)
    {
      var k := StageKey(broker, token);
      if k !in inflight { return; }
      inflight := inflight - {k};
      var gate := stages[k].gateSub;
      stages := stages[k := stages[k].(gateSub := None)];
      assert View() == Unlinked(old(View()), k);
      FreeCredit(k);
      ReleaseSlot(gate);
      ResolvedInSteps(old(View()), k);
      if k !in results { results := results[k := sc]; }
    }

    /** abandon: every token still in flight ends with a value waiting; values already there stay. */
    method Abandon(tokens: seq<Token>)
      modifies this`results
      ensures forall k :: k in results <==> k in old(results) || (k in inflight && k.broker == broker && k.token in tokens)
      ensures forall k | k in results :: results[k] == if k in old(results) then old(results)[k] else StreamDropped(k.token)
    {
      for i := 0 to |tokens|
        invariant forall k :: k in results <==> k in old(results) || (k in inflight && k.broker == broker && k.token in tokens[..i])
        invariant forall k | k in results :: results[k] == if k in old(results) then old(results)[k] else StreamDropped(k.token)
      {
        var k := StageKey(broker, tokens[i]);
        if k in inflight && k !in results { results := results[k := StreamDropped(tokens[i])]; }
      }
    }

    /** onPeerGone: the woken stages are exactly the in-flight ones recorded as pushed to that peer. */
    method OnPeerGone(peer: PeerKey)
      modifies this`results
      ensures forall k :: k in results <==> k in old(results) || (k in inflight && k in pushedTo && pushedTo[k] == peer)
      ensures forall k | k in results :: results[k] == if k in old(results) then old(results)[k] else PeerDeparted()
    {
      var left, woken := inflight, {};
      while left != {}
        invariant left <= inflight
        invariant forall k :: k in woken <==> k in inflight && k !in left && k in pushedTo && pushedTo[k] == peer
        decreases left
      {
        var k :| k in left;
        left := left - {k};
        if k in pushedTo && pushedTo[k] == peer { woken := woken + {k}; }
      }
      ghost var all := woken;
      while woken != {}
        invariant woken <= all
        invariant forall k :: k in results <==> k in old(results) || (k in all && k !in woken)
        invariant forall k | k in results :: results[k] == if k in old(results) then old(results)[k] else PeerDeparted()
        decreases woken
      {
        var k :| k in woken;
        woken := woken - {k};
        if k !in results { results := results[k := PeerDeparted()]; }
      }
    }

    /** compactSent: the slice is filtered in place, over its own backing array. */
    method CompactSent(sent: array<Token>, n: nat) returns (kept: nat)
      requires n <= sent.Length
      modifies sent
      ensures kept <= n && sent[..kept] == Protocol.KeepLive(old(sent[..n]), broker, inflight)
    {
      kept := 0;
      ghost var before := sent[..n];
      for i := 0 to n
        invariant kept <= i && sent[i..n] == before[i..]
        invariant sent[..kept] == Protocol.KeepLive(before[..i], broker, inflight)
      {
        KeepLiveAppend(before, i, broker, inflight);
        assert sent[i] == sent[i..n][0] == before[i];
        if StageKey(broker, sent[i]) in inflight {
          sent[kept] := sent[i];
          kept := kept + 1;
        }
        assert sent[i + 1..n] == before[i..][1..];
      }
      assert before[..n] == before;
    }
  }
}
