/**
  The credit a broker advertises for a pair, joined with the broker's runs: what
  creditForLocked sums over the connected, ready streams is exactly what the stages in
  flight on those streams leave of their ceilings.
 */
module AdvertisedCredit {
  import opened Wrappers
  import opened BrokerTypes
  import opened SlotTable
  import opened Protocol
  import opened BrokerTheorems
  import opened Int32
  import Readiness
  import Subscribers
  import PeerHints

  /** A stream is among the subscribers until removeSubscriber has run. */
  predicate Connected(s: State, w: SubKey) {
    w in s.tab.subs && w in s.loops && !s.loops[w].Exited?
  }

  /** The streams whose slots count for a pair. */
  predicate Offering(s: State, w: SubKey, kv: KindVersion) {
    Connected(s, w) && ReadyFor(s, w, kv)
  }

  /** ws lists each connected stream of a broker once, in whatever order the map is walked. */
  ghost predicate Lists(s: State, b: nat, ws: seq<SubKey>) {
    && (forall i, j | 0 <= i < j < |ws| :: ws[i] != ws[j])
    && (forall w :: w in ws <==> Connected(s, w) && w.broker == b)
  }

  /** A stream as the subscriber tables see it. */
  ghost function StreamOf(s: State, w: SubKey): Readiness.Stream
    requires w in s.tab.subs
  {
    var sub := s.tab.subs[w];
    var unready := set kv | kv in sub.kms && (w, kv) in s.unready;
    Readiness.Stream(sub.kms, unready, sub.maxInflight, sub.inflight, Connected(s, w))
  }

  ghost function Streams(s: State, ws: seq<SubKey>): seq<Readiness.Stream>
    requires forall w | w in ws :: w in s.tab.subs
  {
    seq(|ws|, i requires 0 <= i < |ws| => StreamOf(s, ws[i]))
  }

  /** The ceilings of the listed streams that offer their slots to a pair. */
  ghost function Ceiling(s: State, ws: seq<SubKey>, kv: KindVersion): nat {
    if ws == [] then 0
    else
      var w := ws[|ws| - 1];
      Ceiling(s, ws[..|ws| - 1], kv) + if Offering(s, w, kv) then s.tab.subs[w].maxInflight else 0
  }

  /** The in-flight stages charged to one of the listed streams that offer their slots to a pair. */
  ghost function Charged(s: State, ws: seq<SubKey>, kv: KindVersion): set<StageKey> {
    set k | k in s.tab.inflight && k in s.tab.stages && s.tab.stages[k].slotHeld && s.tab.stages[k].sentBy.Some?
            && s.tab.stages[k].sentBy.value in ws && Offering(s, s.tab.stages[k].sentBy.value, kv)
  }

  lemma ChargedSplit(s: State, ws: seq<SubKey>, kv: KindVersion)
    requires ws != [] && forall i, j | 0 <= i < j < |ws| :: ws[i] != ws[j]
    ensures var rest, w := ws[..|ws| - 1], ws[|ws| - 1];
            |Charged(s, ws, kv)| == |Charged(s, rest, kv)| + if Offering(s, w, kv) then |CreditSet(s.tab, w)| else 0
  {
    var rest, w := ws[..|ws| - 1], ws[|ws| - 1];
    var own := if Offering(s, w, kv) then CreditSet(s.tab, w) else {};
    assert ws == rest + [w];
    assert Charged(s, ws, kv) == Charged(s, rest, kv) + own;
    assert Charged(s, rest, kv) !! own;
  }

  lemma {:induction false} FreeIsUncharged(s: State, ws: seq<SubKey>, kv: KindVersion)
    requires (forall i, j | 0 <= i < j < |ws| :: ws[i] != ws[j]) && forall w | w in ws :: w in s.tab.subs
    requires CreditExact(s.tab) && forall w | w in s.tab.subs :: s.tab.subs[w].inflight <= s.tab.subs[w].maxInflight
    ensures Subscribers.FreeSlots(Streams(s, ws), kv) + |Charged(s, ws, kv)| == Ceiling(s, ws, kv)
  {
    if ws == [] {
      assert Charged(s, ws, kv) == {};
    } else {
      var rest, w := ws[..|ws| - 1], ws[|ws| - 1];
      assert forall v | v in rest :: v in ws;
      FreeIsUncharged(s, rest, kv);
      ChargedSplit(s, ws, kv);
      assert w in ws && Streams(s, ws)[..|ws| - 1] == Streams(s, rest) && Streams(s, ws)[|ws| - 1] == StreamOf(s, w);
      assert Readiness.ReadyFor(StreamOf(s, w), kv) <==> ReadyFor(s, w, kv);
    }
  }

  /**
    Advertised credit is exact. In every state of every run, what a broker offers for a pair
    and the stages in flight on the streams that serve it make up those streams' ceilings.
   */
  lemma AdvertisedIsExact(states: seq<State>, steps: seq<Step>, i: nat, b: nat, ws: seq<SubKey>, kv: KindVersion)
    requires Run(states, steps) && i < |states| && Lists(states[i], b, ws)
    ensures forall w | w in ws :: w in states[i].tab.subs
    ensures Subscribers.FreeSlots(Streams(states[i], ws), kv) == Ceiling(states[i], ws, kv) - |Charged(states[i], ws, kv)|
    ensures forall r: Readiness.Registry | r.streams == Streams(states[i], ws) && Ceiling(states[i], ws, kv) <= MAX_INT32 ::
              PeerHints.Advertised(r, kv).credit == Ceiling(states[i], ws, kv) - |Charged(states[i], ws, kv)|
  {
    var s := states[i];
    forall w | w in s.tab.subs ensures s.tab.subs[w].inflight == |CreditSet(s.tab, w)| && s.tab.subs[w].inflight <= s.tab.subs[w].maxInflight {
      NoOverDispatch(states, steps, i, w);
    }
    FreeIsUncharged(s, ws, kv);
    WrapExact(Subscribers.FreeSlots(Streams(s, ws), kv));
  }

  /** Every stage charged to a listed stream is among the Charged ones exactly while that stream offers its slots to the pair. */
  lemma ChargedExactly(states: seq<State>, steps: seq<Step>, i: nat, b: nat, ws: seq<SubKey>, kv: KindVersion, k: StageKey)
    requires Run(states, steps) && i < |states| && Lists(states[i], b, ws)
    ensures k in Charged(states[i], ws, kv) <==>
            k.broker == b && k in states[i].tab.stages && states[i].tab.stages[k].sentBy.Some? && Offering(states[i], states[i].tab.stages[k].sentBy.value, kv)
  {
    RunInv(states, steps, i);
    var s := states[i];
    if k in s.tab.stages { assert StageLinked(s.tab, k, s.tab.stages[k]); }
  }
}
