/**
  What a broker believes about a peer: the presence and the free credit the peer last
  advertised per pair, changed by inbound Interest frames and by its own forwards.
 */
module PeerHints {
  import opened BrokerTypes
  import opened Int32
  import Readiness
  import Subscribers
  import LateFlips

  datatype Hint = Hint(credit: map<KindVersion, int>, serves: set<KindVersion>)

  function Credit(h: Hint, km: KindVersion): int {
    if km in h.credit then h.credit[km] else 0
  }

  function SetInterest(h: Hint, km: KindVersion, credit: int, hasWorker: bool): Hint {
    Hint(if credit <= 0 then h.credit - {km} else h.credit[km := credit],
         if hasWorker then h.serves + {km} else h.serves - {km})
  }

  function DecCredit(h: Hint, km: KindVersion): Hint {
    if Credit(h, km) <= 0 then h
    else h.(credit := if Credit(h, km) == 1 then h.credit - {km} else h.credit[km := Credit(h, km) - 1])
  }

  /** The object itself, with its two maps changed in place. */
  class PeerClient {
    const memberID: string
    const addr: string
    var credit: map<KindVersion, int>
    var serves: map<KindVersion, bool>

    constructor (memberID: string, addr: string)
      ensures this.memberID == memberID && this.addr == addr && Valid() && View() == Hint(map[], {})
    {
      this.memberID, this.addr := memberID, addr;
      credit, serves := map[], map[];
    }

    /** serves lists only pairs that are served. */
    ghost predicate Valid()
      reads this
    {
      forall km | km in serves :: serves[km]
    }

    ghost function View(): Hint
      reads this
    {
      Hint(credit, serves.Keys)
    }

    method ApplyInterest(km: KindVersion, free: int, hasWorker: bool)
      requires Valid()
      modifies this
      ensures Valid() && View() == SetInterest(old(View()), km, free, hasWorker)
    {
      if free <= 0 { credit := credit - {km}; } else { credit := credit[km := free]; }
      if hasWorker { serves := serves[km := true]; } else { serves := serves - {km}; }
    }

    method SpendCredit(km: KindVersion)
      requires Valid()
      modifies this`credit
      ensures Valid() && View() == DecCredit(old(View()), km)
    {
      if km in credit && credit[km] > 0 {
        credit := credit[km := credit[km] - 1];
        if credit[km] == 0 {
          credit := credit - {km};
          assert credit == old(credit) - {km};
        }
      }
    }
  }

  // ---------------------------------------------------------------- any history of frames and forwards

  datatype Input = Interest(km: KindVersion, credit: int, hasWorker: bool) | Forwarded(km: KindVersion)

  function After(inputs: seq<Input>): Hint {
    if inputs == [] then Hint(map[], {})
    else
      var h := After(inputs[..|inputs| - 1]);
      match inputs[|inputs| - 1]
      case Interest(km, credit, hasWorker) => SetInterest(h, km, credit, hasWorker)
      case Forwarded(km) => DecCredit(h, km)
  }

  /** The position of the last Interest for a pair, or -1. */
  function LastInterest(inputs: seq<Input>, km: KindVersion): (i: int)
    ensures -1 <= i < |inputs| && (i >= 0 ==> inputs[i].Interest? && inputs[i].km == km)
    ensures forall j | i < j < |inputs| :: !(inputs[j].Interest? && inputs[j].km == km)
  {
    if inputs == [] then -1
    else if inputs[|inputs| - 1].Interest? && inputs[|inputs| - 1].km == km then |inputs| - 1
    else LastInterest(inputs[..|inputs| - 1], km)
  }

  /** How many forwards of a pair came at or after a position. */
  function Forwards(inputs: seq<Input>, from: int, km: KindVersion): (n: nat) {
    if inputs == [] then 0
    else Forwards(inputs[..|inputs| - 1], from, km) + if |inputs| - 1 >= from && inputs[|inputs| - 1] == Forwarded(km) then 1 else 0
  }

  lemma {:induction false} NoForwardsAfterEnd(inputs: seq<Input>, from: int, km: KindVersion)
    requires from >= |inputs|
    ensures Forwards(inputs, from, km) == 0
  {
    if inputs != [] { NoForwardsAfterEnd(inputs[..|inputs| - 1], from, km); }
  }

  /**
    Whatever frames were applied and however forwards interleaved with them, a peer serves
    a pair exactly when its last frame for the pair said has_worker, and its credit is that
    frame's, less the forwards since, never below zero.
   */
  lemma {:induction false} HintIsLastFrame(inputs: seq<Input>, km: KindVersion)
    ensures var i := LastInterest(inputs, km);
            && (km in After(inputs).serves <==> i >= 0 && inputs[i].hasWorker)
            && var left := if i < 0 then 0 else inputs[i].credit - Forwards(inputs, i, km);
            && Credit(After(inputs), km) == (if left > 0 then left else 0)
            && (km in After(inputs).credit <==> left > 0)
  {
    if inputs != [] {
      var last := |inputs| - 1;
      HintIsLastFrame(inputs[..last], km);
      if inputs[last].Interest? && inputs[last].km == km {
        NoForwardsAfterEnd(inputs[..last], last, km);
      }
    }
  }

  /** A frame that never offers slots without a worker. */
  predicate Honest(input: Input) {
    input.Interest? && input.credit > 0 ==> input.hasWorker
  }

  /** With honest frames, free credit is only ever recorded for a pair the peer serves. */
  lemma CreditWithinServes(inputs: seq<Input>)
    requires forall i | 0 <= i < |inputs| :: Honest(inputs[i])
    ensures After(inputs).credit.Keys <= After(inputs).serves
  {
    forall km | km in After(inputs).credit ensures km in After(inputs).serves {
      HintIsLastFrame(inputs, km);
    }
  }

  /** The last frame for a pair announced a worker, or its credit is used up by now. */
  ghost predicate SettledFor(inputs: seq<Input>, km: KindVersion) {
    var i := LastInterest(inputs, km);
    i < 0 || inputs[i].hasWorker || inputs[i].credit <= Forwards(inputs, i, km)
  }

  /** With any frames at all, that holds exactly when every pair's last frame announced a worker or is used up. */
  lemma CreditWithinServesExactly(inputs: seq<Input>)
    ensures After(inputs).credit.Keys <= After(inputs).serves <==> forall km :: SettledFor(inputs, km)
  {
    var h := After(inputs);
    forall km ensures (km in h.credit ==> km in h.serves) <==> SettledFor(inputs, km) {
      HintIsLastFrame(inputs, km);
    }
    if h.credit.Keys <= h.serves {
      forall km ensures SettledFor(inputs, km) { assert km in h.credit.Keys ==> km in h.serves; }
    }
  }

  /** The Interest advertiseCredits builds from the tables: the free slots in int32, and the ready gate. */
  ghost function Advertised(r: Readiness.Registry, km: KindVersion): Input {
    Interest(km, Wrap(Subscribers.FreeSlots(r.streams, km)), Readiness.HasSubscriber(r, km))
  }

  /** Every frame a broker advertises for a pair, in every run of its tables, is honest until a late RS- of that pair. */
  lemma AdvertisedIsHonest(rs: seq<Readiness.Registry>, ops: seq<Readiness.Op>, i: nat, km: KindVersion)
    requires Readiness.LooseRun(rs, ops) && i < |rs| && Readiness.NoLateWithdrawal(rs, ops, i, km)
    ensures Honest(Advertised(rs[i], km))
  {
    if Subscribers.FreeSlots(rs[i].streams, km) > 0 {
      Subscribers.CreditImpliesPresence(rs, ops, i, km);
    }
  }

  /**
    Which frames offer slots without a worker. In every state of every run, flips early or
    late, the frame of a pair is dishonest if and only if the net of its ready count is at its
    lowest so far and there is credit to offer.
   */
  lemma DishonestExactlyWhen(rs: seq<Readiness.Registry>, ops: seq<Readiness.Op>, i: nat, km: KindVersion)
    requires Readiness.LooseRun(rs, ops) && i < |rs|
    ensures !Honest(Advertised(rs[i], km)) <==>
            LateFlips.AtLowest(rs, ops, i, km) && Wrap(Subscribers.FreeSlots(rs[i].streams, km)) > 0
  {
    LateFlips.GateClosedExactlyWhen(rs, ops, i, km);
  }

  /**
    The same from one operation to the next, read off the state before it: the frame after it
    is dishonest if and only if the operation leaves no count and some credit.
   */
  lemma NextDishonestExactlyWhen(rs: seq<Readiness.Registry>, ops: seq<Readiness.Op>, i: nat, km: KindVersion)
    requires Readiness.LooseRun(rs, ops) && i < |ops|
    ensures Readiness.Possible(rs[i], ops[i])
    ensures !Honest(Advertised(rs[i + 1], km)) <==>
            && Readiness.Count(rs[i].ready, km) + LateFlips.Delta(rs[i], ops[i], km) <= 0
            && Wrap(Subscribers.FreeSlots(rs[i].streams, km) + Subscribers.Shift(rs[i], ops[i], km)) > 0
  {
    LateFlips.StepMoves(rs, ops, i, km);
    assert Readiness.Took(rs[i], ops[i], rs[i + 1]);
    Subscribers.FreeSlotsMove(rs[i], ops[i], km);
  }

  /**
    Which operations can turn a frame dishonest: one that takes the last count, an RS- or a
    disconnect, early or late; or, once the count is zero, one that changes the credit, a task
    that ends, a withdrawal or disconnect, or, where the credit wraps, a task that starts.
   */
  lemma TurnsDishonestBy(rs: seq<Readiness.Registry>, ops: seq<Readiness.Op>, i: nat, km: KindVersion)
    requires Readiness.LooseRun(rs, ops) && i < |ops|
    requires Honest(Advertised(rs[i], km)) && !Honest(Advertised(rs[i + 1], km))
    ensures var op, count := ops[i], Readiness.Count(rs[i].ready, km);
            || (count > 0 && (op.Disconnect? || (op.Flip? && op.km == km && !op.ready)))
            || (count == 0 && op.Free?)
            || (count == 0 && !op.Connect? && Subscribers.FreeSlots(rs[i].streams, km) > MAX_INT32)
  {
    NextDishonestExactlyWhen(rs, ops, i, km);
    LateFlips.StepMoves(rs, ops, i, km);
    assert Readiness.Took(rs[i], ops[i], rs[i + 1]);
    Subscribers.FreeSlotsMove(rs[i], ops[i], km);
    WrapExact(Subscribers.FreeSlots(rs[i].streams, km));
    if ops[i].Connect? { Readiness.TimesIn(ops[i].kms, km); }
  }
}
