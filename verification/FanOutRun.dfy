/** A fan-out pass as part of a run: its commands are acts of the system, between any acts of the others. */
module FanOutRun {
  import opened DeliveryState
  import opened DeliveryRun
  import opened DeliveryTheorems
  import DeliveryOnce
  import opened DeliveryRedis
  import opened FanOut

  /** In the system a logged offer is an act, wherever the keys are as it found them. */
  lemma OfferIsAct(w: World, c: Call, e: Event, generation: nat, stale: bool)
    requires IsOffer(c, e, generation, stale) && c.before == w.r && e.posted <= w.r.now + CLOCK_SKEW
    ensures var a := DeliveryRun.EnqueueAlert(e, generation, stale, c.command.clock);
      Enabled(w, a) && After(w, a).r == c.after
  {
    hide AdvanceOp, RenewOp, PopJobs, SettleEntry;
  }

  /** The calls were made in this run at these indices, in order: each found the keys of its index, and an enqueue
      script was the act there. */
  ghost predicate MadeAt(run: seq<World>, acts: seq<Act>, calls: seq<Call>, at: seq<nat>) {
    && |at| == |calls| && |run| == |acts| + 1
    && (forall i {:trigger at[i]} :: 0 <= i < |at| ==> at[i] < |acts| && run[at[i]].r == calls[i].before)
    && (forall i {:trigger at[i]} :: 0 <= i < |at| && calls[i].command.EnqueueCall? ==>
          acts[at[i]] == DeliveryRun.EnqueueAlert(calls[i].command.event, calls[i].command.generation, calls[i].command.stale,
                                                  calls[i].command.clock))
  }

  /** A completed pass, whatever the other workers and its own earlier passes do in the meantime: for each user it
      visited who has not been marked and is not fenced, exactly one acceptance within the horizon. */
  lemma PassAcceptsOnce(run: seq<World>, acts: seq<Act>, calls: seq<Call>, at: seq<nat>, s: Source, stale: bool,
                        users: seq<int>, x: nat, i: nat, k: nat) returns (a: nat)
    requires IsRun(run, acts) && OffersAll(calls, s, stale, users) && MadeAt(run, acts, calls, at) && x < |users|
    requires i < k < |run| && forall y {:trigger at[y]} :: 0 <= y < |at| ==> i <= at[y] < k
    requires run[k].r.now < run[i].r.now + REPLAY_HORIZON
    requires !IsEnqueued(run[i].r, EventFor(s, users[x])) && users[x] !in run[i].r.deleted
    requires users[x] !in run[k].h.overlapped && forall b :: i <= b < k ==> !DeliveryOnce.Fences(acts[b], users[x])
    ensures i <= a < k && DeliveryOnce.Accepts(run[a], acts[a], EventFor(s, users[x]), Generation(run[i].r, users[x]))
    ensures forall b :: i <= b < k && DeliveryOnce.AcceptsEvent(run[b], acts[b], EventFor(s, users[x])) ==> b == a
  {
    hide Enabled, After;
    var e := EventFor(s, users[x]);
    assert IsOffering(calls[2 * x], calls[2 * x + 1], e, stale);
    assert |at| == 2 * |users|;
    var look, offer := at[2 * x], at[2 * x + 1];
    DeliveryOnce.UserKept(run, acts, i, look, users[x]);
    assert acts[offer] == DeliveryRun.EnqueueAlert(e, Generation(run[i].r, users[x]), stale, calls[2 * x + 1].command.clock);
    a := DeliveryOnce.AcceptedExactlyOnce(run, acts, i, offer, k, e);
  }
}
