/** The process-wide delivery and bound plugin set, and what the control plane's word may replace. */
module Platform {
  import opened Common
  import opened Licence
  import opened Resolution

  const GENERATIONS := 0x1_0000_0000_0000_0000

  /** The licence in `d` verifies at `now`; an empty one always does. */
  predicate Verifies(v: Vendor, now: int, d: Delivery) {
    d.Delivered? && Trim(d.jwt) != "" ==> VerifyDelivered(v, Trim(d.jwt), d.org, d.origin.At(now)).Ok?
  }

  /** `d` with the proof of the current delivery, when an unproven re-send repeats its licence and org. */
  function StillProven(current: Delivery, d: Delivery): Delivery {
    if && current.Delivered? && current.origin.Proven?
       && d.Delivered? && d.origin.Unproven?
       && Trim(current.jwt) == Trim(d.jwt) && current.org == d.org
    then d.(origin := Proven) else d
  }

  /** What the cell holds after the control plane sent `d` at `now`. */
  function Received(v: Vendor, now: int, current: Delivery, d: Delivery): Delivery {
    if current.Delivered? && current.origin.CachedProven? then
      if d.Delivered? && d.origin.Proven? && !Verifies(v, now, d) && Verifies(v, now, current) then current else d
    else
      var sent := StillProven(current, d);
      if !Verifies(v, now, sent) && current.Delivered? && Verifies(v, now, current) then current else sent
  }

  /** What a Channel of this process sends: a delivery judged proven or unproven. */
  predicate FromChannel(d: Delivery) {
    d.Delivered? && (d.origin.Proven? || d.origin.Unproven?)
  }

  /** A delivery that does not rest on a proof kept from before this process. */
  predicate IsLive(d: Delivery) {
    d.Delivered? && !d.origin.CachedProven?
  }

  datatype Sending = Sending(now: int, delivery: Delivery)

  function ReceivedAll(v: Vendor, current: Delivery, sent: seq<Sending>): Delivery
    decreases |sent|
  {
    if sent == [] then current
    else ReceivedAll(v, Received(v, sent[0].now, current, sent[0].delivery), sent[1..])
  }

  // ----- A verified delivery is never displaced by an unverifiable one -----

  /** Whether a live delivery verifies does not depend on the clock. */
  lemma LiveVerifiesAnytime(v: Vendor, d: Delivery, now: int, later: int)
    requires IsLive(d)
    ensures Verifies(v, now, d) == Verifies(v, later, d)
  {
  }

  /** Once the cell holds a live licence that verifies, it does after every sequence of deliveries. */
  lemma {:induction false} VerifiedNeverDisplaced(v: Vendor, current: Delivery, sent: seq<Sending>, now: int)
    requires IsLive(current) && Verifies(v, now, current)
    requires forall s :: s in sent ==> FromChannel(s.delivery)
    ensures var after := ReceivedAll(v, current, sent); IsLive(after) && Verifies(v, now, after)
    decreases |sent|
  {
    if sent != [] {
      var next := Received(v, sent[0].now, current, sent[0].delivery);
      LiveVerifiesAnytime(v, current, now, sent[0].now);
      LiveVerifiesAnytime(v, next, now, sent[0].now);
      VerifiedNeverDisplaced(v, next, sent[1..], now);
    }
  }

  /** A delivery that leaves a licence counted on a kept proof in place. */
  predicate LeavesSeed(v: Vendor, seed: Delivery, s: Sending) {
    s.delivery.Delivered? && s.delivery.origin.Proven? && !Verifies(v, s.now, s.delivery) && Verifies(v, s.now, seed)
  }

  /** What a Channel sent replaces the seed for good. */
  lemma {:induction false} ReplacedStaysLive(v: Vendor, current: Delivery, sent: seq<Sending>)
    requires IsLive(current) && !current.origin.IsCached() && forall s :: s in sent ==> FromChannel(s.delivery)
    ensures IsLive(ReceivedAll(v, current, sent)) && !ReceivedAll(v, current, sent).origin.IsCached()
    decreases |sent|
  {
    if sent != [] {
      ReplacedStaysLive(v, Received(v, sent[0].now, current, sent[0].delivery), sent[1..]);
    }
  }

  /**
   * A licence counted on a kept proof is still in the cell after a sequence of deliveries exactly when each of them was
   * proven and did not verify while the kept one did.
   */
  lemma {:induction false} CachedProofSurvivesIff(v: Vendor, seed: Delivery, sent: seq<Sending>)
    requires seed.Delivered? && seed.origin.CachedProven? && forall s :: s in sent ==> FromChannel(s.delivery)
    ensures ReceivedAll(v, seed, sent) == seed <==> forall s :: s in sent ==> LeavesSeed(v, seed, s)
    decreases |sent|
  {
    if sent != [] {
      assert forall s :: s in sent <==> s == sent[0] || s in sent[1..];
      if LeavesSeed(v, seed, sent[0]) {
        CachedProofSurvivesIff(v, seed, sent[1..]);
      } else {
        ReplacedStaysLive(v, sent[0].delivery, sent[1..]);
      }
    }
  }

  /** The seed lasts as long as each delivery leaves it, and the first that does not takes its place as it came. */
  lemma {:induction false} SeedGivesWay(v: Vendor, seed: Delivery, sent: seq<Sending>, k: nat)
    requires seed.Delivered? && seed.origin.CachedProven? && forall s :: s in sent ==> FromChannel(s.delivery)
    requires k < |sent| && !LeavesSeed(v, seed, sent[k]) && forall j :: 0 <= j < k ==> LeavesSeed(v, seed, sent[j])
    ensures ReceivedAll(v, seed, sent) == ReceivedAll(v, sent[k].delivery, sent[k + 1..])
    decreases k
  {
    assert sent[0] in sent;
    if k > 0 {
      assert LeavesSeed(v, seed, sent[0]);
      SeedGivesWay(v, seed, sent[1..], k - 1);
      assert sent[1..][k..] == sent[k + 1..];
    }
  }

  // ----- The last delivery that verified is in force -----

  /** What a delivery says: the trimmed licence and the org. */
  function Word(d: Delivery): (string, string)
    requires d.Delivered?
  {
    (Trim(d.jwt), d.org)
  }

  /** The licence of `d` verifies when it is judged from `origin`; an empty one says there is none. */
  predicate VerifiesFrom(v: Vendor, d: Delivery, origin: Origin)
    requires d.Delivered?
  {
    Trim(d.jwt) == "" || VerifyDelivered(v, Trim(d.jwt), d.org, origin).Ok?
  }

  /** `d` repeats, without a proof, the word of a cell that has one. */
  predicate Repeats(cell: Delivery, d: Delivery) {
    cell.Delivered? && cell.origin.Proven? && d.Delivered? && d.origin.Unproven? && Word(cell) == Word(d)
  }

  /** A delivery counts that verifies as it came, or as proven when it repeats a proven cell. */
  predicate Counts(v: Vendor, cell: Delivery, d: Delivery) {
    d.Delivered? && (VerifiesFrom(v, d, d.origin) || (Repeats(cell, d) && VerifiesFrom(v, d, Proven)))
  }

  /** The cell carries the licence, the org and the refresh state of `d`. */
  predicate Carries(cell: Delivery, d: Delivery) {
    cell.Delivered? && d.Delivered? && cell.jwt == d.jwt && cell.org == d.org && cell.refreshFailing == d.refreshFailing
  }

  /** A cell that says something about the plan, and does not rest on a kept proof. */
  predicate HoldsVerified(v: Vendor, cell: Delivery) {
    IsLive(cell) && VerifiesFrom(v, cell, cell.origin)
  }

  /** One delivery: it takes effect if it counts, or if what is in the cell says nothing. */
  lemma ReceivedEffect(v: Vendor, now: int, cell: Delivery, d: Delivery)
    requires FromChannel(d) && (cell.Delivered? ==> !cell.origin.CachedProven?)
    ensures var after := Received(v, now, cell, d);
      && IsLive(after)
      && (Counts(v, cell, d) ==> Carries(after, d) && HoldsVerified(v, after))
      && (!Counts(v, cell, d) ==> if HoldsVerified(v, cell) then after == cell else Carries(after, d) && !HoldsVerified(v, after))
  {
  }

  lemma {:induction false} ReceivedSnoc(v: Vendor, cell: Delivery, sent: seq<Sending>, s: Sending)
    ensures ReceivedAll(v, cell, sent + [s]) == Received(v, s.now, ReceivedAll(v, cell, sent), s.delivery)
    decreases |sent|
  {
    if sent != [] {
      ReceivedSnoc(v, Received(v, sent[0].now, cell, sent[0].delivery), sent[1..], s);
      assert (sent + [s])[1..] == sent[1..] + [s];
    }
  }

  /** Delivery `k` counts when its turn comes. */
  predicate CountsAt(v: Vendor, cell: Delivery, sent: seq<Sending>, k: nat)
    requires k < |sent|
  {
    Counts(v, ReceivedAll(v, cell, sent[..k]), sent[k].delivery)
  }

  ghost predicate CountsLast(v: Vendor, cell: Delivery, sent: seq<Sending>, k: nat)
    requires k < |sent|
  {
    CountsAt(v, cell, sent, k) && forall j :: k < j < |sent| ==> !CountsAt(v, cell, sent, j)
  }

  /**
   * What a run of deliveries leaves in the cell. The last one that counted is in force. If none did, a cell that
   * verified is untouched, and any other holds the last one sent.
   */
  ghost predicate InForce(v: Vendor, cell: Delivery, sent: seq<Sending>, after: Delivery) {
    && (forall k :: 0 <= k < |sent| && CountsLast(v, cell, sent, k) ==>
          Carries(after, sent[k].delivery) && HoldsVerified(v, after))
    && ((forall k :: 0 <= k < |sent| ==> !CountsAt(v, cell, sent, k)) ==>
          if sent == [] || HoldsVerified(v, cell) then after == cell
          else Carries(after, sent[|sent| - 1].delivery) && !HoldsVerified(v, after))
  }

  lemma CountsAtFront(v: Vendor, cell: Delivery, sent: seq<Sending>, s: Sending)
    ensures forall k :: 0 <= k < |sent| ==> CountsAt(v, cell, sent + [s], k) == CountsAt(v, cell, sent, k)
    ensures CountsAt(v, cell, sent + [s], |sent|) == Counts(v, ReceivedAll(v, cell, sent), s.delivery)
  {
    forall k | 0 <= k < |sent| ensures CountsAt(v, cell, sent + [s], k) == CountsAt(v, cell, sent, k) {
      assert (sent + [s])[..k] == sent[..k];
    }
    assert (sent + [s])[..|sent|] == sent;
  }

  /** Whether the cell verifies: some delivery counted, or it did before. */
  lemma {:induction false} VerifiedSince(v: Vendor, cell: Delivery, sent: seq<Sending>)
    requires (cell.Delivered? ==> !cell.origin.CachedProven?) && forall s :: s in sent ==> FromChannel(s.delivery)
    ensures var after := ReceivedAll(v, cell, sent);
      && (after.Delivered? ==> !after.origin.CachedProven?)
      && (HoldsVerified(v, after) <==> HoldsVerified(v, cell) || exists k :: 0 <= k < |sent| && CountsAt(v, cell, sent, k))
    decreases |sent|
  {
    if sent != [] {
      var n := |sent| - 1;
      var front, s := sent[..n], sent[n];
      assert sent == front + [s] && s in sent;
      VerifiedSince(v, cell, front);
      ReceivedSnoc(v, cell, front, s);
      CountsAtFront(v, cell, front, s);
      ReceivedEffect(v, s.now, ReceivedAll(v, cell, front), s.delivery);
      if HoldsVerified(v, ReceivedAll(v, cell, front)) && !HoldsVerified(v, cell) {
        var k :| 0 <= k < |front| && CountsAt(v, cell, front, k);
        assert CountsAt(v, cell, sent, k);
      }
    }
  }

  lemma {:induction false} LastCountingInForce(v: Vendor, cell: Delivery, sent: seq<Sending>)
    requires (cell.Delivered? ==> !cell.origin.CachedProven?) && forall s :: s in sent ==> FromChannel(s.delivery)
    ensures InForce(v, cell, sent, ReceivedAll(v, cell, sent))
    decreases |sent|
  {
    if sent != [] {
      var n := |sent| - 1;
      var front, s := sent[..n], sent[n];
      assert sent == front + [s] && s in sent;
      LastCountingInForce(v, cell, front);
      VerifiedSince(v, cell, front);
      ReceivedSnoc(v, cell, front, s);
      CountsAtFront(v, cell, front, s);
      ReceivedEffect(v, s.now, ReceivedAll(v, cell, front), s.delivery);
      OneMoreInForce(v, cell, front, s);
    }
  }

  lemma OneMoreInForce(v: Vendor, cell: Delivery, front: seq<Sending>, s: Sending)
    requires InForce(v, cell, front, ReceivedAll(v, cell, front)) && FromChannel(s.delivery)
    requires forall k :: 0 <= k < |front| ==> CountsAt(v, cell, front + [s], k) == CountsAt(v, cell, front, k)
    requires CountsAt(v, cell, front + [s], |front|) == Counts(v, ReceivedAll(v, cell, front), s.delivery)
    requires var before := ReceivedAll(v, cell, front); var after := ReceivedAll(v, cell, front + [s]);
      && (Counts(v, before, s.delivery) ==> Carries(after, s.delivery) && HoldsVerified(v, after))
      && (!Counts(v, before, s.delivery) ==>
            if HoldsVerified(v, before) then after == before else Carries(after, s.delivery) && !HoldsVerified(v, after))
      && (HoldsVerified(v, before) <==> HoldsVerified(v, cell) || exists k :: 0 <= k < |front| && CountsAt(v, cell, front, k))
    ensures InForce(v, cell, front + [s], ReceivedAll(v, cell, front + [s]))
  {
    var sent := front + [s];
    var before, after := ReceivedAll(v, cell, front), ReceivedAll(v, cell, sent);
    forall k | 0 <= k < |sent| && CountsLast(v, cell, sent, k)
      ensures Carries(after, sent[k].delivery) && HoldsVerified(v, after)
    {
      if k < |front| {
        assert CountsAt(v, cell, front, k) && !CountsAt(v, cell, sent, |front|);
        assert CountsLast(v, cell, front, k);
      }
    }
    if forall k :: 0 <= k < |sent| ==> !CountsAt(v, cell, sent, k) {
      assert !CountsAt(v, cell, sent, |front|);
      assert forall k :: 0 <= k < |front| ==> !CountsAt(v, cell, front, k);
    }
  }

  /** A cell keeps its proof through any chain of re-sends of its own word. */
  lemma {:induction false} ProofOutlivesResends(v: Vendor, cell: Delivery, sent: seq<Sending>)
    requires cell.Delivered? && cell.origin.Proven?
    requires forall s :: s in sent ==> FromChannel(s.delivery) && Word(s.delivery) == Word(cell)
    ensures var after := ReceivedAll(v, cell, sent); after.Delivered? && after.origin.Proven? && Word(after) == Word(cell)
    decreases |sent|
  {
    if sent != [] {
      assert sent[0] in sent;
      ProofOutlivesResends(v, Received(v, sent[0].now, cell, sent[0].delivery), sent[1..]);
    }
  }

  // ----- Provenance is never invented -----

  /** The words this process judged proven. */
  function ProvenWords(sent: seq<Sending>): set<(string, string)> {
    set s | s in sent && s.delivery.Delivered? && s.delivery.origin.Proven? :: Word(s.delivery)
  }

  /** A proven cell carries a proven word, and a cached one is the seed. */
  predicate Honest(cell: Delivery, proven: set<(string, string)>, seed: Delivery) {
    && (cell.Delivered? && cell.origin.Proven? ==> Word(cell) in proven)
    && (cell.Delivered? && cell.origin.IsCached() ==> cell == seed)
  }

  lemma ReceivedStaysHonest(v: Vendor, now: int, cell: Delivery, d: Delivery, proven: set<(string, string)>, seed: Delivery)
    requires Honest(cell, proven, seed) && FromChannel(d)
    ensures Honest(Received(v, now, cell, d), proven + (if d.origin.Proven? then {Word(d)} else {}), seed)
  {
  }

  lemma {:induction false} StaysHonest(
    v: Vendor, cell: Delivery, sent: seq<Sending>, proven: set<(string, string)>, seed: Delivery)
    requires Honest(cell, proven, seed)
    requires forall s :: s in sent ==> FromChannel(s.delivery)
    ensures Honest(ReceivedAll(v, cell, sent), proven + ProvenWords(sent), seed)
    decreases |sent|
  {
    if sent == [] {
      assert proven + ProvenWords(sent) == proven;
    } else {
      var d := sent[0].delivery;
      var more := proven + (if d.origin.Proven? then {Word(d)} else {});
      ReceivedStaysHonest(v, sent[0].now, cell, d, proven, seed);
      StaysHonest(v, Received(v, sent[0].now, cell, d), sent[1..], more, seed);
      assert sent == [sent[0]] + sent[1..];
      assert more + ProvenWords(sent[1..]) == proven + ProvenWords(sent) by {
        assert forall s :: s in sent <==> s == sent[0] || s in sent[1..];
      }
    }
  }

  /**
   * In a process seeded with what the one before it cached, a proven cell carries a licence and an org that some
   * delivery judged proven by this process carried, through any chain of re-sends; a cached cell is the seed.
   */
  lemma ProvenanceNeverInvented(v: Vendor, seed: Delivery, sent: seq<Sending>)
    requires seed.Delivered? ==> seed.origin.IsCached()
    requires forall s :: s in sent ==> FromChannel(s.delivery)
    ensures var cell := ReceivedAll(v, seed, sent);
      && (cell.Delivered? && cell.origin.Proven? ==>
            exists s :: s in sent && s.delivery.Delivered? && s.delivery.origin.Proven? && Word(s.delivery) == Word(cell))
      && (cell.Delivered? && cell.origin.IsCached() ==> cell == seed)
  {
    StaysHonest(v, seed, sent, {}, seed);
  }

  // ----- The cells -----

  class Cells {
    var delivery: Delivery
    var bound: Option<set<string>>
    var generation: nat
    var restarted: bool
    var boundCached: bool

    ghost var proven: set<(string, string)>
    ghost var seed: Delivery

    ghost predicate Valid()
      reads this
    {
      generation < GENERATIONS && Honest(delivery, proven, seed)
    }

    constructor ()
      ensures Valid()
      ensures delivery == Pending && bound == None && generation == 0 && !restarted && !boundCached
      ensures proven == {} && seed == Pending
    {
      delivery, bound, generation, restarted, boundCached := Pending, None, 0, false, false;
      proven, seed := {}, Pending;
    }

    method RecordChange()
      requires generation < GENERATIONS
      modifies this`generation
      ensures generation == (old(generation) + 1) % GENERATIONS
    {
      generation := (generation + 1) % GENERATIONS;
    }

    /** Records a delivery; the generation moves exactly when the cell does. */
    method SetDelivery(d: Delivery) returns (changed: bool)
      requires generation < GENERATIONS
      modifies this`delivery, this`generation
      ensures delivery == d && changed == (old(delivery) != d)
      ensures generation == if changed then (old(generation) + 1) % GENERATIONS else old(generation)
    {
      changed := delivery != d;
      if changed {
        delivery := d;
        RecordChange();
      }
    }

    /** Records what the control plane sent, unless the licence in force says more. */
    method ReceiveDelivery(v: Vendor, now: int, d: Delivery) returns (changed: bool)
      requires Valid() && FromChannel(d)
      modifies this`delivery, this`generation, this`proven
      ensures Valid()
      ensures delivery == Received(v, now, old(delivery), d)
      ensures changed == (delivery != old(delivery))
      ensures generation == if changed then (old(generation) + 1) % GENERATIONS else old(generation)
      ensures proven == old(proven) + (if d.origin.Proven? then {Word(d)} else {})
      ensures IsLive(old(delivery)) && Verifies(v, now, old(delivery)) ==> IsLive(delivery) && Verifies(v, now, delivery)
    {
      ReceivedStaysHonest(v, now, delivery, d, proven, seed);
      proven := proven + (if d.origin.Proven? then {Word(d)} else {});
      if delivery.Delivered? && delivery.origin.CachedProven? {
        if d.origin.Proven? && !Verifies(v, now, d) && Verifies(v, now, delivery) {
          return false;
        }
        changed := SetDelivery(d);
        return;
      }
      var sent := StillProven(delivery, d);
      if !Verifies(v, now, sent) && delivery.Delivered? && Verifies(v, now, delivery) {
        return false;
      }
      changed := SetDelivery(sent);
    }

    /** Records the bound set; the first one sent after a seed counts as a change whatever it holds. */
    method SetBoundPlugins(b: Option<set<string>>) returns (changed: bool)
      requires generation < GENERATIONS
      modifies this`bound, this`generation, this`boundCached
      ensures bound == b && !boundCached && changed == (old(bound) != b)
      ensures generation ==
        if changed || old(boundCached) then (old(generation) + 1) % GENERATIONS else old(generation)
    {
      changed := bound != b;
      if changed {
        bound := b;
      }
      var wasCached := boundCached;
      boundCached := false;
      if changed || wasCached {
        RecordChange();
      }
    }

    /** Seeds the cells, before any Channel opens, with what the process before this one was sent. */
    method SeedFromCache(d: Option<Delivery>, b: Option<Option<set<string>>>)
      requires Valid() && proven == {}
      requires d.Some? ==> d.value.Delivered? && d.value.origin.IsCached()
      modifies this
      ensures Valid() && proven == {}
      ensures delivery == if d.Some? then d.value else old(delivery)
      ensures bound == if b.Some? then b.value else old(bound)
      ensures restarted == (old(restarted) || d.Some? || b.Some?)
      ensures boundCached == (old(boundCached) || b.Some?)
      ensures seed == if d.Some? then d.value else old(seed)
      ensures var moves := (if delivery != old(delivery) then 1 else 0)
          + (if b.Some? && (old(bound) != b.value || old(boundCached)) then 1 else 0);
        generation == (old(generation) + moves) % GENERATIONS
    {
      if d.Some? {
        var _ := SetDelivery(d.value);
        seed := d.value;
        restarted := true;
      }
      if b.Some? {
        var _ := SetBoundPlugins(b.value);
        boundCached := true;
        restarted := true;
      }
    }
  }
}
