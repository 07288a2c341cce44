/**
 * Deliveries, bound sets, gates and a waiting boot, interleaved at the granularity of single atomic accesses:
 * a writer stores a cell, then counts the change, then notifies; a gate reads the count, then the cells.
 */
module Interleaving {
  import opened Common
  import opened Licence
  import opened Platform

  type Thread = nat

  datatype Writer =
    | ToStoreDelivery(d: Delivery)
    | ToStoreBound(b: Option<set<string>>)
    | ToSwapFlag(stored: bool)
    | ToCount
    | ToNotify
  {
    /** The writer changed a cell and has not counted the change. */
    predicate Uncounted() {
      ToCount? || (ToSwapFlag? && stored)
    }

    /** The writer changed a cell and has not notified the change. */
    predicate Unnotified() {
      Uncounted() || ToNotify?
    }
  }

  /** A gate part way: the count it read first, and the cells it has read since. */
  datatype Reading = Reading(total: nat, delivery: Option<Delivery>, bound: Option<Option<set<string>>>)

  /** A boot loop, from the moment its notification is enabled. */
  datatype Boot =
    | Away
    | Waiting(
        notified: bool, blocked: bool,
        delivery: Option<Delivery>, bound: Option<Option<set<string>>>, flag: Option<bool>)

  datatype System = System(
    delivery: Delivery, bound: Option<set<string>>, boundCached: bool, total: nat,
    writers: map<Thread, Writer>, gates: map<Thread, Reading>, runtime: Option<Reading>, boot: Boot)
  {
    /** The counter the gates read: it wraps. */
    function Generation(): nat {
      total % GENERATIONS
    }

    ghost predicate Counting() {
      exists t :: t in writers && writers[t].Uncounted()
    }

    ghost predicate Notifying() {
      exists t :: t in writers && writers[t].Unnotified()
    }
  }

  datatype Step =
    | BeginDelivery(t: Thread, d: Delivery) | StoreDelivery(t: Thread)
    | BeginBound(t: Thread, b: Option<set<string>>) | StoreBound(t: Thread) | SwapFlag(t: Thread)
    | Count(t: Thread) | Notify(t: Thread)
    | GateCount(t: Thread) | GateDelivery(t: Thread) | GateBound(t: Thread) | Install(t: Thread)
    | BootEnable | BootDelivery | BootBound | BootFlag | BootBlock | BootLeave

  /** Writers: compare with the cell, store it, take the flag, count, notify. */
  function WriterStep(s: System, step: Step): System {
    match step
    case BeginDelivery(t, d) =>
      if t !in s.writers && s.delivery != d then s.(writers := s.writers[t := ToStoreDelivery(d)]) else s
    case StoreDelivery(t) =>
      if t in s.writers && s.writers[t].ToStoreDelivery?
      then s.(delivery := s.writers[t].d, writers := s.writers[t := ToCount]) else s
    case BeginBound(t, b) =>
      if t in s.writers then s
      else if s.bound != b then s.(writers := s.writers[t := ToStoreBound(b)])
      else s.(writers := s.writers[t := ToSwapFlag(false)])
    case StoreBound(t) =>
      if t in s.writers && s.writers[t].ToStoreBound?
      then s.(bound := s.writers[t].b, writers := s.writers[t := ToSwapFlag(true)]) else s
    case SwapFlag(t) =>
      if t in s.writers && s.writers[t].ToSwapFlag? then
        var counts := s.writers[t].stored || s.boundCached;
        s.(boundCached := false, writers := if counts then s.writers[t := ToCount] else s.writers - {t})
      else s
    case Count(t) =>
      if t in s.writers && s.writers[t].ToCount?
      then s.(total := s.total + 1, writers := s.writers[t := ToNotify]) else s
    case Notify(t) =>
      if t in s.writers && s.writers[t].ToNotify? then
        s.(writers := s.writers - {t}, boot := if s.boot.Waiting? then s.boot.(notified := true) else s.boot)
      else s
    case _ => s
  }

  /** Gates at a reload: the count first, then the delivery, then the bound set; the last one installed runs. */
  function GateStep(s: System, step: Step): System {
    match step
    case GateCount(t) => if t in s.gates then s else s.(gates := s.gates[t := Reading(s.total, None, None)])
    case GateDelivery(t) =>
      if t in s.gates && s.gates[t].delivery.None?
      then s.(gates := s.gates[t := s.gates[t].(delivery := Some(s.delivery))]) else s
    case GateBound(t) =>
      if t in s.gates && s.gates[t].delivery.Some? && s.gates[t].bound.None?
      then s.(gates := s.gates[t := s.gates[t].(bound := Some(s.bound))]) else s
    case Install(t) =>
      if t in s.gates && s.gates[t].bound.Some?
      then s.(runtime := Some(s.gates[t]), gates := s.gates - {t}) else s
    case _ => s
  }

  /** The boot loop: enable the notification, read the cells, then block until notified or timed out. */
  function BootStep(s: System, step: Step): System {
    match step
    case BootEnable => if s.boot.Away? then s.(boot := Waiting(false, false, None, None, None)) else s
    case BootDelivery =>
      if s.boot.Waiting? && s.boot.delivery.None? then s.(boot := s.boot.(delivery := Some(s.delivery))) else s
    case BootBound =>
      if s.boot.Waiting? && s.boot.delivery.Some? && s.boot.bound.None?
      then s.(boot := s.boot.(bound := Some(s.bound))) else s
    case BootFlag =>
      if s.boot.Waiting? && s.boot.bound.Some? && s.boot.flag.None?
      then s.(boot := s.boot.(flag := Some(s.boundCached))) else s
    case BootBlock => if s.boot.Waiting? && s.boot.flag.Some? then s.(boot := s.boot.(blocked := true)) else s
    case BootLeave => s.(boot := Away)
    case _ => s
  }

  function Next(s: System, step: Step): System {
    BootStep(GateStep(WriterStep(s, step), step), step)
  }

  function Run(s: System, steps: seq<Step>): System
    decreases |steps|
  {
    if steps == [] then s else Run(Next(s, steps[0]), steps[1..])
  }

  // ----- What every step keeps -----

  /** A value read after `total` was is still in the cell, or the count has moved, or a writer is about to move it. */
  ghost predicate Current(s: System, r: Reading) {
    && r.total <= s.total
    && (r.total < s.total || s.Counting()
        || ((r.delivery.Some? ==> r.delivery.value == s.delivery) && (r.bound.Some? ==> r.bound.value == s.bound)))
  }

  ghost predicate BootCurrent(s: System, b: Boot) {
    b.Waiting? ==>
      b.notified || s.Notifying() || (
        && (b.delivery.Some? ==> b.delivery.value == s.delivery)
        && (b.bound.Some? ==> b.bound.value == s.bound)
        && (b.flag.Some? ==> b.flag.value == s.boundCached))
  }

  ghost predicate Inv(s: System) {
    && (forall t :: t in s.gates ==> Current(s, s.gates[t]))
    && (s.runtime.Some? ==> Current(s, s.runtime.value))
    && BootCurrent(s, s.boot)
  }

  /** A writer's step never changes a cell without leaving the change to be counted and notified. */
  ghost predicate Advances(s: System, s': System) {
    && s.total <= s'.total
    && (s.delivery != s'.delivery || s.bound != s'.bound ==> s'.Counting())
    && (s.Counting() ==> s'.Counting() || s.total < s'.total)
    && (s.delivery != s'.delivery || s.bound != s'.bound || s.boundCached != s'.boundCached ==> s'.Notifying())
    && (s.Notifying() ==> s'.Notifying() || (s'.boot.Waiting? ==> s'.boot.notified))
  }

  lemma OtherWritersStay(s: System, s': System, t: Thread)
    requires t in s.writers ==> !s.writers[t].Uncounted() || (t in s'.writers && s'.writers[t].Uncounted())
    requires t in s.writers ==> !s.writers[t].Unnotified() || (t in s'.writers && s'.writers[t].Unnotified())
    requires forall u :: u != t && u in s.writers ==> u in s'.writers && s'.writers[u] == s.writers[u]
    ensures s.Counting() ==> s'.Counting()
    ensures s.Notifying() ==> s'.Notifying()
  {
    if s.Counting() {
      var u :| u in s.writers && s.writers[u].Uncounted();
      assert u in s'.writers && s'.writers[u].Uncounted();
    }
    if s.Notifying() {
      var u :| u in s.writers && s.writers[u].Unnotified();
      assert u in s'.writers && s'.writers[u].Unnotified();
    }
  }

  lemma WriterAdvances(s: System, step: Step)
    ensures Advances(s, WriterStep(s, step))
  {
    var s' := WriterStep(s, step);
    match step
    case BeginDelivery(t, _) => OtherWritersStay(s, s', t);
    case StoreDelivery(t) =>
      OtherWritersStay(s, s', t);
      assert s' != s ==> t in s'.writers && s'.writers[t].Uncounted();
    case BeginBound(t, _) => OtherWritersStay(s, s', t);
    case StoreBound(t) =>
      OtherWritersStay(s, s', t);
      assert s' != s ==> t in s'.writers && s'.writers[t].Uncounted();
    case SwapFlag(t) =>
      OtherWritersStay(s, s', t);
      assert s'.boundCached != s.boundCached ==> t in s'.writers && s'.writers[t].Uncounted();
    case Count(t) =>
      if s' != s {
        assert t in s'.writers && s'.writers[t].Unnotified();
      }
    case Notify(t) =>
      if s' != s && s.Counting() {
        var u :| u in s.writers && s.writers[u].Uncounted();
        assert u in s'.writers && s'.writers[u].Uncounted();
      }
    case _ =>
  }

  lemma WriterKeepsInv(s: System, step: Step)
    requires Inv(s)
    ensures Inv(WriterStep(s, step))
  {
    var s' := WriterStep(s, step);
    WriterAdvances(s, step);
    forall t | t in s'.gates ensures Current(s', s'.gates[t]) {
      assert Current(s, s.gates[t]);
    }
    assert s.runtime.Some? ==> Current(s', s.runtime.value);
  }

  lemma GateKeepsInv(s: System, step: Step)
    requires Inv(s)
    ensures Inv(GateStep(s, step))
  {
    var s' := GateStep(s, step);
    assert s.Counting() == s'.Counting() && s.Notifying() == s'.Notifying();
    forall t | t in s'.gates ensures Current(s', s'.gates[t]) {
      if t in s.gates {
        assert Current(s, s.gates[t]);
      }
    }
    if s'.runtime.Some? && s'.runtime != s.runtime {
      assert step.t in s.gates && Current(s, s.gates[step.t]);
    }
  }

  lemma BootKeepsInv(s: System, step: Step)
    requires Inv(s)
    ensures Inv(BootStep(s, step))
  {
    var s' := BootStep(s, step);
    assert s.Counting() == s'.Counting() && s.Notifying() == s'.Notifying();
    forall t | t in s'.gates ensures Current(s', s'.gates[t]) {
      assert Current(s, s.gates[t]);
    }
  }

  lemma {:induction false} RunKeepsInv(s: System, steps: seq<Step>)
    requires Inv(s)
    ensures Inv(Run(s, steps))
    decreases |steps|
  {
    if steps != [] {
      WriterKeepsInv(s, steps[0]);
      GateKeepsInv(WriterStep(s, steps[0]), steps[0]);
      BootKeepsInv(GateStep(WriterStep(s, steps[0]), steps[0]), steps[0]);
      RunKeepsInv(Next(s, steps[0]), steps[1..]);
    }
  }

  // ----- No update is lost -----

  function Start(delivery: Delivery, bound: Option<set<string>>, boundCached: bool, total: nat): System {
    System(delivery, bound, boundCached, total, map[], map[], None, Away)
  }

  /** A completed gate has read both cells. */
  ghost predicate Complete(s: System) {
    && (s.runtime.Some? ==> s.runtime.value.delivery.Some? && s.runtime.value.bound.Some?)
    && (forall t :: t in s.gates && s.gates[t].bound.Some? ==> s.gates[t].delivery.Some?)
    && (s.boot.Waiting? && s.boot.blocked ==> s.boot.delivery.Some? && s.boot.bound.Some? && s.boot.flag.Some?)
    && (s.boot.Waiting? ==> (s.boot.flag.Some? ==> s.boot.bound.Some?) && (s.boot.bound.Some? ==> s.boot.delivery.Some?))
  }

  lemma NextKeepsComplete(s: System, step: Step)
    requires Complete(s)
    ensures Complete(Next(s, step))
  {
    var w := WriterStep(s, step);
    assert Complete(w);
    assert Complete(GateStep(w, step));
  }

  lemma {:induction false} RunKeepsComplete(s: System, steps: seq<Step>)
    requires Complete(s)
    ensures Complete(Run(s, steps))
    decreases |steps|
  {
    if steps != [] {
      NextKeepsComplete(s, steps[0]);
      RunKeepsComplete(Next(s, steps[0]), steps[1..]);
    }
  }

  /**
   * In every reachable state with no writer between its store and its count, a runtime that is not behind the
   * counter was gated on the delivery and bound set in force, short of the counter's whole range of changes.
   */
  lemma NoLostUpdate(
    delivery: Delivery, bound: Option<set<string>>, boundCached: bool, total: nat, steps: seq<Step>)
    ensures var s := Run(Start(delivery, bound, boundCached, total), steps);
      && !s.Counting() && s.runtime.Some?
      && s.total - s.runtime.value.total < GENERATIONS
      && s.runtime.value.total % GENERATIONS == s.Generation()
      ==> s.runtime.value.delivery == Some(s.delivery) && s.runtime.value.bound == Some(s.bound)
  {
    var start := Start(delivery, bound, boundCached, total);
    RunKeepsInv(start, steps);
    RunKeepsComplete(start, steps);
    var s := Run(start, steps);
    if s.runtime.Some? && s.total - s.runtime.value.total < GENERATIONS
       && s.runtime.value.total % GENERATIONS == s.Generation() {
      SameResidue(s.runtime.value.total, s.total);
    }
  }

  lemma SameResidue(a: nat, b: nat)
    requires a <= b < a + GENERATIONS && a % GENERATIONS == b % GENERATIONS
    ensures a == b
  {
    assert a == GENERATIONS * (a / GENERATIONS) + a % GENERATIONS;
    assert b == GENERATIONS * (b / GENERATIONS) + b % GENERATIONS;
  }

  /** A boot that is blocked and not notified, with no notification on its way, has evaluated the cells in force. */
  lemma NoMissedWakeup(
    delivery: Delivery, bound: Option<set<string>>, boundCached: bool, total: nat, steps: seq<Step>)
    ensures var s := Run(Start(delivery, bound, boundCached, total), steps);
      s.boot.Waiting? && s.boot.blocked && !s.boot.notified && !s.Notifying() ==>
        && s.boot.delivery == Some(s.delivery)
        && s.boot.bound == Some(s.bound)
        && s.boot.flag == Some(s.boundCached)
  {
    var start := Start(delivery, bound, boundCached, total);
    RunKeepsInv(start, steps);
    RunKeepsComplete(start, steps);
  }

  // ----- Undisturbed -----

  function Notified(b: Boot): Boot {
    if b.Waiting? then b.(notified := true) else b
  }

  predicate OfWriter(step: Step) {
    || step.BeginDelivery? || step.StoreDelivery? || step.BeginBound? || step.StoreBound? || step.SwapFlag?
    || step.Count? || step.Notify?
  }

  predicate OfGate(step: Step) {
    step.GateCount? || step.GateDelivery? || step.GateBound? || step.Install?
  }

  /** A step is a writer's, a gate's or the boot's; the others stand still. */
  lemma OneMoves(s: System, step: Step)
    ensures Next(s, step) ==
      if OfWriter(step) then WriterStep(s, step) else if OfGate(step) then GateStep(s, step) else BootStep(s, step)
  {
  }

  lemma CountedAndNotified(s: System, t: Thread)
    requires t in s.writers && s.writers[t].ToCount?
    ensures Next(Next(s, Count(t)), Notify(t))
         == s.(total := s.total + 1, writers := s.writers - {t}, boot := Notified(s.boot))
  {
    var s1 := s.(total := s.total + 1, writers := s.writers[t := ToNotify]);
    OneMoves(s, Count(t));
    assert Next(s, Count(t)) == s1;
    OneMoves(s1, Notify(t));
    assert s1.writers - {t} == s.writers - {t};
  }

  /** A writer of a delivery that nobody disturbs does what `Cells.SetDelivery` does, and wakes the boot. */
  lemma DeliveryWritten(s: System, t: Thread, d: Delivery)
    requires t !in s.writers
    ensures Run(s, [BeginDelivery(t, d), StoreDelivery(t), Count(t), Notify(t)]) ==
      if s.delivery == d then s else s.(delivery := d, total := s.total + 1, boot := Notified(s.boot))
  {
    FourSteps(s, BeginDelivery(t, d), StoreDelivery(t), Count(t), Notify(t));
    OneMoves(s, BeginDelivery(t, d));
    if s.delivery == d {
      OneMoves(s, StoreDelivery(t));
      OneMoves(s, Count(t));
      OneMoves(s, Notify(t));
    } else {
      var s1 := s.(writers := s.writers[t := ToStoreDelivery(d)]);
      OneMoves(s1, StoreDelivery(t));
      var s2 := s.(delivery := d, writers := s.writers[t := ToCount]);
      assert s1.writers[t := ToCount] == s.writers[t := ToCount];
      assert Next(s1, StoreDelivery(t)) == s2;
      CountedAndNotified(s2, t);
      assert s2.writers - {t} == s.writers;
    }
  }

  /** After the cell: the flag is taken, and the change counted if there was one. */
  lemma FlagTaken(s: System, t: Thread)
    requires t in s.writers && s.writers[t].ToSwapFlag?
    ensures Next(Next(Next(s, SwapFlag(t)), Count(t)), Notify(t)) ==
      var rest := s.(boundCached := false, writers := s.writers - {t});
      if s.writers[t].stored || s.boundCached then rest.(total := s.total + 1, boot := Notified(s.boot)) else rest
  {
    OneMoves(s, SwapFlag(t));
    if s.writers[t].stored || s.boundCached {
      var s1 := s.(boundCached := false, writers := s.writers[t := ToCount]);
      CountedAndNotified(s1, t);
      assert s1.writers - {t} == s.writers - {t};
    } else {
      var rest := s.(boundCached := false, writers := s.writers - {t});
      OneMoves(rest, Count(t));
      OneMoves(rest, Notify(t));
    }
  }

  /** And one of a bound set what `Cells.SetBoundPlugins` does. */
  lemma BoundWritten(s: System, t: Thread, b: Option<set<string>>)
    requires t !in s.writers
    ensures Next(Run(s, [BeginBound(t, b), StoreBound(t), SwapFlag(t), Count(t)]), Notify(t)) ==
      if s.bound == b && !s.boundCached then s
      else s.(bound := b, boundCached := false, total := s.total + 1, boot := Notified(s.boot))
  {
    FourSteps(s, BeginBound(t, b), StoreBound(t), SwapFlag(t), Count(t));
    OneMoves(s, BeginBound(t, b));
    var s2 := s.(bound := b, writers := s.writers[t := ToSwapFlag(s.bound != b)]);
    if s.bound == b {
      OneMoves(s2, StoreBound(t));
    } else {
      var s1 := s.(writers := s.writers[t := ToStoreBound(b)]);
      OneMoves(s1, StoreBound(t));
      assert s1.writers[t := ToSwapFlag(true)] == s2.writers;
    }
    FlagTaken(s2, t);
    assert s2.writers - {t} == s.writers;
  }

  /** A gate nobody disturbs installs a runtime that read the cells in force. */
  lemma GateInstalled(s: System, t: Thread)
    requires t !in s.gates
    ensures Run(s, [GateCount(t), GateDelivery(t), GateBound(t), Install(t)])
         == s.(runtime := Some(Reading(s.total, Some(s.delivery), Some(s.bound))))
  {
    FourSteps(s, GateCount(t), GateDelivery(t), GateBound(t), Install(t));
    var s1 := s.(gates := s.gates[t := Reading(s.total, None, None)]);
    var s2 := s.(gates := s.gates[t := Reading(s.total, Some(s.delivery), None)]);
    var s3 := s.(gates := s.gates[t := Reading(s.total, Some(s.delivery), Some(s.bound))]);
    OneMoves(s, GateCount(t));
    OneMoves(s1, GateDelivery(t));
    assert GateStep(s1, GateDelivery(t)).gates == s2.gates;
    OneMoves(s2, GateBound(t));
    assert GateStep(s2, GateBound(t)).gates == s3.gates;
    OneMoves(s3, Install(t));
    assert s3.gates - {t} == s.gates;
  }

  lemma BootOpens(s: System)
    requires s.boot.Away?
    ensures Next(Next(s, BootEnable), BootDelivery) == s.(boot := Waiting(false, false, Some(s.delivery), None, None))
  {
    var s1 := s.(boot := Waiting(false, false, None, None, None));
    assert Next(s, BootEnable) == s1;
    assert Next(s1, BootDelivery) == s1.(boot := s1.boot.(delivery := Some(s.delivery)));
  }

  lemma BootReads(s: System)
    requires s.boot == Waiting(false, false, Some(s.delivery), None, None)
    ensures Next(Next(s, BootBound), BootFlag)
         == s.(boot := Waiting(false, false, Some(s.delivery), Some(s.bound), Some(s.boundCached)))
  {
    var s1 := s.(boot := Waiting(false, false, Some(s.delivery), Some(s.bound), None));
    assert Next(s, BootBound) == s1;
    assert Next(s1, BootFlag) == s1.(boot := s1.boot.(flag := Some(s.boundCached)));
  }

  /** A boot nobody disturbs blocks on what is in force. */
  lemma BootBlocked(s: System)
    requires s.boot.Away?
    ensures Next(Run(s, [BootEnable, BootDelivery, BootBound, BootFlag]), BootBlock)
         == s.(boot := Waiting(false, true, Some(s.delivery), Some(s.bound), Some(s.boundCached)))
  {
    FourSteps(s, BootEnable, BootDelivery, BootBound, BootFlag);
    BootOpens(s);
    BootReads(s.(boot := Waiting(false, false, Some(s.delivery), None, None)));
    BlocksAfter(s.(boot := Waiting(false, false, Some(s.delivery), Some(s.bound), Some(s.boundCached))));
  }

  lemma BlocksAfter(s: System)
    requires s.boot.Waiting? && s.boot.flag.Some?
    ensures Next(s, BootBlock) == s.(boot := s.boot.(blocked := true))
  {
  }

  lemma FourSteps(s: System, a: Step, b: Step, c: Step, d: Step)
    ensures Run(s, [a, b, c, d]) == Next(Next(Next(Next(s, a), b), c), d)
  {
    TwoSteps(Next(Next(s, a), b), c, d);
    var s1 := Next(s, a);
    assert [a, b, c, d][1..] == [b, c, d] && [b, c, d][1..] == [c, d];
    assert Run(s, [a, b, c, d]) == Run(s1, [b, c, d]) == Run(Next(s1, b), [c, d]);
  }

  lemma TwoSteps(s: System, a: Step, b: Step)
    ensures Run(s, [a, b]) == Next(Next(s, a), b)
  {
    assert [a, b][1..] == [b] && [b][1..] == [];
    assert Run(Next(s, a), [b]) == Run(Next(Next(s, a), b), []);
  }
}
