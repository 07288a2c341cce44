/** When watched files whose content returns hide a change from the watcher: exactly which histories do. */
module WatcherGaps {
  import opened FileWatch

  // ----- Reachable states, by the version each file has come to -----

  ghost predicate Reaches(boot: Watcher, digest: Content -> int, s: Watcher)
    requires WellFormed(boot)
  {
    exists steps :: Run(boot, digest, steps) == s
  }

  lemma {:induction false} RunSnoc(s: Watcher, digest: Content -> int, steps: seq<Step>, step: Step)
    requires WellFormed(s)
    ensures Run(s, digest, steps + [step]) == Next(Run(s, digest, steps), digest, step)
    decreases |steps|
  {
    if steps != [] {
      RunSnoc(Next(s, digest, steps[0]), digest, steps[1..], step);
      assert (steps + [step])[1..] == steps[1..] + [step];
    }
  }

  lemma ReachesNext(boot: Watcher, digest: Content -> int, s: Watcher, step: Step)
    requires WellFormed(boot) && WellFormed(s) && Reaches(boot, digest, s)
    ensures Reaches(boot, digest, Next(s, digest, step))
  {
    var steps :| Run(boot, digest, steps) == s;
    RunSnoc(boot, digest, steps, step);
  }

  /** One version of each file. */
  predicate VersionOf(files: seq<History>, f: nat, v: nat) {
    f < |files| && v < |files[f]|
  }

  ghost predicate Versions(files: seq<History>, vs: seq<nat>) {
    |vs| == |files| && forall f :: 0 <= f < |vs| ==> VersionOf(files, f, vs[f])
  }

  function Until(history: History, v: nat): History
    requires v < |history|
  {
    history[..v + 1]
  }

  /** The files as they were at `now`. */
  ghost function Cut(files: seq<History>, now: seq<nat>): (cut: seq<History>)
    requires Versions(files, now)
    ensures |cut| == |files|
    ensures forall f :: 0 <= f < |files| ==> VersionOf(files, f, now[f]) && cut[f] == Until(files[f], now[f])
  {
    assert forall f :: 0 <= f < |files| ==> VersionOf(files, f, now[f]);
    seq(|files|, f requires 0 <= f < |files| => assert VersionOf(files, f, now[f]); Until(files[f], now[f]))
  }

  ghost function First(files: seq<History>): (vs: seq<nat>)
    ensures Versions(files, vs) && forall f :: 0 <= f < |files| ==> vs[f] == 0
  {
    seq(|files|, f => 0)
  }

  /** The watcher of files that start as `files` do. */
  ghost function Boot(files: seq<History>): (s: Watcher)
    ensures Booted(s)
  {
    var s := Watcher(Cut(files, First(files)), First(files), First(files), Idle);
    assert forall f :: 0 <= f < |files| ==> IsVersion(s, f, 0) && s.Now(f) == 0;
    s
  }

  ghost predicate At(
    files: seq<History>, digest: Content -> int, now: seq<nat>, loaded: seq<nat>, last: seq<nat>, phase: Phase)
    requires Versions(files, now)
  {
    var s := Watcher(Cut(files, now), loaded, last, phase);
    WellFormed(s) && Reaches(Boot(files), digest, s)
  }

  /** A step from a reached state, to the state it is said to give. */
  lemma StepsTo(
    files: seq<History>, digest: Content -> int, now: seq<nat>, loaded: seq<nat>, last: seq<nat>, phase: Phase,
    step: Step, now': seq<nat>, loaded': seq<nat>, last': seq<nat>, phase': Phase)
    requires Versions(files, now) && Versions(files, now') && At(files, digest, now, loaded, last, phase)
    requires Next(Watcher(Cut(files, now), loaded, last, phase), digest, step)
          == Watcher(Cut(files, now'), loaded', last', phase')
    ensures At(files, digest, now', loaded', last', phase')
  {
    ReachesNext(Boot(files), digest, Watcher(Cut(files, now), loaded, last, phase), step);
  }

  lemma BootReached(files: seq<History>, digest: Content -> int)
    ensures At(files, digest, First(files), First(files), First(files), Idle)
  {
    assert Run(Boot(files), digest, []) == Boot(files);
  }

  // ----- What the watcher and the writers can do -----

  lemma CutNext(files: seq<History>, now: seq<nat>, f: nat)
    requires Versions(files, now) && f < |files| && VersionOf(files, f, now[f] + 1)
    ensures Versions(files, now[f := now[f] + 1])
    ensures Cut(files, now)[f := Cut(files, now)[f] + [files[f][now[f] + 1]]] == Cut(files, now[f := now[f] + 1])
  {
    var now' := now[f := now[f] + 1];
    forall g | 0 <= g < |now'| ensures VersionOf(files, g, now'[g]) {
      assert VersionOf(files, g, now[g]);
    }
    assert Until(files[f], now[f]) + [files[f][now[f] + 1]] == Until(files[f], now[f] + 1);
  }

  lemma {:induction false} WritesOn(
    files: seq<History>, digest: Content -> int, now: seq<nat>, loaded: seq<nat>, last: seq<nat>, phase: Phase,
    f: nat, v: nat)
    requires Versions(files, now) && At(files, digest, now, loaded, last, phase)
    requires f < |files| && now[f] <= v && VersionOf(files, f, v)
    ensures Versions(files, now[f := v]) && At(files, digest, now[f := v], loaded, last, phase)
    decreases v - now[f]
  {
    if now[f] < v {
      CutNext(files, now, f);
      var now' := now[f := now[f] + 1];
      StepsTo(files, digest, now, loaded, last, phase, Write(f, files[f][now[f] + 1]), now', loaded, last, phase);
      WritesOn(files, digest, now', loaded, last, phase, f, v);
      assert now'[f := v] == now[f := v];
    } else {
      assert now[f := v] == now;
    }
  }

  lemma NowIsVersion(files: seq<History>, now: seq<nat>, loaded: seq<nat>, last: seq<nat>, phase: Phase, f: nat)
    requires Versions(files, now) && f < |files|
    ensures Watcher(Cut(files, now), loaded, last, phase).Now(f) == now[f]
  {
    assert VersionOf(files, f, now[f]);
  }

  lemma {:induction false} ScansOn(
    files: seq<History>, digest: Content -> int, now: seq<nat>, loaded: seq<nat>, last: seq<nat>, k: nat)
    requires Versions(files, now) && k <= |files| && At(files, digest, now, loaded, last, Scanning(now[..k]))
    ensures At(files, digest, now, loaded, last, Scanning(now))
    decreases |files| - k
  {
    if k < |files| {
      NowIsVersion(files, now, loaded, last, Scanning(now[..k]), k);
      assert now[..k] + [now[k]] == now[..k + 1];
      StepsTo(files, digest, now, loaded, last, Scanning(now[..k]), ScanNext, now, loaded, last, Scanning(now[..k + 1]));
      ScansOn(files, digest, now, loaded, last, k + 1);
    } else {
      assert now[..k] == now;
    }
  }

  lemma TicksOn(files: seq<History>, digest: Content -> int, now: seq<nat>, loaded: seq<nat>, last: seq<nat>)
    requires Versions(files, now) && At(files, digest, now, loaded, last, Idle)
    ensures At(files, digest, now, loaded, last, Scanning(now))
  {
    assert now[..0] == [];
    StepsTo(files, digest, now, loaded, last, Idle, BeginTick, now, loaded, last, Scanning(now[..0]));
    ScansOn(files, digest, now, loaded, last, 0);
  }

  /** File `g` differs between two versions of the files. */
  ghost predicate Differs(files: seq<History>, vs: seq<nat>, ws: seq<nat>, g: nat)
    requires Versions(files, vs) && Versions(files, ws) && g < |files|
  {
    assert VersionOf(files, g, vs[g]) && VersionOf(files, g, ws[g]);
    files[g][vs[g]] != files[g][ws[g]]
  }

  lemma DiffersSeen(
    files: seq<History>, digest: Content -> int, now: seq<nat>, loaded: seq<nat>, last: seq<nat>, phase: Phase, g: nat)
    requires Versions(files, now) && Versions(files, last) && g < |files| && Injective(digest)
    requires WellFormed(Watcher(Cut(files, now), loaded, last, phase))
    requires AreVersions(Watcher(Cut(files, now), loaded, last, phase), now)
    ensures PrintDiffers(Watcher(Cut(files, now), loaded, last, phase), digest, now, g) <==> Differs(files, last, now, g)
  {
    var s := Watcher(Cut(files, now), loaded, last, phase);
    assert IsVersion(s, g, last[g]) && IsVersion(s, g, now[g]);
    assert s.files[g][last[g]] == files[g][last[g]] && s.files[g][now[g]] == files[g][now[g]];
  }

  lemma ComparesOn(
    files: seq<History>, digest: Content -> int, now: seq<nat>, loaded: seq<nat>, last: seq<nat>, g: nat)
    requires Versions(files, now) && Versions(files, last) && At(files, digest, now, loaded, last, Scanning(now))
    requires Injective(digest) && g < |files| && Differs(files, last, now, g)
    ensures At(files, digest, now, loaded, last, Reloading(now, []))
  {
    DiffersSeen(files, digest, now, loaded, last, Scanning(now), g);
    StepsTo(files, digest, now, loaded, last, Scanning(now), Compare, now, loaded, last, Reloading(now, []));
  }

  lemma {:induction false} ReadsOn(
    files: seq<History>, digest: Content -> int, now: seq<nat>, loaded: seq<nat>, last: seq<nat>, next: seq<nat>, k: nat)
    requires Versions(files, now) && k <= |files| && At(files, digest, now, loaded, last, Reloading(next, now[..k]))
    ensures At(files, digest, now, loaded, last, Reloading(next, now))
    decreases |files| - k
  {
    if k < |files| {
      NowIsVersion(files, now, loaded, last, Reloading(next, now[..k]), k);
      assert now[..k] + [now[k]] == now[..k + 1];
      StepsTo(files, digest, now, loaded, last, Reloading(next, now[..k]), ReadNext,
              now, loaded, last, Reloading(next, now[..k + 1]));
      ReadsOn(files, digest, now, loaded, last, next, k + 1);
    } else {
      assert now[..k] == now;
    }
  }

  lemma FinishesOn(
    files: seq<History>, digest: Content -> int, now: seq<nat>, loaded: seq<nat>, last: seq<nat>, next: seq<nat>)
    requires Versions(files, now) && At(files, digest, now, loaded, last, Reloading(next, []))
    ensures At(files, digest, now, now, next, Idle)
  {
    assert now[..0] == [];
    ReadsOn(files, digest, now, loaded, last, next, 0);
    StepsTo(files, digest, now, loaded, last, Reloading(next, now), Finish(true), now, now, next, Idle);
  }

  /** A tick fingerprints `now`, file `g` having changed, and the reload reads `f` at a later version `m`. */
  lemma ReloadsAcross(
    files: seq<History>, digest: Content -> int, now: seq<nat>, loaded: seq<nat>, last: seq<nat>, g: nat, f: nat, m: nat)
    requires Versions(files, now) && Versions(files, last) && At(files, digest, now, loaded, last, Idle)
    requires Injective(digest) && g < |files| && Differs(files, last, now, g)
    requires f < |files| && now[f] <= m && VersionOf(files, f, m)
    ensures Versions(files, now[f := m]) && At(files, digest, now[f := m], now[f := m], now, Idle)
  {
    TicksOn(files, digest, now, loaded, last);
    ComparesOn(files, digest, now, loaded, last, g);
    WritesOn(files, digest, now, loaded, last, Reloading(now, []), f, m);
    FinishesOn(files, digest, now[f := m], loaded, last, now);
  }

  // ----- The histories that hide a change -----

  /** The content at `a` changes, and comes back. */
  predicate ReturnsAt(history: History, a: nat, m: nat, b: nat) {
    a < m < b < |history| && history[a] == history[b] && history[m] != history[a]
  }

  /** Version `a` differs from some version before it. */
  predicate Changed(history: History, a: nat) {
    a < |history| && exists p :: 0 <= p < a && history[p] != history[a]
  }

  predicate Varies(history: History) {
    exists v :: 0 < v < |history| && history[v] != history[0]
  }

  /** Some change can make the watcher reload just when file `f` is at `a`: one of `f` up to then, or of another file. */
  predicate CanReloadAt(files: seq<History>, f: nat, a: nat)
    requires f < |files|
  {
    Changed(files[f], a) || exists g :: 0 <= g < |files| && g != f && Varies(files[g])
  }

  predicate HidesAt(files: seq<History>, f: nat, a: nat, m: nat, b: nat) {
    f < |files| && ReturnsAt(files[f], a, m, b) && CanReloadAt(files, f, a)
  }

  ghost predicate Hides(files: seq<History>) {
    exists f, a, m, b :: HidesAt(files, f, a, m, b)
  }

  /** File `f` is loaded with something else than the scan read. */
  ghost predicate StaleAt(s: Watcher, f: nat)
    requires WellFormed(s) && s.phase.Scanning? && f < |s.phase.next|
  {
    assert IsVersion(s, f, s.loaded[f]) && IsVersion(s, f, s.phase.next[f]);
    s.files[f][s.loaded[f]] != s.files[f][s.phase.next[f]]
  }

  /** A scan of every file that sees no delta, while the running config holds something else than it read. */
  ghost predicate Stale(s: Watcher, digest: Content -> int) {
    && WellFormed(s) && s.phase.Scanning? && |s.phase.next| == |s.files|
    && !SeesDelta(s, digest, s.phase.next)
    && exists f :: 0 <= f < |s.files| && StaleAt(s, f)
  }

  ghost predicate Within(s: Watcher, files: seq<History>) {
    |s.files| == |files| && forall f :: 0 <= f < |files| ==> s.files[f] <= files[f]
  }

  /** Some run over the first versions of `files` comes to a stale scan. */
  ghost predicate GoesStale(files: seq<History>, digest: Content -> int) {
    exists s :: Reaches(Boot(files), digest, s) && Stale(s, digest) && Within(s, files)
  }

  /** Once a reload was triggered at `now` and read `f` changed, `f` put back makes the next scan a stale one. */
  lemma ReturnGoesStale(
    files: seq<History>, digest: Content -> int, now: seq<nat>, f: nat, m: nat, b: nat)
    requires Versions(files, now) && f < |files| && ReturnsAt(files[f], now[f], m, b) && Injective(digest)
    requires Versions(files, now[f := m]) && At(files, digest, now[f := m], now[f := m], now, Idle)
    ensures GoesStale(files, digest)
  {
    var loaded := now[f := m];
    WritesOn(files, digest, loaded, loaded, now, Idle, f, b);
    var end := now[f := b];
    assert loaded[f := b] == end;
    TicksOn(files, digest, end, loaded, now);
    var s := Watcher(Cut(files, end), loaded, now, Scanning(end));
    forall g | 0 <= g < |files| ensures !PrintDiffers(s, digest, end, g) {
      DiffersSeen(files, digest, end, loaded, now, Scanning(end), g);
    }
    assert IsVersion(s, f, m) && IsVersion(s, f, b);
    assert s.files[f][m] == files[f][m] && s.files[f][b] == files[f][b];
    assert StaleAt(s, f);
    assert Within(s, files);
  }

  /** File `f` itself changes before `a`. */
  lemma OwnChangeHides(files: seq<History>, digest: Content -> int, f: nat, a: nat, m: nat, b: nat)
    requires f < |files| && ReturnsAt(files[f], a, m, b) && Changed(files[f], a) && Injective(digest)
    ensures GoesStale(files, digest)
  {
    var first: seq<nat> := First(files);
    BootReached(files, digest);
    if files[f][0] != files[f][a] {
      WritesOn(files, digest, first, first, first, Idle, f, a);
      ReloadsAcross(files, digest, first[f := a], first, first, f, f, m);
    } else {
      var p: nat :| p < a && files[f][p] != files[f][a];
      WritesOn(files, digest, first, first, first, Idle, f, p);
      var middle: seq<nat> := first[f := p];
      ReloadsAcross(files, digest, middle, first, first, f, f, p);
      assert middle[f := p] == middle && middle[f := a] == first[f := a];
      WritesOn(files, digest, middle, middle, middle, Idle, f, a);
      ReloadsAcross(files, digest, first[f := a], middle, middle, f, f, m);
    }
    ReturnGoesStale(files, digest, first[f := a], f, m, b);
  }

  /** Another file changes. */
  lemma OtherChangeHides(files: seq<History>, digest: Content -> int, f: nat, a: nat, m: nat, b: nat, g: nat)
    requires f < |files| && ReturnsAt(files[f], a, m, b) && Injective(digest)
    requires g < |files| && g != f && Varies(files[g])
    ensures GoesStale(files, digest)
  {
    var v: nat :| 0 < v < |files[g]| && files[g][v] != files[g][0];
    var first: seq<nat> := First(files);
    BootReached(files, digest);
    WritesOn(files, digest, first, first, first, Idle, f, a);
    var placed: seq<nat> := first[f := a];
    WritesOn(files, digest, placed, first, first, Idle, g, v);
    var now: seq<nat> := placed[g := v];
    ReloadsAcross(files, digest, now, first, first, g, f, m);
    ReturnGoesStale(files, digest, now, f, m, b);
  }

  lemma HidesGoesStale(files: seq<History>, digest: Content -> int, f: nat, a: nat, m: nat, b: nat)
    requires Injective(digest) && HidesAt(files, f, a, m, b)
    ensures GoesStale(files, digest)
  {
    if Changed(files[f], a) {
      OwnChangeHides(files, digest, f, a, m, b);
    } else {
      var g :| 0 <= g < |files| && g != f && Varies(files[g]);
      OtherChangeHides(files, digest, f, a, m, b, g);
    }
  }

  // ----- Nothing else hides one -----

  lemma CanReloadGrows(files: seq<History>, files': seq<History>, f: nat, a: nat)
    requires |files| == |files'| && (forall g :: 0 <= g < |files| ==> files[g] <= files'[g])
    requires f < |files| && CanReloadAt(files, f, a)
    ensures CanReloadAt(files', f, a)
  {
    if Changed(files[f], a) {
      var p :| 0 <= p < a && files[f][p] != files[f][a];
      assert files'[f][p] != files'[f][a];
    } else {
      var g :| 0 <= g < |files| && g != f && Varies(files[g]);
      var v :| 0 < v < |files[g]| && files[g][v] != files[g][0];
      assert files'[g][v] != files'[g][0];
    }
  }

  /** The baseline of a file falls behind what is loaded only in a reload, which some change triggered. */
  ghost predicate Triggered(s: Watcher, f: nat)
    requires WellFormed(s) && f < |s.files|
  {
    && (s.last[f] == s.loaded[f] || CanReloadAt(s.files, f, s.last[f]))
    && (s.phase.Reloading? ==> CanReloadAt(s.files, f, s.phase.next[f]))
  }

  lemma DeltaTriggers(s: Watcher, digest: Content -> int, f: nat)
    requires Inv(s) && s.phase.Scanning? && |s.phase.next| == |s.files| && f < |s.files|
    requires SeesDelta(s, digest, s.phase.next)
    ensures CanReloadAt(s.files, f, s.phase.next[f])
  {
    var g :| 0 <= g < |s.files| && PrintDiffers(s, digest, s.phase.next, g);
    assert Ordered(s, g) && IsVersion(s, g, s.last[g]) && IsVersion(s, g, s.phase.next[g]);
    var p, q := s.last[g], s.phase.next[g];
    assert s.files[g][p] != s.files[g][q] && p < q;
    if g != f {
      assert s.files[g][p] != s.files[g][0] || s.files[g][q] != s.files[g][0];
      assert Varies(s.files[g]);
    }
  }

  lemma NextKeepsTriggered(s: Watcher, digest: Content -> int, step: Step, f: nat)
    requires Inv(s) && f < |s.files| && Triggered(s, f)
    ensures Triggered(Next(s, digest, step), f)
  {
    var s' := Next(s, digest, step);
    if CanReloadAt(s.files, f, s.last[f]) {
      CanReloadGrows(s.files, s'.files, f, s.last[f]);
    }
    if s.phase.Reloading? {
      CanReloadGrows(s.files, s'.files, f, s.phase.next[f]);
    } else if s'.phase.Reloading? {
      DeltaTriggers(s, digest, f);
    }
  }

  lemma {:induction false} RunKeepsTriggered(s: Watcher, digest: Content -> int, steps: seq<Step>, f: nat)
    requires Inv(s) && f < |s.files| && Triggered(s, f)
    ensures var s' := Run(s, digest, steps); f < |s'.files| && Inv(s') && Triggered(s', f)
    decreases |steps|
  {
    if steps != [] {
      NextKeepsInv(s, digest, steps[0]);
      NextKeepsTriggered(s, digest, steps[0], f);
      RunKeepsTriggered(Next(s, digest, steps[0]), digest, steps[1..], f);
    }
  }

  lemma StaleHides(s: Watcher, digest: Content -> int, f: nat)
    requires Injective(digest) && Inv(s) && Stale(s, digest) && f < |s.files| && StaleAt(s, f) && Triggered(s, f)
    ensures HidesAt(s.files, f, s.last[f], s.loaded[f], s.phase.next[f])
  {
    assert Ordered(s, f) && !PrintDiffers(s, digest, s.phase.next, f);
  }

  lemma GoesStaleHides(files: seq<History>, digest: Content -> int, s: Watcher, steps: seq<Step>)
    requires Injective(digest) && Run(Boot(files), digest, steps) == s && Stale(s, digest) && Within(s, files)
    ensures Hides(files)
  {
    var boot := Boot(files);
    assert Inv(boot);
    var f :| 0 <= f < |s.files| && StaleAt(s, f);
    assert |boot.files| == |files| && Triggered(boot, f);
    RunKeepsTriggered(boot, digest, steps, f);
    StaleHides(s, digest, f);
    var a, m, b := s.last[f], s.loaded[f], s.phase.next[f];
    CanReloadGrows(s.files, files, f, a);
    assert ReturnsAt(files[f], a, m, b);
    assert HidesAt(files, f, a, m, b);
  }

  /**
   * Watched files can leave the gateway on a config their quiet scans do not show exactly when the content of one
   * changes and returns, and a change of that file before, or of another file at all, can trigger the reload.
   */
  lemma GoesStaleIff(files: seq<History>, digest: Content -> int)
    requires Injective(digest)
    ensures GoesStale(files, digest) <==> Hides(files)
  {
    if Hides(files) {
      var f, a, m, b :| HidesAt(files, f, a, m, b);
      HidesGoesStale(files, digest, f, a, m, b);
    } else if GoesStale(files, digest) {
      var s :| Reaches(Boot(files), digest, s) && Stale(s, digest) && Within(s, files);
      var steps :| Run(Boot(files), digest, steps) == s;
      GoesStaleHides(files, digest, s, steps);
    }
  }

  /** One file written between its fingerprint and the reload that follows, and then put back. */
  lemma ReturningContentHidesChange(digest: Content -> int)
    requires Injective(digest)
    ensures GoesStale([["a", "b", "c", "b"]], digest)
  {
    var files: seq<History> := [["a", "b", "c", "b"]];
    assert files[0][0] != files[0][1];
    HidesGoesStale(files, digest, 0, 1, 2, 3);
  }

  /** A file that only leaves its first content and returns to it, beside one whose change triggers the reload. */
  lemma OtherFileHidesChange(digest: Content -> int)
    requires Injective(digest)
    ensures GoesStale([["b", "c", "b"], ["x", "y"]], digest)
  {
    var files: seq<History> := [["b", "c", "b"], ["x", "y"]];
    assert files[1][1] != files[1][0];
    assert Varies(files[1]);
    HidesGoesStale(files, digest, 0, 0, 1, 2);
  }
}
