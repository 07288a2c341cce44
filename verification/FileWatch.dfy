/** The polling reload watchers: fingerprint the files, reload on a delta, keep the old baseline on failure. */
module FileWatch {
  import opened Common

  // ----- Fingerprints and deltas -----

  /** A file's digest; none when it is missing or unreadable. */
  type Print<!D> = (string, Option<D>)

  /** Fingerprints every path: `read` is the file system, `sha` the digest. */
  method FingerprintPaths<B, D>(paths: seq<string>, read: string -> Option<B>, sha: B -> D)
    returns (out: seq<Print<D>>)
    ensures |out| == |paths|
    ensures forall i :: 0 <= i < |paths| ==>
      out[i] == (paths[i], if read(paths[i]).Some? then Some(sha(read(paths[i]).value)) else None)
  {
    out := [];
    for i := 0 to |paths|
      invariant |out| == i
      invariant forall k :: 0 <= k < i ==>
        out[k] == (paths[k], if read(paths[k]).Some? then Some(sha(read(paths[k]).value)) else None)
    {
      var bytes := read(paths[i]);
      var digest := if bytes.Some? then Some(sha(bytes.value)) else None;
      out := out + [(paths[i], digest)];
    }
  }

  /** The paths of the pairs whose digests differ, in order. */
  function Differing<D(==)>(prev: seq<Print<D>>, next: seq<Print<D>>): (paths: seq<string>)
    requires |prev| == |next|
    ensures paths == [] <==> forall i :: 0 <= i < |prev| ==> prev[i].1 == next[i].1
    ensures forall p :: p in paths <==> exists i :: 0 <= i < |prev| && prev[i].1 != next[i].1 && next[i].0 == p
  {
    if prev == [] then []
    else
      var last := |prev| - 1;
      Differing(prev[..last], next[..last]) + if prev[last].1 != next[last].1 then [next[last].0] else []
  }

  method DiffPaths<D(==)>(prev: seq<Print<D>>, next: seq<Print<D>>) returns (changed: seq<string>)
    requires |prev| == |next|
    ensures changed == Differing(prev, next)
  {
    changed := [];
    for i := 0 to |prev|
      invariant changed == Differing(prev[..i], next[..i])
    {
      if prev[i].1 != next[i].1 {
        changed := changed + [next[i].0];
      }
      assert prev[..i + 1][..i] == prev[..i] && next[..i + 1][..i] == next[..i];
    }
    assert prev[..|prev|] == prev && next[..|next|] == next;
  }

  /** The secret files added, removed or rewritten between two snapshots. */
  function DiffKeys<D(==)>(prev: map<string, D>, next: map<string, D>): set<string> {
    set k | k in prev.Keys + next.Keys && !(k in prev && k in next && prev[k] == next[k])
  }

  /** No secret file is reported exactly when the snapshots are equal, and each reported one really differs. */
  lemma DiffKeysExact<D>(prev: map<string, D>, next: map<string, D>)
    ensures DiffKeys(prev, next) == {} <==> prev == next
    ensures forall k :: k in DiffKeys(prev, next) <==> (k in prev) != (k in next) || (k in prev && prev[k] != next[k])
  {
    if DiffKeys(prev, next) == {} {
      forall k ensures k in prev <==> k in next {
        assert k !in DiffKeys(prev, next);
      }
      forall k | k in prev ensures prev[k] == next[k] {
        assert k !in DiffKeys(prev, next);
      }
    }
  }

  // ----- Writers, a watcher and reloads, interleaved file by file -----

  type Content = string

  /** Every content a file has had, the last being what it holds now. */
  type History = h: seq<Content> | h != [] witness [""]

  datatype Phase =
    | Idle
    | Scanning(next: seq<nat>)
    | Reloading(next: seq<nat>, read: seq<nat>)

  /**
   * What the watcher sees, by version: version `v` of file `f` is `files[f][v]`. `loaded` is what the running config
   * was read from, `last` the baseline of the fingerprints.
   */
  datatype Watcher = Watcher(files: seq<History>, loaded: seq<nat>, last: seq<nat>, phase: Phase) {
    function Now(f: nat): nat
      requires f < |files|
    {
      |files[f]| - 1
    }
  }

  /** `v` names a version of file `f`. */
  predicate IsVersion(s: Watcher, f: nat, v: nat)
    requires f < |s.files|
  {
    v < |s.files[f]|
  }

  ghost predicate AreVersions(s: Watcher, vs: seq<nat>) {
    |vs| <= |s.files| && forall f :: 0 <= f < |vs| ==> IsVersion(s, f, vs[f])
  }

  ghost predicate WellFormed(s: Watcher) {
    && |s.loaded| == |s.last| == |s.files|
    && AreVersions(s, s.last) && AreVersions(s, s.loaded)
    && (!s.phase.Idle? ==> AreVersions(s, s.phase.next))
    && (s.phase.Reloading? ==> AreVersions(s, s.phase.read))
    && (s.phase.Reloading? ==> |s.phase.next| == |s.files|)
  }

  /** The baseline is never ahead of what is loaded, nor that of the files; a scan and the reload after it look later. */
  ghost predicate Ordered(s: Watcher, f: nat)
    requires WellFormed(s) && f < |s.files|
  {
    && s.last[f] <= s.loaded[f] <= s.Now(f)
    && (s.phase.Scanning? && f < |s.phase.next| ==> s.loaded[f] <= s.phase.next[f] <= s.Now(f))
    && (s.phase.Reloading? ==> s.loaded[f] <= s.phase.next[f] <= s.Now(f))
    && (s.phase.Reloading? && f < |s.phase.read| ==> s.phase.next[f] <= s.phase.read[f] <= s.Now(f))
  }

  ghost predicate Inv(s: Watcher) {
    WellFormed(s) && forall f :: 0 <= f < |s.files| ==> Ordered(s, f)
  }

  datatype Step =
    | Write(f: nat, content: Content)
    | BeginTick
    | ScanNext
    | Compare
    | ReadNext
    | Finish(success: bool)

  /** A scan of every file finds the digest of some file changed. */
  ghost predicate SeesDelta(s: Watcher, digest: Content -> int, next: seq<nat>)
    requires WellFormed(s) && |next| == |s.files| && AreVersions(s, next)
  {
    exists f :: 0 <= f < |s.files| && PrintDiffers(s, digest, next, f)
  }

  ghost predicate PrintDiffers(s: Watcher, digest: Content -> int, next: seq<nat>, f: nat)
    requires WellFormed(s) && f < |s.files| == |next| && AreVersions(s, next)
  {
    assert IsVersion(s, f, s.last[f]) && IsVersion(s, f, next[f]);
    digest(s.files[f][s.last[f]]) != digest(s.files[f][next[f]])
  }

  ghost function Next(s: Watcher, digest: Content -> int, step: Step): (s': Watcher)
    requires WellFormed(s)
    ensures WellFormed(s')
  {
    match step
    case Write(f, content) =>
      if f < |s.files| then s.(files := s.files[f := s.files[f] + [content]]) else s
    case BeginTick => if s.phase.Idle? then s.(phase := Scanning([])) else s
    case ScanNext =>
      if s.phase.Scanning? && |s.phase.next| < |s.files|
      then s.(phase := Scanning(s.phase.next + [s.Now(|s.phase.next|)])) else s
    case Compare =>
      if s.phase.Scanning? && |s.phase.next| == |s.files| then
        if SeesDelta(s, digest, s.phase.next) then s.(phase := Reloading(s.phase.next, [])) else s.(phase := Idle)
      else s
    case ReadNext =>
      if s.phase.Reloading? && |s.phase.read| < |s.files|
      then s.(phase := Reloading(s.phase.next, s.phase.read + [s.Now(|s.phase.read|)])) else s
    case Finish(success) =>
      if !s.phase.Reloading? then s
      else if !success then s.(phase := Idle)
      else if |s.phase.read| == |s.files| then Watcher(s.files, s.phase.read, s.phase.next, Idle)
      else s
  }

  ghost function Run(s: Watcher, digest: Content -> int, steps: seq<Step>): (s': Watcher)
    requires WellFormed(s)
    ensures WellFormed(s')
    decreases |steps|
  {
    if steps == [] then s else Run(Next(s, digest, steps[0]), digest, steps[1..])
  }

  lemma NextKeepsInv(s: Watcher, digest: Content -> int, step: Step)
    requires Inv(s)
    ensures Inv(Next(s, digest, step))
  {
    var s' := Next(s, digest, step);
    forall f | 0 <= f < |s'.files| ensures Ordered(s', f) {
      assert Ordered(s, f);
    }
  }

  lemma {:induction false} RunKeepsInv(s: Watcher, digest: Content -> int, steps: seq<Step>)
    requires Inv(s)
    ensures Inv(Run(s, digest, steps))
    decreases |steps|
  {
    if steps != [] {
      NextKeepsInv(s, digest, steps[0]);
      RunKeepsInv(Next(s, digest, steps[0]), digest, steps[1..]);
    }
  }

  /** At boot the first fingerprints are of the files the config was loaded from. */
  ghost predicate Booted(s: Watcher) {
    WellFormed(s) && s.phase.Idle? && s.last == s.loaded
    && forall f :: 0 <= f < |s.files| ==> s.loaded[f] == s.Now(f)
  }

  // ----- A quiet tick means the loaded config is current -----

  /** No file's content ever returns to an earlier one. */
  ghost predicate NeverReturns(files: seq<History>) {
    forall f, a, b :: 0 <= f < |files| && 0 <= a < b < |files[f]| ==> files[f][a] != files[f][b]
  }

  ghost predicate Injective(digest: Content -> int) {
    forall a, b :: digest(a) == digest(b) ==> a == b
  }

  /**
   * In every reachable state, a scan of all files that sees no delta has found every file at the version the running
   * config was loaded from.
   */
  lemma QuietTickIsCurrent(boot: Watcher, digest: Content -> int, steps: seq<Step>)
    requires Booted(boot) && Injective(digest)
    ensures var s := Run(boot, digest, steps);
      && NeverReturns(s.files) && s.phase.Scanning? && |s.phase.next| == |s.files|
      && !SeesDelta(s, digest, s.phase.next)
      ==> s.phase.next == s.loaded == s.last
  {
    RunKeepsInv(boot, digest, steps);
    var s := Run(boot, digest, steps);
    if NeverReturns(s.files) && s.phase.Scanning? && |s.phase.next| == |s.files| && !SeesDelta(s, digest, s.phase.next) {
      forall f | 0 <= f < |s.files| ensures s.phase.next[f] == s.loaded[f] == s.last[f] {
        assert Ordered(s, f) && !PrintDiffers(s, digest, s.phase.next, f);
      }
    }
  }

  // ----- A failed reload leaves the delta visible -----

  /** File `f` has reached version `v`, past the baseline, and whatever is being scanned or reloaded saw it. */
  ghost predicate Ahead(s: Watcher, f: nat, v: nat)
    requires WellFormed(s)
  {
    && f < |s.files| && s.last[f] < v <= s.Now(f)
    && (s.phase.Scanning? && f < |s.phase.next| ==> v <= s.phase.next[f] <= s.Now(f))
    && (s.phase.Reloading? ==> v <= s.phase.next[f] <= s.Now(f))
  }

  lemma {:induction false} StaysAhead(s: Watcher, digest: Content -> int, steps: seq<Step>, f: nat, v: nat)
    requires WellFormed(s) && Ahead(s, f, v)
    requires forall i :: 0 <= i < |steps| ==> steps[i] != Finish(true)
    ensures Ahead(Run(s, digest, steps), f, v) && Run(s, digest, steps).last == s.last
    decreases |steps|
  {
    if steps != [] {
      assert steps[0] != Finish(true);
      StaysAhead(Next(s, digest, steps[0]), digest, steps[1..], f, v);
    }
  }

  /** Until a reload succeeds, every full scan sees a file that moved past the baseline, however many reloads failed. */
  lemma DeltaStaysVisible(s: Watcher, digest: Content -> int, steps: seq<Step>, f: nat)
    requires Inv(s) && s.phase.Idle? && Injective(digest)
    requires f < |s.files| && s.last[f] < s.Now(f)
    requires forall i :: 0 <= i < |steps| ==> steps[i] != Finish(true)
    ensures var s' := Run(s, digest, steps);
      && NeverReturns(s'.files) && s'.phase.Scanning? && |s'.phase.next| == |s'.files|
      ==> SeesDelta(s', digest, s'.phase.next)
  {
    StaysAhead(s, digest, steps, f, s.Now(f));
    var s' := Run(s, digest, steps);
    if NeverReturns(s'.files) && s'.phase.Scanning? && |s'.phase.next| == |s'.files| {
      var a, b := s'.last[f], s'.phase.next[f];
      assert s'.files[f][a] != s'.files[f][b];
      assert PrintDiffers(s', digest, s'.phase.next, f);
    }
  }

  // ----- Once the writers stop, a successful reload loads what the files hold -----

  ghost predicate ReadsCurrent(s: Watcher)
    requires WellFormed(s)
  {
    s.phase.Reloading? ==> forall f :: 0 <= f < |s.phase.read| ==> s.phase.read[f] == s.Now(f)
  }

  lemma {:induction false} QuietReloadLoadsCurrent(s: Watcher, digest: Content -> int, steps: seq<Step>)
    requires WellFormed(s) && ReadsCurrent(s)
    requires forall i :: 0 <= i < |steps| ==> !steps[i].Write?
    ensures var s' := Run(s, digest, steps);
      && s'.files == s.files && ReadsCurrent(s')
      && (s'.loaded == s.loaded || forall f :: 0 <= f < |s'.files| ==> s'.loaded[f] == s'.Now(f))
    decreases |steps|
  {
    if steps != [] {
      assert !steps[0].Write?;
      QuietReloadLoadsCurrent(Next(s, digest, steps[0]), digest, steps[1..]);
    }
  }
}
