/** Plugin OCI references: expanded to this platform, normalised to a registry, rewritten for mirrors. */
module OciReference {
  import opened Common

  // ----- Strings -----

  /** The first place of `c`, or |s| when there is none. */
  function Find(s: string, c: char): (i: nat)
    ensures i <= |s| && (i < |s| ==> s[i] == c) && c !in s[..i]
  {
    if s == [] || s[0] == c then 0 else 1 + Find(s[1..], c)
  }

  /** One past the last place of `c`, or 0 when there is none. */
  function AfterLast(s: string, c: char): (i: nat)
    ensures i <= |s| && (i > 0 ==> s[i - 1] == c) && c !in s[i..]
  {
    if s == [] || s[|s| - 1] == c then |s| else AfterLast(s[..|s| - 1], c)
  }

  function LastSegment(s: string): string {
    s[AfterLast(s, '/')..]
  }

  function TrimStartSlashes(s: string): (t: string)
    ensures |t| <= |s| && s[|s| - |t|..] == t && forall i :: 0 <= i < |s| - |t| ==> s[i] == '/'
  {
    if s != [] && s[0] == '/' then TrimStartSlashes(s[1..]) else s
  }

  function TrimEndSlashes(s: string): string {
    if s != [] && s[|s| - 1] == '/' then TrimEndSlashes(s[..|s| - 1]) else s
  }

  function DotsToDashes(s: string): (t: string)
    ensures |t| == |s|
    ensures forall i :: 0 <= i < |s| ==> t[i] == if s[i] == '.' then '-' else s[i]
  {
    seq(|s|, i requires 0 <= i < |s| => if s[i] == '.' then '-' else s[i])
  }

  predicate EndsWith(s: string, suffix: string) {
    |suffix| <= |s| && s[|s| - |suffix|..] == suffix
  }

  // ----- The digest pin -----

  const PIN_MARK := "@sha256:"

  predicate IsHex(c: char) {
    '0' <= c <= '9' || 'a' <= c <= 'f' || 'A' <= c <= 'F'
  }

  predicate MarkAt(s: string, i: nat) {
    i + |PIN_MARK| <= |s| && s[i..i + |PIN_MARK|] == PIN_MARK
  }

  /** The last place up to `from` where `@sha256:` starts, or |s| when there is none. */
  function LastMark(s: string, from: nat): (i: nat)
    requires from <= |s|
    ensures i == |s| || MarkAt(s, i)
    ensures forall j: nat :: j <= from && MarkAt(s, j) ==> j <= i < |s|
  {
    if MarkAt(s, from) then from
    else if from == 0 then |s|
    else LastMark(s, from - 1)
  }

  /** The digest a reference pins: 64 hex digits after the last `@sha256:`. */
  function DigestFromReference(reference: string): Option<string> {
    var i := LastMark(reference, |reference|);
    if i == |reference| then None
    else
      var after := reference[i + |PIN_MARK|..];
      if |after| == 64 && forall c :: c in after ==> IsHex(c) then Some(after) else None
  }

  /** The same, read off the end of the reference. */
  predicate PinnedTo(reference: string, digest: string) {
    |digest| == 64 && (forall c :: c in digest ==> IsHex(c)) && EndsWith(reference, "@sha256:" + digest)
  }

  lemma OneAtInPin(digest: string, i: nat)
    requires (forall c :: c in digest ==> IsHex(c)) && 0 < i < |PIN_MARK + digest|
    ensures (PIN_MARK + digest)[i] != '@'
  {
    if i >= 8 {
      assert digest[i - 8] in digest;
    }
  }

  lemma NoSlashInPin(digest: string, i: nat)
    requires (forall c :: c in digest ==> IsHex(c)) && i < |PIN_MARK + digest|
    ensures (PIN_MARK + digest)[i] != '/'
  {
    if i >= 8 {
      assert digest[i - 8] in digest;
    }
  }

  lemma DigestIsPin(reference: string, digest: string)
    ensures DigestFromReference(reference) == Some(digest) <==> PinnedTo(reference, digest)
  {
    var n := |reference|;
    var i := LastMark(reference, n);
    if PinnedTo(reference, digest) {
      var k := n - 72;
      var pin := PIN_MARK + digest;
      assert reference[k..] == pin;
      assert reference[k..k + 8] == PIN_MARK by { assert reference[k..][..8] == PIN_MARK; }
      assert reference[k + 8..] == digest by { assert reference[k..][8..] == digest; }
      assert MarkAt(reference, k);
      if i > k {
        assert reference[i] == reference[i..i + 8][0] == '@';
        assert reference[i] == pin[i - k];
        OneAtInPin(digest, i - k);
      }
    }
    if DigestFromReference(reference) == Some(digest) {
      assert reference[i..] == reference[i..i + 8] + reference[i + 8..];
      assert reference[i..] == PIN_MARK + digest;
    }
  }

  /** What comes before a `/`, or holds no `@`, is no part of a pin. */
  lemma PinIgnoresFront(x: string, y: string, digest: string)
    requires '@' !in x || (x != "" && x[|x| - 1] == '/')
    ensures PinnedTo(x + y, digest) <==> PinnedTo(y, digest)
  {
    var s := x + y;
    var pin := PIN_MARK + digest;
    if PinnedTo(s, digest) && |y| < 72 {
      var k := |s| - 72;
      assert s[k..] == pin && s[k] == pin[0] == '@' && s[k] == x[k];
      NoSlashInPin(digest, |x| - 1 - k);
    }
    if |y| >= 72 {
      assert s[|s| - 72..] == y[|y| - 72..];
    }
  }

  lemma SamePin(a: string, b: string)
    requires forall digest :: PinnedTo(a, digest) <==> PinnedTo(b, digest)
    ensures DigestFromReference(a) == DigestFromReference(b)
  {
    if DigestFromReference(a).Some? {
      DigestIsPin(a, DigestFromReference(a).value);
      DigestIsPin(b, DigestFromReference(a).value);
    }
    if DigestFromReference(b).Some? {
      DigestIsPin(a, DigestFromReference(b).value);
      DigestIsPin(b, DigestFromReference(b).value);
    }
  }

  lemma FrontHasNoPin(x: string, y: string)
    requires '@' !in x || (x != "" && x[|x| - 1] == '/')
    ensures DigestFromReference(x + y) == DigestFromReference(y)
  {
    forall digest ensures PinnedTo(x + y, digest) <==> PinnedTo(y, digest) {
      PinIgnoresFront(x, y, digest);
    }
    SamePin(x + y, y);
  }

  lemma NoAtNoPin(s: string)
    requires '@' !in s
    ensures DigestFromReference(s).None?
  {
    FrontHasNoPin(s, "");
    assert s + "" == s;
    assert DigestFromReference("").None?;
  }

  // ----- Expanding a reference to this platform -----

  /** The platform suffixes plugin tags are published under. */
  const PLATFORM_SUFFIXES := [
    "linux-amd64", "linux-arm64", "linux-musl-amd64", "linux-musl-arm64",
    "darwin-amd64", "darwin-arm64", "windows-amd64", "windows-arm64", "wasi-wasm"]

  const WASM := "wasi-wasm"

  predicate HasPlatformSuffix(table: seq<string>, tag: string) {
    exists s :: s in table && (tag == s || EndsWith(tag, "-" + s))
  }

  /** The tag: what follows the first `:` of the last path segment. */
  function TagOf(reference: string): Option<string> {
    TagIn(LastSegment(reference))
  }

  function TagIn(segment: string): Option<string> {
    var colon := Find(segment, ':');
    if colon == |segment| then None else Some(segment[colon + 1..])
  }

  function Floating(major: string, platform: string): string {
    ":protocol-" + major + "-" + platform
  }

  /** The concrete artifacts a reference may name, native first; a digest or a platform tag names only itself. */
  function PlatformCandidates(table: seq<string>, reference: string, native: string, major: string): seq<string> {
    if '@' in reference then [reference]
    else
      match TagOf(reference)
      case None => [reference + Floating(major, native), reference + Floating(major, WASM)]
      case Some(tag) =>
        if HasPlatformSuffix(table, tag) then [reference]
        else [reference + ("-" + native), reference + ("-" + WASM)]
  }

  /** A reference that is pulled as it stands. */
  predicate Concrete(table: seq<string>, reference: string) {
    '@' in reference || (TagOf(reference).Some? && HasPlatformSuffix(table, TagOf(reference).value))
  }

  /** A reference is expanded to itself alone exactly when it is concrete. */
  lemma ConcreteIff(table: seq<string>, reference: string, native: string, major: string)
    ensures Concrete(table, reference) <==> PlatformCandidates(table, reference, native, major) == [reference]
  {
    if !Concrete(table, reference) {
      assert |PlatformCandidates(table, reference, native, major)| == 2;
    }
  }

  // ----- Where a tag is -----

  lemma AfterLastOfEnd(x: string, y: string, c: char)
    requires c !in y
    ensures AfterLast(x + y, c) == AfterLast(x, c)
  {
    if y != [] {
      assert (x + y)[|x + y| - 1] == y[|y| - 1] && y[|y| - 1] in y;
      assert (x + y)[..|x + y| - 1] == x + y[..|y| - 1];
      AfterLastOfEnd(x, y[..|y| - 1], c);
    } else {
      assert x + y == x;
    }
  }

  lemma LastSegmentGrows(x: string, y: string)
    requires '/' !in y
    ensures LastSegment(x + y) == LastSegment(x) + y
  {
    AfterLastOfEnd(x, y, '/');
  }

  lemma {:induction false} LastSegmentIgnoresFront(x: string, y: string)
    requires x == "" || x[|x| - 1] == '/'
    ensures LastSegment(x + y) == LastSegment(y)
  {
    if y == "" {
      assert x + y == x;
    } else if y[|y| - 1] == '/' {
    } else {
      var front, last := y[..|y| - 1], [y[|y| - 1]];
      assert y == front + last && x + y == (x + front) + last;
      LastSegmentIgnoresFront(x, front);
      LastSegmentGrows(x + front, last);
      LastSegmentGrows(front, last);
    }
  }

  lemma FindInFront(x: string, y: string, c: char)
    ensures c in x ==> Find(x + y, c) == Find(x, c)
    ensures c !in x ==> Find(x + y, c) == |x| + Find(y, c)
  {
    if x == [] {
      assert x + y == y;
    } else if x[0] != c {
      assert (x + y)[1..] == x[1..] + y;
      FindInFront(x[1..], y, c);
    }
  }

  lemma TagIgnoresFront(x: string, y: string)
    requires x == "" || x[|x| - 1] == '/'
    ensures TagOf(x + y) == TagOf(y)
  {
    LastSegmentIgnoresFront(x, y);
  }

  lemma TagInFront(segment: string, more: string)
    requires TagIn(segment).Some?
    ensures TagIn(segment + more) == Some(TagIn(segment).value + more)
  {
    FindInFront(segment, more, ':');
    var colon := Find(segment, ':');
    assert segment[colon] in segment;
    assert (segment + more)[colon + 1..] == segment[colon + 1..] + more;
  }

  lemma TagInTail(segment: string, more: string)
    requires TagIn(segment).None?
    ensures TagIn(segment + more) == TagIn(more)
  {
    assert segment[..|segment|] == segment;
    FindInFront(segment, more, ':');
    var colon := Find(more, ':');
    if colon < |more| {
      assert (segment + more)[|segment| + colon + 1..] == more[colon + 1..];
    }
  }

  lemma TagInGrows(segment: string, more: string)
    ensures TagIn(segment).Some? ==> TagIn(segment + more) == Some(TagIn(segment).value + more)
    ensures TagIn(segment).None? ==> TagIn(segment + more) == TagIn(more)
  {
    if TagIn(segment).Some? {
      TagInFront(segment, more);
    } else {
      TagInTail(segment, more);
    }
  }

  /** Text after the last `/` extends the tag, or is searched for one when there is none yet. */
  lemma TagGrows(reference: string, more: string)
    requires '/' !in more
    ensures TagOf(reference).Some? ==> TagOf(reference + more) == Some(TagOf(reference).value + more)
    ensures TagOf(reference).None? ==> TagOf(reference + more) == TagIn(more)
  {
    LastSegmentGrows(reference, more);
    TagInGrows(LastSegment(reference), more);
  }

  // ----- A candidate is never expanded again -----

  predicate Plain(s: string) {
    '/' !in s && '@' !in s
  }

  lemma TableIsPlain()
    ensures WASM in PLATFORM_SUFFIXES && forall s :: s in PLATFORM_SUFFIXES ==> Plain(s)
  {
  }

  lemma SuffixedIsPlatform(table: seq<string>, tag: string, platform: string)
    requires platform in table
    ensures HasPlatformSuffix(table, tag + ("-" + platform))
  {
    var s := tag + ("-" + platform);
    assert s[|s| - |platform| - 1..] == "-" + platform;
  }

  lemma FloatingTag(major: string, platform: string)
    ensures TagIn(Floating(major, platform)) == Some("protocol-" + major + ("-" + platform))
  {
    var more := Floating(major, platform);
    assert more[0] == ':' && more[1..] == "protocol-" + major + ("-" + platform);
  }

  lemma FloatingIsConcrete(table: seq<string>, reference: string, platform: string, major: string)
    requires TagOf(reference).None? && platform in table && Plain(platform) && Plain(major)
    ensures Concrete(table, reference + Floating(major, platform))
  {
    var more := Floating(major, platform);
    assert '/' !in more;
    TagGrows(reference, more);
    FloatingTag(major, platform);
    SuffixedIsPlatform(table, "protocol-" + major, platform);
  }

  lemma SuffixedIsConcrete(table: seq<string>, reference: string, platform: string)
    requires TagOf(reference).Some? && platform in table && Plain(platform)
    ensures Concrete(table, reference + ("-" + platform))
  {
    TagGrows(reference, "-" + platform);
    SuffixedIsPlatform(table, TagOf(reference).value, platform);
  }

  /** Every candidate names exactly itself, for any reference. */
  lemma CandidatesAreConcrete(table: seq<string>, reference: string, native: string, major: string)
    requires native in table && WASM in table && Plain(native) && Plain(WASM) && Plain(major)
    ensures forall c :: c in PlatformCandidates(table, reference, native, major) ==> Concrete(table, c)
  {
    if '@' !in reference && TagOf(reference).None? {
      FloatingIsConcrete(table, reference, native, major);
      FloatingIsConcrete(table, reference, WASM, major);
    } else if '@' !in reference {
      SuffixedIsConcrete(table, reference, native);
      SuffixedIsConcrete(table, reference, WASM);
    }
  }

  // ----- Normalising to a registry -----

  const SCHEME := "oci://"
  const FIRST_PARTY := "dev.mcpg."

  /** The repository path and what follows it: a digest, else a tag, else nothing. */
  function SplitPath(reference: string): (parts: (string, string))
    ensures parts.0 + parts.1 == reference && '@' !in parts.0
    ensures '@' in reference ==> parts.1 != "" && parts.1[0] == '@'
    ensures '@' !in reference ==> TagOf(parts.0).None? && '/' !in parts.1
  {
    var at := Find(reference, '@');
    if at < |reference| then
      assert reference[at] in reference;
      (reference[..at], reference[at..])
    else
      assert reference[..at] == reference;
      var start := AfterLast(reference, '/');
      var colon := Find(reference[start..], ':');
      NoTagBeforeColon(reference, start, colon);
      (reference[..start + colon], reference[start + colon..])
  }

  /** A path that ends in a name without `:` has no tag. */
  lemma NameIsNoTag(x: string, name: string)
    requires (x == "" || x[|x| - 1] == '/') && '/' !in name && ':' !in name
    ensures TagOf(x + name).None?
  {
    LastSegmentGrows(x, name);
    assert LastSegment(x) == "";
    assert LastSegment(x + name) == name;
    assert Find(name, ':') == |name|;
  }

  /** Cut at the first `:` after the last `/`, the front holds no tag and the rest no `/`. */
  lemma NoTagBeforeColon(reference: string, start: nat, colon: nat)
    requires start == AfterLast(reference, '/') && colon == Find(reference[start..], ':')
    ensures TagOf(reference[..start + colon]).None? && '/' !in reference[start + colon..]
  {
    var last := reference[start..];
    assert reference[start + colon..] == last[colon..];
    assert reference[..start + colon] == reference[..start] + last[..colon];
    NameIsNoTag(reference[..start], last[..colon]);
  }

  /** The last path segment of a first-party id loses its prefix and has dashes for dots; the rest stays. */
  function CanonicaliseFirstPartyRepo(reference: string): string {
    var (path, suffix) := SplitPath(reference);
    var slash := AfterLast(path, '/');
    if slash == 0 || !(FIRST_PARTY <= path[slash..]) then reference
    else path[..slash] + DotsToDashes(path[slash + |FIRST_PARTY|..]) + suffix
  }

  predicate LooksQualified(reference: string) {
    var slash := Find(reference, '/');
    slash < |reference| && (
      var first := reference[..slash];
      '.' in first || ':' in first || first == "localhost")
  }

  /** The reference at its own registry, or at the default one when it names none. */
  function NormaliseReference(reference: string, defaultRegistry: string): string {
    var canonical := CanonicaliseFirstPartyRepo(WithoutPrefix(reference, SCHEME));
    if LooksQualified(canonical) then canonical
    else TrimEndSlashes(defaultRegistry) + "/" + TrimStartSlashes(canonical)
  }

  /** The reference at a mirror: its registry is replaced, the rest kept. */
  function RewriteForMirror(reference: string, mirror: string): string {
    var slash := Find(reference, '/');
    var rest := if slash < |reference| then reference[slash + 1..] else "";
    TrimEndSlashes(mirror) + "/" + TrimStartSlashes(rest)
  }

  // ----- What the rewrites keep -----

  /** A first-party name cut at a digest with a dotted tag before it: the tag's dots are rewritten too. */
  predicate RewritesTag(reference: string) {
    var (path, suffix) := SplitPath(reference);
    && AfterLast(path, '/') > 0 && FIRST_PARTY <= LastSegment(path)
    && '/' !in suffix && TagOf(path).Some? && '.' in TagOf(path).value
  }

  lemma CanonicalKeepsPin(reference: string)
    ensures DigestFromReference(CanonicaliseFirstPartyRepo(reference)) == DigestFromReference(reference)
  {
    var (path, suffix) := SplitPath(reference);
    var slash := AfterLast(path, '/');
    if slash > 0 && FIRST_PARTY <= path[slash..] {
      var name := DotsToDashes(path[slash + |FIRST_PARTY|..]);
      assert '@' !in path[..slash] + name by {
        assert forall i :: 0 <= i < |name| ==> name[i] == '-' || name[i] == path[slash + |FIRST_PARTY| + i];
        assert forall i :: 0 <= i < |path| ==> path[i] in path;
      }
      FrontHasNoPin(path[..slash] + name, suffix);
      FrontHasNoPin(path, suffix);
    }
  }

  lemma SlashesHoldNoPin(s: string)
    ensures DigestFromReference(TrimStartSlashes(s)) == DigestFromReference(s)
    ensures TagOf(TrimStartSlashes(s)) == TagOf(s)
  {
    var t := TrimStartSlashes(s);
    var front := s[..|s| - |t|];
    assert s == front + t;
    FrontHasNoPin(front, t);
    TagIgnoresFront(front, t);
  }

  /** A registry put before a path changes neither its pin nor its tag. */
  lemma RegistryHoldsNoPin(registry: string, path: string)
    ensures DigestFromReference(TrimEndSlashes(registry) + "/" + TrimStartSlashes(path)) == DigestFromReference(path)
    ensures TagOf(TrimEndSlashes(registry) + "/" + TrimStartSlashes(path)) == TagOf(path)
  {
    var front := TrimEndSlashes(registry) + "/";
    FrontHasNoPin(front, TrimStartSlashes(path));
    TagIgnoresFront(front, TrimStartSlashes(path));
    SlashesHoldNoPin(path);
  }

  lemma SchemeHoldsNoPin(reference: string)
    ensures DigestFromReference(WithoutPrefix(reference, SCHEME)) == DigestFromReference(reference)
    ensures TagOf(WithoutPrefix(reference, SCHEME)) == TagOf(reference)
  {
    var bare := WithoutPrefix(reference, SCHEME);
    if bare != reference {
      assert reference == SCHEME + bare;
      FrontHasNoPin(SCHEME, bare);
      TagIgnoresFront(SCHEME, bare);
    }
  }

  lemma NormalKeepsPin(reference: string, defaultRegistry: string)
    ensures DigestFromReference(NormaliseReference(reference, defaultRegistry)) == DigestFromReference(reference)
    ensures '/' in NormaliseReference(reference, defaultRegistry)
  {
    var bare := WithoutPrefix(reference, SCHEME);
    var canonical := CanonicaliseFirstPartyRepo(bare);
    SchemeHoldsNoPin(reference);
    CanonicalKeepsPin(bare);
    if LooksQualified(canonical) {
      assert canonical[Find(canonical, '/')] == '/';
    } else {
      RegistryHoldsNoPin(defaultRegistry, canonical);
      var normal := NormaliseReference(reference, defaultRegistry);
      assert normal[|TrimEndSlashes(defaultRegistry)|] == '/';
    }
  }

  lemma MirrorKeepsPin(reference: string, mirror: string)
    requires '/' in reference
    ensures DigestFromReference(RewriteForMirror(reference, mirror)) == DigestFromReference(reference)
    ensures TagOf(RewriteForMirror(reference, mirror)) == TagOf(reference)
  {
    var slash := Find(reference, '/');
    assert slash < |reference| by { assert reference[..|reference|] == reference; }
    var front, rest := reference[..slash + 1], reference[slash + 1..];
    assert reference == front + rest;
    FrontHasNoPin(front, rest);
    TagIgnoresFront(front, rest);
    RegistryHoldsNoPin(mirror, rest);
  }

  // ----- When canonicalising keeps the tag -----

  lemma SegmentOfTail(x: string, y: string)
    requires '/' in y
    ensures LastSegment(x + y) == LastSegment(y)
  {
    var start := AfterLast(y, '/');
    assert start > 0 by { assert y[0..] == y; }
    assert y == y[..start] + y[start..];
    assert x + y == (x + y[..start]) + y[start..];
    LastSegmentIgnoresFront(x + y[..start], y[start..]);
    LastSegmentIgnoresFront(y[..start], y[start..]);
  }

  /** Rewriting the dots of a repository name rewrites exactly the dots of the tag in it. */
  lemma DashedTag(segment: string)
    requires FIRST_PARTY <= segment
    ensures TagIn(segment).None? <==> TagIn(DotsToDashes(segment[|FIRST_PARTY|..])).None?
    ensures TagIn(segment).Some? ==>
              TagIn(DotsToDashes(segment[|FIRST_PARTY|..])) == Some(DotsToDashes(TagIn(segment).value))
  {
    var short := segment[|FIRST_PARTY|..];
    assert segment == FIRST_PARTY + short;
    FindInFront(FIRST_PARTY, short, ':');
    var colon := Find(short, ':');
    DashedFind(short);
    if colon < |short| {
      assert segment[|FIRST_PARTY| + colon + 1..] == short[colon + 1..];
      assert DotsToDashes(short)[colon + 1..] == DotsToDashes(short[colon + 1..]);
    }
  }

  lemma {:induction false} DashedFind(s: string)
    ensures Find(DotsToDashes(s), ':') == Find(s, ':')
  {
    if s != [] && s[0] != ':' {
      assert DotsToDashes(s)[1..] == DotsToDashes(s[1..]);
      DashedFind(s[1..]);
    }
  }

  lemma DashesKeepIff(s: string)
    ensures DotsToDashes(s) == s <==> '.' !in s
  {
    if '.' in s {
      var i :| 0 <= i < |s| && s[i] == '.';
      assert DotsToDashes(s)[i] == '-';
    }
  }

  /** Two paths whose last segments agree on the tag up to its dots, each followed by the same text. */
  lemma DashedPathTag(x: string, segment: string, suffix: string)
    requires x != "" && x[|x| - 1] == '/' && '/' !in segment && FIRST_PARTY <= segment
    ensures TagOf(x + DotsToDashes(segment[|FIRST_PARTY|..]) + suffix) == TagOf(x + segment + suffix)
       <==> '/' in suffix || TagIn(segment).None? || '.' !in TagIn(segment).value
  {
    var name := DotsToDashes(segment[|FIRST_PARTY|..]);
    if '/' in suffix {
      SegmentOfTail(x + name, suffix);
      SegmentOfTail(x + segment, suffix);
    } else {
      SegmentAfterSlash(x, segment);
      SegmentAfterSlash(x, name);
      DashedTag(segment);
      TagGrows(x + segment, suffix);
      TagGrows(x + name, suffix);
      if TagIn(segment).Some? {
        var tag := TagIn(segment).value;
        DashesKeepIff(tag);
        assert (tag + suffix)[..|tag|] == tag && (DotsToDashes(tag) + suffix)[..|tag|] == DotsToDashes(tag);
      }
    }
  }

  lemma SegmentAfterSlash(x: string, segment: string)
    requires x != "" && x[|x| - 1] == '/' && '/' !in segment
    ensures LastSegment(x + segment) == segment
  {
    LastSegmentGrows(x, segment);
    assert LastSegment(x) == "";
    assert "" + segment == segment;
  }

  lemma DashedRepoTag(path: string, slash: nat, suffix: string)
    requires slash == AfterLast(path, '/') && slash > 0 && FIRST_PARTY <= path[slash..]
    ensures TagOf(path[..slash] + DotsToDashes(path[slash + |FIRST_PARTY|..]) + suffix) == TagOf(path + suffix)
       <==> '/' in suffix || TagOf(path).None? || '.' !in TagOf(path).value
  {
    var segment := path[slash..];
    assert path == path[..slash] + segment;
    assert path[slash + |FIRST_PARTY|..] == segment[|FIRST_PARTY|..];
    DashedPathTag(path[..slash], segment, suffix);
  }

  /** Canonicalising keeps the tag of every reference but those with a dotted tag before a digest. */
  lemma CanonicalKeepsTagIff(reference: string)
    ensures TagOf(CanonicaliseFirstPartyRepo(reference)) == TagOf(reference) <==> !RewritesTag(reference)
  {
    var (path, suffix) := SplitPath(reference);
    var slash := AfterLast(path, '/');
    if slash > 0 && FIRST_PARTY <= path[slash..] {
      DashedRepoTag(path, slash, suffix);
    }
  }

  lemma SplitAtDigest(path: string, digest: string)
    requires '@' !in path
    ensures SplitPath(path + ("@" + digest)) == (path, "@" + digest)
  {
    var reference := path + ("@" + digest);
    FindInFront(path, "@" + digest, '@');
    assert reference[..|path|] == path && reference[|path|..] == "@" + digest;
  }

  lemma TagAfterName(name: string, tag: string)
    requires ':' !in name
    ensures TagIn(name + (":" + tag)) == Some(tag)
  {
    assert Find(name, ':') == |name|;
    TagInGrows(name, ":" + tag);
    assert (":" + tag)[1..] == tag;
  }

  /** A first-party name with a dotted tag and a digest: canonicalising turns the tag's dots into dashes. */
  lemma DigestedTagIsRewritten(x: string, name: string, tag: string, digest: string)
    requires x != "" && x[|x| - 1] == '/' && '@' !in x
    requires FIRST_PARTY <= name && Plain(name) && ':' !in name && Plain(tag) && '.' in tag && '/' !in digest
    ensures var reference := x + (name + (":" + tag)) + ("@" + digest);
      RewritesTag(reference) && TagOf(CanonicaliseFirstPartyRepo(reference)) != TagOf(reference)
  {
    var segment := name + (":" + tag);
    var path := x + segment;
    assert '@' !in segment && '/' !in segment;
    assert FIRST_PARTY <= segment;
    assert RewritesTag(path + ("@" + digest)) by {
      SplitAtDigest(path, digest);
      SegmentAfterSlash(x, segment);
      TagAfterName(name, tag);
      AfterLastOfEnd(x, segment, '/');
    }
    CanonicalKeepsTagIff(path + ("@" + digest));
  }

  // ----- The pull attempts -----

  type Rewrite = (string, string) -> string

  function Mirrored(at: Rewrite, candidate: string, mirrors: seq<string>): seq<string> {
    if mirrors == [] then []
    else
      var last := |mirrors| - 1;
      Mirrored(at, candidate, mirrors[..last]) + [at(candidate, mirrors[last])]
  }

  /** Each candidate at every mirror in order, then at its own registry, before the next candidate. */
  function Attempts(at: Rewrite, candidates: seq<string>, mirrors: seq<string>): seq<string> {
    if candidates == [] then []
    else
      var last := |candidates| - 1;
      Attempts(at, candidates[..last], mirrors) + Mirrored(at, candidates[last], mirrors) + [candidates[last]]
  }

  method AttemptRefs(at: Rewrite, candidates: seq<string>, mirrors: seq<string>) returns (v: seq<string>)
    ensures v == Attempts(at, candidates, mirrors)
  {
    v := [];
    for i := 0 to |candidates|
      invariant v == Attempts(at, candidates[..i], mirrors)
    {
      ghost var before := v;
      for j := 0 to |mirrors|
        invariant v == before + Mirrored(at, candidates[i], mirrors[..j])
      {
        v := v + [at(candidates[i], mirrors[j])];
        assert mirrors[..j + 1][..j] == mirrors[..j];
      }
      assert mirrors[..|mirrors|] == mirrors;
      v := v + [candidates[i]];
      assert candidates[..i + 1][..i] == candidates[..i];
    }
    assert candidates[..|candidates|] == candidates;
  }

  function Normalised(candidates: seq<string>, defaultRegistry: string): (refs: seq<string>)
    ensures |refs| == |candidates|
  {
    seq(|candidates|, i requires 0 <= i < |candidates| => NormaliseReference(candidates[i], defaultRegistry))
  }

  lemma {:induction false} MirrorOrigin(at: Rewrite, candidate: string, mirrors: seq<string>, attempt: string)
      returns (m: string)
    requires attempt in Mirrored(at, candidate, mirrors)
    ensures m in mirrors && attempt == at(candidate, m)
  {
    var last := |mirrors| - 1;
    if attempt == at(candidate, mirrors[last]) {
      m := mirrors[last];
    } else {
      m := MirrorOrigin(at, candidate, mirrors[..last], attempt);
    }
  }

  /** Each attempt is one of the candidates, at a mirror or as it stands. */
  lemma {:induction false} AttemptOrigin(at: Rewrite, candidates: seq<string>, mirrors: seq<string>, attempt: string)
      returns (k: nat)
    requires attempt in Attempts(at, candidates, mirrors)
    ensures k < |candidates|
    ensures attempt == candidates[k] || exists m :: m in mirrors && attempt == at(candidates[k], m)
  {
    var last := |candidates| - 1;
    if attempt in Attempts(at, candidates[..last], mirrors) {
      k := AttemptOrigin(at, candidates[..last], mirrors, attempt);
    } else {
      k := last;
      if attempt != candidates[last] {
        var m := MirrorOrigin(at, candidates[last], mirrors, attempt);
      }
    }
  }

  lemma NormalKeepsTag(reference: string, defaultRegistry: string)
    requires '@' !in reference
    ensures TagOf(NormaliseReference(reference, defaultRegistry)) == TagOf(reference)
  {
    var bare := WithoutPrefix(reference, SCHEME);
    SchemeHoldsNoPin(reference);
    CanonicalKeepsTagIff(bare);
    RegistryHoldsNoPin(defaultRegistry, CanonicaliseFirstPartyRepo(bare));
  }

  /** Every attempt keeps the pin of a candidate, and its tag when the candidate holds no `@`. */
  lemma AttemptKeeps(candidates: seq<string>, defaultRegistry: string, mirrors: seq<string>, attempt: string)
      returns (candidate: string)
    requires attempt in Attempts(RewriteForMirror, Normalised(candidates, defaultRegistry), mirrors)
    ensures candidate in candidates
    ensures DigestFromReference(attempt) == DigestFromReference(candidate)
    ensures '@' !in candidate ==> TagOf(attempt) == TagOf(candidate)
  {
    var normal := Normalised(candidates, defaultRegistry);
    var k := AttemptOrigin(RewriteForMirror, normal, mirrors, attempt);
    candidate := candidates[k];
    NormalKeepsPin(candidate, defaultRegistry);
    if '@' !in candidate {
      NormalKeepsTag(candidate, defaultRegistry);
    }
    if attempt != normal[k] {
      var m :| m in mirrors && attempt == RewriteForMirror(normal[k], m);
      MirrorKeepsPin(normal[k], m);
    }
  }

  lemma CandidatesKeepPin(table: seq<string>, reference: string, native: string, major: string, candidate: string)
    requires Plain(native) && Plain(major)
    requires candidate in PlatformCandidates(table, reference, native, major)
    ensures DigestFromReference(candidate) == DigestFromReference(reference)
    ensures '@' in candidate ==> '@' in reference
  {
    if candidate != reference {
      NoAtNoPin(reference);
      assert '@' !in candidate;
      NoAtNoPin(candidate);
    }
  }

  /** Whatever the registry, the mirrors and the platform, every attempt pins the digest the operator wrote, or none. */
  lemma EveryPullKeepsPin(table: seq<string>, reference: string, native: string, major: string,
                          defaultRegistry: string, mirrors: seq<string>, candidates: seq<string>, attempt: string)
    requires Plain(native) && Plain(major)
    requires candidates == PlatformCandidates(table, reference, native, major)
    requires attempt in Attempts(RewriteForMirror, Normalised(candidates, defaultRegistry), mirrors)
    ensures DigestFromReference(attempt) == DigestFromReference(reference)
  {
    var candidate := AttemptKeeps(candidates, defaultRegistry, mirrors, attempt);
    CandidatesKeepPin(table, reference, native, major, candidate);
  }

  predicate Platformed(table: seq<string>, tag: Option<string>) {
    tag.Some? && HasPlatformSuffix(table, tag.value)
  }

  lemma CandidatesArePlatformed(table: seq<string>, reference: string, native: string, major: string, candidate: string)
    requires native in table && WASM in table && Plain(native) && Plain(major) && '@' !in reference
    requires candidate in PlatformCandidates(table, reference, native, major)
    ensures '@' !in candidate && Platformed(table, TagOf(candidate))
  {
    CandidatesKeepPin(table, reference, native, major, candidate);
    CandidatesAreConcrete(table, reference, native, major);
  }

  /** Without a digest every attempt names one platform's artifact. */
  lemma EveryPullIsPlatformed(table: seq<string>, reference: string, native: string, major: string,
                              defaultRegistry: string, mirrors: seq<string>, candidates: seq<string>, attempt: string)
    requires native in table && WASM in table && Plain(native) && Plain(major)
    requires '@' !in reference
    requires candidates == PlatformCandidates(table, reference, native, major)
    requires attempt in Attempts(RewriteForMirror, Normalised(candidates, defaultRegistry), mirrors)
    ensures Platformed(table, TagOf(attempt))
  {
    var candidate := AttemptKeeps(candidates, defaultRegistry, mirrors, attempt);
    CandidatesArePlatformed(table, reference, native, major, candidate);
  }

  /** The same for the platforms plugins are published for. */
  lemma PublishedPullIsPlatformed(
    reference: string, native: string, major: string, defaultRegistry: string, mirrors: seq<string>, attempt: string)
    requires native in PLATFORM_SUFFIXES && Plain(major) && '@' !in reference
    requires attempt in Attempts(
      RewriteForMirror,
      Normalised(PlatformCandidates(PLATFORM_SUFFIXES, reference, native, major), defaultRegistry), mirrors)
    ensures Platformed(PLATFORM_SUFFIXES, TagOf(attempt))
  {
    var candidates := PlatformCandidates(PLATFORM_SUFFIXES, reference, native, major);
    TableIsPlain();
    PublishedIn(PLATFORM_SUFFIXES, reference, native, major, defaultRegistry, mirrors, candidates, attempt);
  }

  lemma PublishedIn(table: seq<string>, reference: string, native: string, major: string,
                    defaultRegistry: string, mirrors: seq<string>, candidates: seq<string>, attempt: string)
    requires WASM in table && (forall s :: s in table ==> Plain(s)) && native in table && Plain(major)
    requires '@' !in reference && candidates == PlatformCandidates(table, reference, native, major)
    requires attempt in Attempts(RewriteForMirror, Normalised(candidates, defaultRegistry), mirrors)
    ensures Platformed(table, TagOf(attempt))
  {
    EveryPullIsPlatformed(table, reference, native, major, defaultRegistry, mirrors, candidates, attempt);
  }
}
