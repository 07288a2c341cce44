/** Where plugin references are pulled from: which artifact, at which registry, in which order. */
module OciPulls {
  import opened Common
  import opened OciReference

  // ----- Slashes at the ends -----

  predicate AllSlashes(s: string) {
    forall i :: 0 <= i < |s| ==> s[i] == '/'
  }

  lemma {:induction false} EndSlashesTrimmed(base: string, slashes: string)
    requires (base == "" || base[|base| - 1] != '/') && AllSlashes(slashes)
    ensures TrimEndSlashes(base + slashes) == base
    decreases |slashes|
  {
    if slashes == "" {
      assert base + slashes == base;
    } else {
      assert (base + slashes)[..|base + slashes| - 1] == base + slashes[..|slashes| - 1];
      EndSlashesTrimmed(base, slashes[..|slashes| - 1]);
    }
  }

  lemma {:induction false} StartSlashesTrimmed(slashes: string, rest: string)
    requires (rest == "" || rest[0] != '/') && AllSlashes(slashes)
    ensures TrimStartSlashes(slashes + rest) == rest
    decreases |slashes|
  {
    if slashes == "" {
      assert slashes + rest == rest;
    } else {
      assert (slashes + rest)[1..] == slashes[1..] + rest;
      StartSlashesTrimmed(slashes[1..], rest);
    }
  }

  lemma FirstSlash(host: string, rest: string)
    requires '/' !in host
    ensures Find(host + ("/" + rest), '/') == |host|
  {
    FindInFront(host, "/" + rest, '/');
  }

  // ----- Mirrors -----

  /** At a mirror a reference keeps everything but its registry, whatever slashes stand at the seam. */
  lemma MirrorReplacesRegistry(host: string, before: string, repo: string, mirror: string, after: string)
    requires '/' !in host && AllSlashes(before) && (repo == "" || repo[0] != '/')
    requires (mirror == "" || mirror[|mirror| - 1] != '/') && AllSlashes(after)
    ensures RewriteForMirror(host + ("/" + (before + repo)), mirror + after) == mirror + "/" + repo
  {
    var reference := host + ("/" + (before + repo));
    FirstSlash(host, before + repo);
    assert reference[|host| + 1..] == before + repo;
    StartSlashesTrimmed(before, repo);
    EndSlashesTrimmed(mirror, after);
  }

  /** What follows the registry of a reference, without slashes at the seam. */
  function RepositoryOf(reference: string): string {
    var slash := Find(reference, '/');
    if slash == |reference| then "" else TrimStartSlashes(reference[slash + 1..])
  }

  /** A reference is some registry, a slash and its repository. */
  ghost predicate PulledFrom(reference: string, registry: string, repository: string) {
    reference == registry + "/" + repository
  }

  lemma {:induction false} SlashesJoinRegistry(registry: string, rest: string) returns (whole: string)
    ensures PulledFrom(registry + ("/" + rest), whole, TrimStartSlashes(rest))
    decreases |rest|
  {
    if rest != "" && rest[0] == '/' {
      whole := SlashesJoinRegistry(registry + "/", rest[1..]);
      assert registry + ("/" + rest) == registry + "/" + ("/" + rest[1..]);
    } else {
      whole := registry;
    }
  }

  lemma RepositoryAfter(host: string, rest: string)
    requires '/' !in host
    ensures RepositoryOf(host + ("/" + rest)) == TrimStartSlashes(rest)
  {
    FirstSlash(host, rest);
    assert (host + ("/" + rest))[|host| + 1..] == rest;
  }

  lemma SplitAtRepository(reference: string) returns (registry: string)
    requires '/' in reference
    ensures PulledFrom(reference, registry, RepositoryOf(reference))
  {
    var slash := Find(reference, '/');
    assert slash < |reference| by { assert reference[..|reference|] == reference; }
    var host, rest := reference[..slash], reference[slash + 1..];
    assert reference == host + ("/" + rest);
    RepositoryAfter(host, rest);
    registry := SlashesJoinRegistry(host, rest);
  }

  lemma MirrorPullsRepository(reference: string, mirror: string)
    requires '/' in reference
    ensures PulledFrom(RewriteForMirror(reference, mirror), TrimEndSlashes(mirror), RepositoryOf(reference))
  {
    assert Find(reference, '/') < |reference| by { assert reference[..|reference|] == reference; }
  }

  // ----- The order of attempts -----

  lemma {:induction false} MirroredAt(at: Rewrite, candidate: string, mirrors: seq<string>, j: nat)
    requires j < |mirrors|
    ensures |Mirrored(at, candidate, mirrors)| == |mirrors|
    ensures Mirrored(at, candidate, mirrors)[j] == at(candidate, mirrors[j])
  {
    var last := |mirrors| - 1;
    if j < last {
      MirroredAt(at, candidate, mirrors[..last], j);
    } else {
      MirroredLength(at, candidate, mirrors[..last]);
    }
  }

  lemma {:induction false} MirroredLength(at: Rewrite, candidate: string, mirrors: seq<string>)
    ensures |Mirrored(at, candidate, mirrors)| == |mirrors|
  {
    if mirrors != [] {
      MirroredLength(at, candidate, mirrors[..|mirrors| - 1]);
    }
  }

  lemma {:induction false} AttemptsLength(at: Rewrite, candidates: seq<string>, mirrors: seq<string>)
    ensures |Attempts(at, candidates, mirrors)| == |candidates| * (|mirrors| + 1)
  {
    if candidates != [] {
      var last := |candidates| - 1;
      AttemptsLength(at, candidates[..last], mirrors);
      MirroredLength(at, candidates[last], mirrors);
      assert |candidates| * (|mirrors| + 1) == last * (|mirrors| + 1) + (|mirrors| + 1);
    }
  }

  /** Attempt `j` of candidate `i`: its place in the list, and what it is. */
  lemma {:induction false} AttemptAt(at: Rewrite, candidates: seq<string>, mirrors: seq<string>, i: nat, j: nat)
    requires i < |candidates| && j <= |mirrors|
    ensures 0 <= i * (|mirrors| + 1) + j < |Attempts(at, candidates, mirrors)| == |candidates| * (|mirrors| + 1)
    ensures Attempts(at, candidates, mirrors)[i * (|mirrors| + 1) + j]
         == if j < |mirrors| then at(candidates[i], mirrors[j]) else candidates[i]
  {
    var last := |candidates| - 1;
    var size := |mirrors| + 1;
    var front := Attempts(at, candidates[..last], mirrors);
    AttemptsLength(at, candidates, mirrors);
    AttemptsLength(at, candidates[..last], mirrors);
    MirroredLength(at, candidates[last], mirrors);
    if i < last {
      AttemptAt(at, candidates[..last], mirrors, i, j);
    } else if j < |mirrors| {
      MirroredAt(at, candidates[last], mirrors, j);
      assert Attempts(at, candidates, mirrors)[|front| + j] == Mirrored(at, candidates[last], mirrors)[j];
    }
  }

  /**
   * Every attempt of one candidate pulls the candidate's own repository, tag and digest: first from each mirror in
   * order, then from where the candidate itself says.
   */
  lemma AttemptsOfCandidate(candidates: seq<string>, defaultRegistry: string, mirrors: seq<string>, i: nat, j: nat)
    requires i < |candidates| && j <= |mirrors|
    ensures var normal := NormaliseReference(candidates[i], defaultRegistry);
      var attempts := Attempts(RewriteForMirror, Normalised(candidates, defaultRegistry), mirrors);
      var place := i * (|mirrors| + 1) + j;
      && 0 <= place < |attempts| == |candidates| * (|mirrors| + 1)
      && (if j < |mirrors|
          then PulledFrom(attempts[place], TrimEndSlashes(mirrors[j]), RepositoryOf(normal))
          else attempts[place] == normal && exists registry :: PulledFrom(normal, registry, RepositoryOf(normal)))
  {
    var normals := Normalised(candidates, defaultRegistry);
    AttemptAt(RewriteForMirror, normals, mirrors, i, j);
    NormalKeepsPin(candidates[i], defaultRegistry);
    if j < |mirrors| {
      MirrorPullsRepository(normals[i], mirrors[j]);
    } else {
      var registry := SplitAtRepository(normals[i]);
    }
  }

  // ----- Which artifact -----

  /** A reference that is expanded names this platform's artifact first, and the portable one after it. */
  lemma NativeFirst(table: seq<string>, reference: string, native: string, major: string)
    requires Plain(native) && Plain(major) && !Concrete(table, reference)
    ensures var candidates := PlatformCandidates(table, reference, native, major);
      var tag := if TagOf(reference).Some? then TagOf(reference).value else "protocol-" + major;
      && |candidates| == 2 && reference <= candidates[0] && reference <= candidates[1]
      && TagOf(candidates[0]) == Some(tag + ("-" + native))
      && TagOf(candidates[1]) == Some(tag + ("-" + WASM))
  {
    if TagOf(reference).Some? {
      TagGrows(reference, "-" + native);
      TagGrows(reference, "-" + WASM);
    } else {
      FloatingGrows(reference, major, native);
      FloatingGrows(reference, major, WASM);
    }
  }

  lemma FloatingGrows(reference: string, major: string, platform: string)
    requires Plain(platform) && Plain(major) && TagOf(reference).None?
    ensures TagOf(reference + Floating(major, platform)) == Some("protocol-" + major + ("-" + platform))
  {
    assert '/' !in Floating(major, platform);
    TagGrows(reference, Floating(major, platform));
    FloatingTag(major, platform);
  }

  // ----- Which registry -----

  /** A registry is known by its first segment: a dot, a port, or the local host. */
  lemma QualifiedIff(host: string, rest: string)
    requires '/' !in host
    ensures LooksQualified(host + ("/" + rest)) <==> '.' in host || ':' in host || host == "localhost"
  {
    FirstSlash(host, rest);
    assert (host + ("/" + rest))[..|host|] == host;
  }

  lemma QualifiedByFront(host: string, reference: string)
    requires '/' !in host && host + "/" <= reference
    ensures LooksQualified(reference) <==> '.' in host || ':' in host || host == "localhost"
  {
    var rest := reference[|host| + 1..];
    assert reference == host + ("/" + rest);
    QualifiedIff(host, rest);
  }

  lemma NameAloneUnqualified(name: string)
    requires '/' !in name
    ensures !LooksQualified(name)
  {
  }

  /** Canonicalising leaves everything up to the last slash of the path alone. */
  lemma CanonicalKeepsFront(host: string, rest: string)
    requires '/' !in host
    ensures host + "/" <= CanonicaliseFirstPartyRepo(host + ("/" + rest))
  {
    var reference := host + ("/" + rest);
    var (path, suffix) := SplitPath(reference);
    var slash := AfterLast(path, '/');
    if slash > 0 && FIRST_PARTY <= path[slash..] {
      assert path[slash - 1] == reference[slash - 1] == '/';
      assert slash > |host|;
      assert path[..slash] == reference[..slash];
      assert reference[..|host| + 1] == host + "/";
    }
  }

  lemma NoSlashUnchanged(name: string)
    requires '/' !in name
    ensures CanonicaliseFirstPartyRepo(name) == name
  {
    var (path, suffix) := SplitPath(name);
    assert forall c :: c in path ==> c in path + suffix;
  }

  /** A reference that names a registry keeps it. */
  lemma QualifiedKeepsRegistry(host: string, rest: string, defaultRegistry: string, schemed: bool)
    requires '/' !in host && ('.' in host || ':' in host || host == "localhost")
    requires !schemed ==> !(SCHEME <= host + ("/" + rest))
    ensures var reference := host + ("/" + rest);
      host + "/" <= NormaliseReference(if schemed then SCHEME + reference else reference, defaultRegistry)
  {
    var reference := host + ("/" + rest);
    BareOf(reference, schemed);
    CanonicalKeepsFront(host, rest);
    QualifiedByFront(host, CanonicaliseFirstPartyRepo(reference));
  }

  lemma BareOf(reference: string, schemed: bool)
    requires !schemed ==> !(SCHEME <= reference)
    ensures WithoutPrefix(if schemed then SCHEME + reference else reference, SCHEME) == reference
  {
    assert (SCHEME + reference)[|SCHEME|..] == reference;
  }

  /** One that names none is pulled from the default registry. */
  lemma UnqualifiedGetsDefault(reference: string, defaultRegistry: string, after: string, schemed: bool)
    requires !LooksQualified(reference) && (!schemed ==> !(SCHEME <= reference))
    requires (defaultRegistry == "" || defaultRegistry[|defaultRegistry| - 1] != '/') && AllSlashes(after)
    ensures NormaliseReference(if schemed then SCHEME + reference else reference, defaultRegistry + after)
         == defaultRegistry + "/" + TrimStartSlashes(CanonicaliseFirstPartyRepo(reference))
  {
    BareOf(reference, schemed);
    EndSlashesTrimmed(defaultRegistry, after);
    CanonicalUnqualified(reference);
  }

  lemma SameRegistry(host: string, rest: string)
    requires '/' !in host
    ensures LooksQualified(CanonicaliseFirstPartyRepo(host + ("/" + rest))) == LooksQualified(host + ("/" + rest))
  {
    CanonicalKeepsFront(host, rest);
    QualifiedByFront(host, CanonicaliseFirstPartyRepo(host + ("/" + rest)));
    QualifiedIff(host, rest);
  }

  lemma CanonicalUnqualified(reference: string)
    requires !LooksQualified(reference)
    ensures !LooksQualified(CanonicaliseFirstPartyRepo(reference))
  {
    var slash := Find(reference, '/');
    if slash == |reference| {
      assert reference[..slash] == reference;
      NoSlashUnchanged(reference);
    } else {
      assert reference == reference[..slash] + ("/" + reference[slash + 1..]);
      SameRegistry(reference[..slash], reference[slash + 1..]);
    }
  }

  // ----- Which repository -----

  /** A first-party id becomes the name it is published under: no prefix, dashes for dots. */
  lemma FirstPartyNamed(x: string, name: string, suffix: string)
    requires x != "" && x[|x| - 1] == '/' && '@' !in x && Plain(name) && ':' !in name
    requires suffix == "" || suffix[0] == '@' || (suffix[0] == ':' && Plain(suffix))
    ensures CanonicaliseFirstPartyRepo(x + (FIRST_PARTY + name) + suffix) == x + DotsToDashes(name) + suffix
  {
    var path := x + (FIRST_PARTY + name);
    SplitAtSuffix(x, FIRST_PARTY + name, suffix);
    AfterLastOfEnd(x, FIRST_PARTY + name, '/');
    assert path[|x|..] == FIRST_PARTY + name && path[|x| + |FIRST_PARTY|..] == name && path[..|x|] == x;
  }

  /** Any other repository is left as it is written. */
  lemma OthersUnnamed(x: string, name: string, suffix: string)
    requires x != "" && x[|x| - 1] == '/' && '@' !in x && Plain(name) && ':' !in name && !(FIRST_PARTY <= name)
    requires suffix == "" || suffix[0] == '@' || (suffix[0] == ':' && Plain(suffix))
    ensures CanonicaliseFirstPartyRepo(x + name + suffix) == x + name + suffix
  {
    SplitAtSuffix(x, name, suffix);
    AfterLastOfEnd(x, name, '/');
    assert (x + name)[|x|..] == name;
  }

  lemma SplitAtSuffix(x: string, name: string, suffix: string)
    requires x != "" && x[|x| - 1] == '/' && '@' !in x && Plain(name) && ':' !in name
    requires suffix == "" || suffix[0] == '@' || (suffix[0] == ':' && Plain(suffix))
    ensures SplitPath(x + name + suffix) == (x + name, suffix)
  {
    var path := x + name;
    var reference := path + suffix;
    FindInFront(path, suffix, '@');
    if suffix != "" && suffix[0] == '@' {
      assert reference[..|path|] == path && reference[|path|..] == suffix;
    } else {
      NoAtAtAll(suffix);
      TagSplit(x, name, suffix);
    }
  }

  lemma NoAtAtAll(s: string)
    requires '@' !in s
    ensures Find(s, '@') == |s|
  {
  }

  lemma TagSplit(x: string, name: string, suffix: string)
    requires x != "" && x[|x| - 1] == '/' && '@' !in x && Plain(name) && ':' !in name
    requires suffix == "" || (suffix[0] == ':' && Plain(suffix))
    ensures SplitPath(x + name + suffix) == (x + name, suffix)
  {
    var reference := x + name + suffix;
    assert reference == x + (name + suffix) && '@' !in reference;
    NoAtAtAll(reference);
    AfterLastOfEnd(x, name + suffix, '/');
    assert reference[|x|..] == name + suffix;
    FindInFront(name, suffix, ':');
    assert reference[..|x| + |name|] == x + name && reference[|x| + |name|..] == suffix;
  }

  // ----- The platforms -----

  /** Plugins are published for three systems and two machines, with a second C library on one, and portably. */
  lemma PublishedPlatforms(platform: string)
    ensures platform in PLATFORM_SUFFIXES <==>
      || platform == "wasi-wasm"
      || exists os, arch :: os in ["linux", "linux-musl", "darwin", "windows"] && arch in ["amd64", "arm64"]
           && platform == os + ("-" + arch)
  {
    var systems, machines := ["linux", "linux-musl", "darwin", "windows"], ["amd64", "arm64"];
    assert systems[0] in systems && systems[1] in systems && systems[2] in systems && systems[3] in systems;
    assert machines[0] in machines && machines[1] in machines;
    assert "linux" + ("-" + "amd64") == "linux-amd64" && "linux" + ("-" + "arm64") == "linux-arm64";
    assert "linux-musl" + ("-" + "amd64") == "linux-musl-amd64" && "linux-musl" + ("-" + "arm64") == "linux-musl-arm64";
    assert "darwin" + ("-" + "amd64") == "darwin-amd64" && "darwin" + ("-" + "arm64") == "darwin-arm64";
    assert "windows" + ("-" + "amd64") == "windows-amd64" && "windows" + ("-" + "arm64") == "windows-arm64";
  }

  /** A tag is a platform's when it is one of the table, or ends in one after a dash. */
  lemma PlatformTagIff(table: seq<string>, tag: string)
    ensures HasPlatformSuffix(table, tag) <==>
      exists s :: s in table && (tag == s || exists front :: tag == front + ("-" + s))
  {
    if HasPlatformSuffix(table, tag) {
      var s :| s in table && (tag == s || EndsWith(tag, "-" + s));
      if tag != s {
        var cut := |tag| - |s| - 1;
        assert tag == tag[..cut] + ("-" + s);
      }
    }
    if exists s :: s in table && (tag == s || exists front :: tag == front + ("-" + s)) {
      var s :| s in table && (tag == s || exists front :: tag == front + ("-" + s));
      if tag != s {
        var front :| tag == front + ("-" + s);
        assert tag[|tag| - |s| - 1..] == "-" + s;
      }
    }
  }

  lemma HexDigits(c: char)
    ensures IsHex(c) <==> c in "0123456789abcdefABCDEF"
  {
  }
}
