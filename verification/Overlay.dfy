/** Composing a run's package from the base files and the formal Workspace
    (runtime_manifest_provider_filesystem.go). The file system is a map from logical
    path to file; a hash keeps the content it stands for. */
module Overlay {
  import opened Wrappers

  /** What lies at a path: a regular file, or something the readers refuse. */
  datatype File = Regular(content: string) | Irregular

  type Files = map<string, File>

  datatype Entry = Entry(path: string, formal: bool, ref: string, inlined: string, size: int, sha: string)

  const MAX_FILES := 512
  const MAX_BYTES := 33554432
  const MAX_FILE_BYTES := 524288

  function Sha(content: string): string {
    "sha256:" + content
  }

  function InlineEntry(path: string, content: string): Entry {
    Entry(path, false, "", content, |content|, Sha(content))
  }

  function FormalEntry(path: string, content: string): Entry {
    Entry(path, true, path, "", |content|, Sha(content))
  }

  predicate Readable(f: File) {
    f.Regular? && |f.content| <= MAX_FILE_BYTES
  }

  /** optionalFormalWorkspaceEntry: None is a missing file, every failure is one error. */
  function ReadEntry(files: Files, path: string): Option<Option<Entry>> {
    if path !in files then None
    else if !Readable(files[path]) then Some(None)
    else Some(Some(FormalEntry(path, files[path].content)))
  }

  predicate Unreadable(files: Files, path: string) {
    path in files && !Readable(files[path])
  }

  // ---------- replacing ----------

  function Bytes(entries: seq<Entry>): int {
    if entries == [] then 0 else Bytes(entries[..|entries| - 1]) + entries[|entries| - 1].size
  }

  /** A base entry, unless the Workspace has that file. */
  function Effective(files: Files, e: Entry): Entry {
    if e.path in files && Readable(files[e.path]) then FormalEntry(e.path, files[e.path].content) else e
  }

  function Replaced(files: Files, base: seq<Entry>): (r: seq<Entry>)
    ensures |r| == |base| && forall i :: 0 <= i < |base| ==> r[i] == Effective(files, base[i])
  {
    seq(|base|, i requires 0 <= i < |base| => Effective(files, base[i]))
  }

  // ---------- adding ----------

  /** Has this path an entry? */
  predicate Listed(entries: seq<Entry>, path: string) {
    exists i :: 0 <= i < |entries| && entries[i].path == path
  }

  /** One more path of a tree: already there or missing, refused, or appended. */
  function AddPath(files: Files, entries: seq<Entry>, path: string): Option<seq<Entry>> {
    if Listed(entries, path) || path !in files then Some(entries)
    else if !Readable(files[path]) then None
    else
      var e := FormalEntry(path, files[path].content);
      if |entries| >= MAX_FILES || Bytes(entries) + e.size > MAX_BYTES then None else Some(entries + [e])
  }

  function AddPaths(files: Files, entries: seq<Entry>, paths: seq<string>): Option<seq<Entry>> {
    if paths == [] then Some(entries)
    else
      var before := AddPaths(files, entries, paths[..|paths| - 1]);
      if before.None? then None else AddPath(files, before.value, paths[|paths| - 1])
  }

  /** The sorted paths under a root, None if the walk fails or finds too many. */
  type Walk = string -> Option<seq<string>>

  function AddRoots(files: Files, entries: seq<Entry>, roots: seq<string>, walk: Walk): Option<seq<Entry>> {
    if roots == [] then Some(entries)
    else
      var before := AddRoots(files, entries, roots[..|roots| - 1], walk);
      var paths := walk(roots[|roots| - 1]);
      if before.None? || paths.None? then None else AddPaths(files, before.value, paths.value)
  }

  // ---------- the whole overlay ----------

  predicate SafeChar(c: char) {
    'a' <= c <= 'z' || 'A' <= c <= 'Z' || '0' <= c <= '9' || c == '_' || c == '-' || c == '.'
  }

  /** safeRuntimePackageSegment */
  predicate SafeSegment(s: string) {
    s != "" && s != "." && s != ".." && forall i :: 0 <= i < |s| ==> SafeChar(s[i])
  }

  predicate SafeProfiles(profiles: seq<string>) {
    forall i :: 0 <= i < |profiles| ==> SafeSegment(profiles[i])
  }

  function RootOf(profile: string): string {
    "skills/" + profile
  }

  function Roots(profiles: seq<string>): (r: seq<string>)
    ensures |r| == |profiles| + 1 && r[0] == "protocols" && forall i :: 0 <= i < |profiles| ==> r[i + 1] == RootOf(profiles[i])
  {
    ["protocols"] + seq(|profiles|, i requires 0 <= i < |profiles| => RootOf(profiles[i]))
  }

  ghost predicate Distinct(entries: seq<Entry>) {
    forall i, j :: 0 <= i < j < |entries| ==> entries[i].path != entries[j].path
  }

  /** applyFormalWorkspacePackage, the entries. */
  ghost function Compose(files: Files, base: seq<Entry>, profiles: seq<string>, walk: Walk): Option<seq<Entry>> {
    if !Distinct(base) then None
    else if exists i :: 0 <= i < |base| && Unreadable(files, base[i].path) then None
    else if !SafeProfiles(profiles) then None
    else AddRoots(files, Replaced(files, base), Roots(profiles), walk)
  }

  /** The skill hashes that go with them. */
  ghost function EffectiveHashes(entries: seq<Entry>, hashes: map<string, string>): map<string, string> {
    map p | p in hashes :: if Listed(entries, RootOf(p) + "/SKILL.md") then EntryAt(entries, RootOf(p) + "/SKILL.md").sha else hashes[p]
  }

  ghost function EntryAt(entries: seq<Entry>, path: string): Entry
    requires Listed(entries, path)
  {
    var i :| 0 <= i < |entries| && entries[i].path == path;
    entries[i]
  }

  // ---------- the method ----------

  /** The path-to-index map and the entry list agree, with no path twice. */
  ghost predicate Indexed(entries: seq<Entry>, seen: map<string, nat>) {
    && (forall i :: 0 <= i < |entries| ==> entries[i].path in seen && seen[entries[i].path] == i)
    && (forall p :: p in seen ==> seen[p] < |entries| && entries[seen[p]].path == p)
  }

  lemma {:induction false} BytesUpdate(entries: seq<Entry>, i: nat, e: Entry)
    requires i < |entries|
    ensures Bytes(entries[i := e]) == Bytes(entries) - entries[i].size + e.size
  {
    var n := |entries| - 1;
    if i < n {
      BytesUpdate(entries[..n], i, e);
      assert entries[i := e][..n] == entries[..n][i := e];
    } else {
      assert entries[i := e][..n] == entries[..n];
    }
  }

  lemma IndexedIsDistinct(entries: seq<Entry>, seen: map<string, nat>)
    requires Indexed(entries, seen)
    ensures Distinct(entries)
  {
  }

  lemma IndexGrows(entries: seq<Entry>, seen: map<string, nat>, e: Entry)
    requires Indexed(entries, seen) && e.path !in seen
    ensures Indexed(entries + [e], seen[e.path := |entries|]) && Distinct(entries + [e])
    ensures Bytes(entries + [e]) == Bytes(entries) + e.size
  {
    var grown, index := entries + [e], seen[e.path := |entries|];
    assert grown[..|entries|] == entries;
    forall i | 0 <= i < |grown|
      ensures grown[i].path in index && index[grown[i].path] == i
    {
      if i < |entries| {
        assert grown[i] == entries[i];
      }
    }
    IndexedIsDistinct(grown, index);
  }

  class Composer {
    /** The entries of the base with their index; fails on a duplicate path. */
    static method IndexBase(base: seq<Entry>) returns (seen: map<string, nat>, total: int, ok: bool)
      ensures ok <==> Distinct(base)
      ensures ok ==> Indexed(base, seen) && total == Bytes(base)
    {
      seen, total, ok := map[], 0, true;
      for i := 0 to |base|
        invariant ok && Distinct(base[..i]) && Indexed(base[..i], seen) && total == Bytes(base[..i])
      {
        if base[i].path in seen {
          assert base[..i][seen[base[i].path]].path == base[i].path;
          return seen, total, false;
        }
        IndexGrows(base[..i], seen, base[i]);
        assert base[..i + 1] == base[..i] + [base[i]];
        seen := seen[base[i].path := i];
        total := total + base[i].size;
      }
      assert base[..|base|] == base;
    }

    /** Goes through the index in whatever order the map yields. */
    static method Replace(files: Files, base: seq<Entry>, seen: map<string, nat>) returns (entries: seq<Entry>, delta: int, ok: bool)
      requires Indexed(base, seen)
      ensures ok <==> !exists i :: 0 <= i < |base| && Unreadable(files, base[i].path)
      ensures ok ==> entries == Replaced(files, base) && delta == Bytes(entries) - Bytes(base)
    {
      entries, delta, ok := base, 0, true;
      var todo := seen.Keys;
      while todo != {}
        invariant ok && todo <= seen.Keys && |entries| == |base| && delta == Bytes(entries) - Bytes(base)
        invariant forall i :: 0 <= i < |base| ==> entries[i] == if base[i].path in todo then base[i] else Effective(files, base[i])
        invariant forall i :: 0 <= i < |base| && base[i].path !in todo ==> !Unreadable(files, base[i].path)
        decreases |todo|
      {
        var path :| path in todo;
        var index := seen[path];
        todo := todo - {path};
        var read := ReadEntry(files, path);
        if read.Some? {
          if read.value.None? {
            assert Unreadable(files, base[index].path);
            return entries, delta, false;
          }
          BytesUpdate(entries, index, read.value.value);
          delta := delta + read.value.value.size - entries[index].size;
          entries := entries[index := read.value.value];
        }
      }
      assert entries == Replaced(files, base);
    }

    static method AddTree(files: Files, start: seq<Entry>, index: map<string, nat>, startTotal: int, paths: seq<string>)
      returns (entries: seq<Entry>, seen: map<string, nat>, total: int, ok: bool)
      requires Indexed(start, index) && startTotal == Bytes(start)
      ensures ok <==> AddPaths(files, start, paths).Some?
      ensures ok ==> entries == AddPaths(files, start, paths).value && Indexed(entries, seen) && total == Bytes(entries)
    {
      entries, seen, total, ok := start, index, startTotal, true;
      for k := 0 to |paths|
        invariant ok && AddPaths(files, start, paths[..k]) == Some(entries) && Indexed(entries, seen) && total == Bytes(entries)
      {
        var path := paths[k];
        assert paths[..k + 1][..k] == paths[..k];
        assert Listed(entries, path) <==> path in seen;
        if path !in seen {
          var read := ReadEntry(files, path);
          if read.Some? {
            if read.value.None? || |entries| >= MAX_FILES || total + read.value.value.size > MAX_BYTES {
              FailedPrefix(files, start, paths, k + 1);
              return entries, seen, total, false;
            }
            var entry := read.value.value;
            IndexGrows(entries, seen, entry);
            seen := seen[path := |entries|];
            entries := entries + [entry];
            total := total + entry.size;
          }
        }
      }
      assert paths[..|paths|] == paths;
    }

    static method AddTrees(files: Files, start: seq<Entry>, index: map<string, nat>, startTotal: int, roots: seq<string>, walk: Walk)
      returns (entries: seq<Entry>, seen: map<string, nat>, ok: bool)
      requires Indexed(start, index) && startTotal == Bytes(start)
      ensures ok <==> AddRoots(files, start, roots, walk).Some?
      ensures ok ==> entries == AddRoots(files, start, roots, walk).value && Indexed(entries, seen)
    {
      var total := startTotal;
      entries, seen, ok := start, index, true;
      for k := 0 to |roots|
        invariant ok && AddRoots(files, start, roots[..k], walk) == Some(entries) && Indexed(entries, seen) && total == Bytes(entries)
      {
        assert roots[..k + 1][..k] == roots[..k];
        var paths := walk(roots[k]);
        if paths.None? {
          FailedRoots(files, start, roots, walk, k + 1);
          return entries, seen, false;
        }
        entries, seen, total, ok := AddTree(files, entries, seen, total, paths.value);
        if !ok {
          FailedRoots(files, start, roots, walk, k + 1);
          return entries, seen, false;
        }
      }
      assert roots[..|roots|] == roots;
    }

    static method SkillHashes(entries: seq<Entry>, seen: map<string, nat>, hashes: map<string, string>) returns (effective: map<string, string>)
      requires Indexed(entries, seen)
      ensures effective == EffectiveHashes(entries, hashes)
    {
      effective := map[];
      var todo := hashes.Keys;
      while todo != {}
        invariant todo <= hashes.Keys && effective.Keys == hashes.Keys - todo
        invariant forall p :: p in effective ==> effective[p] == EffectiveHashes(entries, hashes)[p]
        decreases |todo|
      {
        var profile :| profile in todo;
        todo := todo - {profile};
        var path := RootOf(profile) + "/SKILL.md";
        assert Listed(entries, path) <==> path in seen;
        if path in seen {
          assert Listed(entries, path) && EntryAt(entries, path) == entries[seen[path]];
        }
        effective := effective[profile := if path in seen then entries[seen[path]].sha else hashes[profile]];
      }
    }

    static method ComposeEntries(files: Files, base: seq<Entry>, profiles: seq<string>, walk: Walk)
      returns (entries: seq<Entry>, seen: map<string, nat>, ok: bool)
      ensures ok <==> Compose(files, base, profiles, walk).Some?
      ensures ok ==> entries == Compose(files, base, profiles, walk).value && Indexed(entries, seen)
    {
      var total, delta;
      entries := base;
      seen, total, ok := IndexBase(base);
      if !ok {
        return;
      }
      entries, delta, ok := Replace(files, base, seen);
      if !ok {
        return;
      }
      SamePathsIndexed(files, base, seen);
      if !SafeProfiles(profiles) {
        ok := false;
        return;
      }
      entries, seen, ok := AddTrees(files, entries, seen, total + delta, Roots(profiles), walk);
    }

    static method ApplyFormalWorkspacePackage(files: Files, base: seq<Entry>, profiles: seq<string>, walk: Walk, hashes: map<string, string>)
      returns (entries: seq<Entry>, effective: map<string, string>, ok: bool)
      ensures ok <==> Compose(files, base, profiles, walk).Some?
      ensures ok ==> entries == Compose(files, base, profiles, walk).value && effective == EffectiveHashes(entries, hashes)
    {
      var seen;
      effective := map[];
      entries, seen, ok := ComposeEntries(files, base, profiles, walk);
      if ok {
        effective := SkillHashes(entries, seen, hashes);
      }
    }
  }

  lemma SamePathsIndexed(files: Files, base: seq<Entry>, seen: map<string, nat>)
    requires Indexed(base, seen)
    ensures Indexed(Replaced(files, base), seen)
  {
  }

  lemma {:induction false} FailedPrefix(files: Files, start: seq<Entry>, paths: seq<string>, k: nat)
    requires k <= |paths| && AddPaths(files, start, paths[..k]).None?
    ensures AddPaths(files, start, paths).None?
  {
    if k < |paths| {
      var init := paths[..|paths| - 1];
      assert init[..k] == paths[..k];
      FailedPrefix(files, start, init, k);
    } else {
      assert paths[..k] == paths;
    }
  }

  lemma {:induction false} FailedRoots(files: Files, start: seq<Entry>, roots: seq<string>, walk: Walk, k: nat)
    requires k <= |roots| && AddRoots(files, start, roots[..k], walk).None?
    ensures AddRoots(files, start, roots, walk).None?
  {
    if k < |roots| {
      var init := roots[..|roots| - 1];
      assert init[..k] == roots[..k];
      FailedRoots(files, start, init, walk, k);
    } else {
      assert roots[..k] == roots;
    }
  }

  // ---------- what the overlay promises ----------

  predicate Under(root: string, path: string) {
    root + "/" <= path
  }

  /** A walk yields paths under its root only, a fact about the file system. */
  ghost predicate WalkOk(walk: Walk) {
    forall root, i :: walk(root).Some? && 0 <= i < |walk(root).value| ==> Under(root, walk(root).value[i])
  }

  /** What adding keeps: old entries in place, no path twice, new entries read from the
      Workspace, both limits once anything is added. */
  ghost predicate Grown(files: Files, before: seq<Entry>, after: seq<Entry>) {
    && before <= after && (Distinct(before) ==> Distinct(after))
    && (forall i :: |before| <= i < |after| ==>
          after[i].path in files && Readable(files[after[i].path]) && after[i] == FormalEntry(after[i].path, files[after[i].path].content))
    && (|after| > |before| ==> |after| <= MAX_FILES && Bytes(after) <= MAX_BYTES)
  }

  lemma AddPathGrows(files: Files, entries: seq<Entry>, path: string)
    requires AddPath(files, entries, path).Some?
    ensures var after := AddPath(files, entries, path).value;
            Grown(files, entries, after) && (path in files ==> Listed(after, path))
            && forall i :: |entries| <= i < |after| ==> after[i].path == path
  {
    if !Listed(entries, path) && path in files {
      var e := FormalEntry(path, files[path].content);
      assert (entries + [e])[..|entries|] == entries;
      assert (entries + [e])[|entries|].path == path;
    }
  }

  lemma GrownTwice(files: Files, a: seq<Entry>, b: seq<Entry>, c: seq<Entry>)
    requires Grown(files, a, b) && Grown(files, b, c)
    ensures Grown(files, a, c)
  {
    if |c| == |b| {
      assert c == b;
    }
  }

  lemma StillListed(a: seq<Entry>, b: seq<Entry>, path: string)
    requires a <= b && Listed(a, path)
    ensures Listed(b, path)
  {
    var i :| 0 <= i < |a| && a[i].path == path;
    assert b[i].path == path;
  }

  lemma {:induction false} AddPathsGrows(files: Files, entries: seq<Entry>, paths: seq<string>)
    requires AddPaths(files, entries, paths).Some?
    ensures var after := AddPaths(files, entries, paths).value;
            && Grown(files, entries, after)
            && (forall i :: |entries| <= i < |after| ==> after[i].path in paths)
            && (forall p :: p in paths && p in files ==> Listed(after, p))
  {
    if paths != [] {
      var init, last := paths[..|paths| - 1], paths[|paths| - 1];
      AddPathsGrows(files, entries, init);
      var before := AddPaths(files, entries, init).value;
      var after := AddPaths(files, entries, paths).value;
      AddPathGrows(files, before, last);
      GrownTwice(files, entries, before, after);
      forall p | p in paths && p in files
        ensures Listed(after, p)
      {
        if p in init {
          StillListed(before, after, p);
        }
      }
      forall i | |entries| <= i < |after|
        ensures after[i].path in paths
      {
        assert i < |before| ==> before[i] == after[i] && before[i].path in init;
      }
    }
  }

  ghost predicate UnderSome(roots: seq<string>, path: string) {
    exists k :: 0 <= k < |roots| && Under(roots[k], path)
  }

  /** What adding whole trees keeps besides. */
  ghost predicate TreesAdded(files: Files, before: seq<Entry>, after: seq<Entry>, roots: seq<string>, walk: Walk)
    requires forall k :: 0 <= k < |roots| ==> walk(roots[k]).Some?
  {
    && Grown(files, before, after)
    && (forall i :: |before| <= i < |after| ==> UnderSome(roots, after[i].path))
    && (forall k, p :: 0 <= k < |roots| && p in walk(roots[k]).value && p in files ==> Listed(after, p))
  }

  lemma {:induction false} AddRootsGrows(files: Files, entries: seq<Entry>, roots: seq<string>, walk: Walk)
    requires AddRoots(files, entries, roots, walk).Some? && WalkOk(walk)
    ensures forall k :: 0 <= k < |roots| ==> walk(roots[k]).Some?
    ensures TreesAdded(files, entries, AddRoots(files, entries, roots, walk).value, roots, walk)
  {
    if roots != [] {
      var init, last := roots[..|roots| - 1], roots[|roots| - 1];
      AddRootsGrows(files, entries, init, walk);
      var before := AddRoots(files, entries, init, walk).value;
      AddPathsGrows(files, before, walk(last).value);
      forall k | 0 <= k < |roots|
        ensures walk(roots[k]).Some?
      {
        assert k < |init| ==> init[k] == roots[k];
      }
      OneMoreTree(files, entries, before, AddRoots(files, entries, roots, walk).value, init, last, walk);
      assert init + [last] == roots;
    }
  }

  lemma OneMoreTree(files: Files, entries: seq<Entry>, before: seq<Entry>, after: seq<Entry>, init: seq<string>, last: string, walk: Walk)
    requires WalkOk(walk) && walk(last).Some? && forall k :: 0 <= k < |init| ==> walk(init[k]).Some?
    requires TreesAdded(files, entries, before, init, walk) && Grown(files, before, after)
    requires forall i :: |before| <= i < |after| ==> after[i].path in walk(last).value
    requires forall p :: p in walk(last).value && p in files ==> Listed(after, p)
    ensures TreesAdded(files, entries, after, init + [last], walk)
  {
    var roots := init + [last];
    GrownTwice(files, entries, before, after);
    forall k, p | 0 <= k < |roots| && p in walk(roots[k]).value && p in files
      ensures Listed(after, p)
    {
      if k < |init| {
        assert roots[k] == init[k];
        StillListed(before, after, p);
      }
    }
    forall i | |entries| <= i < |after|
      ensures UnderSome(roots, after[i].path)
    {
      if i < |before| {
        assert before[i] == after[i];
        var k :| 0 <= k < |init| && Under(init[k], before[i].path);
        assert Under(roots[k], after[i].path);
      } else {
        assert Under(roots[|init|], after[i].path);
      }
    }
  }

  /** The composed package: no path twice; the base in its order, each file from the
      Workspace where it has one; then only Workspace files under protocols/ or a selected
      skill, all of them, and within both limits. */
  lemma ComposedPackage(files: Files, base: seq<Entry>, profiles: seq<string>, walk: Walk)
    requires WalkOk(walk) && Compose(files, base, profiles, walk).Some?
    ensures forall k :: 0 <= k < |profiles| + 1 ==> walk(Roots(profiles)[k]).Some?
    ensures var entries, roots := Compose(files, base, profiles, walk).value, Roots(profiles);
            && Distinct(entries) && |base| <= |entries|
            && (forall i :: 0 <= i < |base| ==> entries[i] == Effective(files, base[i]))
            && (forall i :: |base| <= i < |entries| ==>
                  && UnderSome(roots, entries[i].path) && entries[i].path in files && Readable(files[entries[i].path])
                  && entries[i] == FormalEntry(entries[i].path, files[entries[i].path].content))
            && (forall k, p :: 0 <= k < |roots| && p in walk(roots[k]).value && p in files ==> Listed(entries, p))
            && (|entries| > |base| ==> |entries| <= MAX_FILES && Bytes(entries) <= MAX_BYTES)
  {
    AddRootsGrows(files, Replaced(files, base), Roots(profiles), walk);
    assert Distinct(Replaced(files, base));
  }

  lemma {:induction false} NothingToAdd(files: Files, entries: seq<Entry>, paths: seq<string>)
    requires forall p :: p in paths && p in files ==> Listed(entries, p)
    ensures AddPaths(files, entries, paths) == Some(entries)
  {
    if paths != [] {
      NothingToAdd(files, entries, paths[..|paths| - 1]);
    }
  }

  lemma {:induction false} NoRootsToAdd(files: Files, entries: seq<Entry>, roots: seq<string>, walk: Walk)
    requires forall k :: 0 <= k < |roots| ==> walk(roots[k]).Some?
    requires forall k, p :: 0 <= k < |roots| && p in walk(roots[k]).value && p in files ==> Listed(entries, p)
    ensures AddRoots(files, entries, roots, walk) == Some(entries)
  {
    if roots != [] {
      var init := roots[..|roots| - 1];
      assert forall k :: 0 <= k < |init| ==> init[k] == roots[k];
      NoRootsToAdd(files, entries, init, walk);
      NothingToAdd(files, entries, walk(roots[|roots| - 1]).value);
    }
  }

  predicate OverLimit(entries: seq<Entry>) {
    Bytes(entries) > MAX_BYTES || |entries| > MAX_FILES
  }

  lemma {:induction false} BytesOnlyGrow(before: seq<Entry>, after: seq<Entry>)
    requires before <= after && forall i :: |before| <= i < |after| ==> after[i].size >= 0
    ensures Bytes(before) <= Bytes(after)
    decreases |after|
  {
    if |after| == |before| {
      assert before == after;
    } else {
      BytesOnlyGrow(before, after[..|after| - 1]);
    }
  }

  /** Is every file the walks find already in the base? */
  ghost predicate AllListed(files: Files, base: seq<Entry>, roots: seq<string>, walk: Walk) {
    forall k, p :: 0 <= k < |roots| && walk(roots[k]).Some? && p in walk(roots[k]).value && p in files ==> Listed(base, p)
  }

  lemma ListedReplaced(files: Files, base: seq<Entry>, path: string)
    ensures Listed(Replaced(files, base), path) <==> Listed(base, path)
  {
    var r := Replaced(files, base);
    assert forall i :: 0 <= i < |base| ==> r[i].path == base[i].path;
    if Listed(base, path) {
      var i :| 0 <= i < |base| && base[i].path == path;
      assert r[i].path == path;
    }
  }

  /** The limits are only looked at when a file is added: a composed package is over
      a limit exactly if the base, with its replacements, already is; and then
      every Workspace file of the walked trees is listed in the base. */
  lemma OverTheLimitIff(files: Files, base: seq<Entry>, profiles: seq<string>, walk: Walk)
    requires WalkOk(walk) && Compose(files, base, profiles, walk).Some?
    ensures OverLimit(Compose(files, base, profiles, walk).value) <==> OverLimit(Replaced(files, base))
    ensures OverLimit(Replaced(files, base)) ==>
              && AllListed(files, base, Roots(profiles), walk)
              && Compose(files, base, profiles, walk).value == Replaced(files, base)
  {
    var start, entries := Replaced(files, base), Compose(files, base, profiles, walk).value;
    AddRootsGrows(files, start, Roots(profiles), walk);
    BytesOnlyGrow(start, entries);
    assert |entries| == |start| ==> entries == start;
    if OverLimit(start) {
      forall k, p | 0 <= k < |Roots(profiles)| && p in walk(Roots(profiles)[k]).value && p in files
        ensures Listed(base, p)
      {
        ListedReplaced(files, base, p);
      }
    }
  }

  /** Which oversized bases are passed on: with nothing else wrong, exactly those that
      already list every file the walks find. */
  lemma OversizedBasePassesIff(files: Files, base: seq<Entry>, profiles: seq<string>, walk: Walk)
    requires WalkOk(walk) && OverLimit(Replaced(files, base))
    requires Distinct(base) && SafeProfiles(profiles) && forall i :: 0 <= i < |base| ==> !Unreadable(files, base[i].path)
    ensures Compose(files, base, profiles, walk).Some?
            <==> AllListed(files, base, Roots(profiles), walk) && forall k :: 0 <= k < |Roots(profiles)| ==> walk(Roots(profiles)[k]).Some?
  {
    var roots := Roots(profiles);
    if Compose(files, base, profiles, walk).Some? {
      OverTheLimitIff(files, base, profiles, walk);
      AddRootsGrows(files, Replaced(files, base), roots, walk);
    } else if AllListed(files, base, roots, walk) && forall k :: 0 <= k < |roots| ==> walk(roots[k]).Some? {
      forall k, p | 0 <= k < |roots| && p in walk(roots[k]).value && p in files
        ensures Listed(Replaced(files, base), p)
      {
        ListedReplaced(files, base, p);
      }
      NoRootsToAdd(files, Replaced(files, base), roots, walk);
    }
  }

  /** Composing what was composed changes nothing. */
  lemma ComposingAgainIsTheSame(files: Files, base: seq<Entry>, profiles: seq<string>, walk: Walk)
    requires WalkOk(walk) && Compose(files, base, profiles, walk).Some?
    ensures var entries := Compose(files, base, profiles, walk); Compose(files, entries.value, profiles, walk) == entries
  {
    ComposedPackage(files, base, profiles, walk);
    var entries := Compose(files, base, profiles, walk).value;
    assert Replaced(files, entries) == entries;
    forall i | 0 <= i < |entries|
      ensures !Unreadable(files, entries[i].path)
    {
      assert i < |base| ==> entries[i].path == base[i].path;
      AddRootsGrows(files, Replaced(files, base), Roots(profiles), walk);
    }
    NoRootsToAdd(files, entries, Roots(profiles), walk);
  }

  /** So a base that is over the limit by itself is passed on. */
  lemma OversizedBaseIsPassedOn(walk: Walk)
    requires forall root :: walk(root) == Some([])
    ensures exists base: seq<Entry> :: var entries := Compose(map[], base, [], walk); entries == Some(base) && Bytes(base) > MAX_BYTES
  {
    var e := Entry("AGENTS.md", false, "", "", MAX_BYTES + 1, "");
    assert Bytes([e]) == Bytes([]) + e.size by {
      assert [e][..0] == [];
    }
    assert Replaced(map[], [e]) == [e];
    NoRootsToAdd(map[], [e], Roots([]), walk);
    assert Compose(map[], [e], [], walk) == Some([e]);
  }

  /** A selected skill whose SKILL.md the Workspace replaces goes by the Workspace's hash. */
  lemma SkillHashFollowsWorkspace(files: Files, base: seq<Entry>, profiles: seq<string>, walk: Walk, hashes: map<string, string>, p: string)
    requires WalkOk(walk) && Compose(files, base, profiles, walk).Some? && p in hashes
    requires var path := RootOf(p) + "/SKILL.md"; path in files && Listed(Compose(files, base, profiles, walk).value, path)
    ensures var path := RootOf(p) + "/SKILL.md";
            Readable(files[path]) && EffectiveHashes(Compose(files, base, profiles, walk).value, hashes)[p] == Sha(files[path].content)
  {
    ComposedPackage(files, base, profiles, walk);
    var entries, path := Compose(files, base, profiles, walk).value, RootOf(p) + "/SKILL.md";
    var i :| 0 <= i < |entries| && entries[i].path == path;
    assert EntryAt(entries, path) == entries[i];
    if i < |base| {
      assert base[i].path == path && !Unreadable(files, base[i].path);
    }
  }

  // ---------- sealing ----------

  predicate Matches(files: Files, e: Entry) {
    e.ref in files && Readable(files[e.ref]) && e.size == |files[e.ref].content| && e.sha == Sha(files[e.ref].content)
  }

  function Sealed(files: Files, e: Entry): Entry {
    if e.formal && e.ref in files && Readable(files[e.ref]) then InlineEntry(e.path, files[e.ref].content) else e
  }

  /** sealDynamicFormalWorkspaceEntries of a dynamic product-thread run. */
  method SealEntries(files: Files, entries: seq<Entry>) returns (sealed: seq<Entry>, ok: bool)
    ensures ok <==> forall i :: 0 <= i < |entries| && entries[i].formal ==> Matches(files, entries[i])
    ensures ok ==> |sealed| == |entries| && forall i :: 0 <= i < |entries| ==> sealed[i] == Sealed(files, entries[i])
  {
    sealed, ok := entries, true;
    for i := 0 to |entries|
      invariant |sealed| == |entries| && sealed[i..] == entries[i..]
      invariant forall j :: 0 <= j < i ==> sealed[j] == Sealed(files, entries[j])
      invariant forall j :: 0 <= j < i && entries[j].formal ==> Matches(files, entries[j])
    {
      var entry := entries[i];
      if entry.formal {
        var read := ReadEntry(files, entry.ref);
        if read.None? || read.value.None? || entry.size != |files[entry.ref].content| || entry.sha != Sha(files[entry.ref].content) {
          return sealed, false;
        }
        sealed := sealed[i := InlineEntry(entry.path, files[entry.ref].content)];
      }
    }
  }

  /** The files may have changed since the package was composed. If sealing accepts them,
      every entry keeps its path, size and hash, nothing refers to a file any more, and
      what was sealed is, byte for byte, what was composed. */
  lemma SealedIsWhatWasComposed(before: Files, now: Files, path: string)
    requires path in before && Readable(before[path])
    requires Matches(now, FormalEntry(path, before[path].content))
    ensures var e := FormalEntry(path, before[path].content); var sealed := Sealed(now, e);
            && sealed.inlined == before[path].content && !sealed.formal
            && sealed.path == e.path && sealed.size == e.size && sealed.sha == e.sha
  {
    var was, found := before[path].content, now[path].content;
    assert Sha(was)[7..] == was && Sha(found)[7..] == found;
  }
}
