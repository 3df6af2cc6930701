/**
 * The `generate` callback given to the manifest plugin: it folds the
 * emitted files into a name-to-path object over the seed, and keeps the
 * `main` entrypoint's files that are not source maps.
 */
module Manifest {
  import opened Wrappers
  import opened Strings

  /** One emitted file, as the plugin describes it (only the fields the
      callback reads). */
  datatype FileDescriptor = FileDescriptor(name: string, path: string)

  datatype Manifest = Manifest(files: map<string, string>, entrypoints: seq<string>)

  const MapMarker := ".map"
  const MainEntry := "main"

  function FileNames(files: seq<FileDescriptor>): set<string>
  {
    set i | 0 <= i < |files| :: files[i].name
  }

  /** Folds the emitted files over the seed from first to last, each one
      writing its path under its name, so a later name overwrites an earlier one. */
  function ManifestFiles(seed: map<string, string>, files: seq<FileDescriptor>): (m: map<string, string>)
    ensures m.Keys == seed.Keys + FileNames(files)
    decreases |files|
  {
    if files == [] then seed
    else
      assert FileNames(files) == {files[0].name} + FileNames(files[1..]) by {
        forall k | k in FileNames(files) ensures k in {files[0].name} + FileNames(files[1..]) {
          var i :| 0 <= i < |files| && files[i].name == k;
          if i > 0 { assert files[1..][i - 1].name == k; }
        }
        forall k | k in FileNames(files[1..]) ensures k in FileNames(files) {
          var i :| 0 <= i < |files[1..]| && files[1..][i].name == k;
          assert files[i + 1].name == k;
        }
      }
      ManifestFiles(seed[files[0].name := files[0].path], files[1..])
  }

  /** A name maps to the path of its last occurrence. */
  lemma {:induction false} ManifestFilesLastWins(seed: map<string, string>, files: seq<FileDescriptor>, i: nat)
    requires i < |files|
    requires forall j :: i < j < |files| ==> files[j].name != files[i].name
    ensures ManifestFiles(seed, files)[files[i].name] == files[i].path
    decreases |files|
  {
    var next := seed[files[0].name := files[0].path];
    if i == 0 {
      ManifestFilesKeepsSeed(next, files[1..], files[0].name);
    } else {
      assert files[1..][i - 1] == files[i];
      ManifestFilesLastWins(next, files[1..], i - 1);
    }
  }

  /** A seed entry that no emitted file names keeps its seed value. */
  lemma {:induction false} ManifestFilesKeepsSeed(seed: map<string, string>, files: seq<FileDescriptor>, name: string)
    requires name in seed
    requires forall j :: 0 <= j < |files| ==> files[j].name != name
    ensures ManifestFiles(seed, files)[name] == seed[name]
    decreases |files|
  {
    if files != [] {
      var next := seed[files[0].name := files[0].path];
      assert forall j :: 0 <= j < |files[1..]| ==> files[1..][j] == files[j + 1];
      ManifestFilesKeepsSeed(next, files[1..], name);
    }
  }

  /** Folding two batches of files one after the other is folding their
      concatenation. */
  lemma {:induction false} ManifestFilesAppend(seed: map<string, string>, a: seq<FileDescriptor>, b: seq<FileDescriptor>)
    ensures ManifestFiles(seed, a + b) == ManifestFiles(ManifestFiles(seed, a), b)
    decreases |a|
  {
    if a == [] {
      assert a + b == b;
    } else {
      assert (a + b)[0] == a[0] && (a + b)[1..] == a[1..] + b;
      ManifestFilesAppend(seed[a[0].name := a[0].path], a[1..], b);
    }
  }

  /** Keeps the files of the `main` entrypoint whose name does not contain
      ".map". The test is unanchored, so any file whose name contains ".map"
      anywhere is dropped, not only those that end with it. */
  function EntryFiles(main: seq<string>): (r: seq<string>)
    ensures |r| <= |main|
    ensures forall i :: 0 <= i < |r| ==> !Strings.Contains(r[i], MapMarker)
    ensures forall f :: f in r <==> f in main && !Strings.Contains(f, MapMarker)
  {
    if main == [] then []
    else if Strings.Contains(main[0], MapMarker) then EntryFiles(main[1..])
    else [main[0]] + EntryFiles(main[1..])
  }

  /** `a` is `b` with some elements removed and the rest in their order. */
  predicate IsSubsequence(a: seq<string>, b: seq<string>)
    decreases |b|
  {
    if a == [] then true
    else if b == [] then false
    else if a[0] == b[0] then IsSubsequence(a[1..], b[1..])
    else IsSubsequence(a, b[1..])
  }

  /** The kept files appear in the order the entrypoint lists them. */
  lemma {:induction false} EntryFilesKeepsOrder(main: seq<string>)
    ensures IsSubsequence(EntryFiles(main), main)
  {
    if main != [] {
      EntryFilesKeepsOrder(main[1..]);
      var rest := EntryFiles(main[1..]);
      if !Strings.Contains(main[0], MapMarker) {
        assert ([main[0]] + rest)[1..] == rest;
      } else if rest != [] {
        SubsequenceOfTail(rest, main);
      }
    }
  }

  /** Dropping the head of `b` keeps every subsequence of the rest. */
  lemma {:induction false} SubsequenceOfTail(a: seq<string>, b: seq<string>)
    requires b != [] && IsSubsequence(a, b[1..])
    ensures IsSubsequence(a, b)
    decreases |b|, 0
  {
    if a != [] && a[0] == b[0] {
      SubsequenceDropHead(a, b[1..]);
    }
  }

  lemma {:induction false} SubsequenceDropHead(a: seq<string>, b: seq<string>)
    requires a != [] && IsSubsequence(a, b)
    ensures IsSubsequence(a[1..], b)
    decreases |b|, 1
  {
    if a[0] == b[0] {
      if a[1..] != [] { SubsequenceOfTail(a[1..], b); }
    } else {
      SubsequenceDropHead(a, b[1..]);
      if a[1..] != [] { SubsequenceOfTail(a[1..], b); }
    }
  }

  /** The filter distributes over concatenation. */
  lemma {:induction false} EntryFilesAppend(a: seq<string>, b: seq<string>)
    ensures EntryFiles(a + b) == EntryFiles(a) + EntryFiles(b)
  {
    if a == [] {
      assert a + b == b;
    } else {
      assert (a + b)[0] == a[0] && (a + b)[1..] == a[1..] + b;
      EntryFilesAppend(a[1..], b);
    }
  }

  /** Filtering a second time changes nothing. */
  lemma {:induction false} EntryFilesIdempotent(main: seq<string>)
    ensures EntryFiles(EntryFiles(main)) == EntryFiles(main)
  {
    if main != [] {
      EntryFilesIdempotent(main[1..]);
      if !Strings.Contains(main[0], MapMarker) {
        assert ([main[0]] + EntryFiles(main[1..]))[1..] == EntryFiles(main[1..]);
      }
    }
  }

  /** The test is unanchored: a ".map" in the middle of a name drops the
      file too, while "map" without the dot does not. */
  lemma EntryFilesUnanchoredMapTest()
    ensures EntryFiles(["main.js", "main.js.map", "a.map.js", "sitemap.js"]) == ["main.js", "sitemap.js"]
  {
    ContainsAt("main.js.map", MapMarker, 7);
    ContainsAt("a.map.js", MapMarker, 1);
    NotContainsByPairs("main.js", MapMarker);
    NotContainsByPairs("sitemap.js", MapMarker);
    var xs := ["main.js", "main.js.map", "a.map.js", "sitemap.js"];
    assert xs[1..] == ["main.js.map", "a.map.js", "sitemap.js"];
    assert xs[1..][1..] == ["a.map.js", "sitemap.js"];
    assert xs[1..][1..][1..] == ["sitemap.js"];
  }

  /** The callback. Reading `.filter` of a missing `main` entrypoint throws,
      which is `None` here. */
  function Generate(seed: map<string, string>, files: seq<FileDescriptor>, entrypoints: map<string, seq<string>>): (r: Option<Manifest>)
    ensures r.None? <==> MainEntry !in entrypoints
    ensures r.Some? ==> r.value.files.Keys == seed.Keys + FileNames(files)
    ensures r.Some? ==> forall i :: 0 <= i < |r.value.entrypoints| ==> !Strings.Contains(r.value.entrypoints[i], MapMarker)
    ensures r.Some? ==> IsSubsequence(r.value.entrypoints, entrypoints[MainEntry])
    ensures r.Some? ==> forall f :: f in r.value.entrypoints <==> f in entrypoints[MainEntry] && !Strings.Contains(f, MapMarker)
    ensures r.Some? ==> r.value.files == ManifestFiles(seed, files) && r.value.entrypoints == EntryFiles(entrypoints[MainEntry])
  {
    if MainEntry !in entrypoints then None
    else
      EntryFilesKeepsOrder(entrypoints[MainEntry]);
      Some(Manifest(ManifestFiles(seed, files), EntryFiles(entrypoints[MainEntry])))
  }
}
