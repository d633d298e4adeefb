/**
 The materializer (`apply_structure` in scaffold.py) over an abstract
 filesystem: the set of paths that exist. `exists` is membership,
 `mkdir(parents=True, exist_ok=True)` adds a path and all its ancestors, and
 `touch` adds a path.
 */
module Materializer {
  import opened PathBuilder

  datatype Action = Created | Exists | Skipped | Overwritten | DryRun

  /** `ItemResult`: one per build target. */
  datatype ItemResult = ItemResult(path: Path, created: bool, kind: Kind, action: Action)

  /** The three flags `apply_structure` takes. */
  datatype Config = Config(createFiles: bool, force: bool, dryRun: bool)

  /** The results of a run and the filesystem it leaves. */
  datatype Run = Run(results: seq<ItemResult>, fs: set<Path>)

  /** A path and every directory above it. */
  function Ancestors(p: Path): (a: set<Path>)
    ensures forall q :: q in a <==> q <= p
  {
    assert forall q :: q <= p ==> q == p[..|q|];
    set i | 0 <= i <= |p| :: p[..i]
  }

  /** `path.parent`; the root is its own parent. */
  function Parent(p: Path): (q: Path)
    ensures q <= p
    ensures p != [] ==> q + [p[|p| - 1]] == p
  {
    if p == [] then [] else p[..|p| - 1]
  }

  /** `mkdir(parents=True, exist_ok=True)` */
  function MakeDirs(fs: set<Path>, p: Path): (r: set<Path>)
    ensures forall q :: q in r <==> q in fs || q <= p
  {
    fs + Ancestors(p)
  }

  /** One iteration of the loop in `apply_structure`: the result for target
      `t` on filesystem `fs`, and the filesystem afterwards. */
  function ApplyOne(fs: set<Path>, t: Target, cfg: Config): (ItemResult, set<Path>) {
    var p := t.path;
    match t.kind
    case Dir =>
      if cfg.dryRun then (ItemResult(p, p !in fs, Dir, DryRun), fs)
      else if p in fs then (ItemResult(p, false, Dir, Exists), fs)
      else (ItemResult(p, true, Dir, Created), MakeDirs(fs, p))
    case File =>
      if !cfg.createFiles then (ItemResult(p, false, File, Skipped), fs)
      else if cfg.dryRun then (ItemResult(p, p !in fs, File, DryRun), fs)
      else
        var fs' := MakeDirs(fs, Parent(p));
        if p in fs' then
          if cfg.force then (ItemResult(p, false, File, Overwritten), fs')
          else (ItemResult(p, false, File, Exists), fs')
        else (ItemResult(p, true, File, Created), fs' + {p})
  }

  /** `apply_structure` on the targets `built`, from filesystem `fs`. */
  function ApplyAll(fs: set<Path>, built: seq<Target>, cfg: Config): Run
    decreases |built|
  {
    if built == [] then Run([], fs)
    else
      var (r, fs') := ApplyOne(fs, built[0], cfg);
      var rest := ApplyAll(fs', built[1..], cfg);
      Run([r] + rest.results, rest.fs)
  }

  /** The filesystem, as the set of paths that exist. */
  class FileSystem {
    var existing: set<Path>

    constructor (initial: set<Path>)
      ensures existing == initial
    {
      existing := initial;
    }

    /** `path.exists()` */
    method PathExists(p: Path) returns (b: bool)
      ensures b <==> p in existing
    {
      b := p in existing;
    }

    /** `path.mkdir(parents=True, exist_ok=True)` */
    method MakeDirsOf(p: Path)
      modifies this
      ensures existing == MakeDirs(old(existing), p)
    {
      existing := existing + Ancestors(p);
    }

    /** `path.touch(exist_ok=True)` */
    method Touch(p: Path)
      modifies this
      ensures existing == old(existing) + {p}
    {
      existing := existing + {p};
    }

    /** `apply_structure`: one result per target, in order, the filesystem
        updated as the real one would be. */
    method ApplyStructure(built: seq<Target>, createFiles: bool, force: bool, dryRun: bool)
      returns (results: seq<ItemResult>)
      modifies this
      ensures ApplyAll(old(existing), built, Config(createFiles, force, dryRun)) == Run(results, existing)
    {
      var cfg := Config(createFiles, force, dryRun);
      results := [];
      for k := 0 to |built|
        invariant var rest := ApplyAll(existing, built[k..], cfg);
                  ApplyAll(old(existing), built, cfg) == Run(results + rest.results, rest.fs)
      {
        assert built[k..][1..] == built[k + 1..];
        ghost var one := ApplyOne(existing, built[k], cfg);
        var r := ApplyItem(built[k], cfg);
        assert r == one.0 && existing == one.1;
        results := results + [r];
      }
      assert built[|built|..] == [];
    }

    /** The body of the loop in `apply_structure` for one target. */
    method ApplyItem(t: Target, cfg: Config) returns (r: ItemResult)
      modifies this
      ensures (r, existing) == ApplyOne(old(existing), t, cfg)
    {
      var path := t.path;
      if t.kind == Dir {
        if cfg.dryRun {
          var e := PathExists(path);
          return ItemResult(path, !e, Dir, DryRun);
        }
        var e := PathExists(path);
        if e {
          r := ItemResult(path, false, Dir, Exists);
        } else {
          MakeDirsOf(path);
          r := ItemResult(path, true, Dir, Created);
        }
        return;
      }
      if !cfg.createFiles {
        return ItemResult(path, false, File, Skipped);
      }
      if cfg.dryRun {
        var e := PathExists(path);
        return ItemResult(path, !e, File, DryRun);
      }
      MakeDirsOf(Parent(path));
      var e := PathExists(path);
      if e {
        if cfg.force {
          // The content rewrite of the source is a no-op on the abstract filesystem.
          r := ItemResult(path, false, File, Overwritten);
        } else {
          r := ItemResult(path, false, File, Exists);
        }
      } else {
        Touch(path);
        r := ItemResult(path, true, File, Created);
      }
    }
  }

  /** One result per target, in order, with the target's path and kind. */
  lemma {:induction false} ApplyAllShape(fs: set<Path>, built: seq<Target>, cfg: Config)
    ensures var rs := ApplyAll(fs, built, cfg).results;
            && |rs| == |built|
            && forall k :: 0 <= k < |built| ==> rs[k].path == built[k].path && rs[k].kind == built[k].kind
    decreases |built|
  {
    if built != [] {
      ApplyAllShape(ApplyOne(fs, built[0], cfg).1, built[1..], cfg);
    }
  }

  /** Paths are only ever added. */
  lemma {:induction false} ApplyAllGrows(fs: set<Path>, built: seq<Target>, cfg: Config)
    ensures fs <= ApplyAll(fs, built, cfg).fs
    decreases |built|
  {
    if built != [] {
      ApplyAllGrows(ApplyOne(fs, built[0], cfg).1, built[1..], cfg);
    }
  }

  /** With file creation off, every file target is skipped, whatever the other
      flags say. */
  lemma {:induction false} FilesSkipped(fs: set<Path>, built: seq<Target>, cfg: Config)
    requires !cfg.createFiles
    ensures var rs := ApplyAll(fs, built, cfg).results;
            |rs| == |built| &&
            forall k :: 0 <= k < |built| && built[k].kind == File ==>
              rs[k] == ItemResult(built[k].path, false, File, Skipped)
    decreases |built|
  {
    if built != [] {
      FilesSkipped(ApplyOne(fs, built[0], cfg).1, built[1..], cfg);
    }
  }

  /** A dry run changes nothing; every target that is not a skipped file
      reports `DryRun`, predicting creation exactly when the path is missing. */
  lemma {:induction false} DryRunIsPure(fs: set<Path>, built: seq<Target>, cfg: Config)
    requires cfg.dryRun
    ensures var run := ApplyAll(fs, built, cfg);
            && run.fs == fs
            && |run.results| == |built|
            && forall k :: 0 <= k < |built| ==>
                 if built[k].kind == File && !cfg.createFiles
                 then run.results[k].action == Skipped
                 else run.results[k].action == DryRun && (run.results[k].created <==> built[k].path !in fs)
    decreases |built|
  {
    if built != [] {
      DryRunIsPure(fs, built[1..], cfg);
    }
  }

  /** Outside dry runs, `created` is set exactly on `Created` results, a
      `Created` path did not exist beforehand, and no result is `DryRun`. */
  lemma {:induction false} CreatedMeansNew(fs: set<Path>, built: seq<Target>, cfg: Config)
    requires !cfg.dryRun
    ensures var rs := ApplyAll(fs, built, cfg).results;
            && |rs| == |built|
            && forall k :: 0 <= k < |built| ==>
                 && rs[k].action != DryRun
                 && (rs[k].created <==> rs[k].action == Created)
                 && (rs[k].action == Created ==> built[k].path !in fs)
    decreases |built|
  {
    if built != [] {
      var fs' := ApplyOne(fs, built[0], cfg).1;
      CreatedMeansNew(fs', built[1..], cfg);
      ApplyAllGrows(fs, [built[0]], cfg);
    }
  }

  /** The filesystem a run leaves when every target is in place: directories
      exist, and so do files (with their parent directories) if files are made. */
  ghost predicate Settled(fs: set<Path>, built: seq<Target>, createFiles: bool) {
    forall k :: 0 <= k < |built| ==>
      && (built[k].kind == Dir ==> built[k].path in fs)
      && (built[k].kind == File && createFiles ==> built[k].path in fs && Ancestors(Parent(built[k].path)) <= fs)
  }

  /** A run that is not a dry run leaves every target in place. */
  lemma {:induction false} ApplyAllSettles(fs: set<Path>, built: seq<Target>, cfg: Config)
    requires !cfg.dryRun
    ensures Settled(ApplyAll(fs, built, cfg).fs, built, cfg.createFiles)
    decreases |built|
  {
    if built != [] {
      var fs' := ApplyOne(fs, built[0], cfg).1;
      ApplyAllSettles(fs', built[1..], cfg);
      ApplyAllGrows(fs', built[1..], cfg);
      var end := ApplyAll(fs, built, cfg).fs;
      assert built[0].path in Ancestors(built[0].path) by {
        assert built[0].path[..|built[0].path|] == built[0].path;
      }
      forall k | 1 <= k < |built|
        ensures built[k].kind == Dir ==> built[k].path in end
        ensures built[k].kind == File && cfg.createFiles ==>
                  built[k].path in end && Ancestors(Parent(built[k].path)) <= end
      {
        assert built[k] == built[1..][k - 1];
      }
    }
  }

  /** On a settled filesystem a run that is not a dry run changes nothing:
      directories report `Exists`, files `Skipped` when they are not made and
      otherwise `Overwritten` under `force` and `Exists` without it. */
  lemma {:induction false} SettledRunChangesNothing(fs: set<Path>, built: seq<Target>, cfg: Config)
    requires !cfg.dryRun && Settled(fs, built, cfg.createFiles)
    ensures var run := ApplyAll(fs, built, cfg);
            && run.fs == fs
            && |run.results| == |built|
            && forall k :: 0 <= k < |built| ==>
                 run.results[k].action ==
                   if built[k].kind == Dir then Exists
                   else if !cfg.createFiles then Skipped
                   else if cfg.force then Overwritten
                   else Exists
    decreases |built|
  {
    if built != [] {
      assert Settled(fs, built[1..], cfg.createFiles) by {
        forall k | 0 <= k < |built| - 1 ensures built[1..][k] == built[k + 1] { }
      }
      assert ApplyOne(fs, built[0], cfg).1 == fs by {
        assert built[0].kind == File && cfg.createFiles ==> Ancestors(Parent(built[0].path)) <= fs;
      }
      SettledRunChangesNothing(fs, built[1..], cfg);
    }
  }

  /** Idempotence: a second run with the same file setting, without `force`
      and not a dry run, on what the first non-dry run left, reports only
      `Exists` and `Skipped`, never `Created`, and changes nothing. */
  lemma SecondRunCreatesNothing(fs: set<Path>, built: seq<Target>, first: Config, second: Config)
    requires !first.dryRun
    requires second == Config(first.createFiles, false, false)
    ensures var fs1 := ApplyAll(fs, built, first).fs;
            var run := ApplyAll(fs1, built, second);
            && run.fs == fs1
            && |run.results| == |built|
            && forall k :: 0 <= k < |built| ==> run.results[k].action in {Exists, Skipped}
  {
    ApplyAllSettles(fs, built, first);
    SettledRunChangesNothing(ApplyAll(fs, built, first).fs, built, second);
  }
}
