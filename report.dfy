/**
 The counting part of `report` in scaffold.py: five tallies over the result
 list, the flag saying whether any result was a dry run, and the map from an
 action to the one-character marker of its report line.
 */
module Report {
  import opened Parser
  import opened PathBuilder
  import opened Materializer

  /** How many of `rs` satisfy `p` (`sum(1 for r in rs if p(r))`). */
  function Count(rs: seq<ItemResult>, p: ItemResult -> bool): (n: nat)
    ensures n <= |rs|
    ensures n == 0 <==> forall k :: 0 <= k < |rs| ==> !p(rs[k])
    ensures n == |rs| <==> forall k :: 0 <= k < |rs| ==> p(rs[k])
  {
    if rs == [] then 0
    else
      assert forall k :: 1 <= k < |rs| ==> rs[k] == rs[1..][k - 1];
      (if p(rs[0]) then 1 else 0) + Count(rs[1..], p)
  }

  /** A directory reported as created or as would-be created. */
  predicate CreatedDir(r: ItemResult) {
    r.kind == Dir && (r.action == Created || r.action == DryRun) && r.created
  }

  /** A file reported as created or as would-be created. */
  predicate CreatedFile(r: ItemResult) {
    r.kind == File && (r.action == Created || r.action == DryRun) && r.created
  }

  predicate SkippedFile(r: ItemResult) {
    r.kind == File && r.action == Skipped
  }

  predicate Existed(r: ItemResult) {
    r.action == Exists
  }

  predicate WasOverwritten(r: ItemResult) {
    r.action == Overwritten
  }

  /** The summary `report` prints. */
  datatype Tally = Tally(createdDirs: nat, createdFiles: nat, existed: nat, overwritten: nat, skippedFiles: nat, dry: bool)

  /** Whether some result reports a dry run: the flag that turns on the
      dry-run banner. */
  predicate AnyDryRun(rs: seq<ItemResult>) {
    exists k :: 0 <= k < |rs| && rs[k].action == DryRun
  }

  function Tallies(rs: seq<ItemResult>): Tally {
    Tally(Count(rs, CreatedDir), Count(rs, CreatedFile), Count(rs, Existed),
          Count(rs, WasOverwritten), Count(rs, SkippedFile), AnyDryRun(rs))
  }

  /** A result falls under exactly one of the five tallies. */
  predicate InOneTally(r: ItemResult) {
    (if CreatedDir(r) then 1 else 0) + (if CreatedFile(r) then 1 else 0) + (if Existed(r) then 1 else 0)
      + (if WasOverwritten(r) then 1 else 0) + (if SkippedFile(r) then 1 else 0) == 1
  }

  /** When every result falls under exactly one tally, the tallies add up to
      the number of results. */
  lemma {:induction false} TalliesPartition(rs: seq<ItemResult>)
    requires forall k :: 0 <= k < |rs| ==> InOneTally(rs[k])
    ensures var t := Tallies(rs);
            t.createdDirs + t.createdFiles + t.existed + t.overwritten + t.skippedFiles == |rs|
  {
    if rs != [] {
      assert forall k :: 0 <= k < |rs| - 1 ==> rs[1..][k] == rs[k + 1];
      TalliesPartition(rs[1..]);
    }
  }

  /** Outside dry runs the five tallies add up to the number of targets, and no
      result is counted as a dry run. */
  lemma WetRunTallies(fs: set<Path>, built: seq<Target>, cfg: Config)
    requires !cfg.dryRun
    ensures var t := Tallies(ApplyAll(fs, built, cfg).results);
            && t.createdDirs + t.createdFiles + t.existed + t.overwritten + t.skippedFiles == |built|
            && !t.dry
  {
    var rs := ApplyAll(fs, built, cfg).results;
    CreatedMeansNew(fs, built, cfg);
    forall k | 0 <= k < |rs| ensures InOneTally(rs[k]) {
      ItemResultWellKinded(fs, built, cfg, k);
    }
    TalliesPartition(rs);
  }

  /** Only files are ever skipped or overwritten. */
  lemma {:induction false} ItemResultWellKinded(fs: set<Path>, built: seq<Target>, cfg: Config, k: nat)
    requires k < |built|
    ensures var rs := ApplyAll(fs, built, cfg).results;
            k < |rs| && (rs[k].action == Skipped || rs[k].action == Overwritten ==> rs[k].kind == File)
    decreases |built|
  {
    ApplyAllShape(fs, built, cfg);
    if k > 0 {
      ItemResultWellKinded(ApplyOne(fs, built[0], cfg).1, built[1..], cfg, k - 1);
    }
  }

  /** The report shows the dry-run banner exactly when the run was a dry run
      with at least one target that is not a skipped file. */
  lemma DryFlag(fs: set<Path>, built: seq<Target>, cfg: Config)
    ensures Tallies(ApplyAll(fs, built, cfg).results).dry <==>
            cfg.dryRun && exists k :: 0 <= k < |built| && (built[k].kind == Dir || cfg.createFiles)
  {
    var rs := ApplyAll(fs, built, cfg).results;
    if cfg.dryRun {
      DryRunIsPure(fs, built, cfg);
      if AnyDryRun(rs) {
        var k :| 0 <= k < |rs| && rs[k].action == DryRun;
        assert built[k].kind == Dir || cfg.createFiles;
      }
      if exists k :: 0 <= k < |built| && (built[k].kind == Dir || cfg.createFiles) {
        var k :| 0 <= k < |built| && (built[k].kind == Dir || cfg.createFiles);
        assert rs[k].action == DryRun;
      }
    } else {
      WetRunTallies(fs, built, cfg);
    }
  }

  /** In a dry run nothing is reported as existing or overwritten, and the
      created tallies count the missing directory targets and, when files are
      made, the missing file targets. */
  lemma DryRunTallies(fs: set<Path>, built: seq<Target>, cfg: Config)
    requires cfg.dryRun
    ensures var rs, t := ApplyAll(fs, built, cfg).results, Tallies(ApplyAll(fs, built, cfg).results);
            && t.existed == 0 && t.overwritten == 0
            && |rs| == |built|
            && forall k :: 0 <= k < |built| ==>
                 && (CreatedDir(rs[k]) <==> built[k].kind == Dir && built[k].path !in fs)
                 && (CreatedFile(rs[k]) <==> built[k].kind == File && cfg.createFiles && built[k].path !in fs)
  {
    DryRunIsPure(fs, built, cfg);
    ApplyAllShape(fs, built, cfg);
  }

  /** The marker of a result line in the listing. */
  function Prefix(a: Action): (c: char)
    ensures c != '?' && ActionOfPrefix(c) == Some(a)
  {
    match a
    case Created => '+'
    case Exists => '='
    case Skipped => '-'
    case Overwritten => '!'
    case DryRun => '~'
  }

  /** Reading a marker back; '?' and every other character name no action. */
  function ActionOfPrefix(c: char): Option<Action> {
    match c
    case '+' => Some(Created)
    case '=' => Some(Exists)
    case '-' => Some(Skipped)
    case '!' => Some(Overwritten)
    case '~' => Some(DryRun)
    case _ => None
  }

  /** Different actions get different markers. */
  lemma PrefixInjective(a: Action, b: Action)
    ensures Prefix(a) == Prefix(b) ==> a == b
  {
    assert ActionOfPrefix(Prefix(a)) == Some(a);
  }
}
