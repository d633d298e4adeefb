/**
 The whole pipeline of scaffold.py (`parse_lines`, then `build_paths`, then
 `apply_structure`, then the tallies of `report`) as one function, and the
 five-line outline
     src/
       main.py
       utils/
         helpers.py
     README.md
 worked through it on an empty destination.
 */
module Scenario {
  import opened Text
  import opened Parser
  import opened PathBuilder
  import opened Materializer
  import opened Report

  /** What one run does: the results and the filesystem it leaves. */
  function Scaffold(specText: string, indentSize: nat, root: Path, fs: set<Path>, cfg: Config): Run
    requires indentSize > 0
  {
    ApplyAll(fs, Build(ParseAll(SplitLines(specText), indentSize), root), cfg)
  }

  /** A name made of ASCII letters, '.', '/', and the punctuation between 'Z'
      and 'a', is well formed. */
  lemma PlainNameWellFormed(name: string)
    requires name != []
    requires forall i :: 0 <= i < |name| ==> ('A' <= name[i] <= 'z') || name[i] == '.' || name[i] == '/'
    ensures WellFormedName(name)
  {
  }

  /** Rendering the five items with two spaces per level gives the five lines. */
  lemma ScenarioRender(items: seq<Item>)
    requires items == [Item(0, "src/"), Item(1, "main.py"), Item(1, "utils/"), Item(2, "helpers.py"), Item(0, "README.md")]
    ensures RenderAll(items, 2) == ["src/", "  main.py", "  utils/", "    helpers.py", "README.md"]
  {
    var lines := RenderAll(items, 2);
    assert Spaces(0) == "" && Spaces(2) == "  " && Spaces(4) == "    ";
    assert lines[0] == "src/";
    assert lines[1] == "  main.py";
    assert lines[2] == "  utils/";
    assert lines[3] == "    helpers.py";
    assert lines[4] == "README.md";
  }

  /** The outline's text parses to its five items. */
  lemma ScenarioParses(text: string, items: seq<Item>)
    requires text == JoinLines(["src/", "  main.py", "  utils/", "    helpers.py", "README.md"])
    requires items == [Item(0, "src/"), Item(1, "main.py"), Item(1, "utils/"), Item(2, "helpers.py"), Item(0, "README.md")]
    ensures ParseAll(SplitLines(text), 2) == items
  {
    forall k | 0 <= k < |items| ensures WellFormedName(items[k].name) {
      PlainNameWellFormed(items[k].name);
    }
    ScenarioRender(items);
    ParseRendered(items, 2);
  }

  /** A directory item at the depth of the open directories opens a new one
      inside the deepest. */
  lemma StepOpens(stack: seq<Path>, item: Item, name: string)
    requires |stack| > 0 && item.level == |stack| - 1
    requires item.name == name + "/" && IsSegment(name)
    ensures var top := stack[|stack| - 1];
            StepOf(stack, item) == Step(Target(top + [name], Dir), stack + [top + [name]])
  {
    assert Clean(item.name) == name;
  }

  /** A file item at the depth of the open directories goes inside the
      deepest and leaves the stack alone. */
  lemma StepAdds(stack: seq<Path>, item: Item)
    requires |stack| > 0 && item.level == |stack| - 1
    requires !EndsWithSlash(item.name) && IsSegment(item.name)
    ensures var top := stack[|stack| - 1];
            StepOf(stack, item) == Step(Target(top + [item.name], File), stack)
  {
  }

  /** A file item at level 0 goes directly under the root. */
  lemma StepAddsAtTop(stack: seq<Path>, item: Item)
    requires |stack| > 0 && item.level == 0
    requires !EndsWithSlash(item.name) && IsSegment(item.name)
    ensures StepOf(stack, item).target == Target(stack[0] + [item.name], File)
  {
  }

  /** The five items, written with any names of the same shape, give a
      directory, a file inside it, a subdirectory, a file inside that, and a
      file back at the top. */
  lemma ScenarioBuilds(items: seq<Item>, root: Path, src: string, main: string, utils: string, helpers: string, readme: string)
    requires IsSegment(src) && IsSegment(utils)
    requires IsSegment(main) && IsSegment(helpers) && IsSegment(readme)
    requires !EndsWithSlash(main) && !EndsWithSlash(helpers) && !EndsWithSlash(readme)
    requires items == [Item(0, src + "/"), Item(1, main), Item(1, utils + "/"), Item(2, helpers), Item(0, readme)]
    ensures Build(items, root) ==
            [ Target(root + [src], Dir), Target(root + [src, main], File), Target(root + [src, utils], Dir)
            , Target(root + [src, utils, helpers], File), Target(root + [readme], File) ]
  {
    var d1 := root + [src];
    var d2 := d1 + [utils];
    StepOpens([root], items[0], src);
    var st1 := [root, d1];
    assert [root] + [d1] == st1;
    StepAdds(st1, items[1]);
    StepOpens(st1, items[2], utils);
    var st3 := [root, d1, d2];
    assert st1 + [d2] == st3;
    StepAdds(st3, items[3]);
    StepAddsAtTop(st3, items[4]);
    var t5 := Target(root + [readme], File);
    assert items[4..][1..] == [];
    assert BuildFrom(items[4..], st3) == [t5];
    assert items[3..][1..] == items[4..];
    assert BuildFrom(items[3..], st3) == [Target(d2 + [helpers], File), t5];
    assert items[2..][1..] == items[3..];
    assert BuildFrom(items[2..], st1) == [Target(d2, Dir), Target(d2 + [helpers], File), t5];
    assert items[1..][1..] == items[2..];
    assert BuildFrom(items[1..], st1) == [Target(d1 + [main], File), Target(d2, Dir), Target(d2 + [helpers], File), t5];
    assert BuildFrom(items, [root]) == [Target(d1, Dir)] + BuildFrom(items[1..], st1);
    assert d1 + [main] == root + [src, main] && d2 == root + [src, utils];
    assert d2 + [helpers] == root + [src, utils, helpers];
  }

  /** A path that does not lie along `x` is not one of the directories a
      recursive `mkdir` of `x` makes. */
  lemma NotUnder(p: Path, x: Path)
    requires |p| > |x| || (|p| <= |x| && p != x[..|p|])
    ensures p !in Ancestors(x)
  {
  }

  /** With the default flags, a missing target other than the root is
      created, and the filesystem gains the target and its ancestors. */
  lemma CreatesMissing(fs: set<Path>, t: Target, cfg: Config)
    requires cfg == Config(true, false, false)
    requires t.path != [] && t.path !in fs
    ensures ApplyOne(fs, t, cfg) == (ItemResult(t.path, true, t.kind, Created), fs + Ancestors(t.path))
  {
    if t.kind == File {
      var p := t.path;
      assert forall q :: q in Ancestors(p) ==> q in Ancestors(Parent(p)) || q == p;
      assert MakeDirs(fs, Parent(p)) + {p} == fs + Ancestors(p);
    }
  }

  /** Each target of the outline's shape is missing from what the run has
      made before it. */
  lemma ScenarioFresh(root: Path, src: string, main: string, utils: string, helpers: string, readme: string)
    requires main != utils && readme != src
    ensures var p1, p2, p3, p4, p5 := root + [src], root + [src, main], root + [src, utils], root + [src, utils, helpers], root + [readme];
            && var fs1 := Ancestors(root) + Ancestors(p1);
            && var fs3 := fs1 + Ancestors(p2) + Ancestors(p3);
            && p1 !in Ancestors(root)
            && p2 !in fs1
            && p3 !in fs1 + Ancestors(p2)
            && p4 !in fs3
            && p5 !in fs3 + Ancestors(p4)
  {
    var p1, p2, p3, p4, p5 := root + [src], root + [src, main], root + [src, utils], root + [src, utils, helpers], root + [readme];
    var n := |root|;
    NotUnder(p1, root);
    NotUnder(p2, root); NotUnder(p2, p1);
    NotUnder(p3, root); NotUnder(p3, p1);
    assert p3[n + 1] == utils && p2[n + 1] == main;
    NotUnder(p3, p2);
    NotUnder(p4, root); NotUnder(p4, p1); NotUnder(p4, p2); NotUnder(p4, p3);
    assert p5[n] == readme && p1[n] == src && p2[n] == src && p3[n] == src && p4[n] == src;
    NotUnder(p5, root); NotUnder(p5, p1); NotUnder(p5, p2); NotUnder(p5, p3); NotUnder(p5, p4);
  }

  /** With the default flags, a run whose first target is missing creates it
      and goes on from the filesystem that gains it and its ancestors. */
  lemma CreatesFirst(fs: set<Path>, built: seq<Target>, cfg: Config)
    requires cfg == Config(true, false, false)
    requires built != [] && built[0].path != [] && built[0].path !in fs
    ensures var rest := ApplyAll(fs + Ancestors(built[0].path), built[1..], cfg);
            ApplyAll(fs, built, cfg).results == [ItemResult(built[0].path, true, built[0].kind, Created)] + rest.results
  {
    CreatesMissing(fs, built[0], cfg);
  }

  /** With the default flags, five targets each missing from what the run has
      made before them are all created. */
  lemma CreatesFive(fs0: set<Path>, built: seq<Target>, cfg: Config)
    requires cfg == Config(true, false, false)
    requires |built| == 5 && forall k :: 0 <= k < 5 ==> built[k].path != []
    requires var fs1 := fs0 + Ancestors(built[0].path);
             var fs3 := fs1 + Ancestors(built[1].path) + Ancestors(built[2].path);
             && built[0].path !in fs0
             && built[1].path !in fs1
             && built[2].path !in fs1 + Ancestors(built[1].path)
             && built[3].path !in fs3
             && built[4].path !in fs3 + Ancestors(built[3].path)
    ensures var rs := ApplyAll(fs0, built, cfg).results;
            && |rs| == 5
            && forall k :: 0 <= k < 5 ==> rs[k] == ItemResult(built[k].path, true, built[k].kind, Created)
  {
    var b1 := built[1..];
    var b2 := b1[1..];
    var b3 := b2[1..];
    var b4 := b3[1..];
    assert b1[0] == built[1] && b2[0] == built[2] && b3[0] == built[3];
    assert b4 == [built[4]] && b4[1..] == [];
    var fs1 := fs0 + Ancestors(built[0].path);
    var fs2 := fs1 + Ancestors(built[1].path);
    var fs3 := fs2 + Ancestors(built[2].path);
    var fs4 := fs3 + Ancestors(built[3].path);
    CreatesFirst(fs0, built, cfg);
    CreatesFirst(fs1, b1, cfg);
    CreatesFirst(fs2, b2, cfg);
    CreatesFirst(fs3, b3, cfg);
    CreatesFirst(fs4, b4, cfg);
    var rs := ApplyAll(fs0, built, cfg).results;
    var r := seq(5, k requires 0 <= k < 5 => ItemResult(built[k].path, true, built[k].kind, Created));
    assert rs == [r[0]] + ([r[1]] + ([r[2]] + ([r[3]] + ([r[4]] + []))));
  }

  /** On a destination that exists and is empty, with the default flags,
      every target of the outline's shape is created. */
  lemma ScenarioApplies(built: seq<Target>, root: Path, src: string, main: string, utils: string, helpers: string, readme: string)
    requires main != utils && readme != src
    requires built ==
             [ Target(root + [src], Dir), Target(root + [src, main], File), Target(root + [src, utils], Dir)
             , Target(root + [src, utils, helpers], File), Target(root + [readme], File) ]
    ensures var rs := ApplyAll(Ancestors(root), built, Config(true, false, false)).results;
            && |rs| == 5
            && forall k :: 0 <= k < 5 ==> rs[k] == ItemResult(built[k].path, true, built[k].kind, Created)
  {
    ScenarioFresh(root, src, main, utils, helpers, readme);
    CreatesFive(Ancestors(root), built, Config(true, false, false));
  }

  /** The outline, one line each followed by a line feed, with indentation 2, under a destination that exists and is
      empty, with the default flags: the five targets in order, all created,
      and a report of 2 directories and 3 files created, nothing existing,
      overwritten or skipped, and no dry-run banner. */
  lemma SpecScenario(lines: seq<string>, text: string, root: Path, expected: seq<Target>)
    requires lines == ["src/", "  main.py", "  utils/", "    helpers.py", "README.md"]
    requires text == JoinLines(lines)
    requires expected ==
             [ Target(root + ["src"], Dir), Target(root + ["src", "main.py"], File), Target(root + ["src", "utils"], Dir)
             , Target(root + ["src", "utils", "helpers.py"], File), Target(root + ["README.md"], File) ]
    ensures Build(ParseAll(SplitLines(text), 2), root) == expected
    ensures var rs := Scaffold(text, 2, root, Ancestors(root), Config(true, false, false)).results;
            && |rs| == 5
            && (forall k :: 0 <= k < 5 ==> rs[k] == ItemResult(expected[k].path, true, expected[k].kind, Created))
            && Tallies(rs) == Tally(2, 3, 0, 0, 0, false)
  {
    var items := [Item(0, "src/"), Item(1, "main.py"), Item(1, "utils/"), Item(2, "helpers.py"), Item(0, "README.md")];
    ScenarioParses(text, items);
    assert "src" + "/" == "src/" && "utils" + "/" == "utils/";
    ScenarioBuilds(items, root, "src", "main.py", "utils", "helpers.py", "README.md");
    ScenarioApplies(expected, root, "src", "main.py", "utils", "helpers.py", "README.md");
    var rs := ApplyAll(Ancestors(root), expected, Config(true, false, false)).results;
    TallyScenario(rs);
  }

  /** A tally over five results is the number of them that qualify. */
  lemma CountFive(rs: seq<ItemResult>, p: ItemResult -> bool)
    requires |rs| == 5
    ensures Count(rs, p) ==
            (if p(rs[0]) then 1 else 0) + (if p(rs[1]) then 1 else 0) + (if p(rs[2]) then 1 else 0)
            + (if p(rs[3]) then 1 else 0) + (if p(rs[4]) then 1 else 0)
  {
    assert rs[4..][1..] == [];
    assert Count(rs[4..], p) == if p(rs[4]) then 1 else 0;
    assert rs[3..][1..] == rs[4..];
    assert Count(rs[3..], p) == (if p(rs[3]) then 1 else 0) + Count(rs[4..], p);
    assert rs[2..][1..] == rs[3..];
    assert Count(rs[2..], p) == (if p(rs[2]) then 1 else 0) + Count(rs[3..], p);
    assert rs[1..][1..] == rs[2..];
    assert Count(rs[1..], p) == (if p(rs[1]) then 1 else 0) + Count(rs[2..], p);
  }

  /** Five created results, two directories and then three files, count as
      two created directories and three created files. */
  lemma CreatedCounts(rs: seq<ItemResult>)
    requires |rs| == 5
    requires forall k :: 0 <= k < 5 ==> rs[k].created && rs[k].action == Created
    requires rs[0].kind == Dir && rs[2].kind == Dir
    requires rs[1].kind == File && rs[3].kind == File && rs[4].kind == File
    ensures Count(rs, CreatedDir) == 2 && Count(rs, CreatedFile) == 3
  {
    CountFive(rs, CreatedDir);
    CountFive(rs, CreatedFile);
  }

  /** Created results count under no other tally and raise no dry-run flag. */
  lemma NothingElseCounted(rs: seq<ItemResult>)
    requires forall k :: 0 <= k < |rs| ==> rs[k].action == Created
    ensures Count(rs, Existed) == 0 && Count(rs, WasOverwritten) == 0 && Count(rs, SkippedFile) == 0
    ensures !AnyDryRun(rs)
  {
  }

  /** The tallies of five created results: two directories, then three files. */
  lemma TallyScenario(rs: seq<ItemResult>)
    requires |rs| == 5
    requires forall k :: 0 <= k < 5 ==> rs[k].created && rs[k].action == Created
    requires rs[0].kind == Dir && rs[2].kind == Dir
    requires rs[1].kind == File && rs[3].kind == File && rs[4].kind == File
    ensures Tallies(rs) == Tally(2, 3, 0, 0, 0, false)
  {
    CreatedCounts(rs);
    NothingElseCounted(rs);
  }
}
