# Project scaffolder, modelled in Dafny

`scaffold.py` turns an indented outline of a directory tree into real folders and
files. It runs in three stages:

1. The tree parser (`strip_comment`, `parse_lines`) turns the outline text into ordered `(level, name)` items.
2. The path builder (`build_paths`) resolves each item to a target path under the destination. It does this in one pass, keeping a stack of open directories.
3. The materializer (`apply_structure`) creates the missing directories and empty files and returns one `ItemResult` per target. `report` then counts the results and gives each one a one-character marker.

The project models each stage in the form the source uses.

- **`Text`** covers the Python string operations the parser relies on: `str.isspace`, `rstrip()`, `strip()`, `lstrip(" ")`, `split("#", 1)[0]` and `splitlines()`. They work on Dafny strings, which are sequences of Unicode scalar values.
- **`Parser`** models `strip_comment` as a function. The loop body of `parse_lines` is the function `ParseLine`, and `parse_lines` itself is the method `ParseLines`. Its loop is proved against `ParseAll`. Lemmas state the following:
  - item order follows line order;
  - blank and comment-only lines yield nothing;
  - the level is the number of leading spaces floor-divided by the indent size;
  - names are non-empty, trimmed, and free of `#` and of line breaks;
  - parsing the text written from well-formed items gives those items back.
- **`PathBuilder`** models a path as the sequence of its name segments. `build_paths` is the method `BuildPaths`. Its loop body, including the inner `while` pop loop, is the method `Advance`. Both are proved against the functional definition `Build`. The loop invariant `StackOver` says:
  - the stack is never empty;
  - its bottom entry is the root;
  - each entry extends the one below it.

  From the invariant, every target lies under the root.
- **`Materializer`** models the filesystem as the set of paths that exist.
  - The class `FileSystem` holds that set, and its method `ApplyStructure` is `apply_structure`.
  - `ApplyStructure` is proved against the function `ApplyAll`.
  - Lemmas about `ApplyAll` state:
    - the precedence of the rules;
    - dry-run purity;
    - that paths are only ever added;
    - that a run without `--dry-run` leaves every target in place;
    - idempotence of a second run.
- **`Report`** holds the five tallies and the dry-run flag of `report`, and the map from actions to markers.
- **`Scenario`** composes the three stages into one function. It works the five-line outline `src/`, `  main.py`, `  utils/`, `    helpers.py`, `README.md` through all of them.

The model follows `pathlib` in how a name is joined onto a path. Joining `""` or `"."` leaves the path unchanged. So the item `/` (which cleans to `""`) resolves to its parent directory. For the same reason a stack entry extends the one below it by at most one segment, and a target lies strictly below the root only when its cleaned name is a real segment.

The clamping step of `build_paths` (scaffold.py:58-59) assigns `level` but never reads it again. The parent is always the top of the popped stack, and the model says so.

One consequence of clamping: two consecutive items at the same level need not share a parent. Suppose the first is a directory that was clamped. It is pushed one level deeper than the level it was written at, so an item after it written at that same level nests inside it. In the outline `a/`, then `b/` (level 3), then `c` (level 3), the file `c` becomes `a/b/c`. `PathExamples.ClampedSiblingNests` works this example, and `PathBuilder.SameLevelSameParent` states the rule with that exception.

Two behaviours of `apply_structure` come from the order of its tests. The model follows that order.

- A dry run does not report `dry-run` for every target. The `--no-files` test (scaffold.py:97-99) comes before the dry-run test for files (scaffold.py:101-104), so under `--no-files` a file target still reports `skipped` in a dry run (`Materializer.DryRunIsPure`).
- A second identical run does not report every target as `exists`. The same `--no-files` test comes first there too, so under `--no-files` file targets report `skipped` on the second run as well (`Materializer.SecondRunCreatesNothing`).

## Model

| member | source | states |
|---|---|---|
| `Text.RStrip` | scaffold.py:23 | the result is a prefix of the input that does not end in whitespace, and everything the input has beyond it is whitespace |
| `Text.Strip` | scaffold.py:42 | the result has no whitespace at either end, is empty exactly when the input is blank, and is the slice of the input that starts after its leading whitespace |
| `Text.StripRemovesOnlyWhitespace` | scaffold.py:42 | what `strip()` removes, before and after the kept slice, is all whitespace |
| `Text.LeadingSpaces` | scaffold.py:38-39 | the count is the length of the run of space characters (not tabs) that starts the line |
| `Text.BeforeFirst` | scaffold.py:21-22 | the result is a prefix without `#`, and it is followed in the line by a `#` unless it is the whole line |
| `Text.IsSpace` | scaffold.py:34 | the characters Python's `str.isspace` accepts, listed in full (no contract of its own; used by `Strip` and `RStrip`) |
| `Text.IsLineBreak` | scaffold.py:32 | the characters `str.splitlines` breaks at, listed in full (no contract of its own; used by `SplitLines`) |
| `Text.SplitLines` | scaffold.py:32 | no line contains a line break, and there are no lines exactly when the text is empty |
| `Text.FirstBreakAfter` | scaffold.py:32 | the first break of a text is where its break-free start ends |
| `Text.SplitLinesOfLine` | scaffold.py:32 | a non-empty text without a line break is one line |
| `Text.SplitLinesAtBreak` | scaffold.py:32 | a break-free start, then a single-character break (a carriage return only when no line feed follows), then any rest, splits into the start followed by the lines of the rest |
| `Text.SplitLinesAtCrLf` | scaffold.py:32 | "\r\n" after a break-free start is one break: the start, then the lines of the rest |
| `Text.SplitJoinLines` | scaffold.py:32 | splitting text whose lines each end in a line feed gives back exactly those lines |
| `Parser.StripComment` | scaffold.py:20-23 | the result is a prefix of the line with no `#`, it does not end in whitespace, and it reaches the first `#` except for trailing whitespace |
| `Parser.FloorDiv` | scaffold.py:41 | `indent // indent_size` on naturals (no contract of its own; `FloorDivRoundsDown` states what it computes) |
| `Parser.FloorDivRoundsDown` | scaffold.py:41 | the quotient used for the level is the division of the indentation rounded down |
| `Parser.ParseLine` | scaffold.py:33-44 | one iteration of the loop in `parse_lines`: nothing, or one item (no contract of its own; `ParseLineMeaning` states what it yields) |
| `Parser.ParseLineMeaning` | scaffold.py:33-44 | a line yields nothing exactly when it is blank once its comment is cut; otherwise it yields the leading-space count floor-divided by the indent size, with the comment-free line trimmed at both ends |
| `Parser.ParseAll` | scaffold.py:31-45 | the items of the lines that yield one, in line order (no contract of its own; `ParseAllFollowsLines` and `ParseAllSnoc` state it) |
| `Parser.ParseAllSnoc` | scaffold.py:32-44 | parsing one more line appends exactly what that line yields |
| `Parser.ParseLines` | scaffold.py:26-45 | the method returns the items of the text's lines, in line order |
| `Parser.ParseAllFollowsLines` | scaffold.py:31-45 | item k comes from line o[k], the indices o increase, and they are exactly the lines that are not blank after comment removal |
| `Parser.TrimmedContent` | scaffold.py:38-42 | an item name has no `#` and is a contiguous slice of the raw line |
| `Parser.ParsedNameWellFormed` | scaffold.py:38-44 | an item name is non-empty and trimmed, with no `#` and no line break |
| `Parser.ParseAllWellFormed` | scaffold.py:31-45 | every item parsed from break-free lines has a well-formed name |
| `Parser.ParseLinesWellFormed` | scaffold.py:26-45 | every item `parse_lines` returns has a well-formed name |
| `Parser.FloorDivMultiple` | scaffold.py:41 | indentation of exactly k steps gives level k |
| `Parser.ParseRenderLine` | scaffold.py:33-44 | a line written as level × indent-size spaces plus a well-formed name parses back to that item |
| `Parser.ParseRendered` | scaffold.py:26-45 | the text written from well-formed items, one line each, parses back to exactly those items |
| `ParserExamples.CommentedLine` | scaffold.py:33-44 | `"  src/  # source dir"` with indent 2 gives `(1, "src/")` |
| `PathBuilder.Join` | scaffold.py:64 | `parent / name` extends the parent by at most one segment, by exactly one when the name is a segment |
| `PathBuilder.Clean` | scaffold.py:62 | a directory name is its cleaned name followed by `/`; any other name is its own cleaned name |
| `PathBuilder.KindOf` | scaffold.py:61-65 | `Dir` for a name ending in `/`, `File` otherwise (no contract of its own; `BuildShape` states it for every target) |
| `PathBuilder.PopTo` | scaffold.py:54-55 | popping leaves a non-empty prefix of the stack, of length level + 1 when the stack was deeper than that and otherwise the whole stack |
| `PathBuilder.ParentOf` | scaffold.py:54-64 | the directory an item is joined onto (no contract of its own; `ClampedStep` states which one) |
| `PathBuilder.StepOf` | scaffold.py:54-69 | one iteration of the loop in `build_paths` (no contract of its own; `ClampedStep` and `StepStack` state what it does) |
| `PathBuilder.ClampedStep` | scaffold.py:54-65 | an item is joined onto the open directory at its own level, or onto the deepest open directory when its level is beyond the stack, with its cleaned name and the kind its trailing `/` says |
| `PathBuilder.BuildFrom` | scaffold.py:52-71 | the rest of the pass gives one target per remaining item |
| `PathBuilder.Build` | scaffold.py:48-71 | `build_paths` gives one target per item |
| `PathBuilder.Advance` | scaffold.py:52-69 | one loop iteration (pop, clamp, join, push if a directory) computes the loop step `StepOf` |
| `PathBuilder.BuildFromAt` | scaffold.py:52-69 | the pass from item k emits item k's target, then continues from the new stack |
| `PathBuilder.BuildPaths` | scaffold.py:48-71 | the method returns `Build(items, out_dir)`, keeping the stack invariant across its loop |
| `PathBuilder.StackUnderRoot` | scaffold.py:49-69 | every open directory on the stack lies under the root |
| `PathBuilder.StepKeepsStack` | scaffold.py:49-69 | one iteration keeps the invariant (non-empty, root first, each entry extends the one below by at most one segment), and its target lies under the root, strictly when the name is a segment |
| `PathBuilder.BuildShape` | scaffold.py:52-66 | one target per item, in order; the kind is `Dir` exactly when the name ends in `/`, and the last segment is the name without that `/` |
| `PathBuilder.BuildUnderRoot` | scaffold.py:48-71 | every target lies under the root, strictly under it when its cleaned name is a segment; a level-0 item is joined directly onto the root |
| `PathBuilder.StepStack` | scaffold.py:54-69 | a file item never pushes (the stack after it is a prefix of the one before, and the same stack when its level reaches the deepest open directory); a directory item pushes exactly its own target |
| `PathBuilder.SameLevelSameParent` | scaffold.py:54-69 | the item after one at the same level is joined onto the same parent, unless the first was a clamped directory |
| `PathExamples.ClampToDeepest` | scaffold.py:54-64 | `(0, "a/")`, `(3, "b")` puts `b` at `root/a/b` |
| `PathExamples.ClampedSiblingNests` | scaffold.py:54-69 | `(0, "a/")`, `(3, "b/")`, `(3, "c")` puts `c` at `root/a/b/c` |
| `Materializer.Ancestors` | scaffold.py:92 | the paths a recursive `mkdir` leaves in place are exactly the prefixes of the path |
| `Materializer.Parent` | scaffold.py:106 | `path.parent` is a prefix of the path, and it followed by the last segment is the path |
| `Materializer.MakeDirs` | scaffold.py:92 | after `mkdir(parents=True, exist_ok=True)` a path exists exactly when it existed before or is a prefix of the new directory |
| `Materializer.ApplyOne` | scaffold.py:82-116 | one iteration of the loop in `apply_structure` on the abstract filesystem (no contract of its own; `ApplyItem` is proved against it, and the lemmas below state its cases) |
| `Materializer.ApplyAll` | scaffold.py:80-118 | the whole loop in `apply_structure` (no contract of its own; `ApplyStructure` is proved against it, and the lemmas below state its properties) |
| `Materializer.FileSystem.PathExists` | scaffold.py:89 | `exists` is membership in the set of existing paths |
| `Materializer.FileSystem.MakeDirsOf` | scaffold.py:92 | `mkdir(parents=True, exist_ok=True)` adds the path and all its ancestors |
| `Materializer.FileSystem.Touch` | scaffold.py:115 | `touch` adds the path |
| `Materializer.FileSystem.ApplyItem` | scaffold.py:82-116 | one iteration gives the result and the new filesystem of `ApplyOne` |
| `Materializer.FileSystem.ApplyStructure` | scaffold.py:74-118 | the method returns the results of `ApplyAll` from the old filesystem and leaves the filesystem that `ApplyAll` ends with |
| `Materializer.ApplyAllShape` | scaffold.py:82-116 | one result per target, in order, with the target's path and kind |
| `Materializer.ApplyAllGrows` | scaffold.py:82-116 | a run only ever adds paths |
| `Materializer.FilesSkipped` | scaffold.py:97-99 | with file creation off, every file target reports `skipped` with `created = false`, whatever the dry-run and force flags |
| `Materializer.DryRunIsPure` | scaffold.py:84-104 | a dry run leaves the filesystem unchanged; every target that is not a skipped file reports `dry-run`, with `created` exactly when the path did not exist |
| `Materializer.CreatedMeansNew` | scaffold.py:89-116 | outside dry runs, `created` holds exactly on `created` results, a created path did not exist before the run, and nothing reports `dry-run` |
| `Materializer.ApplyAllSettles` | scaffold.py:89-116 | after a run without `--dry-run`, every directory target exists, and every file target exists with its parent directories when files are made |
| `Materializer.SettledRunChangesNothing` | scaffold.py:89-116 | on a filesystem where every target is in place, a run without `--dry-run` changes nothing; directories report `exists`, and files report `skipped`, `overwritten` under force, or `exists` |
| `Materializer.SecondRunCreatesNothing` | scaffold.py:89-116 | a second run without force or dry run, on what the first non-dry run left, reports only `exists` and `skipped` and changes nothing |
| `Report.CreatedDir` | scaffold.py:122 | a directory reported `created` or `dry-run` with `created` set (no contract of its own) |
| `Report.CreatedFile` | scaffold.py:123 | a file reported `created` or `dry-run` with `created` set (no contract of its own) |
| `Report.SkippedFile` | scaffold.py:124 | a file reported `skipped` (no contract of its own) |
| `Report.Existed` | scaffold.py:125 | a result reported `exists` (no contract of its own) |
| `Report.WasOverwritten` | scaffold.py:126 | a result reported `overwritten` (no contract of its own) |
| `Report.AnyDryRun` | scaffold.py:127 | some result reports `dry-run` (no contract of its own; `DryFlag` states when it holds) |
| `Report.Tallies` | scaffold.py:122-127 | the five tallies and the dry-run flag (no contract of its own; `TalliesPartition`, `WetRunTallies` and `DryRunTallies` state their sums and values) |
| `Report.Count` | scaffold.py:122-126 | a tally is at most the number of results, zero exactly when no result qualifies, and full exactly when every result does |
| `Report.TalliesPartition` | scaffold.py:122-126 | when every result falls under exactly one tally, the five tallies add up to the number of results |
| `Report.ItemResultWellKinded` | scaffold.py:97-113 | only file targets are ever `skipped` or `overwritten` |
| `Report.WetRunTallies` | scaffold.py:122-127 | outside dry runs the five tallies add up to the number of targets and the dry-run flag is off |
| `Report.DryFlag` | scaffold.py:127 | the dry-run flag is set exactly when the run was a dry run with at least one target that is not a skipped file |
| `Report.DryRunTallies` | scaffold.py:122-127 | in a dry run nothing counts as existing or overwritten; the created tallies count the missing directory targets, and the missing file targets when files are made |
| `Report.Prefix` | scaffold.py:139-145 | each action's marker is not the fallback `?`, and reading the marker back gives the action |
| `Report.ActionOfPrefix` | scaffold.py:139-145 | reads a marker back to its action (no contract of its own; `Prefix` states that reading back the marker of an action gives that action) |
| `Report.PrefixInjective` | scaffold.py:139-145 | different actions get different markers |
| `Scenario.Scaffold` | scaffold.py:174-184 | the three stages composed as `main` composes them (no contract of its own; `SpecScenario` works it through) |
| `Scenario.ScenarioParses` | scaffold.py:26-45 | the five-line outline parses to its five items |
| `Scenario.ScenarioBuilds` | scaffold.py:48-71 | the five items resolve to `src`, `src/main.py`, `src/utils`, `src/utils/helpers.py`, `README.md` under the root, with the right kinds |
| `Scenario.CreatesMissing` | scaffold.py:89-116 | with the default flags, a missing target other than the root is reported `created`, and the filesystem gains it and its ancestors |
| `Scenario.ScenarioApplies` | scaffold.py:82-116 | on a destination that exists and is empty, with the default flags, all five targets are `created` |
| `Scenario.TallyScenario` | scaffold.py:122-127 | the tallies of those results are 2 directories and 3 files created, nothing else, and no dry-run flag |
| `Scenario.SpecScenario` | scaffold.py:174-184 | the whole pipeline on the outline with indent 2 gives the five targets in order, all created, with the tallies 2, 3, 0, 0, 0 |

## Left out

- `main` (scaffold.py:149-184) is not modelled: argument parsing, the choice between `--spec` and `--text`, reading the outline file, expanding `\n`, and resolving the output directory. `Scenario.Scaffold` composes the three stages the way `main` does. The creation of the output directory (scaffold.py:166) becomes the starting filesystem, where the root and its ancestors already exist.
- The printed report (scaffold.py:129-146) is not modelled: headings, number formatting and the line per result. Only the tallies, the dry-run flag and the marker map are kept. The fallback marker `?` cannot occur, because the set of actions is closed.
- Real filesystem effects are abstract. `exists`, `mkdir` and `touch` act on a set of paths. The content-preserving rewrite under `--force` (scaffold.py:110) changes nothing in that set, so only its `overwritten` label is modelled.
- The abstract filesystem does not tell directories from files. So a directory target that exists as a file reports `exists` here too, as it does in the source. But the errors a real filesystem raises in such cases are not modelled: `mkdir` over an existing file, a file under a path that is a file, or permission errors.
- Filesystem errors and runs that stop part-way are not modelled.
- Python `Path` joining is modelled only for names without `/`. A name with an embedded `/` is joined as a single segment here, while `pathlib` splits it into several, and a leading `/` (an absolute name) does not replace the path as it does in `pathlib`. Every other cleaned name is joined as one segment, except `""` and `"."`, which `pathlib` drops.
- The abstract filesystem treats `a/..` as a path of its own. `pathlib` also keeps `..` as a segment, and so does the model, but the operating system would resolve it to the parent directory.
- Python strings that contain lone surrogates have no Dafny counterpart; Dafny strings hold Unicode scalar values only.
- Parser.ParseLines: requires a positive indent size. For 0 the source raises `ZeroDivisionError` at the first non-blank line, and a negative size would floor-divide to negative levels. The command line admits only 2 and 4.
- PathBuilder.StepKeepsStack: states that each stack entry extends the one below by at most one segment, not exactly one. The items `/`, `.` and `./` clean to `""` or `"."`, and `pathlib` joins those without adding a segment.
- PathBuilder.BuildUnderRoot: states that a target lies strictly below the root only when its cleaned name is a segment, for the same reason. The item `/` at level 0 resolves to the root itself.
