/**
 The path builder (`build_paths` in scaffold.py): one forward pass over the
 parsed items with a stack of the directories that are open, turning each
 item into a target path under the destination root.

 A path is the sequence of its name segments. Joining a name onto a path
 appends it as one more segment, except that, as with Python's `pathlib`,
 joining "" or "." leaves the path as it is.
 */
module PathBuilder {
  import opened Parser

  type Path = seq<string>

  datatype Kind = Dir | File

  /** A build target: where an item goes and whether it is a directory. */
  datatype Target = Target(path: Path, kind: Kind)

  /** The result of one step of the pass: the item's target and the new stack. */
  datatype Step = Step(target: Target, stack: seq<Path>)

  /** A name that `pathlib` keeps as a segment of its own. */
  predicate IsSegment(name: string) {
    name != "" && name != "."
  }

  /** `parent / name` */
  function Join(parent: Path, name: string): (r: Path)
    ensures parent <= r && |r| <= |parent| + 1
    ensures |r| == |parent| + 1 <==> IsSegment(name)
  {
    if IsSegment(name) then parent + [name] else parent
  }

  predicate EndsWithSlash(name: string) {
    |name| > 0 && name[|name| - 1] == '/'
  }

  /** The name without its trailing '/', for a directory; the name itself otherwise. */
  function Clean(name: string): (r: string)
    ensures EndsWithSlash(name) ==> r + "/" == name
    ensures !EndsWithSlash(name) ==> r == name
  {
    if EndsWithSlash(name) then name[..|name| - 1] else name
  }

  function KindOf(name: string): Kind {
    if EndsWithSlash(name) then Dir else File
  }

  /** The stack after the `while` loop: entries above index `level` popped. */
  function PopTo(stack: seq<Path>, level: nat): (s: seq<Path>)
    requires |stack| > 0
    ensures |s| > 0 && s <= stack
    ensures |s| == if |stack| - 1 > level then level + 1 else |stack|
  {
    if |stack| - 1 > level then stack[..level + 1] else stack
  }

  /** The directory an item is joined onto: the top of the popped stack, which
      for a level deeper than the open directories (the clamped case) is the
      deepest open directory. */
  function ParentOf(stack: seq<Path>, item: Item): Path
    requires |stack| > 0
  {
    var s := PopTo(stack, item.level);
    s[|s| - 1]
  }

  /** One iteration of the loop in `build_paths`. */
  function StepOf(stack: seq<Path>, item: Item): Step
    requires |stack| > 0
  {
    var s := PopTo(stack, item.level);
    var target := Join(ParentOf(stack, item), Clean(item.name));
    if EndsWithSlash(item.name) then Step(Target(target, Dir), s + [target])
    else Step(Target(target, File), s)
  }

  /** The targets the rest of the pass emits for `items`, from stack `stack`. */
  function BuildFrom(items: seq<Item>, stack: seq<Path>): (ts: seq<Target>)
    requires |stack| > 0
    ensures |ts| == |items|
  {
    if items == [] then []
    else
      var st := StepOf(stack, items[0]);
      [st.target] + BuildFrom(items[1..], st.stack)
  }

  /** The targets `build_paths` emits for `items` under `root`. */
  function Build(items: seq<Item>, root: Path): (ts: seq<Target>)
    ensures |ts| == |items|
  {
    BuildFrom(items, [root])
  }

  /** The stack invariant: `root` at the bottom, and each entry the one below
      it extended by at most one segment (exactly one, unless the name joined
      was "" or "."). */
  ghost predicate StackOver(stack: seq<Path>, root: Path) {
    && |stack| > 0
    && stack[0] == root
    && forall i :: 0 < i < |stack| ==> stack[i - 1] <= stack[i] && |stack[i]| <= |stack[i - 1]| + 1
  }

  /** Every open directory lies under the root. */
  lemma {:induction false} StackUnderRoot(stack: seq<Path>, root: Path, i: nat)
    requires StackOver(stack, root) && i < |stack|
    ensures root <= stack[i]
  {
    if i > 0 {
      StackUnderRoot(stack, root, i - 1);
    }
  }

  /** One step keeps the stack invariant, and emits a target under the root,
      strictly below it when the cleaned name is a segment. */
  lemma StepKeepsStack(stack: seq<Path>, root: Path, item: Item)
    requires StackOver(stack, root)
    ensures StackOver(StepOf(stack, item).stack, root)
    ensures root <= StepOf(stack, item).target.path
    ensures IsSegment(Clean(item.name)) ==> |root| < |StepOf(stack, item).target.path|
  {
    var s := PopTo(stack, item.level);
    assert forall i :: 0 <= i < |s| ==> s[i] == stack[i];
    StackUnderRoot(stack, root, |s| - 1);
    var top, path := s[|s| - 1], StepOf(stack, item).target.path;
    assert path == Join(top, Clean(item.name));
    assert top <= path && |path| <= |top| + 1;
  }

  /** One iteration of the loop in `build_paths`: pop the stack to the item's
      level, clamp, join, and push the target if it is a directory. */
  method Advance(stack: seq<Path>, item: Item) returns (target: Target, next: seq<Path>)
    requires |stack| > 0
    ensures Step(target, next) == StepOf(stack, item)
  {
    var level, name := item.level, item.name;
    next := stack;
    while |next| - 1 > level
      invariant 0 < |next| <= |stack| && next == stack[..|next|]
      invariant |next| == |stack| || |next| >= level + 1
    {
      next := next[..|next| - 1];
    }
    assert next == PopTo(stack, item.level);
    // A level beyond the open directories is clamped; the parent is the top
    // of the stack either way, so the clamped level is not read again.
    if level > |next| - 1 {
      level := |next| - 1;
    }
    var isDir := EndsWithSlash(name);
    var clean := if isDir then name[..|name| - 1] else name;
    var path := Join(next[|next| - 1], clean);
    target := Target(path, if isDir then Dir else File);
    if isDir {
      next := next + [path];
    }
  }

  /** The pass from index `k` is this item's target, then the pass from `k + 1`. */
  lemma BuildFromAt(items: seq<Item>, k: nat, stack: seq<Path>)
    requires k < |items| && |stack| > 0
    ensures var st := StepOf(stack, items[k]);
            BuildFrom(items[k..], stack) == [st.target] + BuildFrom(items[k + 1..], st.stack)
  {
    assert items[k..][1..] == items[k + 1..];
  }

  /** `build_paths`. */
  method BuildPaths(items: seq<Item>, outDir: Path) returns (built: seq<Target>)
    ensures built == Build(items, outDir)
  {
    var stack: seq<Path> := [outDir];
    built := [];
    for k := 0 to |items|
      invariant StackOver(stack, outDir)
      invariant Build(items, outDir) == built + BuildFrom(items[k..], stack)
    {
      BuildFromAt(items, k, stack);
      StepKeepsStack(stack, outDir, items[k]);
      var target;
      target, stack := Advance(stack, items[k]);
      built := built + [target];
    }
  }

  /** A target fits its item: its kind is `Dir` exactly when the name ends in
      '/', and its last segment is the name without that '/' (when that is a
      segment at all). */
  ghost predicate Fits(t: Target, item: Item) {
    && t.kind == KindOf(item.name)
    && (IsSegment(Clean(item.name)) ==> |t.path| > 0 && t.path[|t.path| - 1] == Clean(item.name))
  }

  /** One target per item, in order, each fitting its item. */
  lemma {:induction false} BuildFromShape(items: seq<Item>, stack: seq<Path>)
    requires |stack| > 0
    ensures var built := BuildFrom(items, stack);
            |built| == |items| && forall k :: 0 <= k < |items| ==> Fits(built[k], items[k])
  {
    if items != [] {
      var st := StepOf(stack, items[0]);
      var rest := BuildFrom(items[1..], st.stack);
      BuildFromShape(items[1..], st.stack);
      var built := BuildFrom(items, stack);
      assert built == [st.target] + rest;
      assert Fits(st.target, items[0]);
      forall k | 1 <= k < |items| ensures Fits(built[k], items[k]) {
        assert built[k] == rest[k - 1] && items[k] == items[1..][k - 1];
      }
    }
  }

  lemma BuildShape(items: seq<Item>, root: Path)
    ensures var built := Build(items, root);
            |built| == |items| && forall k :: 0 <= k < |items| ==> Fits(built[k], items[k])
  {
    BuildFromShape(items, [root]);
  }

  /** Every target lies under the root, strictly when its cleaned name is a
      segment; an item at level 0 goes directly under the root. */
  lemma {:induction false} BuildFromUnderRoot(items: seq<Item>, stack: seq<Path>, root: Path)
    requires StackOver(stack, root)
    ensures var built := BuildFrom(items, stack);
            && |built| == |items|
            && forall k :: 0 <= k < |items| ==>
                 && root <= built[k].path
                 && (IsSegment(Clean(items[k].name)) ==> |root| < |built[k].path|)
                 && (items[k].level == 0 ==> built[k].path == Join(root, Clean(items[k].name)))
  {
    if items != [] {
      var st := StepOf(stack, items[0]);
      var rest := BuildFrom(items[1..], st.stack);
      StepKeepsStack(stack, root, items[0]);
      BuildFromUnderRoot(items[1..], st.stack, root);
      var built := BuildFrom(items, stack);
      assert built == [st.target] + rest;
      assert items[0].level == 0 ==> PopTo(stack, 0) == [root];
      forall k | 1 <= k < |items|
        ensures root <= built[k].path
        ensures IsSegment(Clean(items[k].name)) ==> |root| < |built[k].path|
        ensures items[k].level == 0 ==> built[k].path == Join(root, Clean(items[k].name))
      {
        assert built[k] == rest[k - 1] && items[k] == items[1..][k - 1];
      }
    }
  }

  lemma BuildUnderRoot(items: seq<Item>, root: Path)
    ensures var built := Build(items, root);
            && |built| == |items|
            && forall k :: 0 <= k < |items| ==>
                 && root <= built[k].path
                 && (IsSegment(Clean(items[k].name)) ==> |root| < |built[k].path|)
                 && (items[k].level == 0 ==> built[k].path == Join(root, Clean(items[k].name)))
  {
    BuildFromUnderRoot(items, [root], root);
  }

  /** The clamping rule: an item is joined onto the open directory at its own
      level, or onto the deepest open directory when its level is beyond it,
      and its kind is read off the trailing '/'. */
  lemma ClampedStep(stack: seq<Path>, item: Item)
    requires |stack| > 0
    ensures var l := if item.level < |stack| then item.level else |stack| - 1;
            && ParentOf(stack, item) == stack[l]
            && StepOf(stack, item).target == Target(Join(stack[l], Clean(item.name)), KindOf(item.name))
  {
  }

  /** A file item never pushes onto the stack: the stack after it is a prefix
      of the stack before it, and the same stack when the item's level reaches
      the deepest open directory. A directory item pushes exactly its own path. */
  lemma StepStack(stack: seq<Path>, item: Item)
    requires |stack| > 0
    ensures var st := StepOf(stack, item);
            && (st.target.kind == File ==> st.stack <= stack)
            && (st.target.kind == File && item.level >= |stack| - 1 ==> st.stack == stack)
            && (st.target.kind == Dir ==> st.stack[..|st.stack| - 1] <= stack
                                          && st.stack[|st.stack| - 1] == st.target.path)
  {
  }

  /** Two consecutive items at the same level are joined onto the same parent,
      unless the first is a directory whose level was clamped (then the second
      goes inside it). */
  lemma SameLevelSameParent(stack: seq<Path>, first: Item, second: Item)
    requires |stack| > 0
    requires first.level == second.level
    requires !EndsWithSlash(first.name) || first.level < |stack|
    ensures ParentOf(StepOf(stack, first).stack, second) == ParentOf(stack, first)
  {
  }
}
