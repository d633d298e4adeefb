/**
 Worked examples of the path builder's clamping rule.
 */
module PathExamples {
  import opened Parser
  import opened PathBuilder

  /** Items (0, "a/") then (3, "b"): `b` jumps three levels ahead of the open
      directories and is attached under the deepest one, `a`. */
  lemma ClampToDeepest(items: seq<Item>, root: Path, a: string, b: string)
    requires a == "a" && b == "b"
    requires items == [Item(0, a + "/"), Item(3, b)]
    ensures Build(items, root) == [Target(root + [a], Dir), Target(root + [a, b], File)]
  {
    assert Clean(a + "/") == a;
    assert KindOf(b) == File;
    var s1 := StepOf([root], items[0]);
    assert s1 == Step(Target(root + [a], Dir), [root, root + [a]]);
    var s2 := StepOf(s1.stack, items[1]);
    assert root + [a] + [b] == root + [a, b];
    assert s2.target == Target(root + [a, b], File);
    assert items[1..][1..] == [];
    assert BuildFrom(items[1..], s1.stack) == [s2.target];
  }

  /** Items (0, "a/"), (3, "b/"), (3, "c"): the second and third items are at
      the same level, yet `c` goes inside `b`, because the clamped directory
      `b` was pushed one level deeper than the level it was written at. */
  lemma ClampedSiblingNests(items: seq<Item>, root: Path, a: string, b: string, c: string)
    requires a == "a" && b == "b" && c == "c"
    requires items == [Item(0, a + "/"), Item(3, b + "/"), Item(3, c)]
    ensures Build(items, root) ==
            [Target(root + [a], Dir), Target(root + [a, b], Dir), Target(root + [a, b, c], File)]
  {
    assert Clean(a + "/") == a && Clean(b + "/") == b;
    assert KindOf(c) == File;
    var s1 := StepOf([root], items[0]);
    assert s1 == Step(Target(root + [a], Dir), [root, root + [a]]);
    var s2 := StepOf(s1.stack, items[1]);
    assert root + [a] + [b] == root + [a, b];
    assert s2 == Step(Target(root + [a, b], Dir), [root, root + [a], root + [a, b]]);
    var s3 := StepOf(s2.stack, items[2]);
    assert root + [a, b] + [c] == root + [a, b, c];
    assert s3.target == Target(root + [a, b, c], File);
    assert items[1..][1..] == [items[2]];
    assert items[1..][1..][1..] == [];
    assert BuildFrom(items[1..][1..], s2.stack) == [s3.target];
    assert BuildFrom(items[1..], s1.stack) == [s2.target, s3.target];
  }
}
