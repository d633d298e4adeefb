/**
 Worked examples of the tree parser on concrete lines.
 */
module ParserExamples {
  import opened Text
  import opened Parser

  lemma CutsComment(raw: string)
    requires raw == "  src/  # source dir"
    ensures StripComment(raw) == "  src/"
  {
    assert raw == "  src/  " + "# source dir";
    IndexOfAfter("  src/  ", "# source dir", '#');
    assert IndexOf("# source dir", '#') == 0;
    assert BeforeFirst(raw, '#') == "  src/" + "  ";
    RStripBlankTail("  src/", "  ");
  }

  lemma CountsIndent(line: string)
    requires line == "  src/"
    ensures LeadingSpaces(line) == 2
  {
    assert line[2] != ' ';
  }

  lemma DropsIndent(line: string)
    requires line == "  src/"
    ensures Strip(line) == Strip(line[2..])
  {
    assert IsBlank(line[..2]) by { assert line[..2] == "  "; }
    StripSkipsLeadingSpace(line, 2);
  }

  lemma KeepsName(name: string)
    requires name == "src/"
    ensures Strip(name) == "src/"
  {
    assert !IsSpace(name[0]) && !IsSpace(name[3]);
    StripOfTrimmed(name);
  }

  lemma IndentedName(line: string)
    requires line == "  src/"
    ensures Strip(line) == "src/" && LeadingSpaces(line) == 2
  {
    CountsIndent(line);
    DropsIndent(line);
    KeepsName(line[2..]);
  }

  /** The line "  src/  # source dir" with indentation 2 gives the item (1, "src/"). */
  lemma CommentedLine(raw: string)
    requires raw == "  src/  # source dir"
    ensures ParseLine(raw, 2) == Some(Item(1, "src/"))
  {
    CutsComment(raw);
    IndentedName(StripComment(raw));
    assert FloorDiv(2, 2) == 1;
    ParseLineMeaning(raw, 2);
  }
}
