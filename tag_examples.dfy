/** Worked examples of the tag splitter on concrete flag text. */
module TagExamples {
  import opened Strings
  import opened Tags

  /** Blank flag text gives no tags at all, not one empty tag. */
  lemma BlankFlagHasNoTags()
    ensures TagList("") == []
    ensures TagList("  ") == []
    ensures TagList(" \t\n") == []
  {
  }

  /** Empty fields are kept, in place. */
  lemma EmptyFieldsKept()
    ensures TagList("a,,b") == ["a", "", "b"]
    ensures TagList(",") == ["", ""]
  {
    assert Join(["a", "", "b"]) == "a,,b";
    TagListJoin(["a", "", "b"]);
    assert Join(["", ""]) == ",";
    TagListJoin(["", ""]);
  }

  /** Duplicates are not removed. */
  lemma DuplicatesKept()
    ensures TagList("x,x") == ["x", "x"]
  {
    assert Join(["x", "x"]) == "x,x";
    TagListJoin(["x", "x"]);
  }

  lemma PaddedFieldB()
    ensures TrimSpace(" b ") == "b"
  {
    assert " " + "b" + " " == " b ";
    TrimSpaceOf(" ", "b", " ");
  }

  lemma PaddedFieldDemo()
    ensures TrimSpace(" demo") == "demo"
  {
    assert " " + "demo" + [] == " demo";
    TrimSpaceOf(" ", "demo", []);
  }

  /** Two commas between three comma-free fields give those three fields. */
  lemma SplitThree(x: string, y: string, z: string)
    requires CommaFree(x) && CommaFree(y) && CommaFree(z)
    ensures Split(x + [','] + (y + [','] + z)) == [x, y, z]
  {
    SplitAtComma(x, y + [','] + z);
    SplitAtComma(y, z);
    SplitCommaFree(z);
  }

  /** One comma between two comma-free fields gives those two fields. */
  lemma SplitTwo(x: string, y: string)
    requires CommaFree(x) && CommaFree(y)
    ensures Split(x + [','] + y) == [x, y]
  {
    SplitAtComma(x, y);
    SplitCommaFree(y);
  }

  lemma SplitPadded()
    ensures Split("a, b ,c") == ["a", " b ", "c"]
    ensures !IsBlank("a, b ,c")
  {
    var s := "a, b ,c";
    assert s == "a" + [','] + (" b " + [','] + "c");
    SplitThree("a", " b ", "c");
    assert s[0] == 'a' && !IsSpace('a');
  }

  lemma TagsOfPadded(s: string)
    requires Split(s) == ["a", " b ", "c"]
    requires !IsBlank(s)
    ensures TagList(s) == ["a", "b", "c"]
  {
    var tags := ["a", "b", "c"];
    forall i | 0 <= i < 3 ensures TrimSpace(Split(s)[i]) == tags[i] {
      if i == 0 {
        TrimSpaceOfTrimmed("a");
      } else if i == 1 {
        PaddedFieldB();
      } else {
        TrimSpaceOfTrimmed("c");
      }
    }
    TagListOf(s, tags);
  }

  /** White space around each field is removed, the order is kept. */
  lemma FieldsTrimmed()
    ensures TagList("a, b ,c") == ["a", "b", "c"]
  {
    SplitPadded();
    TagsOfPadded("a, b ,c");
  }

  lemma SplitEndToEnd()
    ensures Split("py, demo") == ["py", " demo"]
    ensures !IsBlank("py, demo")
  {
    var s := "py, demo";
    assert s == "py" + [','] + " demo";
    SplitTwo("py", " demo");
    assert s[0] == 'p' && !IsSpace('p');
  }

  lemma TagsOfEndToEnd(s: string)
    requires Split(s) == ["py", " demo"]
    requires !IsBlank(s)
    ensures TagList(s) == ["py", "demo"]
  {
    var tags := ["py", "demo"];
    forall i | 0 <= i < 2 ensures TrimSpace(Split(s)[i]) == tags[i] {
      if i == 0 {
        TrimSpaceOfTrimmed("py");
      } else {
        PaddedFieldDemo();
      }
    }
    TagListOf(s, tags);
  }

  /** The flag of the end-to-end example: `--tags "py, demo"`. */
  lemma EndToEndTags()
    ensures TagList("py, demo") == ["py", "demo"]
  {
    SplitEndToEnd();
    TagsOfEndToEnd("py, demo");
  }
}
