/**
 A worked example of the body parser on the text of a `VBODY` block.
 */
module MsgBodyExamples {
  import opened Strings
  import opened MsgBody

  /** A `Date:` header line followed by one line of text:
      `"Date:2020-01-01T00:00:00\nHello\n"`. */
  lemma DateAndOneLine(date: string, line: string)
    requires date == "Date:2020-01-01T00:00:00" && line == "Hello"
    ensures Parse(date + "\n" + line + "\n") == Message(FromText("2020-01-01T00:00:00"), "Hello\n")
  {
    ExampleClasses();
    ExampleDate();
    ExampleSingle();
    DateThenLine(date, line);
  }

  /** Any `Date:` line followed by one body line, each ending in a newline,
      gives that line's date and that one line as the body. */
  lemma DateThenLine(date: string, line: string)
    requires IsDateLine(date) && IsBodyLine(line)
    requires SingleLine(date) && SingleLine(line)
    ensures Parse(date + "\n" + line + "\n") == Message(DateOf(date), line + "\n")
  {
    var text := date + "\n" + line + "\n";
    var lines := [date, line, ""];
    TwoLines(date, line);
    assert !IsDateLine("");
    assert LastDateLine(lines, 0);
    BodyOfTwo(date, line);
    assert Terminated([line]) == line + "\n" by {
      assert [line][..0] == [];
    }
  }

  /** Two lines each followed by a newline split back into those lines and
      one empty line. */
  lemma TwoLines(x: string, y: string)
    requires SingleLine(x) && SingleLine(y)
    ensures Lines(x + "\n" + y + "\n") == [x, y, ""]
  {
    var two := [x, y];
    assert Terminated([x]) == x + "\n" by {
      assert [x][..0] == [];
    }
    assert Terminated(two) == Terminated([x]) + y + "\n" by {
      assert two[..1] == [x];
    }
    LinesTerminated(two);
  }

  /** Of a date line, a body line and an empty line only the body line is kept. */
  lemma BodyOfTwo(date: string, line: string)
    requires IsDateLine(date) && IsBodyLine(line)
    ensures BodyLines([date, line, ""]) == [line]
  {
    var lines := [date, line, ""];
    assert lines[..2] == [date, line];
    assert [date, line][..1] == [date];
    assert [date][..0] == [];
    assert BodyLines([date]) == [];
    assert BodyLines([date, line]) == [line];
    assert !IsBodyLine("");
  }

  lemma ExampleClasses()
    ensures IsDateLine("Date:2020-01-01T00:00:00")
    ensures !IsDateLine("Hello") && !IsDateLine("")
    ensures IsBodyLine("Hello")
    ensures !IsBodyLine("Date:2020-01-01T00:00:00") && !IsBodyLine("")
  {
    assert "Date:2020-01-01T00:00:00"[..5] == "Date:";
    assert "Hello"[..5] != "Date:" by {
      assert "Hello"[0] != 'D';
    }
    assert !IsCharsetLine("Hello") by {
      assert "Hello"[0] != 'C';
    }
  }

  lemma ExampleSingle()
    ensures SingleLine("Date:2020-01-01T00:00:00") && SingleLine("Hello")
  {
  }

  lemma ExampleDate()
    ensures IsDateLine("Date:2020-01-01T00:00:00")
    ensures DateOf("Date:2020-01-01T00:00:00") == FromText("2020-01-01T00:00:00")
  {
    ExampleClasses();
    assert "Date:2020-01-01T00:00:00"[5..] == "2020-01-01T00:00:00";
    assert Trim("2020-01-01T00:00:00") == "2020-01-01T00:00:00" by {
      assert !IsSpace('2') && !IsSpace('0');
    }
  }
}
