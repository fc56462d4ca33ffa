/**
 The body parser `msgBody.parse` of src/utils.ts: it reads the text of a
 message's `VBODY` block line by line, drops `CHARSET` lines and empty lines,
 takes the date from the last `Date:` line and collects every other line,
 each followed by a newline, into the body.

 The date value is kept symbolic: `new Date(0)` is `Epoch` and
 `new Date(s)` is `FromText(s)`, so the model records exactly which string
 the host's date parser would be given.
 */
module MsgBody {
  import opened Strings

  datatype Date = Epoch | FromText(text: string)

  datatype Message = Message(date: Date, body: string)

  predicate IsCharsetLine(line: string)
  {
    StartsWith(line, "CHARSET")
  }

  predicate IsDateLine(line: string)
  {
    StartsWith(line, "Date:")
  }

  /** A line that ends up in the body. */
  predicate IsBodyLine(line: string)
  {
    !IsCharsetLine(line) && !IsDateLine(line) && line != ""
  }

  /** The date a `Date:` line sets: the trimmed text after the prefix. */
  function DateOf(line: string): (d: Date)
    requires IsDateLine(line)
    ensures d.FromText?
    ensures exists i, j ::
      && 5 <= i <= j <= |line| && d.text == line[i..j]
      && SpaceBetween(line, 5, i) && SpaceBetween(line, j, |line|)
    ensures d.text == "" || (!IsSpace(d.text[0]) && !IsSpace(d.text[|d.text| - 1]))
  {
    TrimSuffix(line, 5);
    FromText(Trim(line[5..]))
  }

  /** A `Date:` line never starts with `CHARSET`. */
  lemma DateNotCharset(line: string)
    ensures IsDateLine(line) ==> !IsCharsetLine(line)
  {
    if IsDateLine(line) {
      assert line[0] == 'D';
    }
  }

  /** One iteration of the source's loop: a `Date:` line replaces the date, a
      body line is appended to the body with a newline, and nothing else
      changes either field. */
  function Step(m: Message, line: string): (r: Message)
    ensures r.date == (if IsDateLine(line) then DateOf(line) else m.date)
    ensures r.body == (if IsBodyLine(line) then m.body + line + "\n" else m.body)
  {
    DateNotCharset(line);
    if IsCharsetLine(line) then m
    else if IsDateLine(line) then m.(date := DateOf(line))
    else if line == "" then m
    else m.(body := m.body + line + "\n")
  }

  /** The loop run over `lines` starting from message `m`. */
  function Run(m: Message, lines: seq<string>): Message
    decreases |lines|
  {
    if |lines| == 0 then m
    else Step(Run(m, lines[..|lines| - 1]), lines[|lines| - 1])
  }

  /** The message after the given lines, starting from the epoch and an empty body. */
  function ParseLines(lines: seq<string>): Message
  {
    Run(Message(Epoch, ""), lines)
  }

  /** `msgBody.parse(text)`: the body holds the body lines of the text, each
      followed by a newline, and the date comes from the last `Date:` line or
      is the epoch when there is none. */
  function Parse(text: string): (r: Message)
    ensures r.body == Terminated(BodyLines(Lines(text)))
    ensures (forall i :: 0 <= i < |Lines(text)| ==> !IsDateLine(Lines(text)[i])) ==> r.date == Epoch
    ensures forall j :: LastDateLine(Lines(text), j) ==> r.date == DateOf(Lines(text)[j])
  {
    var lines := Lines(text);
    ParseFields(lines);
    ParseLines(lines)
  }

  /** The three facts `Parse` states, for any list of lines. */
  lemma ParseFields(lines: seq<string>)
    ensures ParseLines(lines).body == Terminated(BodyLines(lines))
    ensures (forall i :: 0 <= i < |lines| ==> !IsDateLine(lines[i])) ==> ParseLines(lines).date == Epoch
    ensures forall j :: LastDateLine(lines, j) ==> ParseLines(lines).date == DateOf(lines[j])
  {
    BodyIsBodyLines(lines);
    if forall i :: 0 <= i < |lines| ==> !IsDateLine(lines[i]) {
      DateDefault(lines);
    }
    forall j | LastDateLine(lines, j)
      ensures ParseLines(lines).date == DateOf(lines[j])
    {
      DateIsLastDateLine(lines, j);
    }
  }

  /** The lines that end up in the body, in order: every body line of the
      input is kept, nothing else is, and when every line is a body line
      they all are. */
  function BodyLines(lines: seq<string>): (kept: seq<string>)
    ensures forall i :: 0 <= i < |kept| ==> IsBodyLine(kept[i])
    ensures forall i :: 0 <= i < |lines| && IsBodyLine(lines[i]) ==> lines[i] in kept
    ensures (forall i :: 0 <= i < |lines| ==> IsBodyLine(lines[i])) ==> kept == lines
    ensures |kept| <= |lines|
    decreases |lines|
  {
    if |lines| == 0 then []
    else
      var last := lines[|lines| - 1];
      BodyLines(lines[..|lines| - 1]) + (if IsBodyLine(last) then [last] else [])
  }

  /** Filtering a concatenation filters each part and keeps their order. */
  lemma {:induction false} BodyLinesAppend(a: seq<string>, b: seq<string>)
    ensures BodyLines(a + b) == BodyLines(a) + BodyLines(b)
    decreases |b|
  {
    if |b| > 0 {
      var b' := b[..|b| - 1];
      assert (a + b)[..|a + b| - 1] == a + b';
      BodyLinesAppend(a, b');
    } else {
      assert a + b == a;
    }
  }

  /** The body is the body lines, each followed by a newline. */
  lemma {:induction false} BodyIsBodyLines(lines: seq<string>)
    ensures ParseLines(lines).body == Terminated(BodyLines(lines))
    decreases |lines|
  {
    if |lines| > 0 {
      var init := lines[..|lines| - 1];
      var last := lines[|lines| - 1];
      BodyIsBodyLines(init);
      assert ParseLines(lines) == Step(ParseLines(init), last);
      if IsBodyLine(last) {
        assert BodyLines(lines) == BodyLines(init) + [last];
        TerminatedSnoc("", BodyLines(init), last);
        assert "" + Terminated(BodyLines(init)) == Terminated(BodyLines(init));
        assert "" + Terminated(BodyLines(lines)) == Terminated(BodyLines(lines));
      } else {
        assert BodyLines(lines) == BodyLines(init);
      }
    }
  }

  /** The body is empty or ends in a newline; on the lines of a text,
      splitting the body into lines again gives back exactly the body lines
      followed by one empty line. */
  lemma BodyShape(text: string)
    ensures var b := Parse(text).body;
      && (b == "" || b[|b| - 1] == '\n')
      && Lines(b) == BodyLines(Lines(text)) + [""]
  {
    var lines := Lines(text);
    var kept := BodyLines(lines);
    BodyIsBodyLines(lines);
    assert Parse(text).body == Terminated(kept);
    BodyLinesFrom(lines);
    assert forall i :: 0 <= i < |kept| ==> SingleLine(kept[i]) by {
      forall i | 0 <= i < |kept|
        ensures SingleLine(kept[i])
      {
        var k :| 0 <= k < |lines| && lines[k] == kept[i];
      }
    }
    LinesTerminated(kept);
    TerminatedEnd(kept);
  }

  lemma TerminatedEnd(lines: seq<string>)
    ensures var t := Terminated(lines); t == "" || t[|t| - 1] == '\n'
  {
  }

  /** Every body line is one of the input lines. */
  lemma {:induction false} BodyLinesFrom(lines: seq<string>)
    ensures forall i :: 0 <= i < |BodyLines(lines)| ==> BodyLines(lines)[i] in lines
    decreases |lines|
  {
    if |lines| > 0 {
      var init := lines[..|lines| - 1];
      BodyLinesFrom(init);
      assert forall x :: x in init ==> x in lines;
    }
  }

  /** Without a `Date:` line the date stays the epoch. */
  lemma {:induction false} DateDefault(lines: seq<string>)
    requires forall i :: 0 <= i < |lines| ==> !IsDateLine(lines[i])
    ensures ParseLines(lines).date == Epoch
    decreases |lines|
  {
    if |lines| > 0 {
      var init := lines[..|lines| - 1];
      assert forall i :: 0 <= i < |init| ==> init[i] == lines[i];
      DateDefault(init);
      assert ParseLines(lines) == Step(ParseLines(init), lines[|lines| - 1]);
    }
  }

  /** Otherwise the date is read from the last `Date:` line. */
  lemma {:induction false} DateIsLastDateLine(lines: seq<string>, j: int)
    requires LastDateLine(lines, j)
    ensures ParseLines(lines).date == DateOf(lines[j])
    decreases |lines|
  {
    var init := lines[..|lines| - 1];
    var last := lines[|lines| - 1];
    assert ParseLines(lines) == Step(ParseLines(init), last);
    if j < |lines| - 1 {
      assert LastDateLine(init, j) by {
        assert forall i :: 0 <= i < |init| ==> init[i] == lines[i];
      }
      DateIsLastDateLine(init, j);
    }
  }

  /** Line `j` starts with `Date:` and no later line does. */
  predicate LastDateLine(lines: seq<string>, j: int)
  {
    && 0 <= j < |lines| && IsDateLine(lines[j])
    && forall l :: j < l < |lines| ==> !IsDateLine(lines[l])
  }

  /** A `CHARSET` line has no effect wherever it occurs. */
  lemma CharsetIgnored(before: seq<string>, charset: string, after: seq<string>)
    requires IsCharsetLine(charset)
    ensures ParseLines(before + [charset] + after) == ParseLines(before + after)
  {
    assert ParseLines(before + [charset]) == ParseLines(before) by {
      assert (before + [charset])[..|before|] == before;
    }
    RunAppend(Message(Epoch, ""), before + [charset], after);
    RunAppend(Message(Epoch, ""), before, after);
  }

  /** Parsing a concatenation continues from where the first part left off. */
  lemma {:induction false} RunAppend(m: Message, a: seq<string>, b: seq<string>)
    ensures Run(m, a + b) == Run(Run(m, a), b)
    decreases |b|
  {
    if |b| > 0 {
      var b' := b[..|b| - 1];
      assert (a + b)[..|a + b| - 1] == a + b';
      RunAppend(m, a, b');
    } else {
      assert a + b == a;
    }
  }
}
