/**
 The block parser on a whole message export: a `VMSG` holding a contact, an
 envelope with a second contact, and an inner envelope with a `VBODY`. The
 run is followed line by line through a trace of states, the tree it
 returns is given in full, and the text captured under `VBODY` is read by the
 body parser.
 */
module VCardNesting {
  import opened Strings
  import opened VCard
  import opened VCardLemmas
  import MsgBody
  import MsgBodyExamples

  /** `BEGIN:<name>`. */
  function Begin(name: string): string
  {
    "BEGIN:" + name
  }

  /** `END:<name>`. */
  function End(name: string): string
  {
    "END:" + name
  }

  /** `TEL:<number>`. */
  function TelLine(number: string): string
  {
    "TEL:" + number
  }

  /** The first line of the message body. */
  const DateLine: string := "Date:2020-01-01T00:00:00"

  /** The lines of the message, in order, in four groups of four. */
  function MessageLines(): seq<string>
  {
    OpeningLines() + EnvelopeLines() + CaptureLines() + ClosingLines()
  }

  function OpeningLines(): seq<string>
  {
    [Begin("VMSG"), Begin("VCARD"), TelLine("111"), End("VCARD")]
  }

  function EnvelopeLines(): seq<string>
  {
    [Begin("VENV"), Begin("VCARD"), TelLine("222"), End("VCARD")]
  }

  function CaptureLines(): seq<string>
  {
    [Begin("VENV"), Begin("VBODY"), DateLine, "Hello"]
  }

  function ClosingLines(): seq<string>
  {
    [End("VBODY"), End("VENV"), End("VENV"), End("VMSG")]
  }

  /** A `TEL` property with a single value and no parameters. */
  function Tel(number: string): Property
  {
    Property(None, Single(number))
  }

  /** The captured body: both body lines, each followed by a newline. */
  function BodyText(): string
  {
    DateLine + "\n" + "Hello" + "\n"
  }

  /** The tree `vCard.parse(text, "VMSG")` returns for the message: the
      first contact directly under the message, the second one inside the
      envelope, and the body lines in the inner envelope's `VBODY`. */
  function MessageTree(): map<string, Value>
  {
    map[
      "VCARD" := Object(map["TEL" := Prop(Tel("111"))]),
      "VENV" := Object(map[
        "VCARD" := Object(map["TEL" := Prop(Tel("222"))]),
        "VENV" := Object(map["VBODY" := Raw(BodyText())])])]
  }

  /** The whole message parses to exactly one tree, `MessageTree()`. */
  lemma ParseMessage(text: string)
    requires text == Join(MessageLines(), '\n')
    ensures Parse(text, "VMSG") == [MessageTree()]
  {
    var lines := MessageLines();
    MessageText(lines);
    RunMessage(lines);
    MaterializeMessage(FinalObjects());
  }

  /** The text of the message splits back into its lines. */
  lemma MessageText(lines: seq<string>)
    requires lines == MessageLines()
    ensures Lines(Join(lines, '\n')) == lines
  {
    var a, b, c, d := OpeningLines(), EnvelopeLines(), CaptureLines(), ClosingLines();
    GroupsSingle();
    AppendSingle(a, b);
    AppendSingle(a + b, c);
    AppendSingle(a + b + c, d);
    LinesJoin(lines);
  }

  /** Every line in `lines` is free of line terminators. */
  predicate AllSingle(lines: seq<string>)
  {
    forall i :: 0 <= i < |lines| ==> SingleLine(lines[i])
  }

  lemma GroupsSingle()
    ensures AllSingle(OpeningLines()) && AllSingle(EnvelopeLines())
    ensures AllSingle(CaptureLines()) && AllSingle(ClosingLines())
  {
    OpeningSingle();
    EnvelopeSingle();
    CaptureSingle();
    ClosingSingle();
  }

  lemma OpeningSingle()
    ensures AllSingle(OpeningLines())
  {
    var a := OpeningLines();
    BuiltSingle("VMSG");
    BuiltSingle("VCARD");
    BuiltSingle("111");
    FourSingle(a[0], a[1], a[2], a[3]);
  }

  lemma EnvelopeSingle()
    ensures AllSingle(EnvelopeLines())
  {
    var b := EnvelopeLines();
    BuiltSingle("VENV");
    BuiltSingle("VCARD");
    BuiltSingle("222");
    FourSingle(b[0], b[1], b[2], b[3]);
  }

  lemma CaptureSingle()
    ensures AllSingle(CaptureLines())
  {
    var c := CaptureLines();
    BuiltSingle("VENV");
    BuiltSingle("VBODY");
    DateLineSingle();
    FourSingle(c[0], c[1], c[2], c[3]);
  }

  lemma DateLineSingle()
    ensures SingleLine(DateLine) && SingleLine("Hello")
  {
  }

  lemma ClosingSingle()
    ensures AllSingle(ClosingLines())
  {
    var d := ClosingLines();
    BuiltSingle("VBODY");
    BuiltSingle("VENV");
    BuiltSingle("VMSG");
    FourSingle(d[0], d[1], d[2], d[3]);
  }

  /** The built lines hold no line terminator when their argument holds none. */
  lemma BuiltSingle(name: string)
    requires SingleLine(name)
    ensures SingleLine(Begin(name)) && SingleLine(End(name)) && SingleLine(TelLine(name))
  {
  }

  lemma FourSingle(w: string, x: string, y: string, z: string)
    requires SingleLine(w) && SingleLine(x) && SingleLine(y) && SingleLine(z)
    ensures AllSingle([w, x, y, z])
  {
  }

  lemma AppendSingle(a: seq<string>, b: seq<string>)
    requires AllSingle(a) && AllSingle(b)
    ensures AllSingle(a + b)
  {
    forall i | 0 <= i < |a + b|
      ensures SingleLine((a + b)[i])
    {
      if i >= |a| {
        assert (a + b)[i] == b[i - |a|];
      }
    }
  }


  // ---------------------------------------------------------------- trace

  /** The objects of the run: the message, the first contact, the
      envelope, the second contact and the inner envelope. */
  const MessageOpen: Fields := map["VCARD" := Child(1)]
  const MessageDone: Fields := map["VCARD" := Child(1), "VENV" := Child(2)]
  const FirstCard: Fields := map["TEL" := PropSlot(Tel("111"))]
  const EnvelopeOpen: Fields := map["VCARD" := Child(3)]
  const EnvelopeDone: Fields := map["VCARD" := Child(3), "VENV" := Child(4)]
  const SecondCard: Fields := map["TEL" := PropSlot(Tel("222"))]

  function Body(text: string): Fields
  {
    map["VBODY" := RawText(text)]
  }

  /** The arena after the last line. */
  function FinalObjects(): seq<Fields>
  {
    [MessageDone, FirstCard, EnvelopeDone, SecondCard, Body(BodyText())]
  }

  /** Running the parser over the message ends with every frame closed, raw
      capture off, one root and `FinalObjects()` as the arena. */
  lemma RunMessage(lines: seq<string>)
    requires lines == MessageLines()
    ensures Run(Init(), lines, "VMSG") == State(FinalObjects(), [], [0], false)
  {
    var a, b, c, d := OpeningLines(), EnvelopeLines(), CaptureLines(), ClosingLines();
    var s0 := Init();
    RunFirstCard(s0, a);
    var s4 := Run(s0, a, "VMSG");
    RunSecondCard(s4, b);
    var s8 := Run(s4, b, "VMSG");
    RunBody(s8, c);
    var s12 := Run(s8, c, "VMSG");
    RunClose(s12, d);
    RunAppend(s0, a, b, "VMSG");
    RunAppend(s0, a + b, c, "VMSG");
    RunAppend(s0, a + b + c, d, "VMSG");
  }

  /** Four lines are four steps. */
  lemma RunFour(s: State, lines: seq<string>, c: string)
    requires Valid(s) && |lines| == 4
    ensures Run(s, lines, c) == Step(Step(Step(Step(s, lines[0], c), lines[1], c), lines[2], c), lines[3], c)
  {
    assert lines[..3][..2] == lines[..2] && lines[..2][..1] == lines[..1] && lines[..1][..0] == [];
    assert Run(s, lines[..1], c) == Step(s, lines[0], c);
    assert Run(s, lines[..2], c) == Step(Run(s, lines[..1], c), lines[1], c);
    assert Run(s, lines[..3], c) == Step(Run(s, lines[..2], c), lines[2], c);
  }

  /** The message and its first contact. */
  lemma RunFirstCard(s: State, lines: seq<string>)
    requires Valid(s) && s == Init()
    requires lines == OpeningLines()
    ensures Run(s, lines, "VMSG") == State([MessageOpen, FirstCard], [0], [0], false)
  {
    RunFour(s, lines, "VMSG");
    OpenMessage(s);
    var s1 := Step(s, lines[0], "VMSG");
    OpenFirstCard(s1);
    var s2 := Step(s1, lines[1], "VMSG");
    StoreFirstTel(s2);
    var s3 := Step(s2, lines[2], "VMSG");
    CloseFirstCard(s3);
  }

  /** The envelope and the second contact. */
  lemma RunSecondCard(s: State, lines: seq<string>)
    requires Valid(s) && s == State([MessageOpen, FirstCard], [0], [0], false)
    requires lines == EnvelopeLines()
    ensures Run(s, lines, "VMSG") == State([MessageDone, FirstCard, EnvelopeOpen, SecondCard], [0, 2], [0], false)
  {
    RunFour(s, lines, "VMSG");
    OpenEnvelope(s);
    var s5 := Step(s, lines[0], "VMSG");
    OpenSecondCard(s5);
    var s6 := Step(s5, lines[1], "VMSG");
    StoreSecondTel(s6);
    var s7 := Step(s6, lines[2], "VMSG");
    CloseSecondCard(s7);
  }

  /** The inner envelope and its captured body. */
  lemma RunBody(s: State, lines: seq<string>)
    requires Valid(s) && s == State([MessageDone, FirstCard, EnvelopeOpen, SecondCard], [0, 2], [0], false)
    requires lines == CaptureLines()
    ensures Run(s, lines, "VMSG") == State(FinalObjects(), [0, 2, 4], [0], true)
  {
    RunFour(s, lines, "VMSG");
    OpenInnerEnvelope(s);
    var s9 := Step(s, lines[0], "VMSG");
    OpenBody(s9);
    var s10 := Step(s9, lines[1], "VMSG");
    DateLineOrdinary();
    CaptureDate(s10, lines[2]);
    var s11 := Step(s10, lines[2], "VMSG");
    CaptureHello(s11, DateLine + "\n", lines[3]);
  }

  /** The end of the body and of every open block. */
  lemma RunClose(s: State, lines: seq<string>)
    requires Valid(s) && s == State(FinalObjects(), [0, 2, 4], [0], true)
    requires lines == ClosingLines()
    ensures Run(s, lines, "VMSG") == State(FinalObjects(), [], [0], false)
  {
    RunFour(s, lines, "VMSG");
    CloseBody(s);
    var s13 := Step(s, lines[0], "VMSG");
    CloseInnerEnvelope(s13);
    var s14 := Step(s13, lines[1], "VMSG");
    CloseEnvelope(s14);
    var s15 := Step(s14, lines[2], "VMSG");
    CloseMessage(s15);
  }

  // ---------------------------------------------------------------- steps

  /** `BEGIN:VMSG` opens the message as the only root. */
  lemma OpenMessage(s: State)
    requires Valid(s) && s == Init()
    ensures Step(s, Begin("VMSG"), "VMSG") == State([map[]], [0], [0], false)
  {
    OpensRoot(s, "VMSG");
  }

  /** `BEGIN:VCARD` opens the first contact under `VCARD` of the message. */
  lemma OpenFirstCard(s: State)
    requires Valid(s) && s == State([map[]], [0], [0], false)
    ensures Step(s, Begin("VCARD"), "VMSG") == State([MessageOpen, map[]], [0, 1], [0], false)
  {
    Opens(s, "VCARD", "VMSG");
    var blank: Fields := map[];
    assert blank["VCARD" := Child(1)] == MessageOpen;
    assert OpenChild(s, "VCARD") == State([blank["VCARD" := Child(1)], map[]], [0, 1], [0], false);
  }

  /** `TEL:111` is stored in the first contact. */
  lemma StoreFirstTel(s: State)
    requires Valid(s) && s == State([MessageOpen, map[]], [0, 1], [0], false)
    ensures Step(s, TelLine("111"), "VMSG") == State([MessageOpen, FirstCard], [0, 1], [0], false)
  {
    StoresTel(s, "111", "VMSG");
  }

  /** `END:VCARD` closes the first contact. */
  lemma CloseFirstCard(s: State)
    requires Valid(s) && s == State([MessageOpen, FirstCard], [0, 1], [0], false)
    ensures Step(s, End("VCARD"), "VMSG") == State([MessageOpen, FirstCard], [0], [0], false)
  {
    Closes(s, "VCARD", "VMSG");
  }

  /** `BEGIN:VENV` opens the envelope under `VENV` of the message. */
  lemma OpenEnvelope(s: State)
    requires Valid(s) && s == State([MessageOpen, FirstCard], [0], [0], false)
    ensures Step(s, Begin("VENV"), "VMSG") == State([MessageDone, FirstCard, map[]], [0, 2], [0], false)
  {
    Opens(s, "VENV", "VMSG");
    assert MessageOpen["VENV" := Child(2)] == MessageDone;
    assert OpenChild(s, "VENV") == State([MessageOpen["VENV" := Child(2)], FirstCard, map[]], [0, 2], [0], false);
  }

  /** `BEGIN:VCARD` opens the second contact under `VCARD` of the envelope. */
  lemma OpenSecondCard(s: State)
    requires Valid(s) && s == State([MessageDone, FirstCard, map[]], [0, 2], [0], false)
    ensures Step(s, Begin("VCARD"), "VMSG") == State([MessageDone, FirstCard, EnvelopeOpen, map[]], [0, 2, 3], [0], false)
  {
    Opens(s, "VCARD", "VMSG");
    var blank: Fields := map[];
    assert blank["VCARD" := Child(3)] == EnvelopeOpen;
    assert OpenChild(s, "VCARD") == State([MessageDone, FirstCard, blank["VCARD" := Child(3)], map[]], [0, 2, 3], [0], false);
  }

  /** `TEL:222` is stored in the second contact. */
  lemma StoreSecondTel(s: State)
    requires Valid(s) && s == State([MessageDone, FirstCard, EnvelopeOpen, map[]], [0, 2, 3], [0], false)
    ensures Step(s, TelLine("222"), "VMSG") == State([MessageDone, FirstCard, EnvelopeOpen, SecondCard], [0, 2, 3], [0], false)
  {
    StoresTel(s, "222", "VMSG");
  }

  /** `END:VCARD` closes the second contact. */
  lemma CloseSecondCard(s: State)
    requires Valid(s) && s == State([MessageDone, FirstCard, EnvelopeOpen, SecondCard], [0, 2, 3], [0], false)
    ensures Step(s, End("VCARD"), "VMSG") == State([MessageDone, FirstCard, EnvelopeOpen, SecondCard], [0, 2], [0], false)
  {
    Closes(s, "VCARD", "VMSG");
  }

  /** `BEGIN:VENV` opens the inner envelope under `VENV` of the envelope. */
  lemma OpenInnerEnvelope(s: State)
    requires Valid(s) && s == State([MessageDone, FirstCard, EnvelopeOpen, SecondCard], [0, 2], [0], false)
    ensures Step(s, Begin("VENV"), "VMSG") == State([MessageDone, FirstCard, EnvelopeDone, SecondCard, map[]], [0, 2, 4], [0], false)
  {
    Opens(s, "VENV", "VMSG");
    assert EnvelopeOpen["VENV" := Child(4)] == EnvelopeDone;
    assert OpenChild(s, "VENV") == State([MessageDone, FirstCard, EnvelopeOpen["VENV" := Child(4)], SecondCard, map[]], [0, 2, 4], [0], false);
  }

  /** `BEGIN:VBODY` starts an empty body in the inner envelope and raw capture. */
  lemma OpenBody(s: State)
    requires Valid(s) && s == State([MessageDone, FirstCard, EnvelopeDone, SecondCard, map[]], [0, 2, 4], [0], false)
    ensures Step(s, Begin("VBODY"), "VMSG") == State([MessageDone, FirstCard, EnvelopeDone, SecondCard, Body("")], [0, 2, 4], [0], true)
  {
    OpensBody(s, "VMSG", "VBODY");
    assert map[]["VBODY" := RawText("")] == Body("");
  }

  /** In the inner envelope's body, an ordinary line is captured verbatim
      after the text so far, not parsed as a property. */
  lemma CaptureLine(s: State, prior: string, line: string)
    requires Valid(s) && s == State([MessageDone, FirstCard, EnvelopeDone, SecondCard, Body(prior)], [0, 2, 4], [0], true)
    requires IsOrdinary(line)
    ensures Step(s, line, "VMSG") == State([MessageDone, FirstCard, EnvelopeDone, SecondCard, Body(prior + line + "\n")], [0, 2, 4], [0], true)
  {
    Captures(s, line, prior, "VMSG");
    BodyUpdate(prior, prior + line + "\n");
  }

  lemma BodyUpdate(prior: string, text: string)
    ensures Body(prior)["VBODY" := RawText(text)] == Body(text)
  {
  }

  /** The `Date:` line starts the captured body. */
  lemma CaptureDate(s: State, line: string)
    requires Valid(s) && s == State([MessageDone, FirstCard, EnvelopeDone, SecondCard, Body("")], [0, 2, 4], [0], true)
    requires IsOrdinary(line)
    ensures Step(s, line, "VMSG") == State([MessageDone, FirstCard, EnvelopeDone, SecondCard, Body(line + "\n")], [0, 2, 4], [0], true)
  {
    CaptureLine(s, "", line);
    assert "" + line + "\n" == line + "\n";
  }

  /** `Hello` is appended to the captured body. */
  lemma CaptureHello(s: State, prior: string, line: string)
    requires Valid(s) && s == State([MessageDone, FirstCard, EnvelopeDone, SecondCard, Body(prior)], [0, 2, 4], [0], true)
    requires prior == DateLine + "\n" && line == "Hello"
    ensures Step(s, line, "VMSG") == State(FinalObjects(), [0, 2, 4], [0], true)
  {
    HelloOrdinary();
    CaptureLine(s, prior, line);
  }


  /** `END:VBODY` ends raw capture without popping. */
  lemma CloseBody(s: State)
    requires Valid(s) && s == State(FinalObjects(), [0, 2, 4], [0], true)
    ensures Step(s, End("VBODY"), "VMSG") == State(FinalObjects(), [0, 2, 4], [0], false)
  {
    ClosesBody(s, "VMSG", "VBODY");
  }

  /** `END:VENV` closes the inner envelope. */
  lemma CloseInnerEnvelope(s: State)
    requires Valid(s) && s == State(FinalObjects(), [0, 2, 4], [0], false)
    ensures Step(s, End("VENV"), "VMSG") == State(FinalObjects(), [0, 2], [0], false)
  {
    Closes(s, "VENV", "VMSG");
  }

  /** `END:VENV` closes the envelope. */
  lemma CloseEnvelope(s: State)
    requires Valid(s) && s == State(FinalObjects(), [0, 2], [0], false)
    ensures Step(s, End("VENV"), "VMSG") == State(FinalObjects(), [0], [0], false)
  {
    Closes(s, "VENV", "VMSG");
  }

  /** `END:VMSG` closes the message. */
  lemma CloseMessage(s: State)
    requires Valid(s) && s == State(FinalObjects(), [0], [0], false)
    ensures Step(s, End("VMSG"), "VMSG") == State(FinalObjects(), [], [0], false)
  {
    Closes(s, "VMSG", "VMSG");
  }

  /** Rebuilding the trees from the final arena gives `MessageTree()`. */
  lemma MaterializeMessage(objs: seq<Fields>)
    requires objs == FinalObjects()
    ensures ChildrenAfter(objs)
    ensures Materialize(objs, 0) == MessageTree()
  {
    assert |objs| == 5;
    assert ChildrenAfter(objs) by {
      forall i, k | 0 <= i < |objs| && k in objs[i] && objs[i][k].Child?
        ensures i < objs[i][k].id < |objs|
      {
      }
    }
    MaterializeRaw(objs, 4, "VBODY", BodyText());
    MaterializeProp(objs, 3, "TEL", Tel("222"));
    MaterializePair(objs, 2, "VCARD", 3, "VENV", 4);
    MaterializeProp(objs, 1, "TEL", Tel("111"));
    MaterializePair(objs, 0, "VCARD", 1, "VENV", 2);
  }

  /** An object holding one captured text. */
  lemma MaterializeRaw(objs: seq<Fields>, id: nat, key: string, text: string)
    requires id < |objs| && ChildrenAfter(objs)
    requires objs[id] == map[key := RawText(text)]
    ensures Materialize(objs, id) == map[key := Raw(text)]
  {
  }

  /** An object holding two nested objects. */
  lemma MaterializePair(objs: seq<Fields>, id: nat, k1: string, c1: nat, k2: string, c2: nat)
    requires id < |objs| && ChildrenAfter(objs) && k1 != k2
    requires objs[id] == map[k1 := Child(c1), k2 := Child(c2)]
    ensures id < c1 < |objs| && id < c2 < |objs|
    ensures Materialize(objs, id) == map[k1 := Object(Materialize(objs, c1)), k2 := Object(Materialize(objs, c2))]
  {
    assert k1 in objs[id] && k2 in objs[id];
  }


  // ---------------------------------------------------------------- lines

  /** `BEGIN:<container>` on the empty state opens the first root. */
  lemma OpensRoot(s: State, c: string)
    requires s == Init() && c != "" && ':' !in c
    ensures Step(s, Begin(c), c) == State([map[]], [0], [0], false)
  {
    OpenFirstRoot(c);
  }

  /** `BEGIN:<name>` inside an open object, for a name other than the
      container and `VBODY`, opens a child under that name. */
  lemma Opens(s: State, name: string, c: string)
    requires Valid(s) && |s.stack| > 0
    requires name != "" && ':' !in name && name != c && name != "VBODY"
    ensures Step(s, Begin(name), c) == OpenChild(s, name)
  {
    LineFields("BEGIN", name);
    assert "BEGIN" + ":" + name == Begin(name);
  }

  /** `END:<name>` for a name other than `VBODY` pops a frame. */
  lemma Closes(s: State, name: string, c: string)
    requires Valid(s)
    requires name != "" && ':' !in name && name != "VBODY"
    ensures Step(s, End(name), c) == s.(stack := Pop(s.stack))
  {
    LineFields("END", name);
    assert "END" + ":" + name == End(name);
  }

  /** `TEL:<n>` outside raw capture stores the property `Tel(n)` under `TEL`. */
  lemma StoresTel(s: State, number: string, c: string)
    requires Valid(s) && |s.stack| > 0 && !s.raw
    requires number != "" && ':' !in number && ';' !in number
    ensures Step(s, TelLine(number), c) == Put(s, "TEL", PropSlot(Tel(number)))
  {
    LineFields("TEL", number);
    assert "TEL" + ":" + number == TelLine(number);
  }

  /** `BEGIN:VBODY` starts an empty `VBODY` and raw capture. */
  lemma OpensBody(s: State, c: string, name: string)
    requires Valid(s) && |s.stack| > 0 && name == "VBODY" && c != name
    ensures Step(s, Begin(name), c) == Put(s, name, RawText("")).(raw := true)
  {
    LineFields("BEGIN", name);
    assert "BEGIN" + ":" + name == Begin(name);
  }

  /** `END:VBODY` turns raw capture off. */
  lemma ClosesBody(s: State, c: string, name: string)
    requires Valid(s) && name == "VBODY"
    ensures Step(s, End(name), c) == s.(raw := false)
  {
    LineFields("END", name);
    assert "END" + ":" + name == End(name);
  }

  /** In raw capture an ordinary line is appended to the top's `VBODY` text. */
  lemma Captures(s: State, line: string, prior: string, c: string)
    requires Valid(s) && s.raw && |s.stack| > 0 && IsOrdinary(line)
    requires "VBODY" in s.objs[Top(s)] && s.objs[Top(s)]["VBODY"] == RawText(prior)
    ensures Step(s, line, c) == Put(s, "VBODY", RawText(prior + line + "\n"))
  {
  }

  lemma DateLineOrdinary()
    ensures IsOrdinary(DateLine)
  {
    assert DateLine[0] == 'D';
  }

  lemma HelloOrdinary()
    ensures IsOrdinary("Hello")
  {
    assert "Hello"[0] == 'H';
  }

  /** The text captured under `VBODY` is what the body parser then reads: it
      gives the date from the `Date:` line and the one line of text. */
  lemma MessageBodyParsed()
    ensures MsgBody.Parse(BodyText())
      == MsgBody.Message(MsgBody.FromText("2020-01-01T00:00:00"), "Hello\n")
  {
    MsgBodyExamples.DateAndOneLine(DateLine, "Hello");
  }
}
