/**
 What one line does to the block parser's state, case by case, and what a
 run of lines does: the root count, raw capture of a `VBODY` block, and the
 frame conditions ("nothing else changes") of every write.
 */
module VCardLemmas {
  import opened Strings
  import opened VCard

  /** `r` differs from `s` only in key `key` of the innermost open object. */
  predicate OnlyTopKeyChanged(s: State, r: State, key: string)
    requires |s.stack| > 0 && Top(s) < |s.objs|
  {
    var t := Top(s);
    && |r.objs| == |s.objs|
    && (forall i :: 0 <= i < |s.objs| && i != t ==> r.objs[i] == s.objs[i])
    && r.objs[t].Keys == s.objs[t].Keys + {key}
    && (forall k :: k in s.objs[t] && k != key ==> r.objs[t][k] == s.objs[t][k])
    && r.stack == s.stack
    && r.roots == s.roots
  }

  /** A line built from colon-free fields has the first as its key and the
      second as its value; any further fields are dropped. */
  lemma FieldsOfLine(key: string, value: string, rest: seq<string>)
    requires ':' !in key && ':' !in value
    requires forall i :: 0 <= i < |rest| ==> ':' !in rest[i]
    ensures Key(Join([key, value] + rest, ':')) == key
    ensures FieldValue(Join([key, value] + rest, ':')) == Some(value)
  {
    var parts := [key, value] + rest;
    ColonFreeParts(key, value, rest);
    var line := Join(parts, ':');
    SplitJoin(parts, ':');
    FirstParts(line, ':');
  }

  lemma ColonFreeParts(key: string, value: string, rest: seq<string>)
    requires ':' !in key && ':' !in value
    requires forall i :: 0 <= i < |rest| ==> ':' !in rest[i]
    ensures forall i :: 0 <= i < |[key, value] + rest| ==> ':' !in ([key, value] + rest)[i]
  {
    var parts := [key, value] + rest;
    forall i | 0 <= i < |parts|
      ensures ':' !in parts[i]
    {
      if i >= 2 {
        assert parts[i] == rest[i - 2];
      }
    }
  }

  /** Outside raw-capture mode a line is looked at exactly when its first
      `:` is neither its first nor its last character and is not directly
      followed by a second `:`. */
  lemma AdmittedLine(line: string, raw: bool)
    ensures Admitted(line, raw) <==>
      raw || exists i :: 0 < i && i + 1 < |line| && line[i] == ':' && ':' !in line[..i] && line[i + 1] != ':'
  {
    var k := Key(line);
    var v := FieldValue(line);
    if Key(line) != "" && Truthy(v) {
      var i := |k|;
      assert line[..i] == k;
      assert line[..i + 1 + |v.value|] == k + [':'] + v.value;
      assert line[i + 1] == v.value[0];
    }
    if exists i :: 0 < i && i + 1 < |line| && line[i] == ':' && ':' !in line[..i] && line[i + 1] != ':' {
      var i :| 0 < i && i + 1 < |line| && line[i] == ':' && ':' !in line[..i] && line[i + 1] != ':';
      assert line[..|k|] == k;
      assert |k| == i;
      assert ':' in line;
      assert line[..|k| + 1 + |v.value|] == k + [':'] + v.value;
    }
  }

  /** The key a nested `BEGIN` block is stored under is the colon-free text
      right after the first `:`; a line without any `:` gives the key
      "undefined", which can only happen in raw-capture mode, since outside
      it such a line is never looked at. */
  lemma BlockKeyOfLine(line: string)
    ensures ':' !in line ==> BlockKey(FieldValue(line)) == "undefined"
    ensures ':' in line ==>
      var b := BlockKey(FieldValue(line));
      var n := |Key(line)| + 1 + |b|;
      && ':' !in b
      && StartsWith(line, Key(line) + [':'] + b)
      && (n == |line| || line[n] == ':')
    ensures Admitted(line, false) ==> ':' in line
  {
  }

  /** `BEGIN:<container>` always opens a fresh root and pushes it, whatever is
      open; no existing object changes, so it is never attached to a parent. */
  lemma RootBegin(s: State, line: string, container: string)
    requires Valid(s) && IsRootBegin(line, container, s.raw)
    ensures var r := Step(s, line, container);
      && r.objs == s.objs + [map[]]
      && r.stack == s.stack + [|s.objs|]
      && r.roots == s.roots + [|s.objs|]
      && r.raw == s.raw
  {
  }

  /** Any other admitted `BEGIN` line on a non-empty stack stores a fresh
      empty object under the block name of the innermost open object
      (replacing what was there), pushes it, and changes nothing else. */
  lemma ChildBegin(s: State, line: string, container: string)
    requires Valid(s) && Admitted(line, s.raw) && |s.stack| > 0
    requires Key(line) == "BEGIN"
    requires FieldValue(line) != Some(container) && FieldValue(line) != Some("VBODY")
    ensures var r := Step(s, line, container);
      var n := |s.objs|;
      var t := Top(s);
      && |r.objs| == n + 1
      && r.objs[n] == map[]
      && r.objs[t] == s.objs[t][BlockKey(FieldValue(line)) := Child(n)]
      && (forall i :: 0 <= i < n && i != t ==> r.objs[i] == s.objs[i])
      && r.stack == s.stack + [n]
      && r.roots == s.roots
      && r.raw == s.raw
  {
  }

  /** A `BEGIN` line that does not open a root is ignored on an empty stack. */
  lemma BeginWithoutParent(s: State, line: string, container: string)
    requires Valid(s) && |s.stack| == 0
    requires Key(line) == "BEGIN" && !IsRootBegin(line, container, s.raw)
    ensures Step(s, line, container) == s
  {
  }

  /** `BEGIN:VBODY` sets the innermost object's `VBODY` to the empty text and
      enters raw-capture mode without pushing a frame. */
  lemma BeginVBody(s: State, line: string, container: string)
    requires Valid(s) && |s.stack| > 0 && container != "VBODY"
    requires Key(line) == "BEGIN" && FieldValue(line) == Some("VBODY")
    ensures var r := Step(s, line, container);
      && OnlyTopKeyChanged(s, r, "VBODY")
      && r.objs[Top(s)]["VBODY"] == RawText("")
      && r.raw
  {
  }

  /** `END:VBODY` only leaves raw-capture mode. */
  lemma EndVBody(s: State, line: string, container: string)
    requires Valid(s)
    requires Key(line) == "END" && FieldValue(line) == Some("VBODY")
    ensures Step(s, line, container) == s.(raw := false)
  {
  }

  /** Every other admitted `END` line pops exactly one frame, whatever block
      it names and also in raw-capture mode; on an empty stack it does
      nothing. */
  lemma EndPops(s: State, line: string, container: string)
    requires Valid(s) && Admitted(line, s.raw)
    requires Key(line) == "END" && FieldValue(line) != Some("VBODY")
    ensures var r := Step(s, line, container);
      && r.objs == s.objs && r.roots == s.roots && r.raw == s.raw
      && (|s.stack| > 0 ==> r.stack == s.stack[..|s.stack| - 1])
      && (|s.stack| == 0 ==> r.stack == [])
  {
  }

  /** In raw-capture mode an ordinary line, whatever it contains, is appended
      with a newline to the innermost object's `VBODY`, and nothing else
      changes. */
  lemma RawLine(s: State, line: string, container: string)
    requires Valid(s) && s.raw && |s.stack| > 0 && IsOrdinary(line)
    ensures var r := Step(s, line, container);
      var t := Top(s);
      && OnlyTopKeyChanged(s, r, "VBODY")
      && r.raw
      && ("VBODY" in s.objs[t] && s.objs[t]["VBODY"].RawText? ==>
            r.objs[t]["VBODY"] == RawText(s.objs[t]["VBODY"].text + line + "\n"))
      && ("VBODY" !in s.objs[t] ==> r.objs[t]["VBODY"] == RawText("undefined" + line + "\n"))
      && ("VBODY" in s.objs[t] && !s.objs[t]["VBODY"].RawText? ==>
            r.objs[t]["VBODY"] == RawText("[object Object]" + line + "\n"))
  {
  }

  /** Lines outside raw-capture mode with an empty key or an empty or missing
      value change nothing, and neither does an ordinary line on an empty
      stack. */
  lemma Ignored(s: State, line: string, container: string)
    requires Valid(s)
    ensures !s.raw && (Key(line) == "" || !Truthy(FieldValue(line))) ==> Step(s, line, container) == s
    ensures IsOrdinary(line) && |s.stack| == 0 ==> Step(s, line, container) == s
  {
  }

  /** A property line writes `top[name]` and nothing else, where `name` is
      the key's text before its first `;`. */
  lemma PropertyLine(s: State, line: string, container: string, v: string)
    requires Valid(s) && !s.raw && |s.stack| > 0 && IsOrdinary(line)
    requires Key(line) != "" && FieldValue(line) == Some(v) && v != ""
    ensures var r := Step(s, line, container);
      var name := PropertyName(Key(line));
      && OnlyTopKeyChanged(s, r, name)
      && r.objs[Top(s)][name] == PropSlot(ParseProperty(Key(line), v))
      && !r.raw
  {
  }

  // ---------------------------------------------------------------- runs

  /** Running two blocks of lines is running the second after the first. */
  lemma {:induction false} RunAppend(s: State, a: seq<string>, b: seq<string>, container: string)
    requires Valid(s)
    ensures Run(s, a + b, container) == Run(Run(s, a, container), b, container)
    decreases |b|
  {
    if |b| > 0 {
      var b' := b[..|b| - 1];
      assert (a + b)[..|a + b| - 1] == a + b';
      assert (a + b)[|a + b| - 1] == b[|b| - 1];
      RunAppend(s, a, b', container);
    } else {
      assert a + b == a;
    }
  }

  /** While raw capture is on, ordinary lines are appended verbatim, each
      with a newline, to the innermost object's `VBODY`; the stack, the roots
      and every other object stay as they were. */
  lemma {:induction false} RawCapture(s: State, lines: seq<string>, container: string, prior: string)
    requires Valid(s) && s.raw && |s.stack| > 0
    requires "VBODY" in s.objs[Top(s)] && s.objs[Top(s)]["VBODY"] == RawText(prior)
    requires forall i :: 0 <= i < |lines| ==> IsOrdinary(lines[i])
    ensures var r := Run(s, lines, container);
      && RawFrame(s, r)
      && "VBODY" in r.objs[Top(s)]
      && r.objs[Top(s)]["VBODY"] == RawText(prior + Terminated(lines))
    decreases |lines|
  {
    if |lines| > 0 {
      var init := lines[..|lines| - 1];
      var last := lines[|lines| - 1];
      RawCapture(s, init, container, prior);
      assert IsOrdinary(last);
      RawCaptureStep(s, Run(s, init, container), last, container, prior + Terminated(init));
      TerminatedSnoc(prior, init, last);
    }
  }

  /** One more ordinary line extends the captured text. */
  lemma RawCaptureStep(s: State, m: State, line: string, container: string, text: string)
    requires |s.stack| > 0 && Valid(m) && IsOrdinary(line)
    requires RawFrame(s, m) && s.raw
    requires "VBODY" in m.objs[Top(s)] && m.objs[Top(s)]["VBODY"] == RawText(text)
    ensures var r := Step(m, line, container);
      && RawFrame(s, r)
      && "VBODY" in r.objs[Top(s)]
      && r.objs[Top(s)]["VBODY"] == RawText(text + line + "\n")
  {
    RawLine(m, line, container);
  }

  /** `r` keeps `s`'s stack, roots and raw-capture mode and changes no
      object other than the innermost open one. */
  predicate RawFrame(s: State, r: State)
    requires |s.stack| > 0
  {
    && r.raw == s.raw && r.stack == s.stack && r.roots == s.roots && |r.objs| == |s.objs|
    && (forall i :: 0 <= i < |s.objs| && i != Top(s) ==> r.objs[i] == s.objs[i])
  }

  /** A whole `BEGIN:VBODY` ... `END:VBODY` block on a non-empty stack stores
      its inner lines verbatim, one newline after each, leaves raw-capture
      mode again and leaves the stack as it found it. */
  lemma VBodyBlock(s: State, begin: string, body: seq<string>, end: string, container: string)
    requires Valid(s) && !s.raw && |s.stack| > 0 && container != "VBODY"
    requires Key(begin) == "BEGIN" && FieldValue(begin) == Some("VBODY")
    requires Key(end) == "END" && FieldValue(end) == Some("VBODY")
    requires forall i :: 0 <= i < |body| ==> IsOrdinary(body[i])
    ensures var r := Run(s, [begin] + body + [end], container);
      && !r.raw && r.stack == s.stack && r.roots == s.roots
      && "VBODY" in r.objs[Top(s)]
      && r.objs[Top(s)]["VBODY"] == RawText(Terminated(body))
  {
    var s1 := Step(s, begin, container);
    BeginVBody(s, begin, container);
    RunOne(s, begin, container);
    assert s1.stack == s.stack && Top(s1) == Top(s);
    RawCapture(s1, body, container, "");
    var s2 := Run(s1, body, container);
    RunOne(s2, end, container);
    EndVBody(s2, end, container);
    RunAppend(s, [begin], body, container);
    RunAppend(s, [begin] + body, [end], container);
    assert "" + Terminated(body) == Terminated(body);
  }

  /** A single line is a single step. */
  lemma RunOne(s: State, line: string, container: string)
    requires Valid(s)
    ensures Run(s, [line], container) == Step(s, line, container)
  {
    assert [line][..0] == [];
  }

  /** A root block holding one property line parses to one tree holding
      exactly that property. */
  lemma RootProperty(container: string, key: string, value: string)
    requires container != "" && ':' !in container && SingleLine(container)
    requires key != "" && ':' !in key && SingleLine(key) && key != "BEGIN" && key != "END"
    requires value != "" && ':' !in value && SingleLine(value)
    ensures Parse(Join(["BEGIN:" + container, key + ":" + value], '\n'), container)
      == [map[PropertyName(key) := Prop(ParseProperty(key, value))]]
  {
    var lines := ["BEGIN:" + container, key + ":" + value];
    var text := Join(lines, '\n');
    var p := ParseProperty(key, value);
    var fields := map[PropertyName(key) := PropSlot(p)];
    RootPropertyLines(container, key, value);
    RootPropertyRun(container, key, value);
    ParseSingleRoot(text, container, fields);
    MaterializeProp([fields], 0, PropertyName(key), p);
  }

  /** A text whose run ends with a single root object and nothing else. */
  lemma ParseSingleRoot(text: string, container: string, fields: Fields)
    requires Run(Init(), Lines(text), container) == State([fields], [0], [0], false)
    ensures ChildrenAfter([fields])
    ensures Parse(text, container) == [Materialize([fields], 0)]
  {
  }

  /** An object holding one property. */
  lemma MaterializeProp(objs: seq<Fields>, id: nat, key: string, p: Property)
    requires id < |objs| && ChildrenAfter(objs)
    requires objs[id] == map[key := PropSlot(p)]
    ensures Materialize(objs, id) == map[key := Prop(p)]
  {
  }

  lemma RootPropertyLines(container: string, key: string, value: string)
    requires SingleLine(container) && SingleLine(key) && SingleLine(value)
    ensures var lines := ["BEGIN:" + container, key + ":" + value];
      Lines(Join(lines, '\n')) == lines
  {
    var lines := ["BEGIN:" + container, key + ":" + value];
    assert SingleLine(lines[0]) && SingleLine(lines[1]);
    LinesJoin(lines);
  }

  lemma RootPropertyRun(container: string, key: string, value: string)
    requires container != "" && ':' !in container
    requires key != "" && ':' !in key && key != "BEGIN" && key != "END"
    requires value != "" && ':' !in value
    ensures Run(Init(), ["BEGIN:" + container, key + ":" + value], container)
      == State([map[PropertyName(key) := PropSlot(ParseProperty(key, value))]], [0], [0], false)
  {
    var begin := "BEGIN:" + container;
    var line := key + ":" + value;
    OpenFirstRoot(container);
    assert Run(Init(), [begin, line], container) == Step(Run(Init(), [begin], container), line, container) by {
      assert [begin, line][..1] == [begin];
    }
    assert Run(Init(), [begin], container) == Step(Init(), begin, container) by {
      assert [begin][..0] == [];
    }
    StoreFirstProperty(container, key, value);
  }

  lemma OpenFirstRoot(container: string)
    requires container != "" && ':' !in container
    ensures Step(Init(), "BEGIN:" + container, container) == State([map[]], [0], [0], false)
  {
    LineFields("BEGIN", container);
    assert "BEGIN" + ":" + container == "BEGIN:" + container;
    assert OpenRoot(Init()) == State([map[]], [0], [0], false);
  }

  lemma StoreFirstProperty(container: string, key: string, value: string)
    requires key != "" && ':' !in key && key != "BEGIN" && key != "END"
    requires value != "" && ':' !in value
    ensures Step(State([map[]], [0], [0], false), key + ":" + value, container)
      == State([map[PropertyName(key) := PropSlot(ParseProperty(key, value))]], [0], [0], false)
  {
    LineFields(key, value);
  }

  /** A line `key:value` of two colon-free fields. */
  lemma LineFields(key: string, value: string)
    requires ':' !in key && ':' !in value
    ensures Key(key + ":" + value) == key && FieldValue(key + ":" + value) == Some(value)
  {
    FieldsOfLine(key, value, []);
    assert Join([key, value], ':') == key + ":" + value;
  }

  /** Parsing a text with no `BEGIN:<container>` line gives no roots. */
  lemma NoRootBegin(text: string, container: string)
    requires container != ""
    requires forall i :: 0 <= i < |Lines(text)| ==> !(Key(Lines(text)[i]) == "BEGIN" && FieldValue(Lines(text)[i]) == Some(container))
    ensures Parse(text, container) == []
  {
    NoRootBeginCount(Lines(text), container);
  }

  lemma {:induction false} NoRootBeginCount(lines: seq<string>, container: string)
    requires forall i :: 0 <= i < |lines| ==> !(Key(lines[i]) == "BEGIN" && FieldValue(lines[i]) == Some(container))
    ensures CountRootBegins(lines, container) == 0
    decreases |lines|
  {
    if |lines| > 0 {
      NoRootBeginCount(lines[..|lines| - 1], container);
    }
  }
}
