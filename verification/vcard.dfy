/**
 The block parser `vCard.parse` of src/utils.ts: one left-to-right pass over
 the lines of a vCard 2.1 (or vendor "VMSG") text that keeps a stack of open
 objects, a raw-capture flag for `VBODY` blocks and the list of root objects.

 The source shares each object between the root list, its parent and the
 stack. Here objects live in an arena (`State.objs`, indexed by id), the stack
 and the roots are sequences of ids, and a nested object is reached from its
 parent through a `Child(id)` slot. `Materialize` turns the arena back into
 the object trees the source returns.
 */
module VCard {
  import opened Strings

  /** A `meta` entry: `name=value` gives `Text(value)`; a bare `name` or
      `name=` gives `Flag` (the source stores `true`). */
  datatype MetaValue = Text(text: string) | Flag

  type Meta = map<string, MetaValue>

  /** Exactly one of `value` (no `;` in the field) or `values` (split on `;`). */
  datatype Payload = Single(value: string) | Multi(values: seq<string>)

  datatype Property = Property(meta: Option<Meta>, payload: Payload)

  /** What an object key holds in the arena. */
  datatype Slot = PropSlot(prop: Property) | Child(id: nat) | RawText(text: string)

  type Fields = map<string, Slot>

  /** The parser's state: the arena, the stack of open objects (innermost
      last), the roots in creation order, and the raw-capture flag. */
  datatype State = State(objs: seq<Fields>, stack: seq<nat>, roots: seq<nat>, raw: bool)

  /** The object trees the source returns. */
  datatype Value = Prop(prop: Property) | Object(fields: map<string, Value>) | Raw(text: string)

  // ---------------------------------------------------------------- lines

  /** The text before the first `:` of a line: colon-free, and followed by
      the first `:` or by the end of the line. */
  function Key(line: string): (k: string)
    ensures ':' !in k && StartsWith(line, k)
    ensures |k| == |line| || line[|k|] == ':'
  {
    Before(line, ':')
  }

  /** The text between the first and second `:`; `None` without a `:`. */
  function FieldValue(line: string): (v: Option<string>)
    ensures v.None? <==> ':' !in line
    ensures v.Some? ==>
      var n := |Key(line)| + 1 + |v.value|;
      && ':' !in v.value
      && StartsWith(line, Key(line) + [':'] + v.value)
      && (n == |line| || line[n] == ':')
  {
    Second(line, ':')
  }

  /** JavaScript truthiness of a possibly-undefined string. */
  predicate Truthy(v: Option<string>)
  {
    v.Some? && v.value != ""
  }

  /** The guard `isVBody || key && value`: whether a line is looked at at all. */
  predicate Admitted(line: string, raw: bool)
  {
    raw || (Key(line) != "" && Truthy(FieldValue(line)))
  }

  /** A line that opens a new root object. */
  predicate IsRootBegin(line: string, container: string, raw: bool)
  {
    Key(line) == "BEGIN" && FieldValue(line) == Some(container) && (raw || container != "")
  }

  /** An ordinary (neither `BEGIN` nor `END`) line. */
  predicate IsOrdinary(line: string)
  {
    Key(line) != "BEGIN" && Key(line) != "END"
  }

  /** The key a nested `BEGIN` block is stored under: the block name, or the
      text "undefined" for a bare `BEGIN` seen in raw-capture mode. */
  function BlockKey(v: Option<string>): string
  {
    match v
    case Some(name) => name
    case None => "undefined"
  }

  /** The text a slot contributes to a string concatenation: an absent key
      reads as "undefined" and a property or nested object as
      "[object Object]". */
  function Concatenable(slot: Option<Slot>): string
  {
    match slot
    case None => "undefined"
    case Some(RawText(t)) => t
    case Some(_) => "[object Object]"
  }

  function Lookup(fields: Fields, key: string): Option<Slot>
  {
    if key in fields then Some(fields[key]) else None
  }

  // ---------------------------------------------------------------- properties

  /** One `meta` item `name[=value[=...]]`: the name is the text before the
      first `=`, the value the text between the first and second `=`, and a
      missing or empty value becomes `Flag`. */
  function MetaEntry(item: string): (e: (string, MetaValue))
    ensures '=' !in e.0 && StartsWith(item, e.0)
    ensures e.1.Flag? <==> (item == e.0 || StartsWith(item, e.0 + "==") || item == e.0 + "=")
    ensures e.1.Text? ==>
      && '=' !in e.1.text && e.1.text != ""
      && StartsWith(item, e.0 + "=" + e.1.text)
      && (|e.0| + 1 + |e.1.text| == |item| || item[|e.0| + 1 + |e.1.text|] == '=')
  {
    var name := Before(item, '=');
    var v := Second(item, '=');
    MetaFlagCases(item);
    if v.Some? && v.value != "" then
      MetaTextCase(item);
      (name, Text(v.value))
    else
      (name, Flag)
  }

  /** The value of a meta item is missing or empty exactly when the item is
      its name alone, its name and `=`, or its name and `==` followed by
      anything. */
  lemma MetaFlagCases(item: string)
    ensures var name, v := Before(item, '='), Second(item, '=');
      (v.None? || v.value == "") <==> (item == name || StartsWith(item, name + "==") || item == name + "=")
  {
    var name := Before(item, '=');
    var v := Second(item, '=');
    if v.Some? && v.value == "" {
      var n := |name| + 1;
      assert item[..n] == name + "=";
      assert n < |item| ==> item[..n + 1] == name + "==";
    }
    if v.None? {
      assert item == name;
    }
    if v.Some? && v.value != "" {
      assert item[..|name| + 1 + |v.value|] == name + "=" + v.value;
      assert item[|name| + 1] == v.value[0] != '=';
    }
    assert StartsWith(item, name + "==") ==> item[|name|] == '=' && item[|name| + 1] == '=';
  }

  /** A non-empty meta value follows the name and `=` in the item. */
  lemma MetaTextCase(item: string)
    requires Second(item, '=').Some? && Second(item, '=').value != ""
    ensures var name, t := Before(item, '='), Second(item, '=').value;
      && StartsWith(item, name + "=" + t)
      && (|name| + 1 + |t| == |item| || item[|name| + 1 + |t|] == '=')
  {
    var name := Before(item, '=');
    var t := Second(item, '=').value;
    assert item[..|name| + 1 + |t|] == name + "=" + t;
  }


  /** The `meta` map built by folding the items left to right, so a later
      item with the same name overwrites an earlier one. */
  function MetaOf(items: seq<string>): (m: Meta)
    ensures m.Keys == set i | 0 <= i < |items| :: MetaEntry(items[i]).0
    decreases |items|
  {
    if |items| == 0 then map[]
    else
      var init := items[..|items| - 1];
      var e := MetaEntry(items[|items| - 1]);
      var m := MetaOf(init)[e.0 := e.1];
      assert forall i :: 0 <= i < |init| ==> init[i] == items[i];
      m
  }

  /** The last item carrying a name decides that name's entry. */
  lemma {:induction false} MetaLastWins(items: seq<string>, j: nat)
    requires j < |items|
    requires forall l :: j < l < |items| ==> MetaEntry(items[l]).0 != MetaEntry(items[j]).0
    ensures MetaEntry(items[j]).0 in MetaOf(items)
    ensures MetaOf(items)[MetaEntry(items[j]).0] == MetaEntry(items[j]).1
    decreases |items|
  {
    if j < |items| - 1 {
      var init := items[..|items| - 1];
      assert init[j] == items[j];
      assert forall l :: j < l < |init| ==> init[l] == items[l];
      MetaLastWins(init, j);
    }
  }

  /** The property name: the text of the key before its first `;`. */
  function PropertyName(key: string): (name: string)
    ensures ';' !in name && StartsWith(key, name)
    ensures |name| == |key| || key[|name|] == ';'
  {
    Before(key, ';')
  }

  /** The property a `key:value` line stores. */
  function ParseProperty(key: string, value: string): (p: Property)
    ensures p.meta.Some? <==> ';' in key
    ensures p.meta.Some? ==> p.meta.value == MetaOf(Split(key, ';')[1..])
    ensures p.payload.Multi? <==> ';' in value
    ensures p.payload.Single? ==> p.payload.value == value
    ensures p.payload.Multi? ==>
      && |p.payload.values| == Count(value, ';') + 1
      && Join(p.payload.values, ';') == value
      && forall i :: 0 <= i < |p.payload.values| ==> ';' !in p.payload.values[i]
  {
    var segments := Split(key, ';');
    var parts := Split(value, ';');
    SplitSingle(key, ';');
    SplitSingle(value, ';');
    SplitCount(value, ';');
    var meta := if |segments| > 1 then Some(MetaOf(segments[1..])) else None;
    Property(meta, if |parts| > 1 then Multi(parts) else Single(value))
  }

  // ---------------------------------------------------------------- state

  predicate InArena(ids: seq<nat>, n: nat)
  {
    forall i :: 0 <= i < |ids| ==> ids[i] < n
  }

  predicate Increasing(ids: seq<nat>)
  {
    forall i, j :: 0 <= i < j < |ids| ==> ids[i] < ids[j]
  }

  /** Every nested object was created after its parent. */
  predicate ChildrenAfter(objs: seq<Fields>)
  {
    forall i, k :: 0 <= i < |objs| && k in objs[i] && objs[i][k].Child? ==> i < objs[i][k].id < |objs|
  }

  /** No root is ever stored under a key of another object. */
  predicate RootsDetached(s: State)
  {
    forall i, k :: 0 <= i < |s.objs| && k in s.objs[i] && s.objs[i][k].Child? ==> s.objs[i][k].id !in s.roots
  }

  /** The invariant every reachable state keeps. */
  predicate Valid(s: State)
  {
    && InArena(s.stack, |s.objs|)
    && InArena(s.roots, |s.objs|)
    && Increasing(s.roots)
    && ChildrenAfter(s.objs)
    && RootsDetached(s)
  }

  /** The state before the first line. */
  function Init(): (s: State)
    ensures Valid(s)
  {
    State([], [], [], false)
  }

  function Top(s: State): nat
    requires |s.stack| > 0
  {
    s.stack[|s.stack| - 1]
  }

  /** `nestObjs.pop()`, which does nothing on an empty stack. */
  function Pop(stack: seq<nat>): (r: seq<nat>)
    ensures |stack| > 0 ==> r + [stack[|stack| - 1]] == stack
    ensures |stack| == 0 ==> r == []
  {
    if |stack| == 0 then stack else stack[..|stack| - 1]
  }

  /** Store a non-object slot under `key` of the innermost open object. */
  function Put(s: State, key: string, slot: Slot): (r: State)
    requires Valid(s) && |s.stack| > 0 && !slot.Child?
    ensures Valid(r)
  {
    var t := Top(s);
    s.(objs := s.objs[t := s.objs[t][key := slot]])
  }

  /** A `BEGIN:<container>` line: a fresh object becomes a root and is pushed. */
  function OpenRoot(s: State): (r: State)
    requires Valid(s)
    ensures Valid(r)
  {
    var n := |s.objs|;
    State(s.objs + [map[]], s.stack + [n], s.roots + [n], s.raw)
  }

  /** A nested `BEGIN` line: a fresh object is stored under `key` of the
      innermost open object and pushed. */
  function OpenChild(s: State, key: string): (r: State)
    requires Valid(s) && |s.stack| > 0
    ensures Valid(r)
  {
    var n := |s.objs|;
    var t := Top(s);
    var objs := s.objs[t := s.objs[t][key := Child(n)]] + [map[]];
    assert forall i :: 0 <= i < |s.objs| && i != t ==> objs[i] == s.objs[i];
    s.(objs := objs, stack := s.stack + [n])
  }

  /** One iteration of the source's loop. A new root is appended exactly when
      the line is a root `BEGIN`, and the roots seen so far never change. */
  function Step(s: State, line: string, container: string): (r: State)
    requires Valid(s)
    ensures Valid(r)
    ensures r.roots == s.roots + (if IsRootBegin(line, container, s.raw) then [|s.objs|] else [])
  {
    var key := Key(line);
    var value := FieldValue(line);
    if !Admitted(line, s.raw) then s
    else if key == "BEGIN" then
      if value == Some(container) then OpenRoot(s)
      else if |s.stack| == 0 then s
      else if value == Some("VBODY") then Put(s, "VBODY", RawText("")).(raw := true)
      else OpenChild(s, BlockKey(value))
    else if key == "END" then
      if value == Some("VBODY") then s.(raw := false)
      else s.(stack := Pop(s.stack))
    else if |s.stack| == 0 then s
    else if s.raw then
      var prior := Concatenable(Lookup(s.objs[Top(s)], "VBODY"));
      Put(s, "VBODY", RawText(prior + line + "\n"))
    else
      Put(s, PropertyName(key), PropSlot(ParseProperty(key, value.value)))
  }

  /** The state after the given lines, starting from `s`. */
  function Run(s: State, lines: seq<string>, container: string): (r: State)
    requires Valid(s)
    ensures Valid(r)
    decreases |lines|
  {
    if |lines| == 0 then s
    else Step(Run(s, lines[..|lines| - 1], container), lines[|lines| - 1], container)
  }

  /** Number of lines of the form `BEGIN:<container>[:...]`. */
  function CountRootBegins(lines: seq<string>, container: string): nat
    decreases |lines|
  {
    if |lines| == 0 then 0
    else
      var last := lines[|lines| - 1];
      CountRootBegins(lines[..|lines| - 1], container)
        + (if Key(last) == "BEGIN" && FieldValue(last) == Some(container) then 1 else 0)
  }

  /** With a non-empty container name, one root per `BEGIN:<container>` line. */
  lemma {:induction false} RootsCount(s: State, lines: seq<string>, container: string)
    requires Valid(s) && container != ""
    ensures |Run(s, lines, container).roots| == |s.roots| + CountRootBegins(lines, container)
    decreases |lines|
  {
    if |lines| > 0 {
      RootsCount(s, lines[..|lines| - 1], container);
    }
  }

  /** With the empty container name no line ever changes the initial state:
      `BEGIN:` has a falsy value and is skipped outside raw mode, raw mode needs
      an open object, and the first object opened would have to be a root. */
  lemma {:induction false} EmptyContainer(lines: seq<string>)
    ensures Run(Init(), lines, "") == Init()
    decreases |lines|
  {
    if |lines| > 0 {
      EmptyContainer(lines[..|lines| - 1]);
    }
  }

  // ---------------------------------------------------------------- trees

  /** The object tree rooted at arena object `id`. */
  function Materialize(objs: seq<Fields>, id: nat): (m: map<string, Value>)
    requires id < |objs| && ChildrenAfter(objs)
    ensures m.Keys == objs[id].Keys
    decreases |objs| - id
  {
    map k | k in objs[id] ::
      match objs[id][k]
      case PropSlot(p) => Prop(p)
      case RawText(t) => Raw(t)
      case Child(c) => Object(Materialize(objs, c))
  }

  /** `vCard.parse(text, container)`: the root objects, in order. The
      container name defaults to `"VCARD"`. */
  function Parse(text: string, container: string := "VCARD"): (roots: seq<map<string, Value>>)
    ensures container != "" ==> |roots| == CountRootBegins(Lines(text), container)
    ensures container == "" ==> roots == []
  {
    var s := Run(Init(), Lines(text), container);
    assert container != "" ==> |s.roots| == CountRootBegins(Lines(text), container) by {
      if container != "" {
        RootsCount(Init(), Lines(text), container);
      }
    }
    assert container == "" ==> s.roots == [] by {
      if container == "" {
        EmptyContainer(Lines(text));
      }
    }
    seq(|s.roots|, i requires 0 <= i < |s.roots| => Materialize(s.objs, s.roots[i]))
  }
}
