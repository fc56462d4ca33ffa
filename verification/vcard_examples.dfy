/**
 Worked examples of the block parser on concrete lines.
 */
module VCardExamples {
  import opened Strings
  import opened VCard

  /** `TEL;TYPE=CELL;PREF:123-456` carries two parameters and one value. */
  lemma PropertyWithParameters()
    ensures ParseProperty("TEL;TYPE=CELL;PREF", "123-456")
      == Property(Some(map["TYPE" := Text("CELL"), "PREF" := Flag]), Single("123-456"))
  {
    KeySegments();
    MetaItems();
    SingleValue();
    var segments := ["TEL", "TYPE=CELL", "PREF"];
    ParameterProperty("TEL;TYPE=CELL;PREF", "123-456", segments);
    assert segments[1..] == ["TYPE=CELL", "PREF"];
    MetaOfTwo("TYPE=CELL", "PREF");
  }

  /** A key with parameters and a value without `;`. */
  lemma ParameterProperty(key: string, value: string, segments: seq<string>)
    requires Split(key, ';') == segments && |segments| > 1
    requires Split(value, ';') == [value]
    ensures ParseProperty(key, value) == Property(Some(MetaOf(segments[1..])), Single(value))
  {
  }

  /** The meta map of two items. */
  lemma MetaOfTwo(a: string, b: string)
    ensures MetaOf([a, b]) == map[MetaEntry(a).0 := MetaEntry(a).1][MetaEntry(b).0 := MetaEntry(b).1]
  {
    assert [a, b][..1] == [a];
    assert [a][..0] == [];
  }

  lemma KeySegments()
    ensures Split("TEL;TYPE=CELL;PREF", ';') == ["TEL", "TYPE=CELL", "PREF"]
  {
    assert Join(["TEL", "TYPE=CELL", "PREF"], ';') == "TEL;TYPE=CELL;PREF";
    SplitJoin(["TEL", "TYPE=CELL", "PREF"], ';');
  }

  lemma MetaItems()
    ensures MetaEntry("TYPE=CELL") == ("TYPE", Text("CELL"))
    ensures MetaEntry("PREF") == ("PREF", Flag)
  {
    TypeItem();
    PrefItem();
  }

  lemma TypeItem()
    ensures Split("TYPE=CELL", '=') == ["TYPE", "CELL"]
  {
    assert Join(["TYPE", "CELL"], '=') == "TYPE=CELL";
    SplitJoin(["TYPE", "CELL"], '=');
  }

  lemma PrefItem()
    ensures Split("PREF", '=') == ["PREF"]
  {
    SplitJoin(["PREF"], '=');
  }

  lemma SingleValue()
    ensures Split("123-456", ';') == ["123-456"]
  {
    SplitJoin(["123-456"], ';');
  }

  /** A value with `;` is stored as its parts, and one without as itself. */
  lemma MultiValue()
    ensures ParseProperty("N", "a;b;c").payload == Multi(["a", "b", "c"])
    ensures ParseProperty("N", "a").payload == Single("a")
  {
    assert Join(["a", "b", "c"], ';') == "a;b;c";
    SplitJoin(["a", "b", "c"], ';');
  }
}
