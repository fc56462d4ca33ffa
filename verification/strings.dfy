/**
 The JavaScript string primitives both parsers are built from: `split` on a
 one-character separator, `split` on the line-terminator pattern
 `/\r\n|\r|\n/`, `startsWith` and `trim`. Each comes with its inverse or an exact
 characterisation: `Join` for `Split`; for `Lines`, the split of the
 `Normalize`d text on every input, and joining with `"\n"` or `"\r\n"` as
 inverses; a concatenation for `StartsWith`; the infix characterisation for
 `Trim`.
 */
module Strings {

  /** A JavaScript value that may be `undefined`. */
  datatype Option<+T> = None | Some(value: T)

  /** `parts` joined with `sep` between consecutive elements (`Array.prototype.join`). */
  function Join(parts: seq<string>, sep: char): string
  {
    if |parts| == 0 then ""
    else if |parts| == 1 then parts[0]
    else parts[0] + [sep] + Join(parts[1..], sep)
  }

  /** `s.split(sep)` for a one-character separator: never empty, no part holds
      the separator, and joining the parts back gives `s`. */
  function Split(s: string, sep: char): (parts: seq<string>)
    ensures |parts| >= 1
    ensures forall i :: 0 <= i < |parts| ==> sep !in parts[i]
    ensures Join(parts, sep) == s
  {
    if |s| == 0 then [""]
    else
      var rest := Split(s[1..], sep);
      if s[0] == sep then [""] + rest
      else [[s[0]] + rest[0]] + rest[1..]
  }

  /** Number of occurrences of `c` in `s`. */
  function Count(s: string, c: char): nat
  {
    if |s| == 0 then 0 else (if s[0] == c then 1 else 0) + Count(s[1..], c)
  }

  lemma {:induction false} JoinCons(p: string, rest: seq<string>, sep: char)
    requires |rest| >= 1
    ensures Join([p] + rest, sep) == p + [sep] + Join(rest, sep)
  {
    assert ([p] + rest)[1..] == rest;
  }

  /** `Split` inverts `Join` on separator-free parts: the two are a bijection
      between strings and non-empty sequences of separator-free parts. */
  lemma {:induction false} SplitJoin(parts: seq<string>, sep: char)
    requires |parts| >= 1
    requires forall i :: 0 <= i < |parts| ==> sep !in parts[i]
    ensures Split(Join(parts, sep), sep) == parts
    decreases |parts|, |parts[0]|, 1
  {
    if |parts[0]| == 0 {
      SplitJoinEmptyHead(parts, sep);
    } else {
      SplitJoinCharHead(parts, sep);
    }
  }

  /** The case of `SplitJoin` whose first part is empty: the joined text
      starts with the separator, or is empty. */
  lemma {:induction false} SplitJoinEmptyHead(parts: seq<string>, sep: char)
    requires |parts| >= 1 && |parts[0]| == 0
    requires forall i :: 0 <= i < |parts| ==> sep !in parts[i]
    ensures Split(Join(parts, sep), sep) == parts
    decreases |parts|, |parts[0]|, 0
  {
    var p := parts[0];
    if |parts| > 1 {
      var rest := parts[1..];
      SplitJoin(rest, sep);
      JoinCons(p, rest, sep);
      assert parts == [p] + rest;
      var j := Join(parts, sep);
      assert j == [sep] + Join(rest, sep);
      assert j[1..] == Join(rest, sep);
    }
  }

  /** The case of `SplitJoin` whose first part is not empty: the joined text
      starts with that part's first character. */
  lemma {:induction false} SplitJoinCharHead(parts: seq<string>, sep: char)
    requires |parts| >= 1 && |parts[0]| > 0
    requires forall i :: 0 <= i < |parts| ==> sep !in parts[i]
    ensures Split(Join(parts, sep), sep) == parts
    decreases |parts|, |parts[0]|, 0
  {
    var p := parts[0];
    var shorter := [p[1..]] + parts[1..];
    assert shorter[0] == p[1..];
    assert forall i :: 1 <= i < |parts| ==> shorter[i] == parts[i];
    SplitJoin(shorter, sep);
    JoinHeadChar(parts, sep);
    SplitCons(p[0], Join(shorter, sep), sep);
    assert p == [p[0]] + shorter[0];
    assert shorter[1..] == parts[1..];
    assert parts == [p] + parts[1..];
  }

  /** Joining parts whose first part is not empty: its first character,
      then the join of the parts with that character removed. */
  lemma JoinHeadChar(parts: seq<string>, sep: char)
    requires |parts| >= 1 && |parts[0]| > 0
    ensures Join(parts, sep) == [parts[0][0]] + Join([parts[0][1..]] + parts[1..], sep)
  {
    var p := parts[0];
    if |parts| > 1 {
      JoinCons(p, parts[1..], sep);
      JoinCons(p[1..], parts[1..], sep);
      assert parts == [p] + parts[1..];
      assert p == [p[0]] + p[1..];
    }
  }

  /** A text that starts with a character other than the separator: that
      character joins the first part of the rest's split. */
  lemma SplitCons(c: char, s: string, sep: char)
    requires c != sep
    ensures Split([c] + s, sep) == [[c] + Split(s, sep)[0]] + Split(s, sep)[1..]
  {
    assert ([c] + s)[1..] == s;
  }

  /** The number of parts is one more than the number of separators. */
  lemma {:induction false} SplitCount(s: string, sep: char)
    ensures |Split(s, sep)| == Count(s, sep) + 1
    decreases |s|
  {
    if |s| > 0 {
      SplitCount(s[1..], sep);
    }
  }

  /** A split has a single part exactly when the separator does not occur. */
  lemma SplitSingle(s: string, sep: char)
    ensures |Split(s, sep)| == 1 <==> sep !in s
  {
    var fs := Split(s, sep);
    if |fs| >= 2 {
      assert s == fs[0] + [sep] + Join(fs[1..], sep);
      assert s[|fs[0]|] == sep;
    }
  }

  /** Element 0 of `s.split(sep)`: the text before the first `sep`, or all of
      `s` when there is none. */
  function Before(s: string, sep: char): (h: string)
    ensures sep !in h && StartsWith(s, h)
    ensures |h| == |s| || s[|h|] == sep
  {
    var fs := Split(s, sep);
    if |fs| >= 2 then
      assert s == fs[0] + [sep] + Join(fs[1..], sep);
      fs[0]
    else fs[0]
  }

  /** Element 1 of `s.split(sep)`, as array destructuring reads it: the text
      between the first and the second `sep` (or the end), and `undefined`
      when `s` holds no `sep` at all. */
  function Second(s: string, sep: char): (f: Option<string>)
    ensures f.None? <==> sep !in s
    ensures f.Some? ==>
      var n := |Before(s, sep)| + 1 + |f.value|;
      && sep !in f.value
      && StartsWith(s, Before(s, sep) + [sep] + f.value)
      && (n == |s| || s[n] == sep)
  {
    var fs := Split(s, sep);
    SplitSingle(s, sep);
    if |fs| >= 2 then
      var tail := Join(fs[1..], sep);
      assert s == fs[0] + [sep] + tail;
      assert |fs| > 2 ==> tail == fs[1] + [sep] + Join(fs[2..], sep) by {
        if |fs| > 2 {
          assert fs[1..][1..] == fs[2..];
        }
      }
      assert s[..|fs[0]| + 1 + |fs[1]|] == fs[0] + [sep] + fs[1];
      Some(fs[1])
    else None
  }

  /** `Before` and `Second` are the first two parts of the split. */
  lemma FirstParts(s: string, sep: char)
    ensures Before(s, sep) == Split(s, sep)[0]
    ensures |Split(s, sep)| >= 2 ==> Second(s, sep) == Some(Split(s, sep)[1])
    ensures |Split(s, sep)| == 1 ==> Second(s, sep) == None
  {
  }

  /** A line-terminator character as the pattern `/\r\n|\r|\n/` sees it. */
  predicate IsTerminator(c: char)
  {
    c == '\r' || c == '\n'
  }

  /** No line terminator in `s`. */
  predicate SingleLine(s: string)
  {
    '\r' !in s && '\n' !in s
  }

  /** `text.split(/\r\n|\r|\n/)`: at each position the two-character `\r\n`
      is tried before a lone `\r` or `\n`. The lines never contain a
      terminator and there is always at least one (possibly empty) line.
      `LinesNormalize` gives the exact lines of every text. */
  function Lines(text: string): (lines: seq<string>)
    ensures |lines| >= 1
    ensures forall i :: 0 <= i < |lines| ==> SingleLine(lines[i])
    decreases |text|
  {
    if |text| == 0 then [""]
    else if text[0] == '\r' && |text| >= 2 && text[1] == '\n' then [""] + Lines(text[2..])
    else if IsTerminator(text[0]) then [""] + Lines(text[1..])
    else
      var rest := Lines(text[1..]);
      [[text[0]] + rest[0]] + rest[1..]
  }

  /** Without carriage returns the terminator pattern is the plain `"\n"` split. */
  lemma {:induction false} LinesWithoutCR(text: string)
    requires '\r' !in text
    ensures Lines(text) == Split(text, '\n')
    decreases |text|
  {
    if |text| > 0 {
      LinesWithoutCR(text[1..]);
    }
  }

  /** Every line break of `text` written as `"\n"`: a `\r\n` pair, tried
      first, and a lone `\r` each become one `\n`. */
  function Normalize(text: string): (t: string)
    ensures '\r' !in t
    decreases |text|
  {
    if |text| == 0 then ""
    else if text[0] == '\r' && |text| >= 2 && text[1] == '\n' then "\n" + Normalize(text[2..])
    else if text[0] == '\r' then "\n" + Normalize(text[1..])
    else [text[0]] + Normalize(text[1..])
  }

  /** The terminator pattern splits exactly where the normalised text holds
      a `"\n"`: a `\r\n` pair is one line break, never two. */
  lemma {:induction false} LinesNormalize(text: string)
    ensures Lines(text) == Split(Normalize(text), '\n')
    decreases |text|
  {
    if |text| == 0 {
    } else if text[0] == '\r' && |text| >= 2 && text[1] == '\n' {
      LinesNormalize(text[2..]);
      assert ("\n" + Normalize(text[2..]))[1..] == Normalize(text[2..]);
    } else if text[0] == '\r' {
      LinesNormalize(text[1..]);
      assert ("\n" + Normalize(text[1..]))[1..] == Normalize(text[1..]);
    } else {
      LinesNormalize(text[1..]);
      assert ([text[0]] + Normalize(text[1..]))[1..] == Normalize(text[1..]);
    }
  }

  /** `lines` joined with the two-character `"\r\n"`, as `.vcf` exports write them. */
  function JoinCRLF(lines: seq<string>): string
  {
    if |lines| == 0 then ""
    else if |lines| == 1 then lines[0]
    else lines[0] + "\r\n" + JoinCRLF(lines[1..])
  }

  /** Normalising a terminator-free line followed by more text leaves the line as it is. */
  lemma {:induction false} NormalizeLine(line: string, rest: string)
    requires SingleLine(line)
    ensures Normalize(line + rest) == line + Normalize(rest)
    decreases |line|
  {
    if |line| > 0 {
      assert (line + rest)[1..] == line[1..] + rest;
      NormalizeLine(line[1..], rest);
      assert line == [line[0]] + line[1..];
    } else {
      assert line + rest == rest;
    }
  }

  /** CRLF-terminated lines normalise to the same lines joined with `"\n"`. */
  lemma {:induction false} NormalizeCRLF(lines: seq<string>)
    requires forall i :: 0 <= i < |lines| ==> SingleLine(lines[i])
    ensures Normalize(JoinCRLF(lines)) == Join(lines, '\n')
    decreases |lines|
  {
    if |lines| > 1 {
      var tail := JoinCRLF(lines[1..]);
      assert JoinCRLF(lines) == lines[0] + ("\r\n" + tail);
      NormalizeLine(lines[0], "\r\n" + tail);
      assert ("\r\n" + tail)[2..] == tail;
      NormalizeCRLF(lines[1..]);
    } else if |lines| == 1 {
      NormalizeLine(lines[0], "");
      assert lines[0] + "" == lines[0];
    }
  }

  /** Splitting lines joined with `"\r\n"` gives the lines back: each pair is
      one line break, so no empty line appears between them. */
  lemma LinesCRLF(lines: seq<string>)
    requires |lines| >= 1
    requires forall i :: 0 <= i < |lines| ==> SingleLine(lines[i])
    ensures Lines(JoinCRLF(lines)) == lines
  {
    LinesNormalize(JoinCRLF(lines));
    NormalizeCRLF(lines);
    SplitJoin(lines, '\n');
  }

  /** Splitting lines joined with `"\n"` gives the lines back. */
  lemma LinesJoin(lines: seq<string>)
    requires |lines| >= 1
    requires forall i :: 0 <= i < |lines| ==> SingleLine(lines[i])
    ensures Lines(Join(lines, '\n')) == lines
  {
    var text := Join(lines, '\n');
    JoinNoCR(lines);
    LinesWithoutCR(text);
    SplitJoin(lines, '\n');
  }

  lemma {:induction false} JoinNoCR(lines: seq<string>)
    requires forall i :: 0 <= i < |lines| ==> '\r' !in lines[i]
    ensures '\r' !in Join(lines, '\n')
    decreases |lines|
  {
    if |lines| > 1 {
      JoinNoCR(lines[1..]);
    }
  }

  /** Each line followed by `"\n"`, in order: what repeated `+= line + "\n"` builds. */
  function Terminated(lines: seq<string>): string
    decreases |lines|
  {
    if |lines| == 0 then "" else Terminated(lines[..|lines| - 1]) + lines[|lines| - 1] + "\n"
  }

  lemma TerminatedSnoc(prior: string, lines: seq<string>, last: string)
    ensures prior + Terminated(lines + [last]) == prior + Terminated(lines) + last + "\n"
  {
    assert (lines + [last])[..|lines|] == lines;
  }

  /** Terminating every line is joining them with one extra empty line. */
  lemma {:induction false} TerminatedJoin(lines: seq<string>)
    ensures Terminated(lines) == Join(lines + [""], '\n')
    decreases |lines|
  {
    if |lines| > 0 {
      var init := lines[..|lines| - 1];
      var last := lines[|lines| - 1];
      TerminatedJoin(init);
      JoinSnoc(init, "");
      JoinSnoc(init, last);
      assert init + [last] == lines;
      assert Join(init + [""], '\n') + last == Join(lines, '\n');
      JoinSnoc(lines, "");
    }
  }

  /** Appending a part to a non-empty join adds one separator. */
  lemma {:induction false} JoinSnoc(parts: seq<string>, p: string)
    ensures |parts| >= 1 ==> Join(parts + [p], '\n') == Join(parts, '\n') + "\n" + p
    decreases |parts|
  {
    if |parts| > 1 {
      JoinSnoc(parts[1..], p);
      assert (parts + [p])[1..] == parts[1..] + [p];
    } else if |parts| == 1 {
      assert (parts + [p])[1..] == [p];
    }
  }

  /** Splitting terminated lines gives them back, followed by one empty line. */
  lemma LinesTerminated(lines: seq<string>)
    requires forall i :: 0 <= i < |lines| ==> SingleLine(lines[i])
    ensures Lines(Terminated(lines)) == lines + [""]
  {
    var all := lines + [""];
    TerminatedJoin(lines);
    SnocSingleLine(lines);
    LinesJoin(all);
  }

  lemma SnocSingleLine(lines: seq<string>)
    requires forall i :: 0 <= i < |lines| ==> SingleLine(lines[i])
    ensures forall i :: 0 <= i < |lines + [""]| ==> SingleLine((lines + [""])[i])
  {
    var all := lines + [""];
    forall i | 0 <= i < |all|
      ensures SingleLine(all[i])
    {
      if i < |lines| {
        assert all[i] == lines[i];
      }
    }
  }


  /** `s.startsWith(prefix)`. */
  predicate StartsWith(s: string, prefix: string)
  {
    |prefix| <= |s| && s[..|prefix|] == prefix
  }

  /** `s` starts with `prefix` exactly when it is `prefix` followed by some text. */
  lemma StartsWithConcat(s: string, prefix: string)
    ensures StartsWith(s, prefix) <==> exists rest :: s == prefix + rest
  {
    if StartsWith(s, prefix) {
      assert s == prefix + s[|prefix|..];
    }
    if exists rest :: s == prefix + rest {
      var rest :| s == prefix + rest;
      assert s[..|prefix|] == prefix;
    }
  }

  /** The characters `String.prototype.trim` removes: ECMAScript WhiteSpace
      (tab, vertical tab, form feed, space, no-break space, byte order mark and
      the Unicode space separators) and LineTerminator. */
  predicate IsSpace(c: char)
  {
    || c == '\t' || c == '\n' || c == '\U{B}' || c == '\U{C}' || c == '\r'
    || c == ' ' || c == '\U{A0}' || c == '\U{1680}'
    || ('\U{2000}' <= c <= '\U{200A}')
    || c == '\U{2028}' || c == '\U{2029}' || c == '\U{202F}' || c == '\U{205F}'
    || c == '\U{3000}' || c == '\U{FEFF}'
  }

  /** Every character of `s` at an index in `[lo, hi)` is white space. */
  predicate SpaceBetween(s: string, lo: int, hi: int)
    requires 0 <= lo <= hi <= |s|
  {
    forall k :: lo <= k < hi ==> IsSpace(s[k])
  }

  /** The first index at or after `i` that holds no white space, or `|s|`. */
  function SkipSpace(s: string, i: nat): (r: nat)
    requires i <= |s|
    ensures i <= r <= |s|
    ensures SpaceBetween(s, i, r)
    ensures r == |s| || !IsSpace(s[r])
    decreases |s| - i
  {
    if i < |s| && IsSpace(s[i]) then SkipSpace(s, i + 1) else i
  }

  /** The smallest end `r >= lo` such that `s[r..j]` is all white space. */
  function SkipSpaceBack(s: string, lo: nat, j: nat): (r: nat)
    requires lo <= j <= |s|
    ensures lo <= r <= j
    ensures SpaceBetween(s, r, j)
    ensures r == lo || !IsSpace(s[r - 1])
    decreases j
  {
    if lo < j && IsSpace(s[j - 1]) then SkipSpaceBack(s, lo, j - 1) else j
  }

  /** `s.trim()`: the infix of `s` left after removing every leading and
      trailing space; it neither starts nor ends with one. */
  function Trim(s: string): (r: string)
    ensures exists i, j :: 0 <= i <= j <= |s| && r == s[i..j] && SpaceBetween(s, 0, i) && SpaceBetween(s, j, |s|)
    ensures r == "" || (!IsSpace(r[0]) && !IsSpace(r[|r| - 1]))
  {
    var i := SkipSpace(s, 0);
    var j := SkipSpaceBack(s, i, |s|);
    s[i..j]
  }

  /** Trimming the suffix of `s` from `n` on leaves an infix of `s` itself,
      with only white space between `n` and it and after it. */
  lemma TrimSuffix(s: string, n: nat)
    requires n <= |s|
    ensures exists i, j ::
      && n <= i <= j <= |s| && Trim(s[n..]) == s[i..j]
      && SpaceBetween(s, n, i) && SpaceBetween(s, j, |s|)
  {
    var rest := s[n..];
    var i := SkipSpace(rest, 0);
    var j := SkipSpaceBack(rest, i, |rest|);
    assert Trim(rest) == rest[i..j];
    SpaceShift(s, n, 0, i);
    SpaceShift(s, n, j, |rest|);
    assert rest[i..j] == s[n + i..n + j];
    assert n <= n + i <= n + j <= |s|;
  }

  /** White space in a suffix of `s` is white space in `s`, shifted. */
  lemma SpaceShift(s: string, n: nat, lo: nat, hi: nat)
    requires n <= |s| && lo <= hi <= |s| - n
    requires SpaceBetween(s[n..], lo, hi)
    ensures SpaceBetween(s, n + lo, n + hi)
  {
    forall k | n + lo <= k < n + hi
      ensures IsSpace(s[k])
    {
      assert s[k] == s[n..][k - n];
    }
  }

}
