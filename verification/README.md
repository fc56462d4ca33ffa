# SMSViewer parsers in Dafny

A model of the two text parsers of SMSViewer, a browser viewer for phone
contact (`.vcf`) and SMS export (`.vmg`) files, with proofs of their
behaviour.

- `vCard.parse(text, container = "VCARD")` reads a vCard-2.1 style text, or the
  vendor "VMSG" variant. It makes one pass over the lines and keeps three
  things: a stack of open objects, a raw-capture flag for `VBODY` blocks, and
  the list of root objects. It returns one object tree per
  `BEGIN:<container>` line.
- `msgBody.parse(text)` reads the text of a `VBODY` block. It returns the
  date of the last `Date:` line and the body, which is every other non-empty,
  non-`CHARSET` line followed by a newline.

Files:

- `strings.dfy` (module `Strings`): the JavaScript string operations the
  parsers use, each with its inverse or an exact characterisation.
  - `split` on one character, with `Join` as its inverse.
  - `split(/\r\n|\r|\n/)` as `Lines`. It is characterised on every text as
    the split on `'\n'` of the text with each `\r\n` pair and each lone
    `\r` rewritten to `"\n"` (`Normalize`). Joining with `"\n"` or with
    `"\r\n"` is its inverse.
  - `startsWith`, characterised as "is a prefix followed by some rest".
  - `trim`, over the full ECMAScript white-space and line-terminator set.
- `vcard.dfy` (module `VCard`): the block parser.
  - Objects live in an arena (`State.objs`). The stack and the roots are
    sequences of object ids.
  - A nested object is reached from its parent through a `Child(id)` slot.
    This reproduces the source's sharing of one object between the root list,
    its parent and the stack.
  - `Step` is one loop iteration. `Run` folds it over the lines.
  - `Materialize` turns the arena back into the trees the source returns.
- `vcard_lemmas.dfy` (module `VCardLemmas`): what each kind of line does to
  the state, with frame conditions, and what runs of lines do.
- `msgbody.dfy` (module `MsgBody`): the body parser and its properties.
- `vcard_examples.dfy`, `msgbody_examples.dfy`: worked examples on concrete
  lines.
- `vcard_nesting.dfy` (module `VCardNesting`): a whole `VMSG` export with two
  contacts, two nested envelopes and a `VBODY`, parsed into its full tree,
  and the captured body text read by the body parser.

The model follows these quirks of the code:

- Destructuring `line.split(":")` keeps only the text between the first and
  second `:` as the value. `item.split("=")` does the same for `meta`.
- A line is looked at only in raw-capture mode, or when both key and value
  are non-empty.
- A `BEGIN:<container>` line opens a new root even inside another block.
- Any `END` other than `END:VBODY` pops one frame, whatever name it carries.
  This includes lines read in raw-capture mode.
- Raw lines are appended to the `VBODY` of whatever object is on top of the
  stack at that moment.

Two JavaScript coercions are modelled exactly rather than excluded:

- A bare `BEGIN` line in raw-capture mode has the value `undefined`. It
  therefore stores its new object under the key `"undefined"` (`BlockKey`).
- A raw line can be appended to a `VBODY` slot that is absent or holds an
  object. The existing text is then read as `"undefined"` or
  `"[object Object]"` (`Concatenable`).

Dates are symbolic. `new Date(0)` is `Epoch`. `new Date(s)` is
`FromText(s)`, which records the exact string given to the host's date
parser.

Further quirks of the code the model follows:

- The value is not everything after the first colon. It is only the text
  up to the second colon.
- A `name=` parameter with an empty value becomes `true`, not `""`.
- A parameter value stops at the next `=`.
- Raw lines do not necessarily go to the object that opened the `VBODY`.
  They go to whatever object is on top of the stack when each line is read.

## Model

| member | source | states |
|---|---|---|
| Strings.Split | src/utils.ts:26 | `split` on one character never returns an empty array, no part contains the separator, and joining the parts with the separator gives back the input |
| Strings.SplitJoin | src/utils.ts:64 | splitting a join of separator-free parts gives back exactly those parts, so `Split` and `Join` are inverse bijections |
| Strings.SplitCount | src/utils.ts:64 | a split has exactly one more part than the input has separators |
| Strings.SplitSingle | src/utils.ts:73 | a split has a single part if and only if the separator does not occur |
| Strings.Before | src/utils.ts:26 | element 0 of a destructured split is the separator-free prefix that ends at the first separator or at the end of the input |
| Strings.Second | src/utils.ts:26 | element 1 of a destructured split is `undefined` exactly when there is no separator; otherwise it is the separator-free text between the first separator and the next separator or the end |
| Strings.Lines | src/utils.ts:20 | splitting on `\r\n`, `\r` or `\n` gives at least one line, and no line contains a terminator |
| Strings.LinesNormalize | src/utils.ts:20 | on every text, line splitting is the split on `"\n"` after each `\r\n` pair (tried first) and each lone `\r` has become one `"\n"`, so a CRLF is one line break and never two |
| Strings.LinesCRLF | src/utils.ts:20 | splitting terminator-free lines joined with `"\r\n"`, as `.vcf` and `.vmg` exports write them, gives back exactly those lines with no empty lines between them |
| Strings.LinesWithoutCR | src/utils.ts:87 | on text without carriage returns, line splitting is the plain split on `"\n"` |
| Strings.LinesJoin | src/utils.ts:87 | splitting terminator-free lines joined with `"\n"` gives back those lines |
| Strings.TerminatedJoin | src/utils.ts:107 | appending `line + "\n"` for each line equals joining the lines plus one empty line with `"\n"` |
| Strings.LinesTerminated | src/utils.ts:107 | splitting the text built by appending `line + "\n"` gives back the lines followed by one empty line |
| Strings.StartsWithConcat | src/utils.ts:97-99 | `startsWith(prefix)` holds exactly when the text is the prefix followed by some rest |
| Strings.SkipSpace | src/utils.ts:100 | the leading white space `trim` removes ends at the first character that is not white space, or at the end of the text |
| Strings.SkipSpaceBack | src/utils.ts:100 | the trailing white space `trim` removes starts after the last character that is not white space, never before the given lower bound |
| Strings.Trim | src/utils.ts:100 | `trim` returns the infix left after removing only white space at both ends, and the result neither starts nor ends with white space |
| VCard.Key | src/utils.ts:26 | the key is the colon-free prefix of the line that ends at its first `:` or at the end of the line |
| VCard.FieldValue | src/utils.ts:26 | the value is `undefined` exactly when the line has no `:`; otherwise it is the colon-free text right after the key's `:`, ending at the next `:` or the end of the line |
| VCard.PropertyName | src/utils.ts:63 | the property name is the `;`-free prefix of the key that ends at its first `;` or at the end of the key |
| VCard.Pop | src/utils.ts:51 | popping removes exactly the last frame of a non-empty stack and leaves an empty stack empty |
| VCard.MetaEntry | src/utils.ts:68-69 | a meta item's name is the `=`-free text before the first `=`; its value is `true` exactly when nothing or only an empty field follows that `=`; otherwise it is the non-empty `=`-free text up to the next `=` |
| VCard.MetaOf | src/utils.ts:66-72 | the meta map has exactly the names of the items as keys |
| VCard.MetaLastWins | src/utils.ts:67-71 | the entry for a name comes from the last item with that name, so later items overwrite earlier ones |
| VCard.ParseProperty | src/utils.ts:63-74 | `meta` is present iff the key contains `;`; `values` is stored iff the value contains `;`, with k+1 `;`-free parts that re-join to the value; otherwise `value` is the value unsplit |
| VCard.Init | src/utils.ts:21-23 | the empty state before the first line satisfies the state invariant |
| VCard.Step | src/utils.ts:25-75 | one line keeps the state invariant: ids in range, children created after their parents, roots increasing and never stored under another object's key; it adds a root exactly on a root `BEGIN` and never changes earlier roots |
| VCard.Run | src/utils.ts:25-76 | every state reached from a valid state by any sequence of lines is valid |
| VCard.RootsCount | src/utils.ts:31-33 | with a non-empty container name, the number of roots equals the number of `BEGIN:<container>` lines |
| VCard.Materialize | src/utils.ts:12-16 | the tree built for an object has exactly the keys the object has in the arena |
| VCard.EmptyContainer | src/utils.ts:28-33 | with the empty container name no line changes the initial state: `BEGIN:` has a falsy value, so it never opens a root, and nothing else can act before a root is open |
| VCard.Parse | src/utils.ts:19-79 | with a non-empty container name, which is `"VCARD"` when none is given, `vCard.parse` returns one tree per `BEGIN:<container>` line of the text; with the empty name it returns no tree |
| VCardLemmas.AdmittedLine | src/utils.ts:28 | a line is looked at exactly in raw-capture mode or when it has a non-empty text before its first `:` followed by a non-empty text before the next `:` |
| VCardLemmas.BlockKeyOfLine | src/utils.ts:40 | a nested object is stored under `"undefined"` when the line has no `:`, and otherwise under the colon-free text after the first `:`; an admitted line outside raw capture always has a `:` |
| VCardLemmas.FieldsOfLine | src/utils.ts:26 | a line made of colon-free fields has the first field as key and the second as value; later fields are dropped |
| VCardLemmas.RootBegin | src/utils.ts:29-33 | `BEGIN:<container>` appends one empty object, pushes it and records it as a root; no existing object changes, so it is not attached to the open parent |
| VCardLemmas.ChildBegin | src/utils.ts:34-42 | another admitted `BEGIN` on a non-empty stack sets `top[name]` to a fresh empty object, replacing any earlier entry, and pushes it; every other object, the roots and the mode are unchanged |
| VCardLemmas.BeginWithoutParent | src/utils.ts:29-43 | a `BEGIN` line that does not open a root changes nothing when the stack is empty |
| VCardLemmas.BeginVBody | src/utils.ts:35-38 | `BEGIN:VBODY` sets `top["VBODY"]` to the empty text and turns raw capture on; no frame is pushed and nothing else changes |
| VCardLemmas.EndVBody | src/utils.ts:46-50 | `END:VBODY` only turns raw capture off |
| VCardLemmas.EndPops | src/utils.ts:46-52 | any other admitted `END` pops exactly one frame whatever it names, also in raw-capture mode; on an empty stack it changes nothing; objects, roots and mode are unchanged |
| VCardLemmas.RawLine | src/utils.ts:55-61 | in raw-capture mode an ordinary line, whatever it contains, appends `line + "\n"` to the top's `VBODY`, which reads as `"undefined"` when absent and as `"[object Object]"` when it holds an object; nothing else changes |
| VCardLemmas.Ignored | src/utils.ts:28-56 | outside raw capture, a line with an empty key or an empty or missing value changes nothing; an ordinary line on an empty stack changes nothing |
| VCardLemmas.PropertyLine | src/utils.ts:63-74 | a property line writes `top[name]`, with `name` the key's text before its first `;`, and changes no other key or object |
| VCardLemmas.RunAppend | src/utils.ts:25 | folding over two blocks of lines is folding over the second from the state after the first |
| VCardLemmas.RawCapture | src/utils.ts:58-61 | across a run of ordinary lines in raw-capture mode, `VBODY` grows by exactly those lines, each followed by `"\n"`; stack, roots, mode and other objects are unchanged |
| VCardLemmas.VBodyBlock | src/utils.ts:35-61 | a whole `BEGIN:VBODY` … `END:VBODY` block stores its inner lines verbatim with newlines, ends outside raw-capture mode and leaves the stack as it was |
| VCardLemmas.RootProperty | src/utils.ts:25-74 | for any non-empty container, key other than `BEGIN` and `END`, and value, all without colons or line breaks, a `BEGIN:<container>` line followed by a property line parses to exactly one tree holding that one property |
| VCardLemmas.NoRootBegin | src/utils.ts:31-33 | a text without a `BEGIN:<container>` line parses to no roots |
| VCardExamples.PropertyWithParameters | src/utils.ts:63-73 | `TEL;TYPE=CELL;PREF:123-456` gives meta `{TYPE: "CELL", PREF: true}` and value `"123-456"` |
| VCardExamples.MultiValue | src/utils.ts:64-73 | the value `a;b;c` is stored as `values ["a","b","c"]` and the value `a` as `value "a"` |
| MsgBody.Parse | src/utils.ts:83-111 | `msgBody.parse` returns as body the body lines of the text each followed by `"\n"`, the epoch as date when no line starts with `Date:`, and otherwise the date of the last such line |
| MsgBody.Step | src/utils.ts:97-107 | one line replaces the date exactly when it starts with `Date:`, appends itself and `"\n"` to the body exactly when it is a body line, and otherwise leaves that field alone |
| MsgBody.DateOf | src/utils.ts:100-101 | the date text is the infix of the line after `Date:` left by removing white space at both ends, and it neither starts nor ends with white space |
| MsgBody.BodyLines | src/utils.ts:97-107 | the lines that are non-empty and start with neither `CHARSET` nor `Date:` reach the body, every such input line does, only they do, and an input of body lines only is kept whole |
| MsgBody.BodyLinesAppend | src/utils.ts:96-107 | the body lines of two blocks of lines are those of the first followed by those of the second, so the input order is kept |
| MsgBody.BodyIsBodyLines | src/utils.ts:96-108 | the body is the body lines, in order, each followed by `"\n"` |
| MsgBody.BodyShape | src/utils.ts:87-108 | the body is empty or ends in `"\n"`; splitting it into lines gives back the body lines plus one empty line |
| MsgBody.DateDefault | src/utils.ts:92 | without a `Date:` line the date is the epoch |
| MsgBody.DateIsLastDateLine | src/utils.ts:99-102 | otherwise the date is built from the trimmed text after `Date:` on the last such line |
| MsgBody.CharsetIgnored | src/utils.ts:97-98 | inserting a `CHARSET` line anywhere does not change the result |
| MsgBody.RunAppend | src/utils.ts:96 | folding over two blocks of lines is folding over the second from the message after the first |
| MsgBodyExamples.DateThenLine | src/utils.ts:83-111 | any `Date:` line followed by any body line, each ending in a newline, gives the date of the first and the second line with its newline as the body |
| MsgBodyExamples.DateAndOneLine | src/utils.ts:83-111 | `"Date:2020-01-01T00:00:00\nHello\n"` gives date text `2020-01-01T00:00:00` and body `"Hello\n"` |
| VCardNesting.ParseMessage | src/utils.ts:19-79 | a `VMSG` export with a contact, an envelope holding a second contact and an inner envelope with a `VBODY` parses, with container `VMSG`, to one tree nesting each object under its block name and holding the body lines verbatim |
| VCardNesting.MessageBodyParsed | src/utils.ts:83-111 | the text captured under `VBODY` in that export parses to the date of its `Date:` line and its one line of text |

## Left out

- src/main.ts is not modelled. It is browser glue: file reading, option and
  list rendering, locale-dependent sorting and date formatting, history
  handling and panel switching. Its field projections with `|| ""` defaults
  only read the parser output.
- `htmlspecialchars`, `nl2br` and `mapObjectValues`: src/main.ts:3 imports
  them from ./utils, but src/utils.ts defines none of them, so there is
  nothing to model.
- Date parsing is not modelled. `new Date(s)` depends on the host and on
  floating-point time values, so it is kept as the symbolic `FromText(s)`.
- The name `__proto__` is treated as an ordinary key everywhere. In
  JavaScript an assignment to it changes an object's prototype instead, with
  three effects the model does not follow. A property named `__proto__`
  (src/utils.ts:65) is not stored. A meta name `__proto__` (src/utils.ts:69) is dropped,
  because assigning a string or `true` to it is a silent no-op, while
  `VCard.MetaOf` keeps the entry. `BEGIN:__proto__` (src/utils.ts:40) re-parents the
  innermost object instead of adding a key to it.
- Strings are sequences of Unicode scalar values, not UTF-16 code units, so
  lone surrogates cannot be represented. Every separator and prefix the
  parsers use is ASCII, so all other texts behave the same.
- The order of keys inside an object or a `meta` map is not modelled, since
  maps are unordered. Nothing in the parsers depends on it.
- Parsing is deterministic. Every Dafny function is, so no lemma states it.
- VCard.RootsCount: assumes a non-empty container name, because with the
  empty name the count of `BEGIN:` lines is not the number of roots.
  `VCard.EmptyContainer` states that case instead: no root is ever opened.
- VCard.Parse: the contract gives the number of trees (none for the empty
  container name), not their contents. What each kind of line does to the tree under construction is
  stated for all inputs by the `VCardLemmas` step lemmas. Whole texts are
  covered by `VCardLemmas.RootProperty` for every one-root, one-property
  text, and by `VCardNesting.ParseMessage` for one nested message. No
  theorem gives the tree of an arbitrary text in closed form.
