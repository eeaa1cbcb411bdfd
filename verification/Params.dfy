/** The key=value configuration: parsing, printing, and how the two fit together. */
module Params {
  import opened Wrappers

  const MAX_PARAMS: nat := 512
  const MAX_KEY: nat := 31          // MAX_KEY_LEN less the terminating zero
  const MAX_VALUE: nat := 255
  const MAX_LINE: nat := 319        // what fits into a line buffer of 32 + 256 + 32 characters

  datatype Entry = Entry(key: string, value: string)

  // ---- Text ----

  predicate IsSpace(c: char)
    ensures IsSpace(c) <==> c as int == 32 || 9 <= c as int <= 13
  {
    c == ' ' || c == '\t' || c == '\n' || c == '\U{0B}' || c == '\U{0C}' || c == '\r'
  }

  /** How many blanks a text starts with. */
  function Leading(s: string): (n: nat)
    ensures n <= |s| && (n < |s| ==> !IsSpace(s[n])) && forall j :: 0 <= j < n ==> IsSpace(s[j])
  {
    if s != [] && IsSpace(s[0]) then 1 + Leading(s[1..]) else 0
  }

  /** How long a text is without its final blanks. */
  function Ending(s: string): (n: nat)
    ensures n <= |s| && (n > 0 ==> !IsSpace(s[n - 1])) && forall j :: n <= j < |s| ==> IsSpace(s[j])
  {
    if s != [] && IsSpace(s[|s| - 1]) then Ending(s[..|s| - 1]) else |s|
  }

  function TrimLeft(s: string): string {
    s[Leading(s)..]
  }

  function TrimRight(s: string): string {
    s[..Ending(s)]
  }

  function Trim(s: string): string {
    TrimRight(TrimLeft(s))
  }

  /** One pair of enclosing quotes is removed. */
  function Unquote(s: string): string {
    if |s| > 1 && s[0] == '"' && s[|s| - 1] == '"' then s[1..|s| - 1] else s
  }

  /** What storing a value in a line and reading it back makes of it. */
  function Normal(value: string): string {
    Unquote(Trim(value))
  }

  function Take(s: string, n: nat): (r: string)
    ensures r <= s && |r| == if |s| <= n then |s| else n
  {
    if |s| <= n then s else s[..n]
  }

  /** The first place of `c` in `s`, or the length of `s`. */
  function IndexOf(s: string, c: char): (i: nat)
    ensures i <= |s| && (i < |s| ==> s[i] == c) && forall j :: 0 <= j < i ==> s[j] != c
  {
    if s == [] then 0 else if s[0] == c then 0 else 1 + IndexOf(s[1..], c)
  }

  function Find(entries: seq<Entry>, key: string): (i: nat)
    ensures i <= |entries| && (i < |entries| ==> entries[i].key == key)
    ensures forall j :: 0 <= j < i ==> entries[j].key != key
  {
    if entries == [] then 0 else if entries[0].key == key then 0 else 1 + Find(entries[1..], key)
  }

  // ---- Parsing ----

  function ApplyLine(entries: seq<Entry>, line: string, createNew: bool): seq<Entry> {
    var eq := IndexOf(line, '=');
    if eq == |line| then entries
    else
      var key, value := Trim(line[..eq]), Normal(line[eq + 1..]);
      var i := Find(entries, key);
      if key == [] then entries
      else if i < |entries| then entries[i := entries[i].(value := Take(value, MAX_VALUE))]
      else if createNew && |entries| < MAX_PARAMS then entries + [Entry(Take(key, MAX_KEY), Take(value, MAX_VALUE))]
      else entries
  }

  function ApplyLines(entries: seq<Entry>, lines: seq<string>, createNew: bool): seq<Entry>
    decreases |lines|
  {
    if lines == [] then entries else ApplyLines(ApplyLine(entries, lines[0], createNew), lines[1..], createNew)
  }

  /** The lines `parseAndSet` copies out of a text. */
  function TextLines(text: string): seq<string> {
    if text == [] then []
    else
      var end := IndexOf(text, '\n');
      [Take(text[..end], MAX_LINE)] + (if end == |text| then [] else TextLines(text[end + 1..]))
  }

  /** How much `fgets` reads: through the next newline, or as much as the buffer holds. */
  function PieceLength(file: string): (n: nat)
    ensures n <= |file| && (file != [] ==> n > 0)
  {
    var end := IndexOf(file, '\n');
    if end < |file| && end < MAX_LINE then end + 1 else if |file| <= MAX_LINE then |file| else MAX_LINE
  }

  /** The pieces of a file. */
  function FileLines(file: string): seq<string> {
    if file == [] then [] else [file[..PieceLength(file)]] + FileLines(file[PieceLength(file)..])
  }

  function Updated(entries: seq<Entry>, text: string): seq<Entry> {
    ApplyLines(entries, TextLines(text), false)
  }

  function Loaded(entries: seq<Entry>, file: string): seq<Entry> {
    ApplyLines(entries, FileLines(file), false)
  }

  // ---- Printing ----

  function Body(e: Entry): string {
    e.key + "=" + e.value
  }

  function Line(e: Entry): string {
    Body(e) + "\n"
  }

  function Saved(entries: seq<Entry>): string {
    if entries == [] then "" else Line(entries[0]) + Saved(entries[1..])
  }

  /** As many whole entries, from `length` characters on, as fit into a buffer of `size` with its final zero. */
  function Fitting(entries: seq<Entry>, length: nat, size: nat): (n: nat)
    ensures n <= |entries|
  {
    if entries == [] || length + |Line(entries[0])| >= size then 0
    else 1 + Fitting(entries[1..], length + |Line(entries[0])|, size)
  }

  function All(entries: seq<Entry>, size: nat): string {
    Saved(entries[..Fitting(entries, 0, size)])
  }

  // ---- Canonical entries ----

  predicate CanonicalKey(key: string) {
    key != [] && |key| <= MAX_KEY && !IsSpace(key[0]) && !IsSpace(key[|key| - 1]) && '=' !in key && '\n' !in key
  }

  predicate Storable(value: string) {
    |value| <= MAX_VALUE && '\n' !in value
  }

  predicate CanonicalValue(value: string) {
    Storable(value) && Normal(value) == value
  }

  ghost predicate Keyed(entries: seq<Entry>) {
    && (forall i :: 0 <= i < |entries| ==> CanonicalKey(entries[i].key))
    && (forall i, j :: 0 <= i < j < |entries| ==> entries[i].key != entries[j].key)
  }

  ghost predicate AllStorable(entries: seq<Entry>) {
    forall i :: 0 <= i < |entries| ==> Storable(entries[i].value)
  }

  function Keys(entries: seq<Entry>): (keys: seq<string>)
    ensures |keys| == |entries| && forall i :: 0 <= i < |entries| ==> keys[i] == entries[i].key
  {
    seq(|entries|, i requires 0 <= i < |entries| => entries[i].key)
  }

  function NormalEntries(entries: seq<Entry>): (r: seq<Entry>)
    ensures |r| == |entries|
    ensures forall i :: 0 <= i < |entries| ==> r[i] == Entry(entries[i].key, Normal(entries[i].value))
  {
    seq(|entries|, i requires 0 <= i < |entries| => Entry(entries[i].key, Normal(entries[i].value)))
  }

  // ---- Lemmas on text ----

  lemma TrimOfTrimmed(s: string)
    requires s == [] || (!IsSpace(s[0]) && !IsSpace(s[|s| - 1]))
    ensures Trim(s) == s
  {
  }

  lemma TrimAppend(s: string, c: char)
    requires IsSpace(c)
    ensures Trim(s + [c]) == Trim(s)
  {
    hide IsSpace;
    var t, n := s + [c], Leading(s);
    assert t[..|s|] == s && t[|s|] == c;
    if n < |s| {
      assert t[n] == s[n] && Leading(t) == n;
      var left := s[n..];
      assert t[n..] == left + [c];
      assert Ending(left + [c]) == Ending(left);
      assert (left + [c])[..Ending(left)] == left[..Ending(left)];
    } else {
      assert Leading(t) == |t|;
    }
  }

  predicate Blank(s: string) {
    forall i :: 0 <= i < |s| ==> IsSpace(s[i])
  }

  /** Blanks around a text do not matter. */
  lemma TrimPadded(before: string, s: string, after: string)
    requires Blank(before) && Blank(after)
    requires s == "" || (!IsSpace(s[0]) && !IsSpace(s[|s| - 1]))
    ensures Trim(before + s + after) == s
  {
    hide IsSpace;
    var t := before + s + after;
    if s == "" {
      assert Leading(t) == |t|;
    } else {
      assert t[|before|] == s[0] && Leading(t) == |before|;
      assert t[|before|..] == s + after;
      assert (s + after)[|s| - 1] == s[|s| - 1] && Ending(s + after) == |s|;
    }
  }

  /** In quotes, with blanks around them or not, a value is read exactly as it stands, further quotes included. */
  lemma QuotedValue(before: string, value: string, after: string)
    requires Blank(before) && Blank(after)
    ensures Normal(before + ("\"" + value + "\"") + after) == value
  {
    TrimPadded(before, "\"" + value + "\"", after);
    hide Trim;
  }

  /** Without quotes it is read without the blanks around it. */
  lemma PlainlyWrittenValue(before: string, value: string, after: string)
    requires Blank(before) && Blank(after)
    requires value == "" || (!IsSpace(value[0]) && !IsSpace(value[|value| - 1]))
    requires !(|value| > 1 && value[0] == '"' && value[|value| - 1] == '"')
    ensures Normal(before + value + after) == value
  {
    TrimPadded(before, value, after);
    hide Trim;
  }

  lemma LineParts(before: string, key: string, after: string, rest: string)
    requires Blank(before) && Blank(after) && '=' !in key
    requires key == "" || (!IsSpace(key[0]) && !IsSpace(key[|key| - 1]))
    ensures var line, eq := before + key + after + "=" + rest, |before + key + after|;
            IndexOf(line, '=') == eq && Trim(line[..eq]) == key && line[eq + 1..] == rest
  {
    var name := before + key + after;
    assert name + "=" + rest == name + ['='] + rest;
    IndexOfConcat(name, '=', rest);
    TrimPadded(before, key, after);
    hide Trim, IndexOf;
    assert (name + "=" + rest)[..|name|] == name && (name + "=" + rest)[|name| + 1..] == rest;
  }

  /** A line with a key sets the value of the first entry with that key, cut to 255 characters, and nothing else. */
  lemma LineSetsItsKey(entries: seq<Entry>, i: nat, before: string, after: string, rest: string, createNew: bool)
    requires i < |entries| && forall j :: 0 <= j < i ==> entries[j].key != entries[i].key
    requires Blank(before) && Blank(after) && '=' !in entries[i].key
    requires entries[i].key != "" && !IsSpace(entries[i].key[0]) && !IsSpace(entries[i].key[|entries[i].key| - 1])
    ensures ApplyLine(entries, before + entries[i].key + after + "=" + rest, createNew) ==
            var value := Normal(rest);
            entries[i := Entry(entries[i].key, if |value| <= 255 then value else value[..255])]
  {
    hide Trim, Normal, IndexOf, IsSpace;
    LineParts(before, entries[i].key, after, rest);
    FindIsFirst(entries, entries[i].key, i);
  }

  /** With an unknown key it adds an entry, cut to 31 and 255 characters, where that is asked for and there is room for
      it among 512; otherwise it changes nothing. */
  lemma LineCreatesItsKey(entries: seq<Entry>, before: string, key: string, after: string, rest: string,
                          createNew: bool)
    requires forall j :: 0 <= j < |entries| ==> entries[j].key != key
    requires Blank(before) && Blank(after) && '=' !in key
    requires key != "" && !IsSpace(key[0]) && !IsSpace(key[|key| - 1])
    ensures ApplyLine(entries, before + key + after + "=" + rest, createNew) ==
            var value := Normal(rest);
            var e := Entry(if |key| <= 31 then key else key[..31], if |value| <= 255 then value else value[..255]);
            if createNew && |entries| < 512 then entries + [e] else entries
  {
    hide Trim, Normal, IndexOf, IsSpace;
    LineParts(before, key, after, rest);
    FindIsFirst(entries, key, |entries|);
  }

  /** A line without an equals sign, or with nothing but blanks before it, changes nothing. */
  lemma OtherLinesAreIgnored(entries: seq<Entry>, before: string, rest: string, createNew: bool)
    ensures '=' !in before ==> ApplyLine(entries, before, createNew) == entries
    ensures Blank(before) ==> ApplyLine(entries, before + "=" + rest, createNew) == entries
  {
    hide Trim, Normal, IndexOf;
    if Blank(before) {
      assert before + "" + "" == before;
      LineParts(before, "", "", rest);
    }
    hide IsSpace;
  }

  lemma NormalShrinks(value: string)
    ensures Normal(value) == value || |Normal(value)| < |value|
    ensures |Normal(value)| <= |value|
    ensures forall c :: c in Normal(value) ==> c in value
  {
  }

  lemma IndexOfConcat(a: string, c: char, b: string)
    requires c !in a
    ensures IndexOf(a + [c] + b, c) == |a|
  {
    var s := a + [c] + b;
    assert forall j :: 0 <= j < |a| ==> s[j] == a[j];
    assert s[|a|] == c;
  }

  lemma FindAt(entries: seq<Entry>, i: nat)
    requires i < |entries| && Keyed(entries)
    ensures Find(entries, entries[i].key) == i
  {
  }

  /** Parsing one printed entry, with or without its newline. */
  lemma ApplyPrinted(entries: seq<Entry>, e: Entry, i: nat, end: string, createNew: bool)
    requires Keyed(entries) && i < |entries| && entries[i].key == e.key
    requires Storable(e.value) && (end == "" || end == "\n")
    ensures ApplyLine(entries, Body(e) + end, createNew) == entries[i := Entry(e.key, Normal(e.value))]
  {
    hide Trim, Normal, IndexOf, IsSpace;
    PrintedParts(e, end);
    FindAt(entries, i);
    hide Keyed;
    NormalShrinks(e.value);
    assert Take(Normal(e.value), MAX_VALUE) == Normal(e.value);
  }

  lemma PrintedParts(e: Entry, end: string)
    requires CanonicalKey(e.key) && (end == "" || end == "\n")
    ensures var line := Body(e) + end;
            && IndexOf(line, '=') == |e.key|
            && Trim(line[..|e.key|]) == e.key
            && Normal(line[|e.key| + 1..]) == Normal(e.value)
  {
    var line := Body(e) + end;
    assert line == e.key + ['='] + (e.value + end);
    IndexOfConcat(e.key, '=', e.value + end);
    assert line[..|e.key|] == e.key;
    TrimOfTrimmed(e.key);
    assert line[|e.key| + 1..] == e.value + end;
    if end == "\n" {
      TrimAppend(e.value, '\n');
      assert e.value + "\n" == e.value + ['\n'];
    } else {
      assert e.value + end == e.value;
    }
  }

  // ---- Round trips ----

  function Lines(entries: seq<Entry>, end: string): (lines: seq<string>)
    ensures |lines| == |entries|
    ensures forall i :: 0 <= i < |entries| ==> lines[i] == Body(entries[i]) + end
  {
    seq(|entries|, i requires 0 <= i < |entries| => Body(entries[i]) + end)
  }

  lemma FirstFileLine(body: string, rest: string)
    requires '\n' !in body && |body| < MAX_LINE
    ensures FileLines(body + "\n" + rest) == [body + "\n"] + FileLines(rest)
  {
    var file := body + ['\n'] + rest;
    IndexOfConcat(body, '\n', rest);
    hide IndexOf;
    assert file == body + "\n" + rest;
    assert file[..|body| + 1] == body + "\n" && file[|body| + 1..] == rest;
  }

  /** A text is read line by line, each line cut to 319 characters. */
  lemma FirstTextLine(body: string, rest: string)
    requires '\n' !in body
    ensures TextLines(body + "\n" + rest) == [if |body| <= 319 then body else body[..319]] + TextLines(rest)
    ensures body != "" ==> TextLines(body) == [if |body| <= 319 then body else body[..319]]
  {
    if body != "" {
      assert body[..|body|] == body;
      assert IndexOf(body, '\n') == |body|;
    }
    var text := body + ['\n'] + rest;
    IndexOfConcat(body, '\n', rest);
    hide IndexOf;
    assert text == body + "\n" + rest;
    assert text[..|body|] == body && text[|body| + 1..] == rest;
  }

  /** A printed entry is one line of at most 287 characters before its newline. */
  lemma PrintedFits(entries: seq<Entry>)
    requires Keyed(entries) && AllStorable(entries) && entries != []
    ensures var body := Body(entries[0]);
            && '\n' !in body && |body| <= 287
            && Saved(entries) == body + "\n" + Saved(entries[1..])
    ensures Keyed(entries[1..]) && AllStorable(entries[1..])
  {
    hide IsSpace;
    assert Line(entries[0]) == Body(entries[0]) + "\n";
  }

  function Joined(pieces: seq<string>): string {
    if pieces == [] then "" else pieces[0] + Joined(pieces[1..])
  }

  /** What one call of `fgets` may return: it ends at a newline, when it is full, or at the end of the file. */
  predicate IsPiece(piece: string, last: bool) {
    && 1 <= |piece| <= 319
    && (forall j :: 0 <= j < |piece| - 1 ==> piece[j] != '\n')
    && (last || |piece| == 319 || piece[|piece| - 1] == '\n')
  }

  lemma FirstPiece(file: string)
    requires file != []
    ensures var n := PieceLength(file);
            IsPiece(file[..n], n == |file|)
  {
    var end := IndexOf(file, '\n');
    hide IndexOf;
  }

  /** A file is read completely, in such pieces of at most 319 characters. */
  lemma {:induction false} FileIsReadInPieces(file: string)
    ensures var pieces := FileLines(file);
            Joined(pieces) == file && forall i :: 0 <= i < |pieces| ==> IsPiece(pieces[i], i == |pieces| - 1)
    decreases |file|
  {
    if file != [] {
      FirstPiece(file);
      hide PieceLength, IsPiece;
      var n := PieceLength(file);
      var pieces, rest := FileLines(file), file[n..];
      assert file[..n] + rest == file;
      assert pieces == [file[..n]] + FileLines(rest);
      hide FileLines;
      FileIsReadInPieces(rest);
      forall i | 0 < i < |pieces|
        ensures IsPiece(pieces[i], i == |pieces| - 1)
      {
        assert pieces[1..][i - 1] == pieces[i];
      }
    }
  }

  lemma LinesSplit(entries: seq<Entry>, end: string)
    requires entries != []
    ensures Lines(entries, end) == [Body(entries[0]) + end] + Lines(entries[1..], end)
  {
    hide Lines, Body;
    forall i | 0 <= i < |entries|
      ensures Lines(entries, end)[i] == ([Body(entries[0]) + end] + Lines(entries[1..], end))[i]
    {
      if i > 0 {
        assert Lines(entries[1..], end)[i - 1] == Body(entries[1..][i - 1]) + end;
      }
    }
  }

  /** No saved line is split by the reader's buffer. */
  lemma {:induction false} SavedFileLines(entries: seq<Entry>)
    requires Keyed(entries) && AllStorable(entries)
    ensures FileLines(Saved(entries)) == Lines(entries, "\n")
  {
    if entries != [] {
      hide Keyed, AllStorable, Saved, FileLines, Lines;
      PrintedFits(entries);
      LinesSplit(entries, "\n");
      FirstFileLine(Body(entries[0]), Saved(entries[1..]));
      SavedFileLines(entries[1..]);
    }
  }

  lemma {:induction false} SavedTextLines(entries: seq<Entry>)
    requires Keyed(entries) && AllStorable(entries)
    ensures TextLines(Saved(entries)) == Lines(entries, "")
  {
    if entries != [] {
      hide Keyed, AllStorable, Saved, TextLines, Lines;
      PrintedFits(entries);
      LinesSplit(entries, "");
      assert Body(entries[0]) + "" == Body(entries[0]);
      hide Body;
      FirstTextLine(Body(entries[0]), Saved(entries[1..]));
      SavedTextLines(entries[1..]);
    }
  }

  lemma Overwritten(entries: seq<Entry>, normal: seq<Entry>, i: nat)
    requires i < |normal| <= |entries|
    ensures var entries' := entries[i := normal[i]];
            entries'[..i + 1] + normal[i + 1..] + entries'[|normal|..] ==
                entries[..i] + normal[i..] + entries[|normal|..]
  {
  }

  /** Printed entries `i`, `i + 1`, ... overwrite the values of the same keys in `entries`. */
  lemma {:induction false} ApplyPrintedLines(entries: seq<Entry>, printed: seq<Entry>, i: nat, end: string)
    requires Keyed(entries) && |printed| <= |entries| && i <= |printed|
    requires forall j :: 0 <= j < |printed| ==> printed[j].key == entries[j].key
    requires AllStorable(printed) && (end == "" || end == "\n")
    ensures ApplyLines(entries, Lines(printed, end)[i..], false) ==
            entries[..i] + NormalEntries(printed)[i..] + entries[|printed|..]
    decreases |printed| - i
  {
    hide Normal, ApplyLine, CanonicalKey, Storable;
    if i == |printed| {
      assert entries[..i] + NormalEntries(printed)[i..] + entries[|printed|..] == entries;
    } else {
      ApplyPrinted(entries, printed[i], i, end, false);
      var lines, normal := Lines(printed, end), NormalEntries(printed);
      var entries' := entries[i := normal[i]];
      assert lines[i..][0] == lines[i] && lines[i..][1..] == lines[i + 1..];
      ApplyPrintedLines(entries', printed, i + 1, end);
      Overwritten(entries, normal, i);
    }
  }

  /** Loading what was saved gives every value its normal form, whatever values the keys had before. */
  lemma LoadAfterSave(before: seq<Entry>, entries: seq<Entry>)
    requires Keyed(entries) && AllStorable(entries) && Keys(before) == Keys(entries)
    ensures Loaded(before, Saved(entries)) == NormalEntries(entries)
  {
    hide Normal, CanonicalKey, Storable, Saved, FileLines;
    SavedFileLines(entries);
    assert forall i :: 0 <= i < |entries| ==> before[i].key == Keys(before)[i];
    ApplyPrintedLines(before, entries, 0, "\n");
    assert Lines(entries, "\n")[0..] == Lines(entries, "\n");
    assert before[..0] + NormalEntries(entries)[0..] + before[|entries|..] == NormalEntries(entries);
  }

  /** For canonical values that is the identity. */
  lemma SaveLoadRoundTrip(before: seq<Entry>, entries: seq<Entry>)
    requires Keyed(entries) && Keys(before) == Keys(entries)
    requires forall i :: 0 <= i < |entries| ==> CanonicalValue(entries[i].value)
    ensures Loaded(before, Saved(entries)) == entries
  {
    hide Keyed, AllStorable, CanonicalValue, Loaded, Saved, NormalEntries;
    CanonicalIsStorable(entries);
    LoadAfterSave(before, entries);
    CanonicalIsNormal(entries);
  }

  lemma {:induction false} FittingIsPrefix(entries: seq<Entry>, length: nat, size: nat)
    requires length < size
    ensures var n := Fitting(entries, length, size);
            && length + |Saved(entries[..n])| < size
            && (n < |entries| ==> length + |Saved(entries[..n + 1])| >= size)
  {
    if entries != [] && length + |Line(entries[0])| < size {
      var n := Fitting(entries[1..], length + |Line(entries[0])|, size);
      FittingIsPrefix(entries[1..], length + |Line(entries[0])|, size);
      assert entries[..n + 1][1..] == entries[1..][..n];
      if n + 1 < |entries| {
        assert entries[..n + 2][1..] == entries[1..][..n + 1];
      }
    } else if entries != [] {
      assert entries[..1][1..] == [];
    }
  }

  /** `getAll` prints whole entries, as long a prefix of them as the buffer can take. */
  lemma AllIsLongestPrefix(entries: seq<Entry>, size: nat)
    requires size > 0
    ensures exists n ::
              && 0 <= n <= |entries| && All(entries, size) == Saved(entries[..n]) && |All(entries, size)| < size
              && (n < |entries| ==> |Saved(entries[..n + 1])| >= size)
  {
    FittingIsPrefix(entries, 0, size);
    var n := Fitting(entries, 0, size);
    assert All(entries, size) == Saved(entries[..n]);
  }

  lemma {:induction false} SavedLength(entries: seq<Entry>)
    requires Keyed(entries) && AllStorable(entries)
    ensures |Saved(entries)| <= 288 * |entries|
  {
    if entries != [] {
      hide Keyed, AllStorable, Saved;
      PrintedFits(entries);
      SavedLength(entries[1..]);
    }
  }

  lemma PrefixIsSound(entries: seq<Entry>, n: nat)
    requires Keyed(entries) && AllStorable(entries) && n <= |entries|
    ensures Keyed(entries[..n]) && AllStorable(entries[..n])
  {
    hide CanonicalKey, Storable;
  }

  /** A buffer with 288 characters for each entry and one more takes them all. */
  lemma AllIsEverything(entries: seq<Entry>, size: nat)
    requires Keyed(entries) && AllStorable(entries) && 288 * |entries| < size
    ensures All(entries, size) == Saved(entries)
  {
    hide Saved, Fitting, Keyed, AllStorable;
    var n := Fitting(entries, 0, size);
    FittingIsPrefix(entries, 0, size);
    if n < |entries| {
      PrefixIsSound(entries, n + 1);
      SavedLength(entries[..n + 1]);
    }
    assert entries[..|entries|] == entries;
  }

  /** Sending the parameters back as received changes nothing. */
  lemma UpdateWithAllIsIdentity(entries: seq<Entry>, size: nat)
    requires Keyed(entries) && forall i :: 0 <= i < |entries| ==> CanonicalValue(entries[i].value)
    ensures Updated(entries, All(entries, size)) == entries
  {
    hide Keyed, AllStorable, CanonicalValue, Saved, TextLines, ApplyLines, Fitting, NormalEntries;
    var printed := entries[..Fitting(entries, 0, size)];
    CanonicalIsStorable(entries);
    PrefixIsSound(entries, |printed|);
    SavedTextLines(printed);
    ApplyPrintedLines(entries, printed, 0, "");
    assert Lines(printed, "")[0..] == Lines(printed, "");
    CanonicalIsNormal(printed);
    assert entries[..0] + printed[0..] + entries[|printed|..] == entries;
  }

  lemma CanonicalIsStorable(entries: seq<Entry>)
    requires forall i :: 0 <= i < |entries| ==> CanonicalValue(entries[i].value)
    ensures AllStorable(entries)
  {
    hide Normal, Storable;
  }

  lemma CanonicalIsNormal(entries: seq<Entry>)
    requires forall i :: 0 <= i < |entries| ==> CanonicalValue(entries[i].value)
    ensures NormalEntries(entries) == entries
  {
    hide Normal, Storable;
  }

  /** Read into an empty table, printed canonical entries come back as they were: this is how the defaults get in. */
  lemma PrintedEntriesAreCreated(entries: seq<Entry>)
    requires Keyed(entries) && |entries| <= MAX_PARAMS
    requires forall i :: 0 <= i < |entries| ==> CanonicalValue(entries[i].value)
    ensures ApplyLines([], TextLines(Saved(entries)), true) == entries
  {
    hide Keyed, AllStorable, CanonicalValue, Saved, TextLines, ApplyLines;
    CanonicalIsStorable(entries);
    SavedTextLines(entries);
    assert Lines(entries, "")[0..] == Lines(entries, "") && entries[..0] == [];
    CreateFrom(entries, 0);
  }

  lemma {:induction false} CreateFrom(entries: seq<Entry>, i: nat)
    requires Keyed(entries) && i <= |entries| <= MAX_PARAMS
    requires forall j :: 0 <= j < |entries| ==> CanonicalValue(entries[j].value)
    ensures ApplyLines(entries[..i], Lines(entries, "")[i..], true) == entries
    decreases |entries| - i
  {
    hide Keyed, CanonicalValue, ApplyLine;
    if i == |entries| {
      assert entries[..i] == entries;
    } else {
      CreateOne(entries, i);
      var lines := Lines(entries, "");
      assert lines[i..][0] == lines[i] && lines[i..][1..] == lines[i + 1..];
      CreateFrom(entries, i + 1);
    }
  }

  lemma CreateOne(entries: seq<Entry>, i: nat)
    requires Keyed(entries) && i < |entries| <= MAX_PARAMS && CanonicalValue(entries[i].value)
    ensures ApplyLine(entries[..i], Lines(entries, "")[i], true) == entries[..i + 1]
  {
    hide Trim, Normal, IndexOf, IsSpace;
    var e := entries[i];
    PrintedParts(e, "");
    FindIsFirst(entries[..i], e.key, i);
    assert Take(e.key, MAX_KEY) == e.key && Take(e.value, MAX_VALUE) == e.value;
    assert entries[..i] + [e] == entries[..i + 1];
  }

  // ---- What no input can change ----

  lemma {:induction false} LinesKeepKeys(entries: seq<Entry>, lines: seq<string>)
    ensures Keys(ApplyLines(entries, lines, false)) == Keys(entries)
    decreases |lines|
  {
    if lines != [] {
      hide Trim, Normal, IndexOf;
      assert Keys(ApplyLine(entries, lines[0], false)) == Keys(entries);
      LinesKeepKeys(ApplyLine(entries, lines[0], false), lines[1..]);
    }
  }

  /** Neither an update nor a file adds, removes or renames a parameter. */
  lemma KeysNeverChange(entries: seq<Entry>, text: string)
    ensures Keys(Updated(entries, text)) == Keys(entries) && Keys(Loaded(entries, text)) == Keys(entries)
  {
    LinesKeepKeys(entries, TextLines(text));
    LinesKeepKeys(entries, FileLines(text));
  }

  predicate OneLine(line: string) {
    forall i :: 0 <= i < |line| - 1 ==> line[i] != '\n'
  }

  lemma LineStoresStorable(entries: seq<Entry>, line: string, createNew: bool)
    requires AllStorable(entries) && OneLine(line)
    ensures AllStorable(ApplyLine(entries, line, createNew))
  {
    hide Normal, Trim, IndexOf;
    var eq := IndexOf(line, '=');
    if eq < |line| {
      var raw := line[eq + 1..];
      NormalHasNoNewline(raw);
      assert Storable(Take(Normal(raw), MAX_VALUE));
    }
    hide Storable;
  }

  lemma NormalHasNoNewline(raw: string)
    requires OneLine(raw)
    ensures '\n' !in Normal(raw)
  {
    var left := TrimLeft(raw);
    var trimmed := TrimRight(left);
    forall i | 0 <= i < |trimmed|
      ensures trimmed[i] != '\n'
    {
      assert trimmed[i] == left[i] == raw[Leading(raw) + i];
      if i == |left| - 1 {
        assert !IsSpace(trimmed[i]);
      }
    }
  }

  lemma {:induction false} LinesStoreStorable(entries: seq<Entry>, lines: seq<string>, createNew: bool)
    requires AllStorable(entries) && forall i :: 0 <= i < |lines| ==> OneLine(lines[i])
    ensures AllStorable(ApplyLines(entries, lines, createNew))
    decreases |lines|
  {
    hide ApplyLine, OneLine, AllStorable;
    if lines != [] {
      LineStoresStorable(entries, lines[0], createNew);
      LinesStoreStorable(ApplyLine(entries, lines[0], createNew), lines[1..], createNew);
    }
  }

  lemma {:induction false} TextLinesAreLines(text: string)
    ensures forall i :: 0 <= i < |TextLines(text)| ==> OneLine(TextLines(text)[i])
  {
    if text != [] {
      var end := IndexOf(text, '\n');
      if end < |text| {
        TextLinesAreLines(text[end + 1..]);
      }
    }
  }

  lemma {:induction false} FileLinesAreLines(file: string)
    ensures forall i :: 0 <= i < |FileLines(file)| ==> OneLine(FileLines(file)[i])
    decreases |file|
  {
    if file != [] {
      var n := PieceLength(file);
      FileLinesAreLines(file[n..]);
    }
  }

  /** So every value that is ever stored, from whatever input, can be saved in one line. */
  lemma StoredValuesAreStorable(entries: seq<Entry>, text: string)
    requires AllStorable(entries)
    ensures AllStorable(Updated(entries, text)) && AllStorable(Loaded(entries, text))
  {
    TextLinesAreLines(text);
    FileLinesAreLines(text);
    LinesStoreStorable(entries, TextLines(text), false);
    LinesStoreStorable(entries, FileLines(text), false);
  }

  // ---- Repeated rounds ----

  /** Saving and loading `n` times. */
  function Rounds(entries: seq<Entry>, n: nat): seq<Entry> {
    if n == 0 then entries else Loaded(Rounds(entries, n - 1), Saved(Rounds(entries, n - 1)))
  }

  ghost predicate Shrunk(before: Entry, after: Entry, rounds: nat) {
    after.key == before.key && (Normal(after.value) == after.value || |after.value| + rounds <= |before.value|)
  }

  lemma {:induction false} RoundsShrink(entries: seq<Entry>, n: nat)
    requires Keyed(entries) && AllStorable(entries)
    ensures var r := Rounds(entries, n);
            && Keyed(r) && AllStorable(r) && Keys(r) == Keys(entries)
            && |r| == |entries| && forall i :: 0 <= i < |entries| ==> Shrunk(entries[i], r[i], n)
  {
    hide Keyed, AllStorable, Keys, Normal, Loaded, Saved;
    if n > 0 {
      RoundsShrink(entries, n - 1);
      var r := Rounds(entries, n - 1);
      LoadAfterSave(r, r);
      NormalKeeps(r);
      ShrinkAll(entries, r, n - 1);
    }
  }

  lemma ShrinkAll(entries: seq<Entry>, r: seq<Entry>, n: nat)
    requires |r| == |entries| && forall i :: 0 <= i < |entries| ==> Shrunk(entries[i], r[i], n)
    ensures forall i :: 0 <= i < |entries| ==> Shrunk(entries[i], NormalEntries(r)[i], n + 1)
  {
    hide Normal, Shrunk;
    forall i | 0 <= i < |entries|
      ensures Shrunk(entries[i], NormalEntries(r)[i], n + 1)
    {
      OneRoundShrinks(entries[i], r[i], n);
    }
  }

  lemma NormalKeeps(r: seq<Entry>)
    requires Keyed(r) && AllStorable(r)
    ensures Keyed(NormalEntries(r)) && AllStorable(NormalEntries(r)) && Keys(NormalEntries(r)) == Keys(r)
  {
    hide Normal, CanonicalKey;
    forall i | 0 <= i < |r|
      ensures Storable(Normal(r[i].value))
    {
      NormalShrinks(r[i].value);
    }
  }

  lemma OneRoundShrinks(before: Entry, e: Entry, n: nat)
    requires Shrunk(before, e, n)
    ensures Shrunk(before, Entry(e.key, Normal(e.value)), n + 1)
  {
    hide Normal;
    NormalShrinks(e.value);
  }

  /** From whatever values were stored, 255 rounds of saving and loading lead to canonical ones, under the same keys;
      from then on a round changes nothing. */
  lemma RoundsReachCanonical(entries: seq<Entry>, n: nat)
    requires Keyed(entries) && AllStorable(entries) && n >= MAX_VALUE
    ensures Keys(Rounds(entries, n)) == Keys(entries)
    ensures |Rounds(entries, n)| == |entries| && forall i :: 0 <= i < |entries| ==>
            CanonicalValue(Rounds(entries, n)[i].value)
    ensures Rounds(entries, n + 1) == Rounds(entries, n)
  {
    hide Normal, Keyed;
    RoundsShrink(entries, n);
    var r := Rounds(entries, n);
    forall i | 0 <= i < |entries|
      ensures CanonicalValue(r[i].value)
    {
      assert Shrunk(entries[i], r[i], n);
      if Normal(r[i].value) != r[i].value {
        assert |r[i].value| == 0;
        NormalShrinks(r[i].value);
      }
    }
    SaveLoadRoundTrip(r, r);
  }

  // ---- The object ----

  class Params {
    const keys: array<string>
    const values: array<string>
    var count: nat

    ghost predicate Valid()
      reads this
    {
      keys.Length == values.Length == MAX_PARAMS && keys != values && count <= MAX_PARAMS
    }

    ghost function Entries(): (entries: seq<Entry>)
      requires Valid()
      reads this, keys, values
      ensures |entries| == count
    {
      seq(count, i requires Valid() && 0 <= i < count reads this, keys, values => Entry(keys[i], values[i]))
    }

    /** Without a configuration file the defaults are parsed and saved; with one they are overridden. */
    constructor (defaults: string, file: Option<string>)
      ensures Valid() && fresh(keys) && fresh(values)
      ensures var parsed := ApplyLines([], TextLines(defaults), true);
              Entries() == if file.None? then parsed else Loaded(parsed, file.value)
    {
      keys := new string[MAX_PARAMS](_ => "");
      values := new string[MAX_PARAMS](_ => "");
      count := 0;
      new;
      assert Entries() == [];
      ParseAndSet(defaults, true);
      if file.Some? {
        Load(file.value);
      }
    }

    method Load(file: string)
      requires Valid()
      modifies this, keys, values
      ensures Valid() && Entries() == Loaded(old(Entries()), file)
    {
      hide ApplyLine, IndexOf;
      var rest := file;
      while rest != ""
        invariant Valid()
        invariant ApplyLines(Entries(), FileLines(rest), false) == Loaded(old(Entries()), file)
        decreases |rest|
      {
        var end := IndexOf(rest, '\n');
        var n := if end < |rest| && end < MAX_LINE then end + 1 else if |rest| <= MAX_LINE then |rest| else MAX_LINE;
        ghost var lines := FileLines(rest);
        assert lines[0] == rest[..n] && lines[1..] == FileLines(rest[n..]);
        ParseLine(rest[..n], false);
        rest := rest[n..];
      }
    }

    method Save() returns (file: string)
      requires Valid()
      ensures file == Saved(Entries())
    {
      file := "";
      for i := 0 to count
        invariant file == Saved(Entries()[..i])
      {
        SavedAppend(Entries()[..i], Entries()[i]);
        assert Entries()[..i + 1] == Entries()[..i] + [Entries()[i]];
        file := file + (keys[i] + "=" + values[i] + "\n");
      }
      assert Entries()[..count] == Entries();
    }

    method Update(newParams: string) returns (file: string)
      requires Valid()
      modifies this, keys, values
      ensures Valid() && Entries() == Updated(old(Entries()), newParams) && file == Saved(Entries())
    {
      ParseAndSet(newParams, false);
      file := Save();
    }

    method Get(key: string) returns (value: Option<string>)
      requires Valid()
      ensures var i := Find(Entries(), key);
              value == if i < |Entries()| then Some(Entries()[i].value) else None
    {
      var i := FindKey(key);
      return if i < count then Some(values[i]) else None;
    }

    method GetAll(size: nat) returns (text: string)
      requires Valid()
      ensures text == if size == 0 then "" else All(Entries(), size)
    {
      if size == 0 {
        return "";
      }
      text := PrintAll(size, Entries());
    }

    method PrintAll(size: nat, ghost entries: seq<Entry>) returns (text: string)
      requires Valid() && size > 0
      requires |entries| == count && forall i :: 0 <= i < count ==> entries[i] == Entry(keys[i], values[i])
      ensures text == All(entries, size)
    {
      hide Fitting, Saved, Line;
      text := "";
      assert entries[..0] == [] && entries[0..] == entries;
      SavedNothing();
      for i := 0 to count
        invariant text == Saved(entries[..i]) && |text| < size
        invariant Fitting(entries, 0, size) == i + Fitting(entries[i..], |text|, size)
      {
        var line := Line(Entry(keys[i], values[i]));
        FittingFrom(entries, i, |text|, size);
        SavedAppend(entries[..i], entries[i]);
        assert entries[..i + 1] == entries[..i] + [entries[i]];
        if |text| + |line| < size {
          text := text + line;
        } else {
          return;
        }
      }
      assert entries[..count] == entries && entries[count..] == [];
      FittingNone(|text|, size);
    }

    method FindKey(key: string) returns (i: nat)
      requires Valid()
      ensures i == Find(Entries(), key)
    {
      i := 0;
      while i < count && keys[i] != key
        invariant i <= count
        invariant forall j :: 0 <= j < i ==> Entries()[j].key != key
      {
        i := i + 1;
      }
      FindIsFirst(Entries(), key, i);
    }

    method ParseAndSet(input: string, createNew: bool)
      requires Valid()
      modifies this, keys, values
      ensures Valid() && Entries() == ApplyLines(old(Entries()), TextLines(input), createNew)
    {
      hide ApplyLine, IndexOf, Take;
      var rest := input;
      while rest != ""
        invariant Valid()
        invariant ApplyLines(Entries(), TextLines(rest), createNew) ==
                  ApplyLines(old(Entries()), TextLines(input), createNew)
        decreases |rest|
      {
        var end := IndexOf(rest, '\n');
        ghost var lines := TextLines(rest);
        assert lines[0] == Take(rest[..end], MAX_LINE);
        assert lines[1..] == if end == |rest| then [] else TextLines(rest[end + 1..]);
        ParseLine(Take(rest[..end], MAX_LINE), createNew);
        rest := if end == |rest| then "" else rest[end + 1..];
      }
    }

    method ParseLine(line: string, createNew: bool)
      requires Valid()
      modifies this, keys, values
      ensures Valid() && Entries() == ApplyLine(old(Entries()), line, createNew)
    {
      hide Trim, Unquote, Find;
      var eq := IndexOf(line, '=');
      if eq == |line| {
        return;
      }
      var key := Trim(line[..eq]);
      var value := Unquote(Trim(line[eq + 1..]));
      if |key| == 0 {
        return;
      }
      var i := FindKey(key);
      if i < count {
        values[i] := Take(value, MAX_VALUE);
      } else if createNew {
        if count < MAX_PARAMS {
          keys[count] := Take(key, MAX_KEY);
          values[count] := Take(value, MAX_VALUE);
          count := count + 1;
        }
      }
    }
  }

  lemma SavedNothing()
    ensures Saved([]) == ""
  {
  }

  lemma FittingFrom(entries: seq<Entry>, i: nat, length: nat, size: nat)
    requires i < |entries|
    ensures Fitting(entries[i..], length, size) ==
            if length + |Line(entries[i])| >= size then 0
            else 1 + Fitting(entries[i + 1..], length + |Line(entries[i])|, size)
  {
    hide Line;
    assert entries[i..][0] == entries[i] && entries[i..][1..] == entries[i + 1..];
  }

  lemma FittingNone(length: nat, size: nat)
    ensures Fitting([], length, size) == 0
  {
  }

  lemma FindIsFirst(entries: seq<Entry>, key: string, i: nat)
    requires i <= |entries| && (i < |entries| ==> entries[i].key == key)
    requires forall j :: 0 <= j < i ==> entries[j].key != key
    ensures Find(entries, key) == i
  {
  }

  lemma {:induction false} SavedAppend(entries: seq<Entry>, e: Entry)
    ensures Saved(entries + [e]) == Saved(entries) + Line(e)
  {
    if entries == [] {
      assert entries + [e] == [e] && [e][1..] == [];
      assert Line(e) + "" == Line(e);
    } else {
      SavedAppend(entries[1..], e);
      assert (entries + [e])[1..] == entries[1..] + [e];
      hide Line;
      assert Line(entries[0]) + (Saved(entries[1..]) + Line(e)) == (Line(entries[0]) + Saved(entries[1..])) + Line(e);
    }
  }
}
