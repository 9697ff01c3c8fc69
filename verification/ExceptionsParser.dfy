/**
 The line parser of the audit-exception list: split_kv and parse_exceptions of
 tools/check_pnpm_audit_exceptions.py.
 */
module ExceptionsParser {
  import opened Common
  import opened PyText

  type Record = map<string, string>

  // ---------- split_kv ----------

  /** Drops one pair of equal quotes around a value; a lone quote is dropped too. */
  function Unquote(v: string): string {
    if v != "" && ((v[0] == '"' && v[|v| - 1] == '"') || (v[0] == '\'' && v[|v| - 1] == '\'')) then
      if |v| == 1 then "" else v[1..|v| - 1]
    else v
  }

  /** split_kv; a line without a colon raises ValueError. */
  function SplitKV(line: string): Option<(string, string)> {
    var i := IndexOf(line, ':');
    if i == |line| then None else Some((Strip(line[..i]), Unquote(Strip(line[i + 1..]))))
  }

  // ---------- parse_exceptions ----------

  /** The loop's variables, or the ValueError that ended it. */
  datatype State = Reading(exceptions: seq<Record>, current: Option<Record>) | Raised

  const START := Reading([], None)

  predicate Skipped(line: string) {
    line == "" || line[0] == '#' || StartsWith(line, "version:") || StartsWith(line, "exceptions:")
  }

  predicate IsItem(raw: string) {
    !Skipped(Strip(raw)) && StartsWith(Strip(raw), "- ")
  }

  /** Appending the current record, unless it is None or empty. */
  function Flush(exceptions: seq<Record>, current: Option<Record>): seq<Record> {
    if current.Some? && current.value != map[] then exceptions + [current.value] else exceptions
  }

  function Put(exceptions: seq<Record>, current: Record, line: string): State {
    match SplitKV(line)
    case None => Raised
    case Some((key, value)) => Reading(exceptions, Some(current[key := value]))
  }

  /** One turn of the loop. */
  function Step(st: State, raw: string): State {
    var line := Strip(raw);
    if st.Raised? || Skipped(line) then st
    else if StartsWith(line, "- ") then
      var exceptions, rest := Flush(st.exceptions, st.current), Strip(line[2..]);
      if rest == "" then Reading(exceptions, Some(map[])) else Put(exceptions, map[], rest)
    else if st.current.Some? && ':' in line then Put(st.exceptions, st.current.value, line)
    else st
  }

  function ParseFrom(st: State, lines: seq<string>): State
    decreases |lines|
  {
    if lines == [] then st else ParseFrom(Step(st, lines[0]), lines[1..])
  }

  function Finish(st: State): Option<seq<Record>> {
    if st.Raised? then None else Some(Flush(st.exceptions, st.current))
  }

  /** The records of a list of lines; `None` is the ValueError. */
  function Parse(lines: seq<string>): Option<seq<Record>> {
    Finish(ParseFrom(START, lines))
  }

  lemma {:induction false} RaisedForGood(lines: seq<string>)
    ensures ParseFrom(Raised, lines) == Raised
  {
    if lines == [] {
    } else {
      RaisedForGood(lines[1..]);
    }
  }

  method ParseExceptions(lines: seq<string>) returns (result: Option<seq<Record>>)
    ensures result == Parse(lines)
  {
    var exceptions: seq<Record> := [];
    var current: Option<Record> := None;
    for i := 0 to |lines|
      invariant ParseFrom(START, lines) == ParseFrom(Reading(exceptions, current), lines[i..])
    {
      ghost var st := Reading(exceptions, current);
      assert lines[i..][0] == lines[i] && lines[i..][1..] == lines[i + 1..];
      RaisedForGood(lines[i + 1..]);
      var line := Strip(lines[i]);
      if line == "" || line[0] == '#' { continue; }
      if StartsWith(line, "version:") || StartsWith(line, "exceptions:") { continue; }
      if StartsWith(line, "- ") {
        if current.Some? && current.value != map[] {
          exceptions := exceptions + [current.value];
        }
        current := Some(map[]);
        line := Strip(line[2..]);
        if line != "" {
          var kv := SplitKV(line);
          if kv.None? { return None; }
          current := Some(map[][kv.value.0 := kv.value.1]);
        }
        continue;
      }
      if current.Some? && ':' in line {
        var kv := SplitKV(line);
        if kv.None? { return None; }
        current := Some(current.value[kv.value.0 := kv.value.1]);
      }
    }
    if current.Some? && current.value != map[] {
      exceptions := exceptions + [current.value];
    }
    return Some(exceptions);
  }

  // ---------- no record is lost ----------

  /** Once a record has been started it is never empty. */
  ghost predicate NeverEmpty(st: State) {
    st.Reading? && st.current.Some? ==> st.current.value != map[]
  }

  lemma PutNeverEmpty(exceptions: seq<Record>, current: Record, line: string)
    ensures NeverEmpty(Put(exceptions, current, line))
  {
    if SplitKV(line).Some? {
      var (key, value) := SplitKV(line).value;
      assert key in current[key := value];
    }
  }

  lemma {:induction false} SomeInk(s: string)
    requires s != "" && !IsSpace(s[|s| - 1])
    ensures LStrip(s) != ""
  {
    if !IsSpace(s[0]) {
    } else {
      SomeInk(s[1..]);
    }
  }

  /** A stripped line that starts with a dash and a space goes on after them. */
  lemma ItemHasContent(raw: string)
    requires StartsWith(Strip(raw), "- ")
    ensures Strip(Strip(raw)[2..]) != ""
  {
    var line := Strip(raw);
    StripIsTrimmed(raw);
    assert line[1] == ' ';
    assert |line| > 2 && !IsSpace(line[|line| - 1]);
    LStripFacts(line[2..]);
    SomeInk(line[2..]);
    RStripFacts(LStrip(line[2..]));
  }

  lemma StepNeverEmpty(st: State, raw: string)
    requires NeverEmpty(st)
    ensures NeverEmpty(Step(st, raw))
  {
    var line := Strip(raw);
    if StartsWith(line, "- ") {
      ItemHasContent(raw);
    }
    if st.Reading? && StartsWith(line, "- ") {
      PutNeverEmpty(Flush(st.exceptions, st.current), map[], Strip(line[2..]));
    }
    if st.Reading? && st.current.Some? {
      PutNeverEmpty(st.exceptions, st.current.value, line);
    }
    hide Strip, SplitKV, Put;
  }

  /** So at every point of every run, `if current` tells exactly whether a record was started. */
  lemma {:induction false} GuardsLoseNothing(st: State, lines: seq<string>)
    requires NeverEmpty(st)
    ensures NeverEmpty(ParseFrom(st, lines))
    decreases |lines|
  {
    if lines == [] {
    } else {
      StepNeverEmpty(st, lines[0]);
      GuardsLoseNothing(Step(st, lines[0]), lines[1..]);
    }
  }

  function ItemCount(lines: seq<string>): nat {
    if lines == [] then 0 else (if IsItem(lines[0]) then 1 else 0) + ItemCount(lines[1..])
  }

  /** The records done and the one being read. */
  function Count(st: State): nat {
    if st.Raised? then 0 else |st.exceptions| + if st.current.Some? then 1 else 0
  }

  lemma {:induction false} CountItems(st: State, lines: seq<string>)
    requires NeverEmpty(st)
    ensures
      var st' := ParseFrom(st, lines);
      st'.Reading? ==> Count(st') == Count(st) + ItemCount(lines)
    decreases |lines|
  {
    if lines == [] {
    } else {
      StepNeverEmpty(st, lines[0]);
      CountItems(Step(st, lines[0]), lines[1..]);
      RaisedForGood(lines[1..]);
      hide Strip, SplitKV, Skipped;
    }
  }

  /** Parsing gives one record for each item line: none is dropped and none is split. */
  lemma OneRecordPerItem(lines: seq<string>)
    ensures Parse(lines).Some? ==> |Parse(lines).value| == ItemCount(lines)
  {
    CountItems(START, lines);
    GuardsLoseNothing(START, lines);
  }

  // ---------- parsing is compositional ----------

  lemma {:induction false} ParseAppend(st: State, a: seq<string>, b: seq<string>)
    ensures ParseFrom(st, a + b) == ParseFrom(ParseFrom(st, a), b)
    decreases |a|
  {
    if a == [] {
      assert a + b == b;
    } else {
      assert (a + b)[1..] == a[1..] + b;
      ParseAppend(Step(st, a[0]), a[1..], b);
    }
  }

  /** Records already done stay in front of whatever is read later. */
  function Behind(done: seq<Record>, st: State): State {
    if st.Raised? then st else st.(exceptions := done + st.exceptions)
  }

  lemma StepBehind(done: seq<Record>, st: State, raw: string)
    ensures Step(Behind(done, st), raw) == Behind(done, Step(st, raw))
  {
    hide Strip, SplitKV, Skipped;
    if st.Reading? && st.current.Some? {
      assert (done + st.exceptions) + [st.current.value] == done + (st.exceptions + [st.current.value]);
    }
  }

  lemma {:induction false} ParseBehind(done: seq<Record>, st: State, lines: seq<string>)
    ensures ParseFrom(Behind(done, st), lines) == Behind(done, ParseFrom(st, lines))
    decreases |lines|
  {
    if lines == [] {
    } else {
      StepBehind(done, st, lines[0]);
      ParseBehind(done, Step(st, lines[0]), lines[1..]);
    }
  }

  /**
   If the second part starts with an item line, parsing two parts together raises exactly
   when parsing one of them does, and otherwise gives the records of both in order.
   */
  lemma Compositional(a: seq<string>, b: seq<string>)
    requires b != [] && IsItem(b[0])
    ensures Parse(a + b) ==
            if Parse(a).Some? && Parse(b).Some? then Some(Parse(a).value + Parse(b).value) else None
  {
    var st := ParseFrom(START, a);
    ParseAppend(START, a, b);
    RaisedForGood(b);
    if st.Reading? {
      var done := Flush(st.exceptions, st.current);
      assert Step(st, b[0]) == Behind(done, Step(START, b[0])) by {
        hide Strip, SplitKV;
        assert done + [] == done;
      }
      ParseBehind(done, Step(START, b[0]), b[1..]);
      var rest := ParseFrom(START, b);
      assert ParseFrom(st, b) == Behind(done, rest);
      hide ParseFrom, Strip;
      if rest.Reading? && rest.current.Some? {
        assert (done + rest.exceptions) + [rest.current.value] == done + (rest.exceptions + [rest.current.value]);
      }
    }
  }

  /** A blank, comment, `version:` or `exceptions:` line may be inserted anywhere. */
  lemma SkippedLineAnywhere(a: seq<string>, raw: string, b: seq<string>)
    requires Skipped(Strip(raw))
    ensures Parse(a + [raw] + b) == Parse(a + b)
  {
    ParseAppend(START, a + [raw], b);
    ParseAppend(START, a, [raw]);
    ParseAppend(START, a, b);
    var st := ParseFrom(START, a);
    assert [raw][1..] == [] && ParseFrom(st, [raw]) == Step(st, raw) == st;
  }

  // ---------- lines that are ignored ----------

  lemma SkipsTo(a: string, start: string, rest: string)
    requires AllSpace(a) && start != "" && Trimmed(start)
    ensures StartsWith(Strip(a + start + rest), start)
  {
    assert a + start + rest == a + (start + rest);
    LStripPrefix(a, start + rest);
    RStripKeeps(start, rest);
  }

  predicate Starts(raw: string, a: string, start: string, rest: string) {
    raw == a + start + rest
  }

  /** A blank line, a comment, or one that starts with `version:` or `exceptions:`, after any white space. */
  ghost predicate NoContent(raw: string) {
    || AllSpace(raw)
    || (exists a, rest :: AllSpace(a) && Starts(raw, a, "#", rest))
    || (exists a, rest :: AllSpace(a) && Starts(raw, a, "version:", rest))
    || (exists a, rest :: AllSpace(a) && Starts(raw, a, "exceptions:", rest))
  }

  /** Such a line may be inserted anywhere. */
  lemma NoContentAnywhere(a: seq<string>, raw: string, b: seq<string>)
    requires NoContent(raw)
    ensures Parse(a + [raw] + b) == Parse(a + b)
  {
    if AllSpace(raw) {
      assert raw == raw + "";
      LStripPrefix(raw, "");
    } else if w, rest :| AllSpace(w) && Starts(raw, w, "#", rest) {
      SkipsTo(w, "#", rest);
    } else if w, rest :| AllSpace(w) && Starts(raw, w, "version:", rest) {
      SkipsTo(w, "version:", rest);
    } else {
      var w, rest :| AllSpace(w) && Starts(raw, w, "exceptions:", rest);
      SkipsTo(w, "exceptions:", rest);
    }
    SkippedLineAnywhere(a, raw, b);
  }

  lemma StepInside(a: seq<string>, raw: string, b: seq<string>)
    ensures ParseFrom(START, a + [raw] + b) == ParseFrom(Step(ParseFrom(START, a), raw), b)
  {
    hide Step;
    ParseAppend(START, a + [raw], b);
    ParseAppend(START, a, [raw]);
    assert [raw][1..] == [];
  }

  /** So may a line that is no item and has no colon. */
  lemma NoColonAnywhere(a: seq<string>, raw: string, b: seq<string>)
    requires !StartsWith(Strip(raw), "- ") && ':' !in raw
    ensures Parse(a + [raw] + b) == Parse(a + b)
  {
    StripIsPart(raw);
    StepInside(a, raw, b);
    ParseAppend(START, a, b);
    hide Strip;
  }

  /** Lines before the first item are ignored, whatever they are. */
  lemma {:induction false} BeforeFirstItem(a: seq<string>, b: seq<string>)
    requires forall i :: 0 <= i < |a| ==> !StartsWith(Strip(a[i]), "- ")
    ensures Parse(a + b) == Parse(b)
    decreases |a|
  {
    hide Strip, StartsWith, Skipped;
    if a == [] {
      assert a + b == b;
    } else {
      assert (a + b)[0] == a[0] && (a + b)[1..] == a[1..] + b;
      assert Step(START, a[0]) == START;
      BeforeFirstItem(a[1..], b);
    }
  }

  /** An item without a colon makes the parser raise, wherever it stands. */
  lemma ItemWithoutColon(a: seq<string>, raw: string, b: seq<string>)
    requires IsItem(raw) && ':' !in raw
    ensures Parse(a + [raw] + b) == None
  {
    var line := Strip(raw);
    StripIsPart(raw);
    StripIsPart(line[2..]);
    assert ':' !in line[2..];
    ItemHasContent(raw);
    StepInside(a, raw, b);
    RaisedForGood(b);
    hide Strip, Skipped;
  }

  // ---------- printing ----------

  /** How a value is written: as it is, between single or double quotes, or, for an empty one, as a lone quote. */
  datatype Style = Bare | Single | Double | Lone(quote: char)

  /** A field as it is written: with white space before and after the colon. */
  datatype Field = Field(key: string, before: string, after: string, value: string, style: Style)

  type Fields = seq<Field>

  /** A value that can stand bare: trimmed, and not between equal quotes. */
  predicate BareValue(v: string) {
    Trimmed(v) && (v != "" && v[0] == v[|v| - 1] ==> v[0] != '"' && v[0] != '\'')
  }

  function Styled(f: Field): string {
    match f.style
    case Bare => f.value
    case Single => "'" + f.value + "'"
    case Double => "\"" + f.value + "\""
    case Lone(quote) => [quote]
  }

  /** The value can be written in the field's style. */
  predicate Writable(f: Field) {
    match f.style
    case Bare => BareValue(f.value)
    case Lone(quote) => f.value == "" && (quote == '"' || quote == '\'')
    case _ => true
  }

  /** The text before the colon. */
  function Head(f: Field): string {
    f.key + f.before
  }

  /**
   A field that prints as an ordinary line: its key is trimmed, colon-free, not comment-like
   and not reserved, and an empty key or value has no white space beside it.
   */
  predicate PlainField(f: Field) {
    && Trimmed(f.key) && ':' !in f.key && AllSpace(f.before) && AllSpace(f.after)
    && !StartsWith(f.key, "#") && !StartsWith(Head(f), "- ") && Head(f) != "version" && Head(f) != "exceptions"
    && Writable(f) && (f.key == "" ==> f.before == "") && (Styled(f) == "" ==> f.after == "")
  }

  /** A record that can be printed: it has a field, and its fields are plain. */
  ghost predicate Printable(r: Fields) {
    r != [] && forall i :: 0 <= i < |r| ==> PlainField(r[i])
  }

  function Pair(f: Field): string {
    Head(f) + (":" + (f.after + Styled(f)))
  }

  function PrintFields(r: Fields): seq<string> {
    if r == [] then [] else ["  " + Pair(r[0])] + PrintFields(r[1..])
  }

  function PrintRecord(r: Fields): seq<string> {
    if r == [] then [] else ["- " + Pair(r[0])] + PrintFields(r[1..])
  }

  function Print(rs: seq<Fields>): seq<string> {
    if rs == [] then [] else PrintRecord(rs[0]) + Print(rs[1..])
  }

  function ToRecord(r: Fields): Record {
    if r == [] then map[] else ToRecord(r[..|r| - 1])[r[|r| - 1].key := r[|r| - 1].value]
  }

  function ToRecords(rs: seq<Fields>): seq<Record> {
    if rs == [] then [] else [ToRecord(rs[0])] + ToRecords(rs[1..])
  }

  /** The last field of its key. */
  ghost predicate LastOfKey(r: Fields, i: int) {
    0 <= i < |r| && forall j :: i < j < |r| ==> r[j].key != r[i].key
  }

  ghost predicate HasKey(r: Fields, k: string) {
    exists i :: 0 <= i < |r| && r[i].key == k
  }

  lemma HasKeyExtend(r: Fields, f: Field, k: string)
    ensures HasKey(r + [f], k) <==> HasKey(r, k) || k == f.key
  {
    var all := r + [f];
    assert all[|r|] == f && forall i :: 0 <= i < |r| ==> all[i] == r[i];
  }

  lemma {:induction false} ToRecordKeys(r: Fields, k: string)
    ensures k in ToRecord(r) <==> HasKey(r, k)
  {
    if r == [] {
    } else {
      var n := |r| - 1;
      ToRecordKeys(r[..n], k);
      HasKeyExtend(r[..n], r[n], k);
      assert r == r[..n] + [r[n]];
      hide HasKey;
    }
  }

  lemma {:induction false} LastIsKept(r: Fields, i: int)
    requires LastOfKey(r, i)
    ensures r[i].key in ToRecord(r) && ToRecord(r)[r[i].key] == r[i].value
    decreases |r|
  {
    var n := |r| - 1;
    if i < n {
      assert r[n].key != r[i].key;
      LastIsKept(r[..n], i);
    }
  }

  /** A printed record's map holds exactly its keys; of several fields with one key, the last value is kept. */
  lemma ToRecordFields(r: Fields)
    ensures forall i :: LastOfKey(r, i) ==> r[i].key in ToRecord(r) && ToRecord(r)[r[i].key] == r[i].value
    ensures forall k :: k in ToRecord(r) <==> HasKey(r, k)
  {
    hide ToRecord, HasKey;
    forall i | LastOfKey(r, i) ensures r[i].key in ToRecord(r) && ToRecord(r)[r[i].key] == r[i].value {
      LastIsKept(r, i);
    }
    forall k ensures k in ToRecord(r) <==> HasKey(r, k) {
      ToRecordKeys(r, k);
    }
  }

  lemma UnquoteStyled(f: Field)
    requires Writable(f)
    ensures Trimmed(Styled(f)) && Unquote(Styled(f)) == f.value
  {
    var text := Styled(f);
    if f.style.Single? || f.style.Double? {
      assert text[1..|text| - 1] == f.value;
    }
  }

  lemma NoColonInSpace(s: string)
    requires AllSpace(s)
    ensures ':' !in s
  {
  }

  lemma PairIsTrimmed(f: Field)
    requires PlainField(f)
    ensures Trimmed(Pair(f))
  {
    UnquoteStyled(f);
    hide Styled, Unquote;
    var text := Pair(f);
    assert text[0] == if f.key == "" then ':' else f.key[0];
    assert text[|text| - 1] == if Styled(f) == "" then ':' else Styled(f)[|Styled(f)| - 1];
  }

  lemma PairParts(f: Field)
    requires PlainField(f)
    ensures ':' !in Head(f) && |Pair(f)| > |Head(f)| && Pair(f)[|Head(f)|] == ':' && Pair(f)[..|Head(f)|] == Head(f)
    ensures Pair(f)[|Head(f)| + 1..] == f.after + Styled(f)
    ensures Trimmed(Pair(f))
  {
    NoColonInSpace(f.before);
    PairIsTrimmed(f);
    hide Styled;
    var text, tail := Pair(f), f.after + Styled(f);
    assert text == Head(f) + (":" + tail);
  }

  lemma StripSpaced(s: string)
    requires s != "" && Trimmed(s)
    ensures Strip("  " + s) == s
  {
    assert "  " + s == "  " + s + "";
    StripOuter("  ", s, "");
  }

  lemma StripHead(f: Field)
    requires PlainField(f)
    ensures Strip(Head(f)) == f.key
  {
    if f.key == "" {
      StripTrimmed("");
    } else {
      assert "" + f.key + f.before == Head(f);
      StripOuter("", f.key, f.before);
    }
  }

  lemma StripTail(f: Field)
    requires PlainField(f)
    ensures Strip(f.after + Styled(f)) == Styled(f)
  {
    UnquoteStyled(f);
    if Styled(f) == "" {
      StripTrimmed("");
    } else {
      assert f.after + Styled(f) + "" == f.after + Styled(f);
      StripOuter(f.after, Styled(f), "");
    }
  }

  lemma UnquotePlain(f: Field)
    requires PlainField(f)
    ensures Unquote(Styled(f)) == f.value
  {
    UnquoteStyled(f);
  }

  /** The text of a pair is trimmed, and splits into its key and its value, whatever the value is. */
  lemma PairSplits(f: Field)
    requires PlainField(f)
    ensures Pair(f) != "" && Trimmed(Pair(f)) && SplitKV(Pair(f)) == Some((f.key, f.value))
  {
    hide Strip, Unquote, Styled, IndexOf, PlainField, Trimmed;
    PairParts(f);
    IndexOfPrefix(Head(f), ":" + (f.after + Styled(f)), ':');
    UnquotePlain(f);
    StripHead(f);
    StripTail(f);
  }

  /** The text before the first colon is determined by the line. */
  lemma HeadIsTheWord(f: Field, word: string)
    requires PlainField(f) && ':' !in word
    ensures StartsWith(Pair(f), word + ":") ==> Head(f) == word
  {
    hide PlainField, Styled;
    var line := Pair(f);
    PairParts(f);
    IndexOfPrefix(Head(f), ":" + (f.after + Styled(f)), ':');
    if StartsWith(line, word + ":") {
      assert line[..|word|] == word && line[|word|] == ':';
      assert line == word + line[|word|..];
      IndexOfPrefix(word, line[|word|..], ':');
    }
  }

  lemma NotADash(f: Field)
    requires PlainField(f)
    ensures !StartsWith(Pair(f), "- ")
  {
    PairParts(f);
    var line, head := Pair(f), Head(f);
    hide Styled, Pair;
    assert |head| >= 2 ==> line[0] == head[0] && line[1] == head[1];
    assert |head| == 1 ==> line[1] == ':';
    assert |head| == 0 ==> line[0] == ':';
  }

  lemma NotAComment(f: Field)
    requires PlainField(f)
    ensures Pair(f) != "" && Pair(f)[0] != '#'
  {
    PairParts(f);
    hide Styled;
  }

  /** The pair of a plain field is neither skipped nor an item. */
  lemma PairIsPlain(f: Field)
    requires PlainField(f)
    ensures !Skipped(Pair(f)) && !StartsWith(Pair(f), "- ")
  {
    HeadIsTheWord(f, "version");
    HeadIsTheWord(f, "exceptions");
    assert "version" + ":" == "version:" && "exceptions" + ":" == "exceptions:";
    NotADash(f);
    NotAComment(f);
    hide Styled, Pair;
  }

  /** A field line puts its field into the current record. */
  lemma FieldLine(st: State, f: Field)
    requires st.Reading? && st.current.Some? && PlainField(f)
    ensures Step(st, "  " + Pair(f)) == st.(current := Some(st.current.value[f.key := f.value]))
  {
    PairSplits(f);
    PairParts(f);
    StripSpaced(Pair(f));
    PairIsPlain(f);
    hide Strip, Pair, SplitKV, Skipped, PlainField;
    assert Pair(f)[|Head(f)|] in Pair(f);
  }

  function PutAll(m: Record, r: Fields): Record
    decreases |r|
  {
    if r == [] then m else PutAll(m[r[0].key := r[0].value], r[1..])
  }

  lemma {:induction false} FieldLines(st: State, r: Fields)
    requires st.Reading? && st.current.Some? && forall i :: 0 <= i < |r| ==> PlainField(r[i])
    ensures ParseFrom(st, PrintFields(r)) == st.(current := Some(PutAll(st.current.value, r)))
    decreases |r|
  {
    hide Step, Pair, PlainField;
    if r == [] {
    } else {
      FieldLine(st, r[0]);
      FieldLines(Step(st, "  " + Pair(r[0])), r[1..]);
      assert PrintFields(r)[0] == "  " + Pair(r[0]) && PrintFields(r)[1..] == PrintFields(r[1..]);
    }
  }

  lemma {:induction false} PutAllIsToRecord(m: Record, done: Fields, r: Fields)
    requires m == ToRecord(done)
    ensures PutAll(m, r) == ToRecord(done + r)
    decreases |r|
  {
    if r == [] {
      assert done + r == done;
    } else {
      assert (done + [r[0]])[..|done|] == done;
      PutAllIsToRecord(m[r[0].key := r[0].value], done + [r[0]], r[1..]);
      assert (done + [r[0]]) + r[1..] == done + r;
    }
  }

  /** An item line is recognised, and goes on with what follows the dash. */
  lemma ItemLine(line: string)
    requires line != "" && Trimmed(line)
    ensures Strip("- " + line) == "- " + line && Strip(("- " + line)[2..]) == line
    ensures IsItem("- " + line)
  {
    var raw := "- " + line;
    assert raw[2..] == line && raw[0] == '-' && raw[1] == ' ';
    assert Trimmed(raw);
    StripTrimmed(raw);
    StripTrimmed(line);
    assert "version:"[0] == 'v' && "exceptions:"[0] == 'e';
  }

  /** The first line of a record starts a new one. */
  lemma FirstLine(f: Field)
    requires PlainField(f)
    ensures IsItem("- " + Pair(f))
    ensures Step(START, "- " + Pair(f)) == Reading([], Some(map[][f.key := f.value]))
  {
    hide Strip, Pair, SplitKV, Skipped, PlainField, Trimmed;
    PairSplits(f);
    ItemLine(Pair(f));
  }

  lemma ParseCons(st: State, line: string, lines: seq<string>)
    ensures ParseFrom(st, [line] + lines) == ParseFrom(Step(st, line), lines)
  {
    hide Step;
    assert ([line] + lines)[1..] == lines;
  }

  lemma ParseOne(lines: seq<string>, r: Record)
    requires ParseFrom(START, lines) == Reading([], Some(r)) && r != map[]
    ensures Parse(lines) == Some([r])
  {
    hide ParseFrom;
    assert Flush([], Some(r)) == [] + [r] == [r];
  }

  /** The fields after the first, put into a record that has the first. */
  lemma PutRest(r: Fields)
    requires Printable(r)
    ensures ToRecord(r) == PutAll(map[][r[0].key := r[0].value], r[1..]) && ToRecord(r) != map[]
  {
    assert [r[0]][..0] == [] && ToRecord([r[0]]) == map[][r[0].key := r[0].value];
    PutAllIsToRecord(map[][r[0].key := r[0].value], [r[0]], r[1..]);
    assert [r[0]] + r[1..] == r;
    var init, last := r[..|r| - 1], r[|r| - 1];
    hide PutAll;
    assert last.key in ToRecord(init)[last.key := last.value];
  }

  /** One printed record parses to the one record with its fields. */
  lemma RecordRoundTrip(r: Fields)
    requires Printable(r)
    ensures IsItem(PrintRecord(r)[0]) && Parse(PrintRecord(r)) == Some([ToRecord(r)])
  {
    assert PrintRecord(r) == ["- " + Pair(r[0])] + PrintFields(r[1..]);
    assert r != [] && PlainField(r[0]) && forall i :: 0 <= i < |r[1..]| ==> PlainField(r[1..][i]);
    hide *;
    FirstLine(r[0]);
    FieldLines(Step(START, "- " + Pair(r[0])), r[1..]);
    ParseCons(START, "- " + Pair(r[0]), PrintFields(r[1..]));
    PutRest(r);
    ParseOne(PrintRecord(r), ToRecord(r));
  }

  lemma FirstPrinted(rs: seq<Fields>)
    requires rs != [] && rs[0] != []
    ensures Print(rs) != [] && Print(rs)[0] == PrintRecord(rs[0])[0]
  {
  }

  /** Printing any list of records and parsing the lines gives the list back. */
  lemma {:induction false} RoundTrip(rs: seq<Fields>)
    requires forall i :: 0 <= i < |rs| ==> Printable(rs[i])
    ensures Parse(Print(rs)) == Some(ToRecords(rs))
  {
    if rs == [] {
    } else {
      RecordRoundTrip(rs[0]);
      RoundTrip(rs[1..]);
      if |rs| == 1 {
        assert PrintRecord(rs[0]) + [] == PrintRecord(rs[0]);
        assert ToRecords(rs) == [ToRecord(rs[0])];
      } else {
        RecordRoundTrip(rs[1]);
        FirstPrinted(rs[1..]);
        hide Parse, IsItem, Printable, PrintRecord;
        Compositional(PrintRecord(rs[0]), Print(rs[1..]));
      }
    }
  }

  // ---------- the file as text ----------

  predicate IsBreak(c: char) {
    c == '\n' || c == '\r'
  }

  /** The position of the first line break, or the length. */
  function FirstBreak(text: string): (i: nat)
    ensures i <= |text|
    ensures forall k :: 0 <= k < i ==> !IsBreak(text[k])
    ensures i < |text| ==> IsBreak(text[i])
  {
    if text == "" || IsBreak(text[0]) then 0 else 1 + FirstBreak(text[1..])
  }

  /** The lines of a file read in text mode, without their ends; \r\n is one break. */
  function ReadLines(text: string): seq<string>
    decreases |text|
  {
    if text == "" then []
    else
      var i := FirstBreak(text);
      if i == |text| then [text]
      else
        var skip := if StartsWith(text[i..], "\r\n") then 2 else 1;
        [text[..i]] + ReadLines(text[i + skip..])
  }

  /** The ways to end a line. */
  datatype Break = LF | CRLF | CR

  function End(e: Break): string {
    match e
    case LF => "\n"
    case CRLF => "\r\n"
    case CR => "\r"
  }

  /** Lines with their ends, and a last one that may have none. */
  function WriteLines(lines: seq<string>, ends: seq<Break>, last: string): string
    requires |lines| == |ends|
  {
    if lines == [] then last else lines[0] + (End(ends[0]) + WriteLines(lines[1..], ends[1..], last))
  }

  predicate Unbroken(s: string) {
    forall k :: 0 <= k < |s| ==> !IsBreak(s[k])
  }

  /** How far a break reaches. */
  lemma BreakLength(e: Break, rest: string)
    requires e.CR? ==> !StartsWith(rest, "\n")
    ensures (if StartsWith(End(e) + rest, "\r\n") then 2 else 1) == |End(e)|
  {
    var text := End(e) + rest;
    match e {
      case LF => assert text[0] == '\n';
      case CRLF => assert text[..2] == "\r\n";
      case CR =>
        assert rest != "" ==> text[1] == rest[0] && rest[..1] == [rest[0]];
        assert !StartsWith(rest, "\n");
    }
  }

  lemma FirstLineRead(line: string, e: Break, rest: string)
    requires Unbroken(line) && (e.CR? ==> !StartsWith(rest, "\n"))
    ensures ReadLines(line + (End(e) + rest)) == [line] + ReadLines(rest)
  {
    var tail := End(e) + rest;
    var text, n := line + tail, |line|;
    assert text[..n] == line && text[n..] == tail && text[n + |End(e)|..] == rest;
    assert FirstBreak(text) == n by {
      hide FirstBreak;
      assert forall k :: 0 <= k < n ==> text[k] == line[k];
      assert text[n] == tail[0];
    }
    BreakLength(e, rest);
    hide FirstBreak, StartsWith;
  }

  /** A lone \r is not followed by an empty line that ends in \n: the two would be one break. */
  ghost predicate NoneMerged(lines: seq<string>, ends: seq<Break>)
    requires |lines| == |ends|
  {
    forall i :: 0 <= i < |lines| - 1 && ends[i].CR? && lines[i + 1] == "" ==> !ends[i + 1].LF?
  }

  lemma NextStarts(lines: seq<string>, ends: seq<Break>, last: string)
    requires |lines| == |ends| && Unbroken(last) && (forall i :: 0 <= i < |lines| ==> Unbroken(lines[i]))
    requires lines != [] && lines[0] == "" ==> !ends[0].LF?
    ensures !StartsWith(WriteLines(lines, ends, last), "\n")
  {
    if lines == [] {
      assert last != "" ==> !IsBreak(last[0]);
    } else {
      var text := WriteLines(lines, ends, last);
      assert text == lines[0] + (End(ends[0]) + WriteLines(lines[1..], ends[1..], last));
      assert lines[0] != "" ==> text[0] == lines[0][0] && !IsBreak(lines[0][0]);
      assert lines[0] == "" ==> text[0] == End(ends[0])[0];
    }
  }

  lemma LastLineRead(last: string)
    requires Unbroken(last)
    ensures ReadLines(last) == if last == "" then [] else [last]
  {
  }

  lemma WriteFirst(lines: seq<string>, ends: seq<Break>, last: string)
    requires |lines| == |ends|
    ensures lines == [] ==> WriteLines(lines, ends, last) == last
    ensures lines != [] ==>
      WriteLines(lines, ends, last) == lines[0] + (End(ends[0]) + WriteLines(lines[1..], ends[1..], last))
  {
  }

  /** Lines that are written with any breaks are the lines that are read. */
  lemma {:induction false} WrittenLinesRead(lines: seq<string>, ends: seq<Break>, last: string)
    requires |lines| == |ends| && NoneMerged(lines, ends)
    requires Unbroken(last) && forall i :: 0 <= i < |lines| ==> Unbroken(lines[i])
    ensures ReadLines(WriteLines(lines, ends, last)) == lines + if last == "" then [] else [last]
    decreases |lines|
  {
    hide ReadLines, WriteLines, Unbroken, StartsWith, End;
    WriteFirst(lines, ends, last);
    if lines == [] {
      LastLineRead(last);
      assert lines + [last] == [last];
    } else {
      var rest := WriteLines(lines[1..], ends[1..], last);
      WrittenLinesRead(lines[1..], ends[1..], last);
      if ends[0].CR? {
        NextStarts(lines[1..], ends[1..], last);
      }
      FirstLineRead(lines[0], ends[0], rest);
      assert lines == [lines[0]] + lines[1..];
    }
  }

  predicate UnbrokenField(f: Field) {
    Unbroken(f.key) && Unbroken(f.before) && Unbroken(f.after) && Unbroken(Styled(f))
  }

  lemma PairUnbroken(f: Field)
    requires UnbrokenField(f)
    ensures Unbroken(Pair(f)) && Unbroken("  " + Pair(f)) && Unbroken("- " + Pair(f))
  {
    hide Styled;
  }

  /** Nothing in the record breaks a line. */
  ghost predicate UnbrokenFields(r: Fields) {
    forall i :: 0 <= i < |r| ==> UnbrokenField(r[i])
  }

  /** Text that makes one line of a file: not empty, and without breaks. */
  predicate IsLine(s: string) {
    s != "" && Unbroken(s)
  }

  lemma PairIsLine(f: Field)
    requires UnbrokenField(f)
    ensures IsLine("  " + Pair(f)) && IsLine("- " + Pair(f))
  {
    PairUnbroken(f);
  }

  lemma {:induction false} PrintFieldsUnbroken(r: Fields)
    requires UnbrokenFields(r)
    ensures forall i :: 0 <= i < |PrintFields(r)| ==> IsLine(PrintFields(r)[i])
  {
    hide Unbroken, Pair, UnbrokenField, IsLine;
    if r == [] {
    } else {
      PairIsLine(r[0]);
      PrintFieldsUnbroken(r[1..]);
      assert UnbrokenField(r[0]);
    }
  }

  lemma RecordUnbroken(r: Fields)
    requires UnbrokenFields(r)
    ensures forall i :: 0 <= i < |PrintRecord(r)| ==> IsLine(PrintRecord(r)[i])
  {
    hide Unbroken, Pair, UnbrokenField, PrintFields, IsLine;
    if r != [] {
      assert UnbrokenField(r[0]);
      PairIsLine(r[0]);
      PrintFieldsUnbroken(r[1..]);
    }
  }

  lemma {:induction false} PrintUnbroken(rs: seq<Fields>)
    requires forall i :: 0 <= i < |rs| ==> UnbrokenFields(rs[i])
    ensures forall i :: 0 <= i < |Print(rs)| ==> IsLine(Print(rs)[i])
  {
    hide UnbrokenFields, PrintRecord, IsLine;
    if rs == [] {
    } else {
      RecordUnbroken(rs[0]);
      PrintUnbroken(rs[1..]);
    }
  }

  lemma Nothing()
    ensures Unbroken("")
  {
  }

  /**
   Writing records to a file, with any line breaks, and parsing the file gives the records
   back: values may hold colons, quotes and outer white space, but no line break.
   */
  lemma FileRoundTrip(rs: seq<Fields>, ends: seq<Break>)
    requires forall i :: 0 <= i < |rs| ==> Printable(rs[i]) && UnbrokenFields(rs[i])
    requires |ends| == |Print(rs)|
    ensures Parse(ReadLines(WriteLines(Print(rs), ends, ""))) == Some(ToRecords(rs))
  {
    hide Print, Parse, ReadLines, WriteLines, Printable, UnbrokenFields, ToRecords, Unbroken;
    PrintUnbroken(rs);
    Nothing();
    WrittenLinesRead(Print(rs), ends, "");
    assert Print(rs) + [] == Print(rs);
    RoundTrip(rs);
  }
}
