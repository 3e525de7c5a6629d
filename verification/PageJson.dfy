/** The scanner that cuts one JSON value out of a page (backend/app/hh/page_json.py).

    `Json` below is a tree of the concrete syntax of sections 4, 5 and 7 of RFC 8259: it keeps the
    blanks between tokens, so `Print` reaches every way one value can be written. */
module PageJson {
  import opened Options

  datatype Error = NotAtStart | Unbalanced | KeyNotFound

  datatype Result<+T> = Ok(value: T) | Err(error: Error)

  predicate Opens(c: char) { c == '{' || c == '[' }

  predicate Closes(c: char) { c == '}' || c == ']' }

  predicate IsBlank(c: char) { c == ' ' || c == '\t' || c == '\n' || c == '\r' }

  /** The whitespace of JSON: space, tab, line feed and carriage return (RFC 8259, section 2). */
  lemma BlanksAreThese(c: char)
    ensures IsBlank(c) <==> c as int in {0x20, 0x09, 0x0A, 0x0D}
  {
  }

  // ---------------------------------------------------------------- the scanner

  /** The three loop variables of the scanner. */
  datatype Scan = Scan(depth: int, inString: bool, escaped: bool)

  const START := Scan(0, false, false)

  function Step(st: Scan, c: char): Scan
  {
    if st.inString then
      if st.escaped then st.(escaped := false)
      else if c == '\\' then st.(escaped := true)
      else if c == '"' then st.(inString := false)
      else st
    else if c == '"' then st.(inString := true)
    else if Opens(c) then st.(depth := st.depth + 1)
    else if Closes(c) then st.(depth := st.depth - 1)
    else st
  }

  function Run(st: Scan, s: string): Scan
    decreases s
  {
    if s == "" then st else Run(Step(st, s[0]), s[1..])
  }

  /** After each character of `s` the depth is above `floor`. */
  predicate StaysAbove(st: Scan, s: string, floor: int)
    decreases s
  {
    s == "" || (Step(st, s[0]).depth > floor && StaysAbove(Step(st, s[0]), s[1..], floor))
  }

  /** A text that opens a value with its first character and closes it with its last one, and not before. */
  predicate Balanced(s: string)
  {
    && |s| > 0
    && Opens(s[0])
    && StaysAbove(START, s[..|s| - 1], 0)
    && Run(START, s) == START
  }

  /** How many characters of `s` the scanner reads until the depth falls back to 0. */
  function ScanEnd(st: Scan, s: string): (n: Option<nat>)
    ensures n.Some? ==> 0 < n.value <= |s|
    decreases s
  {
    if s == "" then None
    else if !st.inString && Closes(s[0]) && st.depth == 1 then Some(1)
    else match ScanEnd(Step(st, s[0]), s[1..])
         case None => None
         case Some(n) => Some(n + 1)
  }

  function BalancedPrefix(s: string): Result<string>
  {
    if s == "" || !Opens(s[0]) then Err(NotAtStart)
    else match ScanEnd(START, s)
         case None => Err(Unbalanced)
         case Some(n) => Ok(s[..n])
  }

  method FindBalancedObject(text: string, objStart: nat) returns (r: Result<string>)
    ensures objStart >= |text| ==> r == Err(NotAtStart)
    ensures objStart < |text| ==> r == BalancedPrefix(text[objStart..])
  {
    if objStart >= |text| || !Opens(text[objStart]) {
      return Err(NotAtStart);
    }
    var depth, inString, escaped := 0, false, false;
    ghost var rest := text[objStart..];
    for i := objStart to |text|
      invariant escaped ==> inString
      invariant i == objStart ==> depth == 0 && !inString
      invariant i > objStart ==> depth > 0
      invariant ScanEnd(START, rest) ==
                match ScanEnd(Scan(depth, inString, escaped), text[i..])
                case None => None
                case Some(n) => Some(n + (i - objStart))
    {
      var ch := text[i];
      assert text[i..][1..] == text[i + 1..];
      if inString {
        if escaped {
          escaped := false;
        } else if ch == '\\' {
          escaped := true;
        } else if ch == '"' {
          inString := false;
        }
      } else if ch == '"' {
        inString := true;
      } else if Opens(ch) {
        depth := depth + 1;
      } else if Closes(ch) {
        depth := depth - 1;
        if depth == 0 {
          assert rest[..i + 1 - objStart] == text[objStart..i + 1];
          return Ok(text[objStart..i + 1]);
        }
      }
    }
    return Err(Unbalanced);
  }

  // ---------------------------------------------------------------- what the scanner returns

  lemma {:induction false} ScanEndClosesFirst(st: Scan, s: string, n: nat)
    requires st.depth > 0 && !(st.escaped && !st.inString)
    requires 0 < n <= |s|
    ensures ScanEnd(st, s) == Some(n) <==>
            StaysAbove(st, s[..n - 1], 0) && Run(st, s[..n]) == Scan(0, false, false)
    decreases s
  {
    var next := Step(st, s[0]);
    assert s[..n][1..] == s[1..][..n - 1];
    if n == 1 {
      assert s[..n - 1] == "" && Run(next, s[..n][1..]) == next;
    } else {
      assert s[..n - 1][1..] == s[1..][..n - 2];
      if next.depth > 0 {
        ScanEndClosesFirst(next, s[1..], n - 1);
      }
    }
  }

  /** The scanner returns exactly the balanced prefix, so there is at most one. */
  lemma BalancedPrefixIsBalanced(s: string, n: nat)
    requires n <= |s|
    ensures BalancedPrefix(s) == Ok(s[..n]) <==> Balanced(s[..n])
  {
    if s != "" && Opens(s[0]) {
      var next := Step(START, s[0]);
      if n > 1 {
        assert s[..n][..n - 1] == s[..n - 1] && s[..n - 1][1..] == s[1..][..n - 2];
        assert s[..n][1..] == s[1..][..n - 1];
        ScanEndClosesFirst(next, s[1..], n - 1);
      } else if n == 1 {
        assert s[..1] == [s[0]] && s[..1][1..] == "";
        assert Run(START, s[..1]) == next;
      }
      assert ScanEnd(START, s) == match ScanEnd(next, s[1..]) case None => None case Some(m) => Some(m + 1);
      match ScanEnd(START, s) {
        case Some(m) => assert |s[..m]| == m && |s[..n]| == n;
        case None =>
      }
    }
  }

  /** The two errors: no bracket at the start, and no prefix that balances. */
  lemma BalancedPrefixErrors(s: string)
    ensures BalancedPrefix(s) == Err(NotAtStart) <==> s == "" || (s[0] != '{' && s[0] != '[')
    ensures BalancedPrefix(s) == Err(Unbalanced) <==>
            s != "" && (s[0] == '{' || s[0] == '[') && forall n: nat | n <= |s| :: !Balanced(s[..n])
  {
    hide Balanced, ScanEnd;
    forall n: nat | n <= |s| ensures BalancedPrefix(s) == Ok(s[..n]) <==> Balanced(s[..n]) {
      BalancedPrefixIsBalanced(s, n);
    }
  }

  // ---------------------------------------------------------------- printed JSON

  /** One character of a string as written: itself, or a backslash and the character after it
      (the four digits of a \\u escape are plain characters). */
  datatype Unit = Plain(c: char) | Escape(c: char)

  datatype Json =
    | Str(units: seq<Unit>)
    | Atom(text: string)
    | Container(isObject: bool, entries: Entries)

  datatype Entries = Empty(blanks: string) | Last(entry: Entry) | More(entry: Entry, rest: Entries)

  datatype Entry = Entry(before: string, name: Name, value: Json, after: string)

  /** The name of an object member, the blanks before its colon and the blanks after it. */
  datatype Name = NoName | Name(units: seq<Unit>, gap: string, lead: string)

  predicate Blanks(s: string) { forall c | c in s :: IsBlank(c) }

  predicate IsAlnum(c: char) { 'a' <= c <= 'z' || 'A' <= c <= 'Z' || '0' <= c <= '9' }

  /** Covers the numbers of section 6 and the three literal names of section 3. */
  predicate IsAtomText(s: string)
  {
    |s| > 0 && forall c | c in s :: IsAlnum(c) || c == '+' || c == '-' || c == '.'
  }

  predicate UnitsOk(us: seq<Unit>)
  {
    forall u | u in us :: u.Plain? ==> u.c != '"' && u.c != '\\'
  }

  predicate Wf(v: Json)
  {
    match v
    case Str(us) => UnitsOk(us)
    case Atom(text) => IsAtomText(text)
    case Container(isObject, es) => (if es.Empty? then Blanks(es.blanks) else WfEntries(es, isObject))
  }

  predicate WfEntries(es: Entries, isObject: bool)
  {
    match es
    case Empty(_) => false
    case Last(e) => WfEntry(e, isObject)
    case More(e, rest) => WfEntry(e, isObject) && WfEntries(rest, isObject)
  }

  predicate WfEntry(e: Entry, isObject: bool)
  {
    && Blanks(e.before) && Wf(e.value) && Blanks(e.after)
    && e.name.Name? == isObject
    && (e.name.Name? ==> UnitsOk(e.name.units) && Blanks(e.name.gap) && Blanks(e.name.lead))
  }

  function PrintUnits(us: seq<Unit>): string
  {
    if us == [] then ""
    else (if us[0].Plain? then [us[0].c] else ['\\', us[0].c]) + PrintUnits(us[1..])
  }

  function Quoted(us: seq<Unit>): string { "\"" + PrintUnits(us) + "\"" }

  function PrintName(n: Name): string
  {
    if n.NoName? then "" else Quoted(n.units) + (n.gap + (":" + n.lead))
  }

  function Print(v: Json): string
  {
    match v
    case Str(us) => Quoted(us)
    case Atom(text) => text
    case Container(isObject, es) =>
      (if isObject then "{" else "[") + (PrintEntries(es) + (if isObject then "}" else "]"))
  }

  function PrintEntries(es: Entries): string
  {
    match es
    case Empty(blanks) => blanks
    case Last(e) => PrintEntry(e)
    case More(e, rest) => PrintEntry(e) + ("," + PrintEntries(rest))
  }

  function PrintEntry(e: Entry): string
  {
    e.before + (PrintName(e.name) + (Print(e.value) + e.after))
  }

  // ---------------------------------------------------------------- printed values balance

  /** Reading `s` from `st` never falls to `floor`, and ends in the state it began in. */
  predicate Neutral(st: Scan, s: string, floor: int)
  {
    StaysAbove(st, s, floor) && Run(st, s) == st
  }

  lemma {:induction false} RunConcat(st: Scan, a: string, b: string, floor: int)
    ensures Run(st, a + b) == Run(Run(st, a), b)
    ensures StaysAbove(st, a + b, floor) <==> StaysAbove(st, a, floor) && StaysAbove(Run(st, a), b, floor)
    decreases a
  {
    if a == "" {
      assert a + b == b;
    } else {
      assert (a + b)[1..] == a[1..] + b;
      RunConcat(Step(st, a[0]), a[1..], b, floor);
    }
  }

  lemma {:induction false} PlainTextIsNeutral(st: Scan, s: string, floor: int)
    requires !st.inString && st.depth > floor
    requires forall c | c in s :: c != '"' && !Opens(c) && !Closes(c)
    ensures Neutral(st, s, floor)
    decreases s
  {
    if s != "" {
      assert s[0] in s && forall c | c in s[1..] :: c in s;
      PlainTextIsNeutral(st, s[1..], floor);
    }
  }

  lemma {:induction false} UnitsAreNeutral(st: Scan, us: seq<Unit>, floor: int)
    requires st.inString && !st.escaped && st.depth > floor && UnitsOk(us)
    ensures Neutral(st, PrintUnits(us), floor)
  {
    if us != [] {
      UnitsAreNeutral(st, us[1..], floor);
      var head := if us[0].Plain? then [us[0].c] else ['\\', us[0].c];
      RunConcat(st, head, PrintUnits(us[1..]), floor);
      if us[0].Plain? {
        assert us[0] in us;
        assert head[1..] == "";
      } else {
        assert head[1..] == [us[0].c] && head[1..][1..] == "";
      }
    }
  }

  lemma QuotedIsNeutral(st: Scan, us: seq<Unit>, floor: int)
    requires !st.inString && !st.escaped && st.depth > floor && UnitsOk(us)
    ensures Neutral(st, Quoted(us), floor)
  {
    var mid := st.(inString := true);
    UnitsAreNeutral(mid, us, floor);
    RunConcat(mid, PrintUnits(us), "\"", floor);
    assert Step(mid, '"') == st;
    assert Run(mid, "\"") == st && StaysAbove(mid, "\"", floor) by {
      assert "\""[1..] == "";
    }
    assert Quoted(us)[1..] == PrintUnits(us) + "\"";
  }

  lemma NameIsNeutral(st: Scan, n: Name, floor: int)
    requires !st.inString && !st.escaped && st.depth > floor
    requires n.Name? ==> UnitsOk(n.units) && Blanks(n.gap) && Blanks(n.lead)
    ensures Neutral(st, PrintName(n), floor)
  {
    if n.Name? {
      QuotedIsNeutral(st, n.units, floor);
      PlainTextIsNeutral(st, n.gap + (":" + n.lead), floor);
      RunConcat(st, Quoted(n.units), n.gap + (":" + n.lead), floor);
    }
  }

  lemma {:induction false} ValueIsNeutral(st: Scan, v: Json, floor: int)
    requires !st.inString && !st.escaped && st.depth > floor && Wf(v)
    ensures Neutral(st, Print(v), floor)
    decreases v
  {
    match v
    case Str(us) => QuotedIsNeutral(st, us, floor);
    case Atom(text) => PlainTextIsNeutral(st, text, floor);
    case Container(isObject, es) =>
      var inner := st.(depth := st.depth + 1);
      EntriesAreNeutral(inner, es, isObject, floor);
      var close := if isObject then "}" else "]";
      RunConcat(inner, PrintEntries(es), close, floor);
      assert Step(inner, close[0]) == st && close[1..] == "";
      assert Print(v)[1..] == PrintEntries(es) + close;
  }

  lemma {:induction false} EntriesAreNeutral(st: Scan, es: Entries, isObject: bool, floor: int)
    requires !st.inString && !st.escaped && st.depth > floor
    requires if es.Empty? then Blanks(es.blanks) else WfEntries(es, isObject)
    ensures Neutral(st, PrintEntries(es), floor)
    decreases es
  {
    match es
    case Empty(blanks) => PlainTextIsNeutral(st, blanks, floor);
    case Last(e) => EntryIsNeutral(st, e, isObject, floor);
    case More(e, rest) =>
      EntryIsNeutral(st, e, isObject, floor);
      EntriesAreNeutral(st, rest, isObject, floor);
      PlainTextIsNeutral(st, ",", floor);
      RunConcat(st, ",", PrintEntries(rest), floor);
      RunConcat(st, PrintEntry(e), "," + PrintEntries(rest), floor);
  }

  lemma {:induction false} EntryIsNeutral(st: Scan, e: Entry, isObject: bool, floor: int)
    requires !st.inString && !st.escaped && st.depth > floor && WfEntry(e, isObject)
    ensures Neutral(st, PrintEntry(e), floor)
    decreases e
  {
    PlainTextIsNeutral(st, e.before, floor);
    NameIsNeutral(st, e.name, floor);
    ValueIsNeutral(st, e.value, floor);
    PlainTextIsNeutral(st, e.after, floor);
    RunConcat(st, Print(e.value), e.after, floor);
    RunConcat(st, PrintName(e.name), Print(e.value) + e.after, floor);
    RunConcat(st, e.before, PrintName(e.name) + (Print(e.value) + e.after), floor);
  }

  lemma ContainerIsBalanced(v: Json)
    requires v.Container? && Wf(v)
    ensures Balanced(Print(v))
  {
    var inner := Step(START, if v.isObject then '{' else '[');
    var body, close := PrintEntries(v.entries), if v.isObject then "}" else "]";
    assert Neutral(inner, body, 0) by { EntriesAreNeutral(inner, v.entries, v.isObject, 0); }
    BracketedIsBalanced(if v.isObject then "{" else "[", body, close);
  }

  lemma BracketedIsBalanced(open: string, body: string, close: string)
    requires |open| == |close| == 1 && Opens(open[0]) && Closes(close[0])
    requires Neutral(Scan(1, false, false), body, 0)
    ensures Balanced(open + (body + close))
  {
    var s, inner := open + (body + close), Step(START, open[0]);
    assert Run(START, s) == START by {
      assert s[1..] == body + close;
      RunConcat(inner, body, close, -1);
      assert close[1..] == "" && Step(inner, close[0]) == START;
    }
    assert StaysAbove(START, s[..|s| - 1], 0) by {
      assert s[..|s| - 1] == open + body;
      assert (open + body)[1..] == body;
    }
  }

  /** Whatever stands around a printed object or array, the scanner cuts out exactly that value. */
  lemma CutsOutThePrintedValue(v: Json, post: string)
    requires v.Container? && Wf(v)
    ensures BalancedPrefix(Print(v) + post) == Ok(Print(v))
  {
    ContainerIsBalanced(v);
    var n := |Print(v)|;
    assert (Print(v) + post)[..n] == Print(v);
    BalancedPrefixIsBalanced(Print(v) + post, n);
  }
}
