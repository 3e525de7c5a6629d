/** Finding the value stored under a key of the inline page state (`find_state` in
    backend/app/hh/page_json.py). */
module PageState {
  import opened Options
  import opened PageJson

  /** `s` stands in `text` at offset `at`. */
  predicate At(text: string, at: nat, s: string)
    decreases s
  {
    if s == "" then at <= |text|
    else at < |text| && text[at] == s[0] && At(text, at + 1, s[1..])
  }

  lemma {:induction false} AtChars(text: string, at: nat, s: string)
    ensures At(text, at, s) <==>
            at + |s| <= |text| && forall k {:trigger s[k]} | 0 <= k < |s| :: text[at + k] == s[k]
    decreases s
  {
    if s != "" && at < |text| {
      AtChars(text, at + 1, s[1..]);
      forall k | 0 < k < |s| ensures s[k] == s[1..][k - 1] {}
    }
  }

  function Marker(key: string): string { "\"" + key + "\":" }

  predicate KeyOk(key: string) { |key| > 0 && forall c | c in key :: IsAlnum(c) }

  /** `str.find`: the least offset, or none. */
  function IndexOf(text: string, s: string): (r: Option<nat>)
    ensures r.Some? ==> r.value + |s| <= |text|
    decreases |text|
  {
    if At(text, 0, s) then
      AtChars(text, 0, s);
      Some(0)
    else if text == "" then None
    else match IndexOf(text[1..], s)
         case None => None
         case Some(i) => Some(i + 1)
  }

  lemma {:induction false} IndexOfIsFirst(text: string, s: string)
    ensures var r := IndexOf(text, s);
            && (r.Some? ==> At(text, r.value, s) && forall i: nat | i < r.value :: !At(text, i, s))
            && (r.None? ==> forall i: nat :: !At(text, i, s))
    decreases |text|
  {
    if !At(text, 0, s) && text != "" {
      IndexOfIsFirst(text[1..], s);
      forall i: nat | i > 0 ensures At(text, i, s) <==> At(text[1..], i - 1, s) {
        AtChars(text, i, s);
        AtChars(text[1..], i - 1, s);
        if i + |s| <= |text| {
          assert forall k {:trigger s[k]} | 0 <= k < |s| :: text[i + k] == text[1..][i - 1 + k];
        }
      }
    }
  }

  lemma IndexIs(text: string, s: string, i: nat)
    requires At(text, i, s) && forall j: nat | j < i :: !At(text, j, s)
    ensures IndexOf(text, s) == Some(i)
  {
    IndexOfIsFirst(text, s);
    var r := IndexOf(text, s);
    assert r.Some? && r.value >= i && !(i < r.value);
  }

  function SkipBlanks(s: string): string
  {
    if s != "" && IsBlank(s[0]) then SkipBlanks(s[1..]) else s
  }

  /** The text handed to the JSON parser. */
  function StateText(page: string, key: string): Result<string>
  {
    match IndexOf(page, Marker(key))
    case None => Err(KeyNotFound)
    case Some(i) => BalancedPrefix(SkipBlanks(page[i + |Marker(key)|..]))
  }

  method FindState(pageHtml: string, key: string, unescape: string -> string) returns (r: Result<string>)
    ensures r == StateText(if IndexOf(pageHtml, Marker(key)).None? then unescape(pageHtml) else pageHtml, key)
  {
    hide At, IndexOf, ScanEnd;
    var page := pageHtml;
    var marker := Marker(key);
    if IndexOf(page, marker).None? {
      page := unescape(page);
    }
    var i := IndexOf(page, marker);
    if i.None? {
      return Err(KeyNotFound);
    }
    var start := i.value + |marker|;
    ghost var rest := page[start..];
    while start < |page| && IsBlank(page[start])
      invariant i.value + |marker| <= start <= |page|
      invariant SkipBlanks(rest) == SkipBlanks(page[start..])
    {
      assert page[start..][1..] == page[start + 1..];
      start := start + 1;
    }
    r := FindBalancedObject(page, start);
    assert start == |page| ==> page[start..] == "";
  }

  /** The key is reported missing exactly if its marker stands nowhere in the page. */
  lemma KeyNotFoundIff(page: string, key: string)
    ensures StateText(page, key) == Err(KeyNotFound) <==> forall i: nat :: !At(page, i, "\"" + key + "\":")
  {
    hide At, ScanEnd, IndexOf, SkipBlanks;
    IndexOfIsFirst(page, Marker(key));
    var r := IndexOf(page, Marker(key));
    if r.Some? {
      assert At(page, r.value, Marker(key));
    }
  }

  // ---------------------------------------------------------------- members of a printed value

  /** An object member printed with its opening quote at offset `at`; `raw` is its name as written. */
  datatype Member = Member(at: nat, raw: string, gap: string, lead: string, value: Json)

  /** All members of `v`, printed at offset `at`, in document order. */
  function Members(v: Json, at: nat): seq<Member>
  {
    if v.Container? then EntriesMembers(v.entries, at + 1) else []
  }

  function EntriesMembers(es: Entries, at: nat): seq<Member>
  {
    match es
    case Empty(_) => []
    case Last(e) => EntryMembers(e, at)
    case More(e, rest) => EntryMembers(e, at) + EntriesMembers(rest, at + |PrintEntry(e)| + 1)
  }

  function EntryMembers(e: Entry, at: nat): seq<Member>
  {
    var here := at + |e.before|;
    NameMembers(e.name, e.value, here) + Members(e.value, here + |PrintName(e.name)|)
  }

  function NameMembers(n: Name, value: Json, at: nat): seq<Member>
  {
    if n.NoName? then [] else [Member(at, PrintUnits(n.units), n.gap, n.lead, value)]
  }

  predicate EndsWith(s: string, end: string) { |s| >= |end| && s[|s| - |end|..] == end }

  /** The marker reads as far as this member's name and colon: nothing stands between them, and the name as
      written is the key, or ends with an (escaped) quote and the key. */
  predicate Answers(m: Member, key: string)
  {
    m.gap == "" && (m.raw == key || EndsWith(m.raw, "\"" + key))
  }

  /** In other words, the name ends like the key with the opening quotes of both. */
  lemma AnswersWithQuotes(m: Member, key: string)
    ensures Answers(m, key) <==>
            m.gap == "" && |m.raw| >= |key| && ("\"" + m.raw)[|m.raw| - |key|..] == "\"" + key
  {
    var q, n := "\"" + m.raw, |m.raw| - |key|;
    assert m.raw == key ==> n == 0 && q[0..] == q;
    assert n == 0 ==> q[0..] == q && q[1..] == m.raw && ("\"" + key)[1..] == key;
    assert n > 0 ==> q[n..] == m.raw[n - 1..];
  }

  /** Where the marker starts in a member that answers to it. */
  function MarkerAt(m: Member, key: string): nat
    requires Answers(m, key)
  {
    m.at + |m.raw| - |key|
  }

  predicate Hit(ms: seq<Member>, key: string, i: nat)
  {
    exists m | m in ms :: Answers(m, key) && MarkerAt(m, key) == i
  }

  /** What follows a value: the end of the text, a blank, a comma or a closing bracket. */
  predicate Follows(text: string, at: nat)
  {
    at < |text| ==> IsBlank(text[at]) || text[at] == ',' || Closes(text[at])
  }

  lemma {:induction false} AtConcat(text: string, at: nat, a: string, b: string)
    requires At(text, at, a + b)
    ensures At(text, at, a) && At(text, at + |a|, b)
    decreases a
  {
    if a == "" {
      assert a + b == b;
      AtChars(text, at, b);
    } else {
      assert (a + b)[1..] == a[1..] + b;
      AtConcat(text, at + 1, a[1..], b);
    }
  }

  lemma CharAt(text: string, at: nat, s: string, k: int)
    requires At(text, at, s) && 0 <= k < |s|
    ensures at + |s| <= |text| && text[at + k] == s[k]
  {
    AtChars(text, at, s);
  }

  lemma AtJoin(text: string, at: nat, a: string, b: string)
    requires At(text, at, a) && At(text, at + |a|, b)
    ensures At(text, at, a + b)
  {
    AtChars(text, at, a);
    AtChars(text, at + |a|, b);
    AtChars(text, at, a + b);
    forall k | 0 <= k < |a + b| ensures text[at + k] == (a + b)[k] {
      if k >= |a| {
        CharAt(text, at + |a|, b, k - |a|);
      }
    }
  }

  lemma AtIsSlice(text: string, at: nat, s: string)
    requires At(text, at, s)
    ensures at + |s| <= |text| && text[at..at + |s|] == s
  {
    AtChars(text, at, s);
    forall k | 0 <= k < |s| ensures text[at..at + |s|][k] == s[k] {}
  }

  lemma NoQuoteNoMarker(text: string, at: nat, s: string, key: string)
    requires At(text, at, s) && '"' !in s
    ensures forall i: nat | at <= i < at + |s| :: !At(text, i, Marker(key))
  {
    forall i: nat | at <= i < at + |s| ensures !At(text, i, Marker(key)) {
      CharAt(text, at, s, i - at);
      if At(text, i, Marker(key)) {
        CharAt(text, i, Marker(key), 0);
      }
    }
  }

  /** Inside a string every quote comes after a backslash. */
  lemma {:induction false} QuotesAreEscaped(us: seq<Unit>, q: nat)
    requires UnitsOk(us) && q < |PrintUnits(us)| && PrintUnits(us)[q] == '"'
    ensures q > 0 && PrintUnits(us)[q - 1] == '\\'
    decreases us
  {
    assert us[0] in us;
    var n := if us[0].Plain? then 1 else 2;
    if q >= n {
      QuotesAreEscaped(us[1..], q - n);
    }
  }

  /** A marker that starts inside a quoted string uses up exactly its tail. */
  lemma MarkerInString(text: string, at: nat, us: seq<Unit>, key: string, i: nat)
    requires UnitsOk(us) && KeyOk(key)
    requires At(text, at, Quoted(us)) && at <= i <= at + |PrintUnits(us)|
    requires At(text, i, Marker(key))
    ensures i + 1 + |key| == at + 1 + |PrintUnits(us)|
    ensures ("\"" + PrintUnits(us))[i - at..] == "\"" + key
    ensures i + 2 + |key| < |text| && text[i + 2 + |key|] == ':'
  {
    var raw, m := PrintUnits(us), Marker(key);
    var n := |key|;
    var q := i - at + 1 + n;             // offset in the string of the marker's second quote
    CharAt(text, i, m, n + 1);
    CharAt(text, i, m, n + 2);
    CharAt(text, i, m, n);
    assert m[n] == key[n - 1] && key[n - 1] in key;
    if q < |raw| + 1 {
      CharAt(text, at, Quoted(us), q);
      CharAt(text, at, Quoted(us), q - 1);
      assert Quoted(us)[q] == raw[q - 1] && Quoted(us)[q - 1] == raw[q - 2];
      QuotesAreEscaped(us, q - 1);
    }
    if q > |raw| + 1 {
      var k := at + |raw| + 1 - i;       // offset in the marker of the string's closing quote
      assert m[k] == key[k - 1] && key[k - 1] in key;
      CharAt(text, i, m, k);
      CharAt(text, at, Quoted(us), |raw| + 1);
    }
    var tail := ("\"" + raw)[i - at..];
    assert |tail| == n + 1;
    forall k | 0 <= k < |tail| ensures tail[k] == ("\"" + key)[k] {
      CharAt(text, at, Quoted(us), i - at + k);
      CharAt(text, i, m, k);
    }
  }

  lemma NoMarkerAtClosingQuote(text: string, at: nat, key: string)
    requires KeyOk(key) && At(text, at, Marker(key))
    ensures at + 1 < |text| && IsAlnum(text[at + 1])
  {
    CharAt(text, at, Marker(key), 1);
    assert key[0] in key;
  }

  lemma StringValueHasNoMarker(text: string, at: nat, us: seq<Unit>, key: string)
    requires UnitsOk(us) && KeyOk(key)
    requires At(text, at, Quoted(us)) && Follows(text, at + |Quoted(us)|)
    ensures forall i: nat | at <= i < at + |Quoted(us)| :: !At(text, i, Marker(key))
  {
    forall i: nat | at <= i < at + |Quoted(us)| ensures !At(text, i, Marker(key)) {
      if At(text, i, Marker(key)) {
        if i <= at + |PrintUnits(us)| {
          MarkerInString(text, at, us, key, i);
        } else {
          NoMarkerAtClosingQuote(text, i, key);
        }
      }
    }
  }

  lemma MarkerInName(text: string, at: nat, n: Name, value: Json, key: string, i: nat)
    requires n.Name? && UnitsOk(n.units) && Blanks(n.gap) && Blanks(n.lead) && KeyOk(key)
    requires At(text, at, PrintName(n)) && at <= i < at + |PrintName(n)|
    ensures var m := Member(at, PrintUnits(n.units), n.gap, n.lead, value);
            At(text, i, Marker(key)) <==> Answers(m, key) && MarkerAt(m, key) == i
  {
    var rest := n.gap + (":" + n.lead);
    var m := Member(at, PrintUnits(n.units), n.gap, n.lead, value);
    AtConcat(text, at, Quoted(n.units), rest);
    assert n.gap == "" ==> rest[0] == ':';
    if At(text, i, Marker(key)) {
      assert Answers(m, key) && MarkerAt(m, key) == i by {
        assert n.gap != "" ==> n.gap[0] in n.gap && rest[0] == n.gap[0];
        MarkerIsAnswer(text, at, n.units, rest, m, key, i);
      }
    }
    if Answers(m, key) && MarkerAt(m, key) == i {
      AnswerHasMarker(text, at, n.units, rest, m, key);
    }
  }

  lemma MarkerIsAnswer(text: string, at: nat, us: seq<Unit>, rest: string, m: Member, key: string, i: nat)
    requires UnitsOk(us) && KeyOk(key) && at <= i < at + |Quoted(us)| + |rest|
    requires At(text, at, Quoted(us)) && At(text, at + |Quoted(us)|, rest)
    requires rest != "" && '"' !in rest && !IsAlnum(rest[0])
    requires m.at == at && m.raw == PrintUnits(us)
    requires rest[0] == ':' ==> m.gap == ""
    requires At(text, i, Marker(key))
    ensures Answers(m, key) && MarkerAt(m, key) == i
  {
    hide At, UnitsOk, PrintUnits, Marker, Answers;
    if i > at + |m.raw| {
      NoMarkerAfterString(text, at, us, rest, key, i);
    }
    MarkerInString(text, at, us, key, i);
    AnswersWithQuotes(m, key);
    assert rest[0] == ':' by { CharAt(text, at + |Quoted(us)|, rest, 0); }
    assert i - at == |m.raw| - |key|;
  }

  lemma NoMarkerAfterString(text: string, at: nat, us: seq<Unit>, rest: string, key: string, i: nat)
    requires KeyOk(key) && at + |Quoted(us)| <= i + 1 && i < at + |Quoted(us)| + |rest|
    requires At(text, at + |Quoted(us)|, rest) && rest != "" && '"' !in rest && !IsAlnum(rest[0])
    ensures !At(text, i, Marker(key))
  {
    var p := at + |Quoted(us)|;
    if i < p {
      CharAt(text, p, rest, 0);
      if At(text, i, Marker(key)) {
        NoMarkerAtClosingQuote(text, i, key);
      }
    } else {
      NoQuoteNoMarker(text, p, rest, key);
    }
  }

  lemma AnswerHasMarker(text: string, at: nat, us: seq<Unit>, rest: string, m: Member, key: string)
    requires At(text, at, Quoted(us)) && At(text, at + |Quoted(us)|, rest) && rest != "" && rest[0] == ':'
    requires m.at == at && m.raw == PrintUnits(us) && Answers(m, key)
    ensures At(text, MarkerAt(m, key), Marker(key))
  {
    hide At, PrintUnits, Answers;
    AnswersWithQuotes(m, key);
    var q, i := "\"" + m.raw, MarkerAt(m, key);
    var skip := |m.raw| - |key|;
    CharAt(text, at + |Quoted(us)|, rest, 0);
    AtChars(text, i, Marker(key));
    forall k | 0 <= k < |Marker(key)| ensures text[i + k] == Marker(key)[k] {
      if k <= |key| {
        assert q[skip..][k] == q[skip + k];
        CharAt(text, at, Quoted(us), skip + k);
      } else if k == |key| + 1 {
        CharAt(text, at, Quoted(us), |m.raw| + 1);
      } else {
        assert k == |key| + 2;
      }
    }
  }

  // ---------------------------------------------------------------- the marker finds members only

  /** From `from` up to `to` the marker stands exactly where a member of `ms` answers to it. */
  ghost predicate ExactOn(text: string, from: nat, to: nat, ms: seq<Member>, key: string)
    decreases if from < to then to - from else 0
  {
    from < to ==>
      && ExactOn(text, from, to - 1, ms, key)
      && (At(text, to - 1, Marker(key)) <==> Hit(ms, key, to - 1))
  }

  lemma {:induction false} ExactOnAll(text: string, from: nat, to: nat, ms: seq<Member>, key: string)
    ensures ExactOn(text, from, to, ms, key) <==>
            forall i: nat | from <= i < to :: At(text, i, Marker(key)) <==> Hit(ms, key, i)
    decreases if from < to then to - from else 0
  {
    if from < to {
      ExactOnAll(text, from, to - 1, ms, key);
    }
  }

  /** The value of a member that can answer stands behind its colon. */
  predicate MemberOk(text: string, m: Member)
  {
    && Wf(m.value) && Blanks(m.lead)
    && (m.gap == "" ==> At(text, m.at + |m.raw| + 3, m.lead + Print(m.value)))
  }

  /** The names of `ms` stand one after the other between `from` and `to`. */
  predicate LaidOut(text: string, ms: seq<Member>, from: nat, to: nat)
  {
    if ms == [] then from <= to
    else MemberOk(text, ms[0]) && from <= ms[0].at && LaidOut(text, ms[1..], ms[0].at + |ms[0].raw| + 1, to)
  }

  lemma {:induction false} LaidOutAll(text: string, ms: seq<Member>, from: nat, to: nat)
    requires LaidOut(text, ms, from, to)
    ensures forall k | 0 <= k < |ms| :: MemberOk(text, ms[k]) && from <= ms[k].at && ms[k].at + |ms[k].raw| < to
    ensures forall j, k | 0 <= j < k < |ms| :: ms[j].at + |ms[j].raw| < ms[k].at
    ensures from <= to
  {
    if ms != [] {
      LaidOutAll(text, ms[1..], ms[0].at + |ms[0].raw| + 1, to);
      assert forall k | 0 < k < |ms| :: ms[k] == ms[1..][k - 1];
    }
  }

  lemma {:induction false} LaidOutConcat(text: string, a: seq<Member>, b: seq<Member>, from: nat, mid: nat, to: nat)
    requires LaidOut(text, a, from, mid) && LaidOut(text, b, mid, to)
    ensures LaidOut(text, a + b, from, to)
    decreases a
  {
    if a == [] {
      assert a + b == b;
    } else {
      assert (a + b)[1..] == a[1..] + b;
      LaidOutConcat(text, a[1..], b, a[0].at + |a[0].raw| + 1, mid, to);
    }
  }

  /** Between `from` and `to` stand the members `ms`, and the marker only where they answer to it. */
  ghost predicate Piece(text: string, from: nat, to: nat, ms: seq<Member>, key: string)
  {
    ExactOn(text, from, to, ms, key) && LaidOut(text, ms, from, to)
  }

  lemma HitConcat(a: seq<Member>, b: seq<Member>, key: string, i: nat)
    ensures Hit(a + b, key, i) <==> Hit(a, key, i) || Hit(b, key, i)
  {
    if Hit(a, key, i) {
      var m :| m in a && Answers(m, key) && MarkerAt(m, key) == i;
      assert m in a + b;
    }
    if Hit(b, key, i) {
      var m :| m in b && Answers(m, key) && MarkerAt(m, key) == i;
      assert m in a + b;
    }
  }

  lemma HitsWithin(text: string, ms: seq<Member>, from: nat, to: nat, key: string, i: nat)
    requires LaidOut(text, ms, from, to) && Hit(ms, key, i)
    ensures from <= i < to
  {
    LaidOutAll(text, ms, from, to);
  }

  lemma PieceConcat(text: string, from: nat, mid: nat, to: nat, a: seq<Member>, b: seq<Member>, key: string)
    requires Piece(text, from, mid, a, key) && Piece(text, mid, to, b, key)
    ensures Piece(text, from, to, a + b, key)
  {
    LaidOutConcat(text, a, b, from, mid, to);
    ExactOnAll(text, from, mid, a, key);
    ExactOnAll(text, mid, to, b, key);
    ExactOnAll(text, from, to, a + b, key);
    forall i: nat | from <= i < to ensures At(text, i, Marker(key)) <==> Hit(a + b, key, i) {
      HitConcat(a, b, key, i);
      if Hit(a, key, i) { HitsWithin(text, a, from, mid, key, i); }
      if Hit(b, key, i) { HitsWithin(text, b, mid, to, key, i); }
    }
  }

  lemma NoQuotePiece(text: string, at: nat, s: string, key: string)
    requires At(text, at, s) && '"' !in s
    ensures Piece(text, at, at + |s|, [], key)
  {
    ExactOnAll(text, at, at + |s|, [], key);
    NoQuoteNoMarker(text, at, s, key);
  }

  lemma StringPiece(text: string, at: nat, us: seq<Unit>, key: string)
    requires UnitsOk(us) && KeyOk(key)
    requires At(text, at, Quoted(us)) && Follows(text, at + |Quoted(us)|)
    ensures Piece(text, at, at + |Quoted(us)|, [], key)
  {
    ExactOnAll(text, at, at + |Quoted(us)|, [], key);
    StringValueHasNoMarker(text, at, us, key);
  }

  lemma NamePiece(text: string, at: nat, n: Name, value: Json, after: string, key: string)
    requires n.Name? ==> UnitsOk(n.units) && Blanks(n.gap) && Blanks(n.lead)
    requires Wf(value) && KeyOk(key) && At(text, at, PrintName(n) + (Print(value) + after))
    ensures Piece(text, at, at + |PrintName(n)|, NameMembers(n, value, at), key)
  {
    var ms, to := NameMembers(n, value, at), at + |PrintName(n)|;
    AtConcat(text, at, PrintName(n), Print(value) + after);
    ExactOnAll(text, at, to, ms, key);
    if n.Name? {
      forall i: nat | at <= i < to ensures At(text, i, Marker(key)) <==> Hit(ms, key, i) {
        MarkerInName(text, at, n, value, key, i);
        assert ms[0] in ms;
      }
      if n.gap == "" {
        ValueAfterName(text, at, n, Print(value), after);
      }
      assert LaidOut(text, ms, at, to) by { assert ms[1..] == []; }
    }
  }

  lemma ValueAfterName(text: string, at: nat, n: Name, value: string, after: string)
    requires n.Name? && n.gap == "" && At(text, at, PrintName(n) + (value + after))
    ensures At(text, at + |PrintUnits(n.units)| + 3, n.lead + value)
  {
    hide At, PrintUnits;
    var q, rest := Quoted(n.units), n.gap + (":" + n.lead);
    var p := at + |q| + 1;
    AtConcat(text, at, PrintName(n), value + after);
    AtConcat(text, at, q, rest);
    assert rest == ":" + n.lead;
    AtConcat(text, at + |q|, ":", n.lead);
    AtConcat(text, p + |n.lead|, value, after);
    AtJoin(text, p, n.lead, value);
  }

  /** A piece between two stretches without quotes. */
  lemma Framed(text: string, at: nat, p: nat, q: nat, to: nat, ms: seq<Member>, key: string)
    requires Piece(text, at, p, [], key) && Piece(text, p, q, ms, key) && Piece(text, q, to, [], key)
    ensures Piece(text, at, to, ms, key)
  {
    PieceConcat(text, p, q, to, ms, [], key);
    PieceConcat(text, at, p, to, [], ms + [], key);
    assert [] + (ms + []) == ms;
  }

  lemma {:induction false} ValuePiece(text: string, at: nat, to: nat, v: Json, key: string)
    requires Wf(v) && KeyOk(key) && At(text, at, Print(v)) && to == at + |Print(v)|
    requires v.Container? || Follows(text, to)
    ensures Piece(text, at, to, Members(v, at), key)
    decreases v
  {
    hide At, Piece, Follows, KeyOk, WfEntries, PrintEntries, EntriesMembers;
    match v
    case Str(us) => StringPiece(text, at, us, key);
    case Atom(s) => NoQuotePiece(text, at, s, key);
    case Container(isObject, es) =>
      var open, close := if isObject then "{" else "[", if isObject then "}" else "]";
      assert Print(v) == open + (PrintEntries(es) + close);
      BodyAt(text, at, open, PrintEntries(es), close, key);
      EntriesPiece(text, at + 1, to - 1, es, isObject, key);
      Framed(text, at, at + 1, to - 1, to, EntriesMembers(es, at + 1), key);
  }

  lemma BodyAt(text: string, at: nat, open: string, body: string, close: string, key: string)
    requires At(text, at, open + (body + close)) && |open| == |close| == 1
    requires Opens(open[0]) && Closes(close[0])
    ensures At(text, at + 1, body) && Follows(text, at + 1 + |body|)
    ensures Piece(text, at, at + 1, [], key) && Piece(text, at + 1 + |body|, at + 2 + |body|, [], key)
  {
    AtConcat(text, at, open, body + close);
    AtConcat(text, at + 1, body, close);
    CharAt(text, at + 1 + |body|, close, 0);
    NoQuotePiece(text, at, open, key);
    NoQuotePiece(text, at + 1 + |body|, close, key);
  }

  lemma {:induction false} EntriesPiece(text: string, at: nat, to: nat, es: Entries, isObject: bool, key: string)
    requires if es.Empty? then Blanks(es.blanks) else WfEntries(es, isObject)
    requires KeyOk(key) && At(text, at, PrintEntries(es)) && to == at + |PrintEntries(es)| && Follows(text, to)
    ensures Piece(text, at, to, EntriesMembers(es, at), key)
    decreases es
  {
    hide At, Piece, Follows, KeyOk, WfEntry, PrintEntry, EntryMembers;
    match es
    case Empty(blanks) => NoQuotePiece(text, at, blanks, key);
    case Last(e) => EntryPiece(text, at, to, e, isObject, key);
    case More(e, rest) =>
      var mid := at + |PrintEntry(e)|;
      CommaAt(text, at, PrintEntry(e), PrintEntries(rest), key);
      EntryPiece(text, at, mid, e, isObject, key);
      EntriesPiece(text, mid + 1, to, rest, isObject, key);
      CommaCompose(text, at, mid, to, EntryMembers(e, at), EntriesMembers(rest, mid + 1), key);
  }

  lemma CommaAt(text: string, at: nat, first: string, second: string, key: string)
    requires At(text, at, first + ("," + second))
    ensures At(text, at, first) && Follows(text, at + |first|) && At(text, at + |first| + 1, second)
    ensures Piece(text, at + |first|, at + |first| + 1, [], key)
  {
    AtConcat(text, at, first, "," + second);
    AtConcat(text, at + |first|, ",", second);
    CharAt(text, at + |first|, ",", 0);
    NoQuotePiece(text, at + |first|, ",", key);
  }

  lemma CommaCompose(text: string, at: nat, mid: nat, to: nat, a: seq<Member>, b: seq<Member>, key: string)
    requires Piece(text, at, mid, a, key) && Piece(text, mid, mid + 1, [], key) && Piece(text, mid + 1, to, b, key)
    ensures Piece(text, at, to, a + b, key)
  {
    PieceConcat(text, mid, mid + 1, to, [], b, key);
    assert [] + b == b;
    PieceConcat(text, at, mid, to, a, b, key);
  }

  lemma {:induction false} EntryPiece(text: string, at: nat, to: nat, e: Entry, isObject: bool, key: string)
    requires WfEntry(e, isObject) && KeyOk(key)
    requires At(text, at, PrintEntry(e)) && to == at + |PrintEntry(e)| && Follows(text, to)
    ensures Piece(text, at, to, EntryMembers(e, at), key)
    decreases e
  {
    hide At, Piece, Follows, KeyOk, Print, PrintName, Members, NameMembers;
    var name, value := PrintName(e.name), Print(e.value);
    var p := at + |e.before|;
    var q := p + |name|;
    var r := q + |value|;
    assert PrintEntry(e) == e.before + (name + (value + e.after));
    EntryAt(text, at, e.before, name, value, e.after, key);
    NamePiece(text, p, e.name, e.value, e.after, key);
    ValuePiece(text, q, r, e.value, key);
    PieceConcat(text, p, q, r, NameMembers(e.name, e.value, p), Members(e.value, q), key);
    Framed(text, at, p, r, to, EntryMembers(e, at), key);
  }

  lemma EntryAt(text: string, at: nat, before: string, name: string, value: string, after: string, key: string)
    requires At(text, at, before + (name + (value + after))) && Blanks(before) && Blanks(after)
    requires Follows(text, at + |before| + |name| + |value| + |after|)
    ensures At(text, at + |before|, name + (value + after))
    ensures At(text, at + |before| + |name|, value) && Follows(text, at + |before| + |name| + |value|)
    ensures Piece(text, at, at + |before|, [], key)
    ensures var r := at + |before| + |name| + |value|; Piece(text, r, r + |after|, [], key)
  {
    var q := at + |before| + |name|;
    AtConcat(text, at, before, name + (value + after));
    AtConcat(text, at + |before|, name, value + after);
    AtConcat(text, q, value, after);
    NoQuotePiece(text, at, before, key);
    NoQuotePiece(text, q + |value|, after, key);
    if after != "" {
      CharAt(text, q + |value|, after, 0);
      assert after[0] in after;
    }
  }

  // ---------------------------------------------------------------- the first member in document order

  function FirstAnswer(ms: seq<Member>, key: string): Option<Member>
  {
    if ms == [] then None
    else if Answers(ms[0], key) then Some(ms[0])
    else FirstAnswer(ms[1..], key)
  }

  lemma {:induction false} FirstAnswerIndex(ms: seq<Member>, key: string) returns (j: nat)
    ensures j <= |ms| && forall k | 0 <= k < j :: !Answers(ms[k], key)
    ensures FirstAnswer(ms, key) == if j < |ms| then Some(ms[j]) else None
    ensures j < |ms| ==> Answers(ms[j], key)
  {
    j := 0;
    if ms != [] && !Answers(ms[0], key) {
      var t := FirstAnswerIndex(ms[1..], key);
      j := t + 1;
      forall k | 0 <= k < j ensures !Answers(ms[k], key) {
        assert k > 0 ==> ms[k] == ms[1..][k - 1];
      }
    }
  }

  lemma {:induction false} SkipLead(lead: string, rest: string)
    requires Blanks(lead) && (rest != "" ==> !IsBlank(rest[0]))
    ensures SkipBlanks(lead + rest) == rest
    decreases lead
  {
    if lead == "" {
      assert lead + rest == rest;
    } else {
      assert lead[0] in lead;
      assert (lead + rest)[1..] == lead[1..] + rest;
      SkipLead(lead[1..], rest);
    }
  }

  lemma ValueStart(v: Json)
    requires Wf(v)
    ensures Print(v) != "" && !IsBlank(Print(v)[0]) && (Opens(Print(v)[0]) <==> v.Container?)
  {
    if v.Atom? {
      assert v.text[0] in v.text;
    }
  }

  /** What the parser gets from the value of a member: exactly that value, or an error when the
      member holds no object or array. */
  function Handed(v: Json): Result<string>
  {
    if v.Container? then Ok(Print(v)) else Err(NotAtStart)
  }

  lemma HandedAfterMarker(text: string, at: nat, lead: string, v: Json)
    requires at <= |text| && Wf(v) && Blanks(lead) && At(text, at, lead + Print(v))
    ensures BalancedPrefix(SkipBlanks(text[at..])) == Handed(v)
  {
    ValueStart(v);
    AtIsSlice(text, at, lead + Print(v));
    var post := text[at + |lead + Print(v)|..];
    assert text[at..] == (lead + Print(v)) + post;
    assert text[at..] == lead + (Print(v) + post);
    SkipLead(lead, Print(v) + post);
    if v.Container? {
      CutsOutThePrintedValue(v, post);
    }
  }

  /** A marker before a printed object or array lies wholly before it, one after it wholly after it. */
  lemma NoStraddle(pre: string, mid: string, post: string, key: string, i: nat)
    requires KeyOk(key) && mid != "" && Opens(mid[0]) && At(pre + mid + post, i, Marker(key))
    ensures i < |pre| ==> At(pre, i, Marker(key))
  {
    var text, n := pre + mid + post, |Marker(key)|;
    assert text[|pre|] == mid[0];
    assert forall k | 0 < k <= |key| :: Marker(key)[k] == key[k - 1] && key[k - 1] in key;
    if i < |pre| {
      if i + n > |pre| {
        CharAt(text, i, Marker(key), |pre| - i);
      } else {
        AtChars(text, i, Marker(key));
        AtChars(pre, i, Marker(key));
      }
    }
  }

  lemma AtMiddle(pre: string, mid: string, post: string)
    ensures At(pre + mid + post, |pre|, mid)
  {
    AtChars(pre + mid + post, |pre|, mid);
  }

  lemma NoMarkerBefore(pre: string, mid: string, post: string, key: string)
    requires KeyOk(key) && mid != "" && Opens(mid[0]) && IndexOf(pre, Marker(key)).None?
    ensures forall i: nat | i < |pre| :: !At(pre + mid + post, i, Marker(key))
  {
    IndexOfIsFirst(pre, Marker(key));
    forall i: nat | i < |pre| ensures !At(pre + mid + post, i, Marker(key)) {
      if At(pre + mid + post, i, Marker(key)) {
        NoStraddle(pre, mid, post, key, i);
      }
    }
  }

  /** The marker finds the first member, in document order, that answers to it, and its whole value is
      handed over; if no member answers, only the text after the value can. */
  lemma FindsFirstAnswer(pre: string, v: Json, post: string, key: string)
    requires v.Container? && Wf(v) && KeyOk(key)
    requires IndexOf(pre, Marker(key)).None?
    ensures var first := FirstAnswer(Members(v, |pre|), key);
            var page := pre + Print(v) + post;
            if first.Some? then StateText(page, key) == Handed(first.value.value)
            else forall i: nat | At(page, i, Marker(key)) :: i >= |pre| + |Print(v)|
  {
    var page := pre + Print(v) + post;
    ValueStart(v);
    AtMiddle(pre, Print(v), post);
    NoMarkerBefore(pre, Print(v), post, key);
    FindsFirstAnswerIn(page, |pre|, v, key);
  }

  lemma FindsFirstAnswerIn(page: string, from: nat, v: Json, key: string)
    requires v.Container? && Wf(v) && KeyOk(key) && At(page, from, Print(v))
    requires forall i: nat | i < from :: !At(page, i, Marker(key))
    ensures var first := FirstAnswer(Members(v, from), key);
            if first.Some? then StateText(page, key) == Handed(first.value.value)
            else forall i: nat | At(page, i, Marker(key)) :: i >= from + |Print(v)|
  {
    var to, ms := from + |Print(v)|, Members(v, from);
    ValuePiece(page, from, to, v, key);
    var j := FirstAnswerIndex(ms, key);
    if j < |ms| {
      AnswerIsHanded(page, from, to, ms, j, key);
    } else {
      ExactOnAll(page, from, to, ms, key);
    }
  }

  lemma AnswerIsFound(page: string, from: nat, to: nat, ms: seq<Member>, j: nat, key: string)
    requires Piece(page, from, to, ms, key) && j < |ms| && Answers(ms[j], key)
    requires forall k | 0 <= k < j :: !Answers(ms[k], key)
    requires forall i: nat | i < from :: !At(page, i, Marker(key))
    ensures IndexOf(page, Marker(key)) == Some(MarkerAt(ms[j], key))
  {
    hide Answers, At;
    var at := MarkerAt(ms[j], key);
    LaidOutAll(page, ms, from, to);
    ExactOnAll(page, from, to, ms, key);
    assert Hit(ms, key, at);
    HitsWithin(page, ms, from, to, key, at);
    LaterAnswersStandLater(page, from, to, ms, j, key);
    IndexIs(page, Marker(key), at);
  }

  lemma AnswerIsHanded(page: string, from: nat, to: nat, ms: seq<Member>, j: nat, key: string)
    requires Piece(page, from, to, ms, key) && j < |ms| && Answers(ms[j], key)
    requires forall k | 0 <= k < j :: !Answers(ms[k], key)
    requires forall i: nat | i < from :: !At(page, i, Marker(key))
    ensures StateText(page, key) == Handed(ms[j].value)
  {
    hide At, IndexOf, ExactOn, BalancedPrefix, Print;
    var m := ms[j];
    LaidOutAll(page, ms, from, to);
    AnswerIsFound(page, from, to, ms, j, key);
    assert MarkerAt(m, key) + |Marker(key)| == m.at + |m.raw| + 3;
    assert |page| >= m.at + |m.raw| + 3 by { AtIsSlice(page, m.at + |m.raw| + 3, m.lead + Print(m.value)); }
    HandedAfterMarker(page, m.at + |m.raw| + 3, m.lead, m.value);
  }

  lemma LaterAnswersStandLater(page: string, from: nat, to: nat, ms: seq<Member>, j: nat, key: string)
    requires LaidOut(page, ms, from, to) && j < |ms| && Answers(ms[j], key)
    requires forall k | 0 <= k < j :: !Answers(ms[k], key)
    ensures forall i: nat | Hit(ms, key, i) :: MarkerAt(ms[j], key) <= i
  {
    LaidOutAll(page, ms, from, to);
    forall i: nat | Hit(ms, key, i) ensures MarkerAt(ms[j], key) <= i {
      var n :| n in ms && Answers(n, key) && MarkerAt(n, key) == i;
      var k :| 0 <= k < |ms| && ms[k] == n;
      assert j < k ==> ms[j].at + |ms[j].raw| < n.at;
    }
  }

  // ---------------------------------------------------------------- the first member of a name

  /** The first member in document order that is named `key`, whatever stands before its colon. */
  predicate IsFirstNamed(ms: seq<Member>, key: string, j: nat)
  {
    j < |ms| && ms[j].raw == key && forall k | 0 <= k < j :: ms[k].raw != key
  }

  /** No blank before the colon of member `j`, and no member before it whose name ends with an escaped quote and
      the key and has no blank before its colon. */
  predicate NothingInTheWay(ms: seq<Member>, key: string, j: nat)
  {
    j < |ms| && ms[j].gap == "" && forall k | 0 <= k < j :: !(ms[k].gap == "" && EndsWith(ms[k].raw, "\"" + key))
  }

  /** The marker is found at the first member of this name exactly if nothing is in the way, and then the value of
      this member is handed over. */
  lemma FindsFirstNamed(pre: string, v: Json, post: string, key: string, j: nat)
    requires v.Container? && Wf(v) && KeyOk(key)
    requires IndexOf(pre, Marker(key)).None?
    requires IsFirstNamed(Members(v, |pre|), key, j)
    ensures var ms, page := Members(v, |pre|), pre + Print(v) + post;
            && (IndexOf(page, Marker(key)) == Some(ms[j].at) <==> NothingInTheWay(ms, key, j))
            && (NothingInTheWay(ms, key, j) ==> StateText(page, key) == Handed(ms[j].value))
  {
    hide Print, Members, At, StateText, Wf, KeyOk, Marker, IndexOf;
    var ms, page, to := Members(v, |pre|), pre + Print(v) + post, |pre| + |Print(v)|;
    ValueStart(v);
    AtMiddle(pre, Print(v), post);
    NoMarkerBefore(pre, Print(v), post, key);
    ValuePiece(page, |pre|, to, v, key);
    FoundAtFirstNamedIff(page, |pre|, to, ms, j, key);
    if NothingInTheWay(ms, key, j) {
      AnswerIsHanded(page, |pre|, to, ms, j, key);
    }
  }

  lemma FoundAtFirstNamedIff(page: string, from: nat, to: nat, ms: seq<Member>, j: nat, key: string)
    requires Piece(page, from, to, ms, key) && IsFirstNamed(ms, key, j)
    requires forall i: nat | i < from :: !At(page, i, Marker(key))
    ensures IndexOf(page, Marker(key)) == Some(ms[j].at) <==> NothingInTheWay(ms, key, j)
  {
    hide At, IndexOf, ExactOn, Marker, EndsWith;
    var f := FirstAnswerIndex(ms, key);
    LaidOutAll(page, ms, from, to);
    if f < |ms| {
      AnswerIsFound(page, from, to, ms, f, key);
      AnswersWithQuotes(ms[f], key);
      // the marker stands inside member `f`, and no two members overlap
      assert ms[f].at <= MarkerAt(ms[f], key) <= ms[f].at + |ms[f].raw|;
    } else {
      ExactOnAll(page, from, to, ms, key);
      IndexOfIsFirst(page, Marker(key));
      assert !Hit(ms, key, ms[j].at);
    }
  }

  lemma EndIsWithin(s: string, end: string)
    ensures EndsWith(s, end) && end != "" ==> end[0] in s
  {
    if EndsWith(s, end) && end != "" {
      assert s[|s| - |end|] == s[|s| - |end|..][0];
    }
  }

  /** Where no member name holds a quote, only a blank before its colon is in the way of the first member. */
  lemma QuoteFreePage(pre: string, v: Json, post: string, key: string, j: nat)
    requires v.Container? && Wf(v) && KeyOk(key)
    requires IndexOf(pre, Marker(key)).None?
    requires IsFirstNamed(Members(v, |pre|), key, j)
    requires forall m | m in Members(v, |pre|) :: '"' !in m.raw
    ensures IndexOf(pre + Print(v) + post, Marker(key)) == Some(Members(v, |pre|)[j].at) <==>
            Members(v, |pre|)[j].gap == ""
  {
    hide Print, Members, Wf, KeyOk, IndexOf, StateText;
    var ms := Members(v, |pre|);
    FindsFirstNamed(pre, v, post, key, j);
    forall k | 0 <= k < |ms| ensures !EndsWith(ms[k].raw, "\"" + key) {
      EndIsWithin(ms[k].raw, "\"" + key);
      assert ms[k] in ms;
    }
  }

  // ---------------------------------------------------------------- two pages in which something is in the way

  const NO_ITEMS := Container(false, Empty(""))
  const NO_MEMBERS := Container(true, Empty(""))

  /** A page that is an object of two members, an empty array and an empty object. */
  function TwoMembers(first: Name, second: Name): Json
  {
    Container(true, More(Entry("", first, NO_ITEMS, ""), Last(Entry("", second, NO_MEMBERS, ""))))
  }

  function Printed(n: Name, at: nat, value: Json): Member
    requires n.Name?
  {
    Member(at, PrintUnits(n.units), n.gap, n.lead, value)
  }

  lemma MembersOfTwo(first: Name, second: Name)
    requires first.Name? && second.Name?
    ensures var at := 1 + |PrintEntry(Entry("", first, NO_ITEMS, ""))| + 1;
            Members(TwoMembers(first, second), 0) == [Printed(first, 1, NO_ITEMS), Printed(second, at, NO_MEMBERS)]
  {
    hide PrintUnits, PrintName, PrintEntry;
    var e, e' := Entry("", first, NO_ITEMS, ""), Entry("", second, NO_MEMBERS, "");
    var at := 1 + |PrintEntry(e)| + 1;
    OneMember(first, 1, NO_ITEMS);
    OneMember(second, at, NO_MEMBERS);
    assert EntriesMembers(Last(e'), at) == EntryMembers(e', at);
    assert EntriesMembers(More(e, Last(e')), 1) == EntryMembers(e, 1) + EntriesMembers(Last(e'), at);
  }

  lemma OneMember(n: Name, at: nat, value: Json)
    requires n.Name? && value.Container? && value.entries.Empty?
    ensures EntryMembers(Entry("", n, value, ""), at) == [Printed(n, at, value)]
  {
    hide PrintUnits, PrintName;
    assert Members(value, at + |PrintName(n)|) == [];
  }

  lemma EmptyPrints()
    ensures Print(NO_ITEMS) == "[]" && Print(NO_MEMBERS) == "{}"
  {
  }

  const K := Name([Plain('k')], "", "")

  lemma PrintedK()
    ensures PrintUnits([Plain('k')]) == "k"
  {
  }

  /** What the two pages below have in common: the second member answers although another was meant. */
  lemma FirstAnswerOfTwo(first: Name, second: Name, j: nat)
    requires first.Name? && second.Name? && Wf(TwoMembers(first, second)) && KeyOk("k") && j < 2
    requires var ms := Members(TwoMembers(first, second), 0);
             |ms| == 2 && Answers(ms[j], "k") && (j == 1 ==> !Answers(ms[0], "k"))
    ensures StateText(Print(TwoMembers(first, second)), "k") == Handed(if j == 0 then NO_ITEMS else NO_MEMBERS)
  {
    hide Print, PrintUnits, PrintEntry, StateText, Answers, Handed, Wf, KeyOk;
    var v := TwoMembers(first, second);
    var ms := Members(v, 0);
    MembersOfTwo(first, second);
    assert ms[1..] == [ms[1]];
    assert FirstAnswer(ms, "k") == Some(ms[j]);
    assert IndexOf("", Marker("k")).None?;
    FindsFirstAnswer("", v, "", "k");
    assert "" + Print(v) + "" == Print(v);
  }

  /** In {"\"k":[],"k":{}} the escaped quote of the first name is in the way: the empty array is handed over. */
  lemma EscapedQuoteAnswers()
    ensures var v := TwoMembers(Name([Escape('"'), Plain('k')], "", ""), K);
            && Wf(v) && IsFirstNamed(Members(v, 0), "k", 1) && Members(v, 0)[1].value == NO_MEMBERS
            && StateText(Print(v), "k") == Ok("[]")
  {
    hide StateText, Print, PrintUnits;
    var first := Name([Escape('"'), Plain('k')], "", "");
    MembersOfTwo(first, K);
    PrintedK();
    PrintedQuoteK();
    var raw := PrintUnits(first.units);
    assert EndsWith(raw, "\"" + "k") by { assert raw[1..] == "\"" + "k"; }
    FirstAnswerOfTwo(first, K, 0);
    EmptyPrints();
  }

  lemma PrintedQuoteK()
    ensures PrintUnits([Escape('"'), Plain('k')]) == "\\\"k"
  {
    assert [Escape('"'), Plain('k')][1..] == [Plain('k')];
    PrintedK();
  }

  /** In {"k" :[],"k":{}} the blank before the first colon is in the way: the empty object is handed over. */
  lemma BlankBeforeColonIsSkipped()
    ensures var v := TwoMembers(K.(gap := " "), K);
            && Wf(v) && IsFirstNamed(Members(v, 0), "k", 0) && Members(v, 0)[0].value == NO_ITEMS
            && StateText(Print(v), "k") == Ok("{}")
  {
    hide StateText, Print, PrintUnits;
    MembersOfTwo(K.(gap := " "), K);
    PrintedK();
    FirstAnswerOfTwo(K.(gap := " "), K, 1);
    EmptyPrints();
  }
}
