/** Resolving nested `{a|b|c}` templates (`rand_text` in backend/app/services/cover_letter.py). */
module RandText {

  predicate IsBrace(c: char) { c == '{' || c == '}' }

  /** Length of the longest prefix of `s` without braces. */
  function Plain(s: string): (n: nat)
    ensures n <= |s|
    decreases s
  {
    if s == "" || IsBrace(s[0]) then 0 else 1 + Plain(s[1..])
  }

  /** An innermost group: an opening brace, at least one other character that is no brace, a closing brace. */
  predicate GroupAtStart(s: string)
  {
    && s != "" && s[0] == '{'
    && var n := Plain(s[1..]);
       n > 0 && 1 + n < |s| && s[1 + n] == '}'
  }

  function Inner(s: string): string
    requires GroupAtStart(s)
  {
    s[1..1 + Plain(s[1..])]
  }

  function AfterGroup(s: string): string
    requires GroupAtStart(s)
  {
    s[2 + Plain(s[1..])..]
  }

  /** `str.split("|")`. */
  function Split(s: string): (r: seq<string>)
    ensures |r| > 0
    decreases s
  {
    if s == "" then [""]
    else if s[0] == '|' then [""] + Split(s[1..])
    else
      var rest := Split(s[1..]);
      [[s[0]] + rest[0]] + rest[1..]
  }

  /** One substitution pass from left to right: every innermost group becomes one of its alternatives,
      every other character stays. */
  ghost predicate Pass(s: string, t: string)
    decreases |s|
  {
    if s == "" then t == ""
    else if GroupAtStart(s) then
      exists alt, rest :: alt in Split(Inner(s)) && t == alt + rest && Pass(AfterGroup(s), rest)
    else t != "" && t[0] == s[0] && Pass(s[1..], t[1..])
  }

  /** `r` can stand after `n` passes over `s`. */
  ghost predicate Reaches(s: string, r: string, n: nat)
    decreases n
  {
    if n == 0 then r == s else exists m :: Reaches(s, m, n - 1) && Pass(m, r)
  }

  /** `rand_text` can return `r`: it stops at the first text that a pass leaves as it is. */
  ghost predicate Output(s: string, r: string)
  {
    Pass(r, r) && exists n: nat :: Reaches(s, r, n)
  }

  predicate NoGroup(s: string)
    decreases s
  {
    s == "" || (!GroupAtStart(s) && NoGroup(s[1..]))
  }

  function Braces(s: string): nat
    decreases s
  {
    if s == "" then 0 else (if IsBrace(s[0]) then 1 else 0) + Braces(s[1..])
  }

  lemma {:induction false} BracesConcat(a: string, b: string)
    ensures Braces(a + b) == Braces(a) + Braces(b)
    decreases a
  {
    if a == "" {
      assert a + b == b;
    } else {
      assert (a + b)[1..] == a[1..] + b;
      BracesConcat(a[1..], b);
    }
  }

  lemma {:induction false} PlainHasNoBraces(s: string)
    ensures Braces(s[..Plain(s)]) == 0
    decreases s
  {
    if s != "" && !IsBrace(s[0]) {
      assert s[..Plain(s)][1..] == s[1..][..Plain(s[1..])];
      PlainHasNoBraces(s[1..]);
    }
  }

  lemma {:induction false} AlternativeIsSmaller(s: string, alt: string)
    requires alt in Split(s)
    ensures |alt| <= |s| && Braces(alt) <= Braces(s)
    decreases s
  {
    if s != "" {
      if s[0] == '|' {
        if alt in Split(s[1..]) { AlternativeIsSmaller(s[1..], alt); }
      } else {
        var rest := Split(s[1..]);
        if alt == [s[0]] + rest[0] {
          assert rest[0] in rest && alt[1..] == rest[0];
          AlternativeIsSmaller(s[1..], rest[0]);
        } else {
          assert alt in rest[1..] && alt in rest;
          AlternativeIsSmaller(s[1..], alt);
        }
      }
    }
  }

  lemma GroupParts(s: string)
    requires GroupAtStart(s)
    ensures s == "{" + Inner(s) + "}" + AfterGroup(s)
    ensures |s| == |Inner(s)| + |AfterGroup(s)| + 2 && Inner(s) != ""
    ensures Braces(s) == 2 + Braces(AfterGroup(s)) && Braces(Inner(s)) == 0
  {
    var inner, after := Inner(s), AfterGroup(s);
    PlainHasNoBraces(s[1..]);
    assert s[1..][..Plain(s[1..])] == inner;
    assert s[1..] == inner + ("}" + after);
    BracesConcat(inner, "}" + after);
    assert ("}" + after)[1..] == after;
  }

  /** A pass that finds a group removes at least one pair of braces; one that finds none changes nothing. */
  lemma {:induction false} PassShrinks(s: string, t: string)
    requires Pass(s, t)
    ensures NoGroup(s) ==> t == s
    ensures !NoGroup(s) ==> |t| < |s| && Braces(t) + 2 <= Braces(s)
    decreases |s|
  {
    if s != "" {
      if GroupAtStart(s) {
        var alt, rest :| alt in Split(Inner(s)) && t == alt + rest && Pass(AfterGroup(s), rest);
        GroupParts(s);
        PassShrinks(AfterGroup(s), rest);
        AlternativeIsSmaller(Inner(s), alt);
        BracesConcat(alt, rest);
      } else {
        PassShrinks(s[1..], t[1..]);
        assert s == [s[0]] + s[1..] && t == [t[0]] + t[1..];
      }
    }
  }

  /** One call of the regex substitution, with any choice the generator may make. */
  method Substitute(s: string) returns (t: string)
    ensures Pass(s, t)
    decreases |s|
  {
    if s == "" {
      t := "";
    } else if GroupAtStart(s) {
      var alts := Split(Inner(s));
      var k :| 0 <= k < |alts|;
      var rest := Substitute(AfterGroup(s));
      t := alts[k] + rest;
    } else {
      var rest := Substitute(s[1..]);
      t := [s[0]] + rest;
    }
  }

  lemma NoPassYet(s: string)
    ensures Reaches(s, s, 0)
  {
  }

  lemma OneMorePass(s: string, m: string, r: string, n: nat)
    requires Reaches(s, m, n) && Pass(m, r)
    ensures Reaches(s, r, n + 1)
  {
  }

  method RandText(template: string) returns (s: string)
    ensures Output(template, s)
    ensures NoGroup(s)
  {
    hide Pass, Reaches, NoGroup, Braces;
    NoPassYet(template);
    s := template;
    var temp := Substitute(s);
    ghost var n := 0;
    while temp != s
      invariant Reaches(template, s, n) && Pass(s, temp)
      decreases |s|
    {
      PassShrinks(s, temp);
      OneMorePass(template, s, temp, n);
      s := temp;
      n := n + 1;
      temp := Substitute(s);
    }
    PassShrinks(s, s);
  }

  // ---------------------------------------------------------------- templates as trees

  datatype Template = End | Lit(c: char, rest: Template) | Choice(alts: Alts, rest: Template)

  datatype Alts = One(t: Template) | More(t: Template, others: Alts)

  /** A template as written, with `y` behind it. */
  function Show(t: Template, y: string): string
  {
    match t
    case End => y
    case Lit(c, rest) => [c] + Show(rest, y)
    case Choice(alts, rest) => ['{'] + ShowAlts(alts, ['}'] + Show(rest, y))
  }

  function ShowAlts(a: Alts, y: string): string
  {
    match a
    case One(t) => Show(t, y)
    case More(t, others) => Show(t, ['|'] + ShowAlts(others, y))
  }

  function Print(t: Template): string { Show(t, "") }

  /** Literals are no braces, and no bars inside a group. */
  predicate Wf(t: Template, inGroup: bool)
  {
    match t
    case End => true
    case Lit(c, rest) => !IsBrace(c) && (inGroup ==> c != '|') && Wf(rest, inGroup)
    case Choice(alts, rest) => WfAlts(alts) && Wf(rest, inGroup)
  }

  predicate WfAlts(a: Alts)
  {
    Wf(a.t, true) && (a.More? ==> WfAlts(a.others))
  }

  /** The texts a template stands for: every group is one of its alternatives. */
  predicate Expands(t: Template, r: string)
  {
    match t
    case End => r == ""
    case Lit(c, rest) => r != "" && r[0] == c && Expands(rest, r[1..])
    case Choice(alts, rest) => exists i | 0 <= i <= |r| :: ExpandsAlts(alts, r[..i]) && Expands(rest, r[i..])
  }

  predicate ExpandsAlts(a: Alts, r: string)
  {
    Expands(a.t, r) || (a.More? && ExpandsAlts(a.others, r))
  }

  predicate Vanishes(t: Template)
  {
    match t
    case End => true
    case Lit(_, _) => false
    case Choice(alts, rest) => VanishesAlts(alts) && Vanishes(rest)
  }

  predicate VanishesAlts(a: Alts)
  {
    Vanishes(a.t) || (a.More? && VanishesAlts(a.others))
  }

  /** No group consists of a single alternative that can become empty. */
  predicate NoBlankGroup(t: Template)
  {
    match t
    case End => true
    case Lit(_, rest) => NoBlankGroup(rest)
    case Choice(alts, rest) => !(alts.One? && Vanishes(alts.t)) && NoBlankGroupAlts(alts) && NoBlankGroup(rest)
  }

  predicate NoBlankGroupAlts(a: Alts)
  {
    NoBlankGroup(a.t) && (a.More? ==> NoBlankGroupAlts(a.others))
  }

  lemma {:induction false} VanishesIsExpandsToNothing(t: Template)
    ensures Vanishes(t) <==> Expands(t, "")
    decreases t
  {
    if t.Choice? {
      VanishesAltsIsExpandsToNothing(t.alts);
      VanishesIsExpandsToNothing(t.rest);
      assert ""[..0] == "" && ""[0..] == "";
    }
  }

  lemma {:induction false} VanishesAltsIsExpandsToNothing(a: Alts)
    ensures VanishesAlts(a) <==> ExpandsAlts(a, "")
    decreases a
  {
    VanishesIsExpandsToNothing(a.t);
    if a.More? {
      VanishesAltsIsExpandsToNothing(a.others);
    }
  }

  predicate Flat(t: Template)
  {
    match t
    case End => true
    case Lit(_, rest) => Flat(rest)
    case Choice(_, _) => false
  }

  predicate FlatAlts(a: Alts)
  {
    Flat(a.t) && (a.More? ==> FlatAlts(a.others))
  }

  function Append(t: Template, u: Template): Template
  {
    match t
    case End => u
    case Lit(c, rest) => Lit(c, Append(rest, u))
    case Choice(alts, rest) => Choice(alts, Append(rest, u))
  }

  lemma {:induction false} AppendFlat(t: Template, u: Template, inGroup: bool)
    requires Flat(t) && Wf(t, true) && Wf(u, inGroup)
    ensures Wf(Append(t, u), inGroup)
    ensures NoBlankGroup(Append(t, u)) <==> NoBlankGroup(u)
    decreases t
  {
    if t.Lit? {
      AppendFlat(t.rest, u, inGroup);
    }
  }

  lemma {:induction false} AppendFlatSplits(t: Template, u: Template, r: string) returns (i: nat)
    requires Flat(t) && Expands(Append(t, u), r)
    ensures i <= |r| && Expands(t, r[..i]) && Expands(u, r[i..])
    decreases t
  {
    if t.End? {
      i := 0;
      assert r[..0] == "" && r[0..] == r;
    } else {
      var k := AppendFlatSplits(t.rest, u, r[1..]);
      i := k + 1;
      assert r[..i][1..] == r[1..][..k] && r[1..][k..] == r[i..];
    }
  }

  lemma {:induction false} AppendFlatJoins(t: Template, u: Template, r: string, i: nat)
    requires Flat(t) && i <= |r| && Expands(t, r[..i]) && Expands(u, r[i..])
    ensures Expands(Append(t, u), r)
    decreases t
  {
    if t.End? {
      assert r[0..] == r;
    } else {
      assert r[..i][1..] == r[1..][..i - 1] && r[1..][i - 1..] == r[i..];
      AppendFlatJoins(t.rest, u, r[1..], i - 1);
    }
  }

  lemma {:induction false} FlatExpands(t: Template, r: string)
    requires Flat(t)
    ensures Expands(t, r) <==> r == Print(t)
    decreases t
  {
    if t.Lit? && r != "" {
      FlatExpands(t.rest, r[1..]);
      assert r == [r[0]] + r[1..] && Print(t)[1..] == Print(t.rest);
    }
  }

  // ---------------------------------------------------------------- where groups stand in a printed template

  lemma ConsConcat(c: char, s: string, y: string)
    ensures [c] + (s + y) == ([c] + s) + y
  {
  }

  lemma {:induction false} ShowFlat(t: Template, y: string)
    requires Flat(t)
    ensures Show(t, y) == Print(t) + y
    decreases t
  {
    if t.Lit? {
      ShowFlat(t.rest, y);
      ConsConcat(t.c, Print(t.rest), y);
    }
  }

  lemma {:induction false} FlatIsPlain(t: Template, y: string)
    requires Flat(t) && Wf(t, true)
    ensures Plain(Show(t, y)) == |Print(t)| + Plain(y) && '|' !in Print(t)
    decreases t
  {
    if t.Lit? {
      FlatIsPlain(t.rest, y);
      assert Show(t, y)[1..] == Show(t.rest, y);
    }
  }

  /** The inside of a group of flat alternatives. */
  function Inside(a: Alts): string { ShowAlts(a, "") }

  lemma {:induction false} ShowFlatAlts(a: Alts, y: string)
    requires FlatAlts(a)
    ensures ShowAlts(a, y) == Inside(a) + y
    decreases a
  {
    if a.One? {
      ShowFlat(a.t, y);
    } else {
      ShowFlatAlts(a.others, y);
      ConsConcat('|', Inside(a.others), y);
      ShowFlat(a.t, ['|'] + ShowAlts(a.others, y));
      ShowFlat(a.t, ['|'] + Inside(a.others));
      ConcatAssoc(Print(a.t), ['|'] + Inside(a.others), y);
    }
  }

  lemma ConcatAssoc(a: string, b: string, c: string)
    ensures a + (b + c) == (a + b) + c
  {
  }

  lemma {:induction false} FlatAltsArePlain(a: Alts, y: string)
    requires FlatAlts(a) && WfAlts(a)
    ensures Plain(ShowAlts(a, y)) == |Inside(a)| + Plain(y)
    decreases a
  {
    if a.One? {
      FlatIsPlain(a.t, y);
    } else {
      FlatAltsArePlain(a.others, y);
      var tail := ['|'] + ShowAlts(a.others, y);
      assert tail[1..] == ShowAlts(a.others, y);
      FlatIsPlain(a.t, tail);
      ShowFlat(a.t, ['|'] + Inside(a.others));
    }
  }

  /** The first brace of a text opens a group. */
  predicate FirstBraceOpens(s: string)
    decreases s
  {
    s != "" && (s[0] == '{' || (s[0] != '}' && FirstBraceOpens(s[1..])))
  }

  lemma {:induction false} FirstBraceIsNoClosing(s: string)
    requires FirstBraceOpens(s)
    ensures Plain(s) < |s| && s[Plain(s)] == '{'
    decreases s
  {
    if s[0] != '{' {
      FirstBraceIsNoClosing(s[1..]);
    }
  }

  lemma {:induction false} FlatBeforeBrace(t: Template, y: string)
    requires Flat(t) && Wf(t, true) && FirstBraceOpens(y)
    ensures FirstBraceOpens(Show(t, y))
    decreases t
  {
    if t.Lit? {
      FlatBeforeBrace(t.rest, y);
      assert Show(t, y)[1..] == Show(t.rest, y);
    }
  }

  lemma {:induction false} NestedFirstBrace(t: Template, y: string)
    requires !Flat(t) && Wf(t, true)
    ensures FirstBraceOpens(Show(t, y))
    decreases t
  {
    if t.Lit? {
      NestedFirstBrace(t.rest, y);
      assert Show(t, y)[1..] == Show(t.rest, y);
    }
  }

  lemma {:induction false} NestedAltsFirstBrace(a: Alts, y: string)
    requires !FlatAlts(a) && WfAlts(a)
    ensures FirstBraceOpens(ShowAlts(a, y))
    decreases a
  {
    if !Flat(a.t) {
      NestedFirstBrace(a.t, if a.One? then y else ['|'] + ShowAlts(a.others, y));
    } else {
      NestedAltsFirstBrace(a.others, y);
      var tail := ['|'] + ShowAlts(a.others, y);
      assert tail[1..] == ShowAlts(a.others, y);
      FlatBeforeBrace(a.t, tail);
    }
  }

  /** The groups the regex matches: flat alternatives, and something between the braces. */
  predicate Matches(a: Alts) { FlatAlts(a) && Inside(a) != "" }

  lemma MatchingGroup(a: Alts, y: string)
    requires Matches(a) && WfAlts(a)
    ensures var s := ['{'] + ShowAlts(a, ['}'] + y);
            GroupAtStart(s) && Inner(s) == Inside(a) && AfterGroup(s) == y
  {
    var s, inner := ['{'] + ShowAlts(a, ['}'] + y), Inside(a);
    ShowFlatAlts(a, ['}'] + y);
    FlatAltsArePlain(a, ['}'] + y);
    assert s[1..] == inner + (['}'] + y);
    assert s[1 + |inner|] == '}';
    assert s[1..1 + |inner|] == inner && s[2 + |inner|..] == y;
  }

  lemma OtherGroup(a: Alts, y: string)
    requires WfAlts(a) && !Matches(a)
    ensures !GroupAtStart(['{'] + ShowAlts(a, ['}'] + y))
  {
    var inner := ShowAlts(a, ['}'] + y);
    assert (['{'] + inner)[1..] == inner;
    if FlatAlts(a) {
      ShowFlatAlts(a, ['}'] + y);
      assert inner == ['}'] + y;
    } else {
      NestedAltsFirstBrace(a, ['}'] + y);
      FirstBraceIsNoClosing(inner);
    }
  }

  /** Splitting the inside of a flat group at its bars gives back its alternatives. */
  lemma {:induction false} SplitPlain(s: string, tail: string)
    requires '|' !in s
    ensures Split(s) == [s]
    ensures Split(s + (['|'] + tail)) == [s] + Split(tail)
    decreases s
  {
    if s == "" {
      assert s + (['|'] + tail) == ['|'] + tail && (['|'] + tail)[1..] == tail;
    } else {
      assert s[0] in s && forall c | c in s[1..] :: c in s;
      SplitPlain(s[1..], tail);
      assert (s + (['|'] + tail))[1..] == s[1..] + (['|'] + tail);
      assert [s[0]] + s[1..] == s;
      var rest := Split(s[1..] + (['|'] + tail));
      assert rest[0] == s[1..] && rest[1..] == Split(tail);
    }
  }

  lemma {:induction false} SplitGivesAlternatives(a: Alts)
    requires FlatAlts(a) && WfAlts(a)
    ensures Split(Inside(a)) == Printed(a)
    decreases a
  {
    FlatIsPlain(a.t, "");
    if a.More? {
      SplitGivesAlternatives(a.others);
      ShowFlat(a.t, ['|'] + Inside(a.others));
      SplitPlain(Print(a.t), Inside(a.others));
    } else {
      SplitPlain(Print(a.t), "");
    }
  }

  function Printed(a: Alts): seq<string>
  {
    [Print(a.t)] + if a.More? then Printed(a.others) else []
  }

  // ---------------------------------------------------------------- a pass on a template

  predicate Alternative(a: Alts, u: Template)
  {
    u == a.t || (a.More? && Alternative(a.others, u))
  }

  /** One pass on the tree: every group the regex matches becomes one of its alternatives. */
  ghost predicate TreePass(t: Template, u: Template)
  {
    match t
    case End => u == End
    case Lit(c, rest) => u.Lit? && u.c == c && TreePass(rest, u.rest)
    case Choice(alts, rest) =>
      if Matches(alts) then
        exists pick, tail :: Alternative(alts, pick) && u == Append(pick, tail) && TreePass(rest, tail)
      else
        u.Choice? && TreePassAlts(alts, u.alts) && TreePass(rest, u.rest)
  }

  ghost predicate TreePassAlts(a: Alts, b: Alts)
  {
    TreePass(a.t, b.t) && (a.More? <==> b.More?) && (a.More? ==> TreePassAlts(a.others, b.others))
  }

  lemma {:induction false} AlternativeIsPrinted(a: Alts, u: Template)
    requires FlatAlts(a) && WfAlts(a) && Alternative(a, u)
    ensures Flat(u) && Wf(u, true) && Print(u) in Printed(a) && (forall r :: Expands(u, r) ==> ExpandsAlts(a, r))
    decreases a
  {
    if u != a.t {
      AlternativeIsPrinted(a.others, u);
    }
  }

  lemma {:induction false} PrintedIsAlternative(a: Alts, alt: string) returns (u: Template)
    requires alt in Printed(a)
    ensures Alternative(a, u) && Print(u) == alt
    decreases a
  {
    if alt == Print(a.t) {
      u := a.t;
    } else {
      u := PrintedIsAlternative(a.others, alt);
    }
  }

  lemma PassChar(c: char, s: string, t: string)
    requires Pass([c] + s, t) && !GroupAtStart([c] + s)
    ensures t != "" && t == [c] + t[1..] && Pass(s, t[1..])
  {
    assert ([c] + s)[1..] == s;
  }

  lemma PassCharBack(c: char, s: string, t: string)
    requires Pass(s, t) && !GroupAtStart([c] + s)
    ensures Pass([c] + s, [c] + t)
  {
    assert ([c] + s)[1..] == s && ([c] + t)[1..] == t;
  }

  lemma {:induction false} ShowAppend(t: Template, u: Template, y: string)
    ensures Show(Append(t, u), y) == Show(t, Show(u, y))
    decreases t
  {
    if !t.End? {
      ShowAppend(t.rest, u, y);
    }
  }

  lemma PassTakesAlternative(alts: Alts, y: string, s': string) returns (pick: Template, after: string)
    requires WfAlts(alts) && Matches(alts) && Pass(['{'] + ShowAlts(alts, ['}'] + y), s')
    ensures Alternative(alts, pick) && s' == Show(pick, after) && Pass(y, after)
  {
    var s := ['{'] + ShowAlts(alts, ['}'] + y);
    MatchingGroup(alts, y);
    SplitGivesAlternatives(alts);
    var alt;
    alt, after :| alt in Split(Inner(s)) && s' == alt + after && Pass(AfterGroup(s), after);
    pick := PrintedIsAlternative(alts, alt);
    AlternativeIsPrinted(alts, pick);
    ShowFlat(pick, after);
  }

  /** A pass over a printed template with `y` behind it is a pass on the tree and a pass over `y`. */
  lemma {:induction false} PassOnTemplate(t: Template, inGroup: bool, y: string, s': string)
      returns (u: Template, y': string)
    requires Wf(t, inGroup) && Pass(Show(t, y), s')
    ensures s' == Show(u, y') && Pass(y, y') && TreePass(t, u)
    decreases t
  {
    match t
    case End => u, y' := End, s';
    case Lit(c, rest) =>
      PassChar(c, Show(rest, y), s');
      var tail;
      tail, y' := PassOnTemplate(rest, inGroup, y, s'[1..]);
      u := Lit(c, tail);
    case Choice(alts, rest) =>
      if Matches(alts) {
        var pick, after := PassTakesAlternative(alts, Show(rest, y), s');
        var tail;
        tail, y' := PassOnTemplate(rest, inGroup, y, after);
        u := Append(pick, tail);
        ShowAppend(pick, tail, y');
      } else {
        OtherGroup(alts, Show(rest, y));
        PassChar('{', ShowAlts(alts, ['}'] + Show(rest, y)), s');
        var b, z := PassOnAlts(alts, ['}'] + Show(rest, y), s'[1..]);
        PassChar('}', Show(rest, y), z);
        var tail;
        tail, y' := PassOnTemplate(rest, inGroup, y, z[1..]);
        u := Choice(b, tail);
      }
  }

  lemma {:induction false} PassOnAlts(a: Alts, y: string, s': string) returns (b: Alts, y': string)
    requires WfAlts(a) && Pass(ShowAlts(a, y), s')
    ensures s' == ShowAlts(b, y') && Pass(y, y') && TreePassAlts(a, b)
    decreases a
  {
    match a
    case One(t) =>
      var u;
      u, y' := PassOnTemplate(t, true, y, s');
      b := One(u);
    case More(t, others) =>
      var u, z := PassOnTemplate(t, true, ['|'] + ShowAlts(others, y), s');
      PassChar('|', ShowAlts(others, y), z);
      var c;
      c, y' := PassOnAlts(others, y, z[1..]);
      b := More(u, c);
  }

  lemma PassTakes(alts: Alts, pick: Template, y: string, y': string)
    requires WfAlts(alts) && Matches(alts) && Alternative(alts, pick) && Pass(y, y')
    ensures Pass(['{'] + ShowAlts(alts, ['}'] + y), Show(pick, y'))
  {
    MatchingGroup(alts, y);
    SplitGivesAlternatives(alts);
    AlternativeIsPrinted(alts, pick);
    ShowFlat(pick, y');
  }

  /** Every pass on the tree is a pass over its text. */
  lemma {:induction false} TreePassIsPass(t: Template, u: Template, inGroup: bool, y: string, y': string)
    requires Wf(t, inGroup) && TreePass(t, u) && Pass(y, y')
    ensures Pass(Show(t, y), Show(u, y'))
    decreases t
  {
    match t
    case End =>
    case Lit(c, rest) =>
      TreePassIsPass(rest, u.rest, inGroup, y, y');
      PassCharBack(c, Show(rest, y), Show(u.rest, y'));
    case Choice(alts, rest) =>
      if Matches(alts) {
        var pick, tail :| Alternative(alts, pick) && u == Append(pick, tail) && TreePass(rest, tail);
        TreePassIsPass(rest, tail, inGroup, y, y');
        PassTakes(alts, pick, Show(rest, y), Show(tail, y'));
        ShowAppend(pick, tail, y');
      } else {
        TreePassIsPass(rest, u.rest, inGroup, y, y');
        var z, z' := ['}'] + Show(rest, y), ['}'] + Show(u.rest, y');
        PassCharBack('}', Show(rest, y), Show(u.rest, y'));
        TreePassAltsIsPass(alts, u.alts, z, z');
        OtherGroup(alts, Show(rest, y));
        PassCharBack('{', ShowAlts(alts, z), ShowAlts(u.alts, z'));
      }
  }

  lemma {:induction false} TreePassAltsIsPass(a: Alts, b: Alts, y: string, y': string)
    requires WfAlts(a) && TreePassAlts(a, b) && Pass(y, y')
    ensures Pass(ShowAlts(a, y), ShowAlts(b, y'))
    decreases a
  {
    if a.One? {
      TreePassIsPass(a.t, b.t, true, y, y');
    } else {
      TreePassAltsIsPass(a.others, b.others, y, y');
      PassCharBack('|', ShowAlts(a.others, y), ShowAlts(b.others, y'));
      TreePassIsPass(a.t, b.t, true, ['|'] + ShowAlts(a.others, y), ['|'] + ShowAlts(b.others, y'));
    }
  }

  // ---------------------------------------------------------------- a pass keeps the meaning

  lemma {:induction false} TreePassRefines(t: Template, u: Template, inGroup: bool, r: string)
    requires Wf(t, inGroup) && TreePass(t, u) && Expands(u, r)
    ensures Expands(t, r)
    decreases t
  {
    match t
    case End =>
    case Lit(c, rest) => TreePassRefines(rest, u.rest, inGroup, r[1..]);
    case Choice(alts, rest) =>
      if Matches(alts) {
        var pick, tail :| Alternative(alts, pick) && u == Append(pick, tail) && TreePass(rest, tail);
        AlternativeIsPrinted(alts, pick);
        var i := AppendFlatSplits(pick, tail, r);
        TreePassRefines(rest, tail, inGroup, r[i..]);
        assert ExpandsAlts(alts, r[..i]);
      } else {
        var i :| 0 <= i <= |r| && ExpandsAlts(u.alts, r[..i]) && Expands(u.rest, r[i..]);
        TreePassAltsRefines(alts, u.alts, r[..i]);
        TreePassRefines(rest, u.rest, inGroup, r[i..]);
      }
  }

  lemma {:induction false} TreePassAltsRefines(a: Alts, b: Alts, r: string)
    requires WfAlts(a) && TreePassAlts(a, b) && ExpandsAlts(b, r)
    ensures ExpandsAlts(a, r)
    decreases a
  {
    if Expands(b.t, r) {
      TreePassRefines(a.t, b.t, true, r);
    } else {
      TreePassAltsRefines(a.others, b.others, r);
    }
  }

  lemma {:induction false} TreePassKeepsForm(t: Template, u: Template, inGroup: bool)
    requires Wf(t, inGroup) && TreePass(t, u)
    ensures Wf(u, inGroup) && (NoBlankGroup(t) ==> NoBlankGroup(u))
    decreases t
  {
    match t
    case End =>
    case Lit(c, rest) => TreePassKeepsForm(rest, u.rest, inGroup);
    case Choice(alts, rest) =>
      if Matches(alts) {
        var pick, tail :| Alternative(alts, pick) && u == Append(pick, tail) && TreePass(rest, tail);
        AlternativeIsPrinted(alts, pick);
        TreePassKeepsForm(rest, tail, inGroup);
        AppendFlat(pick, tail, inGroup);
      } else {
        TreePassAltsKeepForm(alts, u.alts);
        TreePassKeepsForm(rest, u.rest, inGroup);
        if alts.One? && Vanishes(u.alts.t) {
          VanishesIsExpandsToNothing(u.alts.t);
          TreePassRefines(alts.t, u.alts.t, true, "");
          VanishesIsExpandsToNothing(alts.t);
        }
      }
  }

  lemma {:induction false} TreePassAltsKeepForm(a: Alts, b: Alts)
    requires WfAlts(a) && TreePassAlts(a, b)
    ensures WfAlts(b) && (NoBlankGroupAlts(a) ==> NoBlankGroupAlts(b))
    decreases a
  {
    TreePassKeepsForm(a.t, b.t, true);
    if a.More? {
      TreePassAltsKeepForm(a.others, b.others);
    }
  }

  // ---------------------------------------------------------------- whole runs

  lemma {:induction false} ReachesTemplate(t: Template, s: string, n: nat) returns (u: Template)
    requires Wf(t, false) && Reaches(Print(t), s, n)
    ensures s == Print(u) && Wf(u, false) && (NoBlankGroup(t) ==> NoBlankGroup(u))
    ensures forall r :: Expands(u, r) ==> Expands(t, r)
    decreases n
  {
    if n == 0 {
      u := t;
    } else {
      var m :| Reaches(Print(t), m, n - 1) && Pass(m, s);
      var v := ReachesTemplate(t, m, n - 1);
      var y;
      u, y := PassOnTemplate(v, false, "", s);
      TreePassKeepsForm(v, u, false);
      forall r | Expands(u, r) ensures Expands(t, r) {
        TreePassRefines(v, u, false, r);
      }
    }
  }

  /** With no blank group, a text without groups is a template without choices. */
  lemma {:induction false} FinishedIsFlat(t: Template, inGroup: bool, y: string)
    requires Wf(t, inGroup) && NoBlankGroup(t) && NoGroup(Show(t, y))
    ensures Flat(t) && NoGroup(y)
    decreases t
  {
    match t
    case End =>
    case Lit(c, rest) =>
      assert Show(t, y)[1..] == Show(rest, y);
      FinishedIsFlat(rest, inGroup, y);
    case Choice(alts, rest) =>
      var z := ['}'] + Show(rest, y);
      assert Show(t, y)[1..] == ShowAlts(alts, z);
      FinishedAltsAreFlat(alts, z);
      if Inside(alts) == "" {
        OnlyNothingIsBlank(alts);
      } else {
        MatchingGroup(alts, Show(rest, y));
      }
  }

  lemma {:induction false} FinishedAltsAreFlat(a: Alts, y: string)
    requires WfAlts(a) && NoBlankGroupAlts(a) && NoGroup(ShowAlts(a, y))
    ensures FlatAlts(a)
    decreases a
  {
    if a.One? {
      FinishedIsFlat(a.t, true, y);
    } else {
      var z := ['|'] + ShowAlts(a.others, y);
      FinishedIsFlat(a.t, true, z);
      assert z[1..] == ShowAlts(a.others, y);
      FinishedAltsAreFlat(a.others, y);
    }
  }

  lemma OnlyNothingIsBlank(a: Alts)
    requires FlatAlts(a) && Inside(a) == ""
    ensures a.One? && Vanishes(a.t)
  {
    if a.More? {
      ShowFlat(a.t, ['|'] + Inside(a.others));
    }
    OnlyEndPrintsNothing(a.t);
  }

  lemma OnlyEndPrintsNothing(t: Template)
    ensures Print(t) == "" ==> t.End?
  {
    assert t.Lit? ==> |Print(t)| == 1 + |Show(t.rest, "")|;
  }

  /** Every text `rand_text` can return is one of the template's texts. */
  lemma OutputsAreExpansions(t: Template, r: string)
    requires Wf(t, false) && NoBlankGroup(t) && Output(Print(t), r)
    ensures Expands(t, r)
  {
    var n: nat :| Reaches(Print(t), r, n);
    var u := ReachesTemplate(t, r, n);
    PassShrinks(r, r);
    FinishedIsFlat(u, false, "");
    FlatExpands(u, r);
  }

  lemma {:induction false} ReachesFront(s: string, m: string, r: string, n: nat)
    requires Pass(s, m) && Reaches(m, r, n)
    ensures Reaches(s, r, n + 1)
    decreases n
  {
    if n == 0 {
      assert Reaches(s, s, 0);
    } else {
      var k :| Reaches(m, k, n - 1) && Pass(k, r);
      ReachesFront(s, m, k, n - 1);
    }
  }

  lemma OutputFront(s: string, m: string, r: string)
    requires Pass(s, m) && Output(m, r)
    ensures Output(s, r)
  {
    var n: nat :| Reaches(m, r, n);
    ReachesFront(s, m, r, n);
    var k: nat := n + 1;
    assert Reaches(s, r, k);
  }

  lemma {:induction false} PickFor(a: Alts, r: string) returns (u: Template)
    requires ExpandsAlts(a, r)
    ensures Alternative(a, u) && Expands(u, r)
    decreases a
  {
    if Expands(a.t, r) {
      u := a.t;
    } else {
      u := PickFor(a.others, r);
    }
  }

  /** Some pass keeps a chosen text possible. */
  lemma {:induction false} PassToward(t: Template, inGroup: bool, r: string) returns (u: Template)
    requires Wf(t, inGroup) && Expands(t, r)
    ensures TreePass(t, u) && Expands(u, r)
    decreases t
  {
    match t
    case End => u := End;
    case Lit(c, rest) =>
      var tail := PassToward(rest, inGroup, r[1..]);
      u := Lit(c, tail);
    case Choice(alts, rest) =>
      var i :| 0 <= i <= |r| && ExpandsAlts(alts, r[..i]) && Expands(rest, r[i..]);
      var tail := PassToward(rest, inGroup, r[i..]);
      if Matches(alts) {
        var pick := PickFor(alts, r[..i]);
        AlternativeIsPrinted(alts, pick);
        AppendFlatJoins(pick, tail, r, i);
        u := Append(pick, tail);
      } else {
        var b := PassTowardAlts(alts, r[..i]);
        u := Choice(b, tail);
      }
  }

  lemma {:induction false} PassTowardAlts(a: Alts, r: string) returns (b: Alts)
    requires WfAlts(a) && ExpandsAlts(a, r)
    ensures TreePassAlts(a, b) && ExpandsAlts(b, r)
    decreases a
  {
    var text := SomeText(a.t);
    var u := PassToward(a.t, true, if Expands(a.t, r) then r else text);
    if a.One? {
      b := One(u);
    } else {
      var more := SomeAltText(a.others);
      var c := PassTowardAlts(a.others, if ExpandsAlts(a.others, r) then r else more);
      b := More(u, c);
    }
  }

  lemma {:induction false} SomeText(t: Template) returns (r: string)
    ensures Expands(t, r)
    decreases t
  {
    match t
    case End => r := "";
    case Lit(c, rest) =>
      var s := SomeText(rest);
      r := [c] + s;
    case Choice(alts, rest) =>
      var a := SomeAltText(alts);
      var s := SomeText(rest);
      r := a + s;
      assert r[..|a|] == a && r[|a|..] == s;
  }

  lemma {:induction false} SomeAltText(a: Alts) returns (r: string)
    ensures ExpandsAlts(a, r)
    decreases a
  {
    r := SomeText(a.t);
  }

  /** Every text of the template can be returned. */
  lemma {:induction false} ExpansionsAreOutputs(t: Template, r: string)
    requires Wf(t, false) && NoBlankGroup(t) && Expands(t, r)
    ensures Output(Print(t), r)
    decreases |Print(t)|
  {
    var u := PassToward(t, false, r);
    TreePassKeepsForm(t, u, false);
    assert Pass("", "");
    TreePassIsPass(t, u, false, "", "");
    PassShrinks(Print(t), Print(u));
    if NoGroup(Print(t)) {
      FinishedIsFlat(t, false, "");
      FlatExpands(t, r);
      assert Reaches(Print(t), r, 0);
    } else {
      ExpansionsAreOutputs(u, r);
      OutputFront(Print(t), Print(u), r);
    }
  }

  // ---------------------------------------------------------------- blank groups

  /** Some pass keeps a blank group blank. */
  lemma {:induction false} PassKeepsBlank(t: Template, inGroup: bool) returns (u: Template)
    requires Wf(t, inGroup) && !NoBlankGroup(t)
    ensures TreePass(t, u) && !NoBlankGroup(u)
    decreases t
  {
    match t
    case End => assert false;
    case Lit(c, rest) =>
      var tail := PassKeepsBlank(rest, inGroup);
      u := Lit(c, tail);
    case Choice(alts, rest) =>
      var tail;
      if NoBlankGroup(rest) {
        var text := SomeText(rest);
        tail := PassToward(rest, inGroup, text);
      } else {
        tail := PassKeepsBlank(rest, inGroup);
      }
      if Matches(alts) {
        MatchIsNotBlank(alts);
        TreePassKeepsForm(rest, tail, inGroup);
        AlternativeIsPrinted(alts, alts.t);
        AppendFlat(alts.t, tail, inGroup);
        u := Append(alts.t, tail);
      } else {
        var b := PassKeepsBlankAlts(alts);
        u := Choice(b, tail);
      }
  }

  predicate Blank(a: Alts) { !NoBlankGroupAlts(a) || (a.One? && Vanishes(a.t)) }

  lemma {:induction false} MatchIsNotBlank(a: Alts)
    requires Matches(a)
    ensures !Blank(a)
    decreases a
  {
    FlatHasNoBlank(a);
    if a.One? && Vanishes(a.t) {
      VanishesIsExpandsToNothing(a.t);
      FlatExpands(a.t, "");
    }
  }

  lemma {:induction false} FlatHasNoBlank(a: Alts)
    requires FlatAlts(a)
    ensures NoBlankGroupAlts(a)
    decreases a
  {
    FlatTemplateHasNoBlank(a.t);
    if a.More? {
      FlatHasNoBlank(a.others);
    }
  }

  lemma {:induction false} FlatTemplateHasNoBlank(t: Template)
    requires Flat(t)
    ensures NoBlankGroup(t)
    decreases t
  {
    if t.Lit? {
      FlatTemplateHasNoBlank(t.rest);
    }
  }

  lemma {:induction false} PassKeepsBlankAlts(a: Alts) returns (b: Alts)
    requires WfAlts(a)
    ensures TreePassAlts(a, b) && (Blank(a) ==> Blank(b))
    ensures !NoBlankGroupAlts(a) ==> !NoBlankGroupAlts(b)
    decreases a
  {
    var u;
    if !NoBlankGroup(a.t) {
      u := PassKeepsBlank(a.t, true);
    } else if Vanishes(a.t) {
      VanishesIsExpandsToNothing(a.t);
      u := PassToward(a.t, true, "");
      VanishesIsExpandsToNothing(u);
    } else {
      var text := SomeText(a.t);
      u := PassToward(a.t, true, text);
    }
    if a.One? {
      b := One(u);
    } else {
      var c := PassKeepsBlankAlts(a.others);
      b := More(u, c);
    }
  }

  lemma {:induction false} TextsHaveNoBraces(t: Template, inGroup: bool, r: string)
    requires Wf(t, inGroup) && Expands(t, r)
    ensures Braces(r) == 0
    decreases t
  {
    match t
    case End =>
    case Lit(c, rest) => TextsHaveNoBraces(rest, inGroup, r[1..]);
    case Choice(alts, rest) =>
      var i :| 0 <= i <= |r| && ExpandsAlts(alts, r[..i]) && Expands(rest, r[i..]);
      AltTextsHaveNoBraces(alts, r[..i]);
      TextsHaveNoBraces(rest, inGroup, r[i..]);
      BracesConcat(r[..i], r[i..]);
      assert r == r[..i] + r[i..];
  }

  lemma {:induction false} AltTextsHaveNoBraces(a: Alts, r: string)
    requires WfAlts(a) && ExpandsAlts(a, r)
    ensures Braces(r) == 0
    decreases a
  {
    if Expands(a.t, r) {
      TextsHaveNoBraces(a.t, true, r);
    } else {
      AltTextsHaveNoBraces(a.others, r);
    }
  }

  lemma {:induction false} BlankHasBraces(t: Template)
    requires !NoBlankGroup(t)
    ensures Braces(Print(t)) > 0
    decreases t
  {
    if t.Lit? {
      BlankHasBraces(t.rest);
      assert Print(t)[1..] == Print(t.rest);
    }
  }

  /** A template with a blank group can leave a text with braces. */
  lemma {:induction false} BlankGroupSurvives(t: Template) returns (r: string)
    requires Wf(t, false) && !NoBlankGroup(t)
    ensures Output(Print(t), r) && Braces(r) > 0
    decreases |Print(t)|
  {
    var u := PassKeepsBlank(t, false);
    TreePassKeepsForm(t, u, false);
    assert Pass("", "");
    TreePassIsPass(t, u, false, "", "");
    PassShrinks(Print(t), Print(u));
    if NoGroup(Print(t)) {
      r := Print(t);
      BlankHasBraces(t);
      assert Reaches(r, r, 0);
    } else {
      r := BlankGroupSurvives(u);
      OutputFront(Print(t), Print(u), r);
    }
  }

  /** `rand_text` returns exactly the texts of the template, if and only if no group consists of a
      single alternative that can become empty. */
  lemma OutputsAreTheExpansionsIff(t: Template)
    requires Wf(t, false)
    ensures (forall r :: Output(Print(t), r) <==> Expands(t, r)) <==> NoBlankGroup(t)
  {
    if NoBlankGroup(t) {
      forall r ensures Output(Print(t), r) <==> Expands(t, r) {
        if Output(Print(t), r) { OutputsAreExpansions(t, r); }
        if Expands(t, r) { ExpansionsAreOutputs(t, r); }
      }
    } else {
      var r := BlankGroupSurvives(t);
      if Expands(t, r) { TextsHaveNoBraces(t, false, r); }
      assert !(Output(Print(t), r) <==> Expands(t, r));
    }
  }

  lemma BracesAreNoText(t: Template, r: string)
    requires Wf(t, false) && Braces(r) > 0
    ensures !Expands(t, r)
  {
    if Expands(t, r) {
      TextsHaveNoBraces(t, false, r);
    }
  }

  /** The text of a pass on the tree that no further pass changes can be returned. */
  lemma LastPass(t: Template, u: Template)
    requires Wf(t, false) && Wf(u, false) && TreePass(t, u) && TreePass(u, u)
    ensures Output(Print(t), Print(u))
  {
    hide Wf, TreePass, Show;
    assert Pass("", "");
    TreePassIsPass(t, u, false, "", "");
    TreePassIsPass(u, u, false, "", "");
    assert Reaches(Print(u), Print(u), 0);
    OutputFront(Print(t), Print(u), Print(u));
  }

  // The group a or nothing, alone in a group; and what is left of it when nothing is taken.
  const A_OR_NOTHING := More(Lit('a', End), One(End))
  const BLANK_PAIR := Choice(One(Choice(A_OR_NOTHING, End)), End)
  const EMPTY_PAIR := Choice(One(End), End)

  lemma PairsPrint()
    ensures Print(BLANK_PAIR) == "{{a|}}" && Print(EMPTY_PAIR) == "{}" && Braces(Print(EMPTY_PAIR)) > 0
  {
    PairHasBraces();
    assert Show(Lit('a', End), "|}}") == "a|}}";
    assert ['|'] + ShowAlts(One(End), "}}") == "|}}";
    assert ShowAlts(A_OR_NOTHING, "}}") == "a|}}";
    assert ['}'] + Show(End, "}") == "}}";
    assert Show(Choice(A_OR_NOTHING, End), "}") == "{a|}}";
    assert ['}'] + Show(End, "") == "}";
  }

  lemma PairHasBraces()
    ensures Braces("{}") > 0
  {
  }

  lemma NothingIsTaken()
    ensures Wf(BLANK_PAIR, false) && Wf(EMPTY_PAIR, false)
    ensures TreePass(BLANK_PAIR, EMPTY_PAIR) && TreePass(EMPTY_PAIR, EMPTY_PAIR)
  {
    assert Inside(One(End)) == "" && !Matches(One(End));
    assert Inside(A_OR_NOTHING) != "" by { assert |Show(Lit('a', End), "|")| > 0; }
    assert Alternative(A_OR_NOTHING, End) && Append(End, End) == End && TreePass(End, End);
    assert TreePass(Choice(A_OR_NOTHING, End), End);
  }

  /** {{a|}} stands for the texts "a" and "", but a pair of braces can be left of it. */
  lemma BlankPairIsLeft()
    ensures Wf(BLANK_PAIR, false) && Print(BLANK_PAIR) == "{{a|}}" && Print(EMPTY_PAIR) == "{}"
    ensures Output(Print(BLANK_PAIR), Print(EMPTY_PAIR)) && !Expands(BLANK_PAIR, Print(EMPTY_PAIR))
  {
    hide *;
    PairsPrint();
    NothingIsTaken();
    LastPass(BLANK_PAIR, EMPTY_PAIR);
    BracesAreNoText(BLANK_PAIR, Print(EMPTY_PAIR));
  }
}
