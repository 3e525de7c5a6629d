/** The parser that collects one HTML subtree with a depth counter (`_DescriptionParser` in
    backend/app/hh/vacancy_page.py). */
module VacancyPage {

  const BLOCK_TAGS := {"br", "div", "p", "li", "ul", "ol", "h1", "h2", "h3", "h4"}

  const VOID_TAGS := {"area", "base", "br", "col", "embed", "hr", "img", "input", "link", "meta", "param",
                      "source", "track", "wbr"}

  /** What the tokenizer reports; `target` says whether the tag carries the description marker. */
  datatype Event =
    | StartTag(tag: string, target: bool)
    | StartEndTag(tag: string)
    | EndTag(tag: string)
    | Data(text: string)

  /** The line break a block tag leaves in the text. */
  function Break(tag: string): seq<string> { if tag in BLOCK_TAGS then ["\n"] else [] }

  datatype State = State(depth: int, parts: seq<string>)

  function OnEvent(st: State, e: Event): State
  {
    match e
    case StartTag(tag, target) =>
      if st.depth == 0 then (if target then st.(depth := 1) else st)
      else State(if tag in VOID_TAGS then st.depth else st.depth + 1, st.parts + Break(tag))
    case StartEndTag(tag) => if st.depth == 0 then st else st.(parts := st.parts + Break(tag))
    case EndTag(tag) =>
      if st.depth == 0 then st
      else State(if tag in VOID_TAGS then st.depth else st.depth - 1, st.parts + Break(tag))
    case Data(text) => if st.depth == 0 then st else st.(parts := st.parts + [text])
  }

  function Feed(st: State, es: seq<Event>): State
    decreases es
  {
    if es == [] then st else Feed(OnEvent(st, es[0]), es[1..])
  }

  class DescriptionParser {
    var depth: int
    var parts: seq<string>

    function Now(): State reads this { State(depth, parts) }

    constructor ()
      ensures Now() == State(0, [])
    {
      depth, parts := 0, [];
    }

    method HandleStartTag(tag: string, target: bool)
      modifies this
      ensures Now() == OnEvent(old(Now()), StartTag(tag, target))
    {
      if depth == 0 {
        if target {
          depth := 1;
        }
        return;
      }
      if tag in BLOCK_TAGS {
        parts := parts + ["\n"];
      }
      if tag !in VOID_TAGS {
        depth := depth + 1;
      }
    }

    method HandleStartEndTag(tag: string)
      modifies this
      ensures Now() == OnEvent(old(Now()), StartEndTag(tag))
    {
      if depth != 0 && tag in BLOCK_TAGS {
        parts := parts + ["\n"];
      }
    }

    method HandleEndTag(tag: string)
      modifies this
      ensures Now() == OnEvent(old(Now()), EndTag(tag))
    {
      if depth == 0 {
        return;
      }
      if tag in BLOCK_TAGS {
        parts := parts + ["\n"];
      }
      if tag !in VOID_TAGS {
        depth := depth - 1;
      }
    }

    method HandleData(text: string)
      modifies this
      ensures Now() == OnEvent(old(Now()), Data(text))
    {
      if depth != 0 {
        parts := parts + [text];
      }
    }

    /** The tokenizer calls one handler for each event. */
    method FeedAll(es: seq<Event>)
      modifies this
      ensures Now() == Feed(old(Now()), es)
    {
      for i := 0 to |es|
        invariant Feed(Now(), es[i..]) == Feed(old(Now()), es)
      {
        assert es[i..][0] == es[i] && es[i..][1..] == es[i + 1..];
        match es[i]
        case StartTag(tag, target) => HandleStartTag(tag, target);
        case StartEndTag(tag) => HandleStartEndTag(tag);
        case EndTag(tag) => HandleEndTag(tag);
        case Data(text) => HandleData(text);
      }
      assert es[|es|..] == [];
    }
  }

  /** Builds the parts that the description is joined from. */
  method ExtractParts(es: seq<Event>) returns (parts: seq<string>)
    ensures parts == Feed(State(0, []), es).parts
  {
    var parser := new DescriptionParser();
    parser.FeedAll(es);
    parts := parser.parts;
  }

  // ---------------------------------------------------------------- element trees

  /** Element content as section 13.1.2 of the HTML Living Standard writes it: a void element has a start
      tag only, a self-closed tag has no content, any other element has both tags. */
  datatype Forest =
    | Nil
    | Text(text: string, rest: Forest)
    | Void(tag: string, target: bool, rest: Forest)
    | SelfClosed(tag: string, rest: Forest)
    | Element(tag: string, target: bool, kids: Forest, rest: Forest)

  predicate Wf(f: Forest)
  {
    match f
    case Nil => true
    case Text(_, rest) => Wf(rest)
    case Void(tag, _, rest) => tag in VOID_TAGS && Wf(rest)
    case SelfClosed(_, rest) => Wf(rest)
    case Element(tag, _, kids, rest) => tag !in VOID_TAGS && Wf(kids) && Wf(rest)
  }

  /** The events of a forest, with the events `es` behind it. */
  function Events(f: Forest, es: seq<Event>): seq<Event>
  {
    match f
    case Nil => es
    case Text(text, rest) => [Data(text)] + Events(rest, es)
    case Void(tag, target, rest) => [StartTag(tag, target)] + Events(rest, es)
    case SelfClosed(tag, rest) => [StartEndTag(tag)] + Events(rest, es)
    case Element(tag, target, kids, rest) => [StartTag(tag, target)] + Events(kids, [EndTag(tag)] + Events(rest, es))
  }

  /** The text of content that stands inside a target. */
  function Inner(f: Forest): seq<string>
  {
    match f
    case Nil => []
    case Text(text, rest) => [text] + Inner(rest)
    case Void(tag, _, rest) => Break(tag) + Inner(rest)
    case SelfClosed(tag, rest) => Break(tag) + Inner(rest)
    case Element(tag, _, kids, rest) => Break(tag) + Inner(kids) + Break(tag) + Inner(rest)
  }

  /** The text of all outermost targets of a forest. */
  function TargetText(f: Forest): seq<string>
  {
    match f
    case Nil => []
    case Text(_, rest) => TargetText(rest)
    case Void(_, _, rest) => TargetText(rest)
    case SelfClosed(_, rest) => TargetText(rest)
    case Element(tag, target, kids, rest) =>
      (if target then Inner(kids) + Break(tag) else TargetText(kids)) + TargetText(rest)
  }

  /** No void element outside a target carries the marker. */
  predicate NoVoidTarget(f: Forest)
  {
    match f
    case Nil => true
    case Text(_, rest) => NoVoidTarget(rest)
    case Void(_, target, rest) => !target && NoVoidTarget(rest)
    case SelfClosed(_, rest) => NoVoidTarget(rest)
    case Element(_, target, kids, rest) => (target || NoVoidTarget(kids)) && NoVoidTarget(rest)
  }

  /** All the parser collects from a forest read at depth 0, and whether it ends with the counter still up.
      A void element with the marker opens a target that its parent's end tag closes. */
  function Collected(f: Forest): (seq<string>, bool)
  {
    match f
    case Nil => ([], false)
    case Text(_, rest) => Collected(rest)
    case Void(_, target, rest) => if target then (Inner(rest), true) else Collected(rest)
    case SelfClosed(_, rest) => Collected(rest)
    case Element(tag, target, kids, rest) =>
      var (inside, open) := if target then (Inner(kids), true) else Collected(kids);
      var (after, stillOpen) := Collected(rest);
      (inside + (if open then Break(tag) else []) + after, stillOpen)
  }

  lemma FeedStep(st: State, e: Event, es: seq<Event>)
    ensures Feed(st, [e] + es) == Feed(OnEvent(st, e), es)
  {
    assert ([e] + es)[1..] == es;
  }

  lemma Assoc<T>(p: seq<T>, a: seq<T>, b: seq<T>, c: seq<T>, d: seq<T>)
    ensures p + a + b == p + (a + b)
    ensures p + a + b + c == p + (a + b + c)
    ensures p + a + b + c + d == p + (a + b + c + d)
  {
  }

  lemma {:induction false} ReadsInside(f: Forest, d: int, parts: seq<string>, es: seq<Event>)
    requires Wf(f) && d > 0
    ensures Feed(State(d, parts), Events(f, es)) == Feed(State(d, parts + Inner(f)), es)
    decreases f
  {
    match f
    case Nil => assert parts + [] == parts;
    case Text(text, rest) =>
      FeedStep(State(d, parts), Data(text), Events(rest, es));
      ReadsInside(rest, d, parts + [text], es);
      Assoc(parts, [text], Inner(rest), [], []);
    case Void(tag, target, rest) =>
      FeedStep(State(d, parts), StartTag(tag, target), Events(rest, es));
      ReadsInside(rest, d, parts + Break(tag), es);
      Assoc(parts, Break(tag), Inner(rest), [], []);
    case SelfClosed(tag, rest) =>
      FeedStep(State(d, parts), StartEndTag(tag), Events(rest, es));
      ReadsInside(rest, d, parts + Break(tag), es);
      Assoc(parts, Break(tag), Inner(rest), [], []);
    case Element(tag, target, kids, rest) =>
      var after := [EndTag(tag)] + Events(rest, es);
      var inside0 := parts + Break(tag);
      FeedStep(State(d, parts), StartTag(tag, target), Events(kids, after));
      ReadsInside(kids, d + 1, inside0, after);
      FeedStep(State(d + 1, inside0 + Inner(kids)), EndTag(tag), Events(rest, es));
      ReadsInside(rest, d, inside0 + Inner(kids) + Break(tag), es);
      Assoc(parts, Break(tag), Inner(kids), Break(tag), Inner(rest));
  }

  /** What is read from any well-formed content, whatever was collected before and whatever follows. */
  lemma {:induction false} ReadsOutside(f: Forest, parts: seq<string>, es: seq<Event>)
    requires Wf(f)
    ensures Feed(State(0, parts), Events(f, es))
         == Feed(State(if Collected(f).1 then 1 else 0, parts + Collected(f).0), es)
    decreases f
  {
    match f
    case Nil => assert parts + [] == parts;
    case Text(text, rest) =>
      FeedStep(State(0, parts), Data(text), Events(rest, es));
      ReadsOutside(rest, parts, es);
    case Void(tag, target, rest) =>
      FeedStep(State(0, parts), StartTag(tag, target), Events(rest, es));
      if target {
        ReadsInside(rest, 1, parts, es);
      } else {
        ReadsOutside(rest, parts, es);
      }
    case SelfClosed(tag, rest) =>
      FeedStep(State(0, parts), StartEndTag(tag), Events(rest, es));
      ReadsOutside(rest, parts, es);
    case Element(tag, target, kids, rest) =>
      var after := [EndTag(tag)] + Events(rest, es);
      FeedStep(State(0, parts), StartTag(tag, target), Events(kids, after));
      var (inside, open) := if target then (Inner(kids), true) else Collected(kids);
      if target {
        ReadsInside(kids, 1, parts, after);
      } else {
        ReadsOutside(kids, parts, after);
      }
      var closed := parts + inside + (if open then Break(tag) else []);
      FeedStep(State(if open then 1 else 0, parts + inside), EndTag(tag), Events(rest, es));
      assert open || closed == parts + inside;
      ReadsOutside(rest, closed, es);
      Assoc(parts, inside, if open then Break(tag) else [], Collected(rest).0, []);
  }

  lemma {:induction false} WithoutVoidTargets(f: Forest)
    requires NoVoidTarget(f)
    ensures Collected(f) == (TargetText(f), false)
    decreases f
  {
    match f
    case Nil =>
    case Text(_, rest) => WithoutVoidTargets(rest);
    case Void(_, _, rest) => WithoutVoidTargets(rest);
    case SelfClosed(_, rest) => WithoutVoidTargets(rest);
    case Element(tag, target, kids, rest) =>
      WithoutVoidTargets(rest);
      if !target {
        WithoutVoidTargets(kids);
        assert TargetText(kids) + [] == TargetText(kids);
      }
  }

  /** The page's description is exactly the text of its targets, and the counter ends at 0. */
  lemma CollectsTheTargets(f: Forest)
    requires Wf(f) && NoVoidTarget(f)
    ensures Feed(State(0, []), Events(f, [])) == State(0, TargetText(f))
  {
    ReadsOutside(f, [], []);
    WithoutVoidTargets(f);
    assert [] + TargetText(f) == TargetText(f);
  }

  /** The counter is up after every event. */
  predicate StaysOpen(st: State, es: seq<Event>)
    decreases es
  {
    st.depth > 0 && (es != [] ==> StaysOpen(OnEvent(st, es[0]), es[1..]))
  }

  lemma StaysOpenStep(st: State, e: Event, es: seq<Event>)
    ensures StaysOpen(st, [e] + es) <==> st.depth > 0 && StaysOpen(OnEvent(st, e), es)
  {
    assert ([e] + es)[1..] == es;
  }

  lemma {:induction false} InsideStaysOpen(f: Forest, d: int, parts: seq<string>, es: seq<Event>)
    requires Wf(f) && d > 0
    ensures StaysOpen(State(d, parts), Events(f, es)) <==> StaysOpen(State(d, parts + Inner(f)), es)
    decreases f
  {
    match f
    case Nil => assert parts + [] == parts;
    case Text(text, rest) =>
      StaysOpenStep(State(d, parts), Data(text), Events(rest, es));
      InsideStaysOpen(rest, d, parts + [text], es);
      Assoc(parts, [text], Inner(rest), [], []);
    case Void(tag, target, rest) =>
      StaysOpenStep(State(d, parts), StartTag(tag, target), Events(rest, es));
      InsideStaysOpen(rest, d, parts + Break(tag), es);
      Assoc(parts, Break(tag), Inner(rest), [], []);
    case SelfClosed(tag, rest) =>
      StaysOpenStep(State(d, parts), StartEndTag(tag), Events(rest, es));
      InsideStaysOpen(rest, d, parts + Break(tag), es);
      Assoc(parts, Break(tag), Inner(rest), [], []);
    case Element(tag, target, kids, rest) =>
      var after := [EndTag(tag)] + Events(rest, es);
      var inside0 := parts + Break(tag);
      StaysOpenStep(State(d, parts), StartTag(tag, target), Events(kids, after));
      InsideStaysOpen(kids, d + 1, inside0, after);
      StaysOpenStep(State(d + 1, inside0 + Inner(kids)), EndTag(tag), Events(rest, es));
      InsideStaysOpen(rest, d, inside0 + Inner(kids) + Break(tag), es);
      Assoc(parts, Break(tag), Inner(kids), Break(tag), Inner(rest));
  }

  /** The counter falls back to 0 with the target's own end tag and not before. */
  lemma ClosesWithTheTarget(tag: string, kids: Forest, parts: seq<string>)
    requires tag !in VOID_TAGS && Wf(kids)
    ensures var inside0 := OnEvent(State(0, parts), StartTag(tag, true));
            && StaysOpen(inside0, Events(kids, []))
            && OnEvent(Feed(inside0, Events(kids, [])), EndTag(tag)) == State(0, parts + Inner(kids) + Break(tag))
  {
    InsideStaysOpen(kids, 1, parts, []);
    ReadsInside(kids, 1, parts, []);
  }

  // ---------------------------------------------------------------- void elements with the marker

  /** Content whose text, read inside a target, is that of its own targets only. */
  predicate AddsNothing(f: Forest)
  {
    match f
    case Nil => true
    case Text(_, _) => false
    case Void(tag, _, rest) => tag !in BLOCK_TAGS && AddsNothing(rest)
    case SelfClosed(tag, rest) => tag !in BLOCK_TAGS && AddsNothing(rest)
    case Element(tag, target, kids, rest) =>
      tag !in BLOCK_TAGS && (target || AddsNothing(kids)) && AddsNothing(rest)
  }

  /** Every void element with the marker outside a target stands in an element whose end leaves no line
      break (`quiet`), with only content behind it that adds nothing. */
  predicate Harmless(f: Forest, quiet: bool)
  {
    match f
    case Nil => true
    case Text(_, rest) => Harmless(rest, quiet)
    case Void(_, target, rest) => if target then quiet && AddsNothing(rest) else Harmless(rest, quiet)
    case SelfClosed(_, rest) => Harmless(rest, quiet)
    case Element(tag, target, kids, rest) =>
      (target || Harmless(kids, tag !in BLOCK_TAGS)) && Harmless(rest, quiet)
  }

  lemma {:induction false} InnerIsAtLeastTargets(f: Forest)
    ensures |Inner(f)| >= |TargetText(f)|
    ensures |Inner(f)| == |TargetText(f)| <==> AddsNothing(f)
    ensures AddsNothing(f) ==> Inner(f) == TargetText(f)
    decreases f
  {
    match f
    case Nil =>
    case Text(_, rest) => InnerIsAtLeastTargets(rest);
    case Void(_, _, rest) => InnerIsAtLeastTargets(rest);
    case SelfClosed(_, rest) => InnerIsAtLeastTargets(rest);
    case Element(_, _, kids, rest) =>
      InnerIsAtLeastTargets(kids);
      InnerIsAtLeastTargets(rest);
  }

  /** How much longer the collected text is when a target left open closes with a line break. */
  function Excess(f: Forest, quiet: bool): nat { if Collected(f).1 && !quiet then 1 else 0 }

  lemma {:induction false} CollectedIsAtLeastTargets(f: Forest, quiet: bool)
    ensures |Collected(f).0| + Excess(f, quiet) >= |TargetText(f)|
    ensures |Collected(f).0| + Excess(f, quiet) == |TargetText(f)| <==> Harmless(f, quiet)
    ensures Harmless(f, quiet) ==> Collected(f).0 == TargetText(f)
    decreases f
  {
    match f
    case Nil =>
    case Text(_, rest) => CollectedIsAtLeastTargets(rest, quiet);
    case Void(_, target, rest) =>
      if target { InnerIsAtLeastTargets(rest); } else { CollectedIsAtLeastTargets(rest, quiet); }
    case SelfClosed(_, rest) => CollectedIsAtLeastTargets(rest, quiet);
    case Element(tag, target, kids, rest) =>
      CollectedIsAtLeastTargets(rest, quiet);
      if !target {
        CollectedIsAtLeastTargets(kids, tag !in BLOCK_TAGS);
        assert Collected(kids).0 + [] == Collected(kids).0;
      }
  }

  /** The parser collects exactly the targets and ends with the counter at 0 if and only if every void
      element with the marker is harmless. */
  lemma CollectsTheTargetsIff(f: Forest)
    requires Wf(f)
    ensures Feed(State(0, []), Events(f, [])) == State(0, TargetText(f)) <==> Harmless(f, false)
  {
    ReadsOutside(f, [], []);
    CollectedIsAtLeastTargets(f, false);
    assert [] + Collected(f).0 == Collected(f).0;
  }

  /** A void element with the marker makes the parser collect text that no target holds. */
  lemma VoidTargetCollectsMore()
    ensures var f := Void("br", true, Text("outside", Nil));
            && Wf(f) && TargetText(f) == [] && Feed(State(0, []), Events(f, [])) == State(1, ["outside"])
  {
    var f := Void("br", true, Text("outside", Nil));
    ReadsOutside(f, [], []);
    assert Inner(Text("outside", Nil)) == ["outside"];
    assert [] + ["outside"] == ["outside"];
  }

  // ---------------------------------------------------------------- the tags that count

  /** The void elements of HTML (section 13.1.2 of the HTML standard, with the obsolete param). */
  predicate IsVoid(tag: string)
  {
    || tag == "area" || tag == "base" || tag == "br" || tag == "col" || tag == "embed" || tag == "hr" || tag == "img"
    || tag == "input" || tag == "link" || tag == "meta" || tag == "param" || tag == "source" || tag == "track"
    || tag == "wbr"
  }

  /** The elements that stand on lines of their own. */
  predicate BreaksLines(tag: string)
  {
    || tag == "br" || tag == "div" || tag == "p" || tag == "li" || tag == "ul" || tag == "ol" || tag == "h1"
    || tag == "h2" || tag == "h3" || tag == "h4"
  }

  /** In a description, a tag without an end tag is harmless exactly if its element is void: the text behind the
      description is not collected. */
  lemma UnclosedTagIsHarmlessIff(tag: string)
    ensures var inside := OnEvent(State(0, []), StartTag("div", true));
            var after := OnEvent(OnEvent(OnEvent(inside, StartTag(tag, false)), Data("x")), EndTag("div"));
            && (after.depth == 0 <==> IsVoid(tag))
            && (IsVoid(tag) ==> OnEvent(after, Data("y")) == after)
            && (!IsVoid(tag) ==> OnEvent(after, Data("y")).parts == after.parts + ["y"])
  {
  }

  /** A tag in a description leaves a line break exactly if its element stands on lines of its own. */
  lemma TagBreaksLinesIff(tag: string, parts: seq<string>)
    ensures OnEvent(State(1, parts), StartEndTag(tag)) ==
            State(1, if BreaksLines(tag) then parts + ["\n"] else parts)
    ensures OnEvent(State(1, parts), StartTag(tag, false)).parts == if BreaksLines(tag) then parts + ["\n"] else parts
    ensures OnEvent(State(1, parts), EndTag(tag)).parts == if BreaksLines(tag) then parts + ["\n"] else parts
  {
    assert parts + [] == parts;
  }
}
