/**
 * The Mustache part of a card template: tags against a stack of open sections, and
 * the gate that keeps a front empty while its Target field is empty.
 */
module Mustache {
  import opened Braces

  datatype Problem =
    | UnclosedTag
    | EmptyTag
    | MalformedField
    | UnsupportedTag
    | UnmatchedClose
    | SectionMismatch
    | UnclosedSection

  /** A template cut at its braces: literal text, and tags by what their bodies say. */
  datatype Piece =
    | Literal(text: string)
    | Open(name: string, inverted: bool)
    | Close(name: string)
    | Field(name: string)
    | Bad(problem: Problem)

  datatype Frame = Frame(name: string, inverted: bool)

  datatype Text = Text(text: string, ancestors: seq<Frame>)

  datatype Reference = Reference(name: string, section: bool, inverted: bool, ancestors: seq<Frame>)

  datatype Parsed = Parsed(stack: seq<Frame>, texts: seq<Text>, references: seq<Reference>, problems: seq<Problem>)

  const START := Parsed([], [], [], [])

  /** One piece against the open sections. */
  function Step(p: Parsed, piece: Piece): Parsed {
    match piece
    case Literal(text) => p.(texts := p.texts + [Text(text, p.stack)])
    case Field(name) => p.(references := p.references + [Reference(name, false, false, p.stack)])
    case Open(name, inverted) =>
      p.(references := p.references + [Reference(name, true, inverted, p.stack)],
         stack := p.stack + [Frame(name, inverted)])
    case Close(name) =>
      if p.stack == [] then p.(problems := p.problems + [UnmatchedClose])
      else if p.stack[|p.stack| - 1].name != name then p.(problems := p.problems + [SectionMismatch])
      else p.(stack := p.stack[..|p.stack| - 1])
    case Bad(problem) => p.(problems := p.problems + [problem])
  }

  function Run(p: Parsed, pieces: seq<Piece>): Parsed
    decreases |pieces|
  {
    if pieces == [] then p else Run(Step(p, pieces[0]), pieces[1..])
  }

  function Unclosed(stack: seq<Frame>): seq<Problem> {
    seq(|stack|, _ => UnclosedSection)
  }

  function Parse(pieces: seq<Piece>): Parsed {
    var p := Run(START, pieces);
    p.(problems := p.problems + Unclosed(p.stack))
  }

  /** The parser's loop: a cursor, a stack, and the lists it fills. */
  method ParseMustache(pieces: seq<Piece>) returns (parsed: Parsed)
    ensures parsed == Parse(pieces)
  {
    var stack: seq<Frame> := [];
    var texts: seq<Text> := [];
    var references: seq<Reference> := [];
    var problems: seq<Problem> := [];
    var cursor := 0;
    while cursor < |pieces|
      invariant 0 <= cursor <= |pieces|
      invariant Run(START, pieces) == Run(Parsed(stack, texts, references, problems), pieces[cursor..])
    {
      assert pieces[cursor..][1..] == pieces[cursor + 1..];
      match pieces[cursor] {
        case Literal(text) => texts := texts + [Text(text, stack)];
        case Field(name) => references := references + [Reference(name, false, false, stack)];
        case Open(name, inverted) =>
          references := references + [Reference(name, true, inverted, stack)];
          stack := stack + [Frame(name, inverted)];
        case Close(name) =>
          if stack == [] {
            problems := problems + [UnmatchedClose];
          } else if stack[|stack| - 1].name != name {
            problems := problems + [SectionMismatch];
          } else {
            stack := stack[..|stack| - 1];
          }
        case Bad(problem) => problems := problems + [problem];
      }
      cursor := cursor + 1;
    }
    parsed := Parsed(stack, texts, references, problems + Unclosed(stack));
  }

  // -------------------------------------------------------------------------
  // What a tag's body says
  // -------------------------------------------------------------------------

  function StripLeft(s: string, space: char -> bool): (r: string)
    ensures |r| <= |s|
    ensures r != "" ==> !space(r[0])
  {
    if s != "" && space(s[0]) then StripLeft(s[1..], space) else s
  }

  function StripRight(s: string, space: char -> bool): (r: string)
    ensures r <= s
    ensures r != "" ==> !space(r[|r| - 1])
  {
    if s != "" && space(s[|s| - 1]) then StripRight(s[..|s| - 1], space) else s
  }

  function Strip(s: string, space: char -> bool): (r: string)
    ensures r != "" ==> !space(r[0]) && !space(r[|r| - 1])
    ensures |r| <= |s|
  {
    StripRight(StripLeft(s, space), space)
  }

  /** The parts of a filter expression between its colons. */
  function SplitColons(s: string): (parts: seq<string>)
    ensures parts != []
    ensures forall i :: 0 <= i < |parts| ==> ':' !in parts[i]
  {
    if s == "" then [""]
    else
      var rest := SplitColons(s[1..]);
      if s[0] == ':' then [""] + rest else [[s[0]] + rest[0]] + rest[1..]
  }

  function TagPiece(raw: string, space: char -> bool): Piece {
    var body := Strip(raw, space);
    if body == "" then Bad(EmptyTag)
    else if body[0] in "#^/" then
      var name := Strip(body[1..], space);
      if name == "" || ':' in name then Bad(MalformedField)
      else if body[0] == '/' then Close(name)
      else Open(name, body[0] == '^')
    else if body[0] in "!&>=" then Bad(UnsupportedTag)
    else
      var parts := SplitColons(body);
      if exists i :: 0 <= i < |parts| && Strip(parts[i], space) == "" then Bad(MalformedField)
      else Field(Strip(parts[|parts| - 1], space))
  }

  /** A field name that can be written in a tag: trimmed, and without a colon. */
  predicate ProperName(name: string, space: char -> bool) {
    name != "" && !space(name[0]) && !space(name[|name| - 1]) && ':' !in name
  }

  predicate ProperPiece(p: Piece, space: char -> bool) {
    match p
    case Literal(_) => true
    case Bad(_) => true
    case Open(name, _) => ProperName(name, space)
    case Close(name) => ProperName(name, space)
    case Field(name) => ProperName(name, space)
  }

  lemma {:induction false} StripLeftKeeps(s: string, space: char -> bool, c: char)
    requires c in StripLeft(s, space)
    ensures c in s
  {
    if s != "" && space(s[0]) {
      StripLeftKeeps(s[1..], space, c);
    }
  }

  lemma StripKeeps(s: string, space: char -> bool, c: char)
    requires c in Strip(s, space)
    ensures c in s
  {
    StripLeftKeeps(s, space, c);
  }

  lemma {:induction false} NoColonsOnePart(s: string)
    requires ':' !in s
    ensures SplitColons(s) == [s]
  {
    if s != "" {
      NoColonsOnePart(s[1..]);
      assert [s[0]] + s[1..] == s;
    }
  }

  /** Whatever a tag's body is, the piece it stands for has a proper name. */
  lemma TagNamesAreProper(raw: string, space: char -> bool)
    ensures ProperPiece(TagPiece(raw, space), space)
  {
    var body := Strip(raw, space);
    if TagPiece(raw, space).Field? {
      var parts := SplitColons(body);
      var last := parts[|parts| - 1];
      assert Strip(last, space) != "";
      if ':' in Strip(last, space) {
        StripKeeps(last, space, ':');
      }
    }
  }

  lemma StripNothing(s: string, space: char -> bool)
    requires s != "" && !space(s[0]) && !space(s[|s| - 1])
    ensures Strip(s, space) == s
  {
  }

  lemma MarkerTag(marker: char, name: string, space: char -> bool)
    requires ProperName(name, space) && marker in "#^/" && !space(marker)
    ensures TagPiece([marker] + name, space) == if marker == '/' then Close(name) else Open(name, marker == '^')
  {
    StripNothing([marker] + name, space);
    StripNothing(name, space);
    assert ([marker] + name)[1..] == name;
  }

  /** And every proper name can be opened, closed, and mostly also referred to, by some tag's body. */
  lemma ProperNamesHaveTags(name: string, space: char -> bool)
    requires ProperName(name, space)
    ensures !space('#') ==> TagPiece("#" + name, space) == Open(name, false)
    ensures !space('^') ==> TagPiece("^" + name, space) == Open(name, true)
    ensures !space('/') ==> TagPiece("/" + name, space) == Close(name)
    ensures name[0] !in "#^/!&>=" ==> TagPiece(name, space) == Field(name)
  {
    if !space('#') { MarkerTag('#', name, space); }
    if !space('^') { MarkerTag('^', name, space); }
    if !space('/') { MarkerTag('/', name, space); }
    FieldTag(name, space);
  }

  lemma FieldTag(name: string, space: char -> bool)
    requires ProperName(name, space)
    ensures name[0] !in "#^/!&>=" ==> TagPiece(name, space) == Field(name)
  {
    StripNothing(name, space);
    NoColonsOnePart(name);
  }

  function CutPieces(c: Cut, space: char -> bool): seq<Piece> {
    match c
    case CutText(text) => [Literal(text)]
    case CutTag(body) => [TagPiece(body, space)]
    case CutUnclosed(text) => [Bad(UnclosedTag), Literal(text)]
  }

  function Pieces(cuts: seq<Cut>, space: char -> bool): seq<Piece> {
    if cuts == [] then [] else CutPieces(cuts[0], space) + Pieces(cuts[1..], space)
  }

  /** The whole parse, from the characters of the template. */
  method ParseTemplate(template: string, space: char -> bool) returns (cuts: seq<Cut>, parsed: Parsed)
    ensures CutOf(cuts, template)
    ensures parsed == Parse(Pieces(cuts, space))
  {
    cuts := CutTemplate(template);
    parsed := ParseMustache(Pieces(cuts, space));
  }

  /** The template alone decides how it is parsed. */
  lemma ParseIsDetermined(template: string, space: char -> bool, a: seq<Cut>, b: seq<Cut>)
    requires CutOf(a, template) && CutOf(b, template)
    ensures Parse(Pieces(a, space)) == Parse(Pieces(b, space))
  {
    CutsAreUnique(a, b, template);
  }

  // -------------------------------------------------------------------------
  // Templates as trees
  // -------------------------------------------------------------------------

  datatype Node =
    | TextNode(text: string)
    | FieldNode(name: string)
    | Section(name: string, inverted: bool, body: Forest)

  datatype Forest = Nil | Cons(head: Node, tail: Forest)

  /** The pieces a tree is written as; sections are closed by their own name. */
  function Flatten(f: Forest): seq<Piece> {
    match f
    case Nil => []
    case Cons(n, rest) => FlattenNode(n) + Flatten(rest)
  }

  function FlattenNode(n: Node): seq<Piece> {
    match n
    case TextNode(text) => [Literal(text)]
    case FieldNode(name) => [Field(name)]
    case Section(name, inverted, body) => [Open(name, inverted)] + Flatten(body) + [Close(name)]
  }

  function Texts(f: Forest, path: seq<Frame>): seq<Text> {
    match f
    case Nil => []
    case Cons(n, rest) => NodeTexts(n, path) + Texts(rest, path)
  }

  function NodeTexts(n: Node, path: seq<Frame>): seq<Text> {
    match n
    case TextNode(text) => [Text(text, path)]
    case FieldNode(_) => []
    case Section(name, inverted, body) => Texts(body, path + [Frame(name, inverted)])
  }

  function References(f: Forest, path: seq<Frame>): seq<Reference> {
    match f
    case Nil => []
    case Cons(n, rest) => NodeReferences(n, path) + References(rest, path)
  }

  function NodeReferences(n: Node, path: seq<Frame>): seq<Reference> {
    match n
    case TextNode(_) => []
    case FieldNode(name) => [Reference(name, false, false, path)]
    case Section(name, inverted, body) =>
      [Reference(name, true, inverted, path)] + References(body, path + [Frame(name, inverted)])
  }

  lemma {:induction false} RunConcat(p: Parsed, a: seq<Piece>, b: seq<Piece>)
    ensures Run(p, a + b) == Run(Run(p, a), b)
    decreases |a|
  {
    if a == [] {
      assert a + b == b;
    } else {
      assert (a + b)[1..] == a[1..] + b;
      RunConcat(Step(p, a[0]), a[1..], b);
    }
  }

  /** Parsing a tree adds its texts and references, each with the sections open at it, and nothing else. */
  lemma {:induction false} TreesParse(f: Forest, p: Parsed)
    ensures Run(p, Flatten(f)) ==
            p.(texts := p.texts + Texts(f, p.stack), references := p.references + References(f, p.stack))
    decreases f
  {
    match f
    case Nil =>
    case Cons(n, rest) =>
      RunConcat(p, FlattenNode(n), Flatten(rest));
      NodesParse(n, p);
      TreesParse(rest, Run(p, FlattenNode(n)));
  }

  lemma {:induction false} NodesParse(n: Node, p: Parsed)
    ensures Run(p, FlattenNode(n)) ==
            p.(texts := p.texts + NodeTexts(n, p.stack), references := p.references + NodeReferences(n, p.stack))
    decreases n
  {
    match n
    case TextNode(_) => assert [Literal(n.text)][1..] == [];
    case FieldNode(_) => assert [Field(n.name)][1..] == [];
    case Section(name, inverted, body) =>
      var entered := Step(p, Open(name, inverted));
      RunConcat(p, [Open(name, inverted)] + Flatten(body), [Close(name)]);
      RunConcat(p, [Open(name, inverted)], Flatten(body));
      assert [Open(name, inverted)][1..] == [] && [Close(name)][1..] == [];
      TreesParse(body, entered);
      assert (p.stack + [Frame(name, inverted)])[..|p.stack|] == p.stack;
  }

  // -------------------------------------------------------------------------
  // From a clean parse back to a tree
  // -------------------------------------------------------------------------

  function Append(f: Forest, n: Node): Forest {
    match f
    case Nil => Cons(n, Nil)
    case Cons(m, rest) => Cons(m, Append(rest, n))
  }

  lemma {:induction false} FlattenAppend(f: Forest, n: Node)
    ensures Flatten(Append(f, n)) == Flatten(f) + FlattenNode(n)
  {
    match f
    case Nil =>
    case Cons(m, rest) => FlattenAppend(rest, n);
  }

  /** What stands before an open section, and the section's tag. */
  datatype Layer = Layer(before: Forest, frame: Frame)

  function Spine(layers: seq<Layer>): seq<Piece> {
    if layers == [] then []
    else
      var last := layers[|layers| - 1];
      Spine(layers[..|layers| - 1]) + Flatten(last.before) + [Open(last.frame.name, last.frame.inverted)]
  }

  function Frames(layers: seq<Layer>): (out: seq<Frame>)
    ensures |out| == |layers| && forall i :: 0 <= i < |out| ==> out[i] == layers[i].frame
  {
    seq(|layers|, i requires 0 <= i < |layers| => layers[i].frame)
  }

  /** Finished trees inside the sections still open, after one more piece. */
  lemma CleanStep(layers: seq<Layer>, current: Forest, p: Parsed, piece: Piece)
    returns (layers': seq<Layer>, current': Forest)
    requires Frames(layers) == p.stack && Step(p, piece).problems == p.problems
    ensures Frames(layers') == Step(p, piece).stack
    ensures Spine(layers') + Flatten(current') == Spine(layers) + Flatten(current) + [piece]
  {
    match piece
    case Literal(text) => layers', current' := LeafStep(layers, current, TextNode(text));
    case Field(name) => layers', current' := LeafStep(layers, current, FieldNode(name));
    case Open(name, inverted) =>
      layers', current' := layers + [Layer(current, Frame(name, inverted))], Nil;
      assert layers'[..|layers|] == layers;
    case Close(name) => layers', current' := CloseStep(layers, current, name);
  }

  lemma LeafStep(layers: seq<Layer>, current: Forest, n: Node) returns (layers': seq<Layer>, current': Forest)
    ensures layers' == layers && Spine(layers') + Flatten(current') == Spine(layers) + Flatten(current) + FlattenNode(n)
  {
    FlattenAppend(current, n);
    layers', current' := layers, Append(current, n);
  }

  lemma CloseStep(layers: seq<Layer>, current: Forest, name: string) returns (layers': seq<Layer>, current': Forest)
    requires layers != [] && layers[|layers| - 1].frame.name == name
    ensures layers' == layers[..|layers| - 1] && Frames(layers') == Frames(layers)[..|layers| - 1]
    ensures Spine(layers') + Flatten(current') == Spine(layers) + Flatten(current) + [Close(name)]
  {
    var layer := layers[|layers| - 1];
    var closed := Section(name, layer.frame.inverted, current);
    FlattenAppend(layer.before, closed);
    layers', current' := layers[..|layers| - 1], Append(layer.before, closed);
  }

  /** A parse without problems so far: finished trees inside the sections still open. */
  lemma {:induction false} CleanPrefix(pieces: seq<Piece>) returns (layers: seq<Layer>, current: Forest)
    requires Run(START, pieces).problems == []
    ensures Frames(layers) == Run(START, pieces).stack
    ensures pieces == Spine(layers) + Flatten(current)
  {
    if pieces == [] {
      layers, current := [], Nil;
    } else {
      var init, last := pieces[..|pieces| - 1], pieces[|pieces| - 1];
      assert pieces == init + [last];
      RunConcat(START, init, [last]);
      assert [last][1..] == [];
      assert Run(START, pieces) == Step(Run(START, init), last);
      ProblemsStay(Run(START, init), last);
      layers, current := CleanPrefix(init);
      layers, current := CleanStep(layers, current, Run(START, init), last);
    }
  }

  lemma ProblemsStay(p: Parsed, piece: Piece)
    ensures Step(p, piece).problems == [] ==> p.problems == []
  {
  }

  /**
   * The parser finds no problem exactly when every tag is well-formed and the
   * sections nest, that is, when the pieces are written from a tree; and then each
   * text and reference carries the sections it is inside of.
   */
  lemma CleanExactlyWhenNested(pieces: seq<Piece>)
    ensures Parse(pieces).problems == [] <==> exists f :: pieces == Flatten(f)
    ensures forall f :: pieces == Flatten(f) ==>
                          Parse(pieces).texts == Texts(f, []) && Parse(pieces).references == References(f, [])
  {
    if Parse(pieces).problems == [] {
      var p := Run(START, pieces);
      assert |Parse(pieces).problems| == |p.problems| + |p.stack|;
      var layers, current := CleanPrefix(pieces);
      assert layers == [];
      assert pieces == Flatten(current);
    }
    forall f | pieces == Flatten(f)
      ensures Parse(pieces) == Parsed([], Texts(f, []), References(f, []), [])
    {
      TreesParse(f, START);
    }
  }

  // -------------------------------------------------------------------------
  // The target gate
  // -------------------------------------------------------------------------

  predicate PositivelyInside(path: seq<Frame>, target: string) {
    Frame(target, false) in path
  }

  predicate IsGate(r: Reference, target: string) {
    r.section && r.name == target && !r.inverted
  }

  /** The literal text that no positive target section holds, joined as it stands. */
  function Outside(texts: seq<Text>, target: string): string {
    if texts == [] then ""
    else (if PositivelyInside(texts[0].ancestors, target) then "" else texts[0].text) + Outside(texts[1..], target)
  }

  function TargetSections(references: seq<Reference>, targets: set<string>): (out: seq<Reference>)
    ensures forall r :: r in out <==> r in references && r.section && r.name in targets
  {
    if references == [] then []
    else
      assert references == [references[0]] + references[1..];
      var rest := TargetSections(references[1..], targets);
      if references[0].section && references[0].name in targets then [references[0]] + rest else rest
  }

  /** What the gate check and the parse together leave without a violation. */
  predicate PassesGate(p: Parsed, target: string, targets: set<string>, invisible: string -> bool) {
    var sections := TargetSections(p.references, targets);
    && p.problems == []
    && (exists r :: r in sections && IsGate(r, target))
    && (forall r :: r in sections ==> r.name == target && !r.inverted)
    && |sections| <= 1
    && (forall r :: r in p.references && !IsGate(r, target) ==> PositivelyInside(r.ancestors, target))
    && invisible(Outside(p.texts, target))
  }

  // -------------------------------------------------------------------------
  // Rendering
  // -------------------------------------------------------------------------

  function Render(f: Forest, value: string -> string): string {
    match f
    case Nil => ""
    case Cons(n, rest) => RenderNode(n, value) + Render(rest, value)
  }

  function RenderNode(n: Node, value: string -> string): string {
    match n
    case TextNode(text) => text
    case FieldNode(name) => value(name)
    case Section(name, inverted, body) => if (value(name) == "") == inverted then Render(body, value) else ""
  }

  lemma {:induction false} OutsideConcat(a: seq<Text>, b: seq<Text>, target: string)
    ensures Outside(a + b, target) == Outside(a, target) + Outside(b, target)
  {
    if a == [] {
      assert a + b == b;
    } else {
      assert (a + b)[1..] == a[1..] + b;
      OutsideConcat(a[1..], b, target);
    }
  }

  lemma {:induction false} NothingOutsideInside(f: Forest, path: seq<Frame>, target: string)
    requires PositivelyInside(path, target)
    ensures Outside(Texts(f, path), target) == ""
    decreases f
  {
    match f
    case Nil =>
    case Cons(n, rest) =>
      OutsideConcat(NodeTexts(n, path), Texts(rest, path), target);
      NothingOutsideInside(rest, path, target);
      if n.Section? {
        NothingOutsideInside(n.body, path + [Frame(n.name, n.inverted)], target);
      }
  }

  /** Every reference outside the target is the target section itself. */
  predicate Gated(references: seq<Reference>, target: string) {
    forall r :: r in references && !IsGate(r, target) ==> PositivelyInside(r.ancestors, target)
  }

  lemma GatedParts(n: Node, rest: Forest, path: seq<Frame>, target: string)
    requires Gated(References(Cons(n, rest), path), target)
    ensures Gated(NodeReferences(n, path), target) && Gated(References(rest, path), target)
  {
    forall r | r in NodeReferences(n, path) ensures r in References(Cons(n, rest), path) {
    }
    forall r | r in References(rest, path) ensures r in References(Cons(n, rest), path) {
    }
  }

  /** At a place outside the target a gated node is text or the target section itself. */
  lemma NodeIsTextOrGate(n: Node, path: seq<Frame>, target: string)
    requires Gated(NodeReferences(n, path), target) && !PositivelyInside(path, target)
    ensures n.TextNode? || (n.Section? && n.name == target && !n.inverted)
  {
    if !n.TextNode? {
      var r := NodeReferences(n, path)[0];
      assert r in NodeReferences(n, path);
    }
  }

  /** With the target empty, a gated tree renders to its outside text and no more. */
  lemma {:induction false} GatedRendersOutside(f: Forest, path: seq<Frame>, target: string, value: string -> string)
    requires Gated(References(f, path), target) && !PositivelyInside(path, target) && value(target) == ""
    ensures Render(f, value) == Outside(Texts(f, path), target)
    decreases f
  {
    match f
    case Nil =>
    case Cons(n, rest) =>
      OutsideConcat(NodeTexts(n, path), Texts(rest, path), target);
      GatedRendersOutside(rest, path, target, value);
      GatedParts(n, rest, path, target);
      NodeIsTextOrGate(n, path, target);
      if n.Section? {
        assert Frame(target, false) in path + [Frame(target, false)];
        NothingOutsideInside(n.body, path + [Frame(target, false)], target);
      }
  }

  /**
   * A front that passes the gate check shows nothing while its Target is empty:
   * it renders to exactly the literal text that was checked to be invisible.
   */
  lemma EmptyTargetShowsNothing(f: Forest, target: string, targets: set<string>, invisible: string -> bool,
                                value: string -> string)
    requires PassesGate(Parse(Flatten(f)), target, targets, invisible) && value(target) == ""
    ensures invisible(Render(f, value))
  {
    CleanExactlyWhenNested(Flatten(f));
    GatedRendersOutside(f, [], target, value);
  }

  // -------------------------------------------------------------------------
  // What such a front looks like
  // -------------------------------------------------------------------------

  predicate OnlyText(f: Forest) {
    match f
    case Nil => true
    case Cons(n, rest) => n.TextNode? && OnlyText(rest)
  }

  function Join(a: Forest, b: Forest): Forest {
    match a
    case Nil => b
    case Cons(n, rest) => Cons(n, Join(rest, b))
  }

  lemma {:induction false} TargetSectionsConcat(a: seq<Reference>, b: seq<Reference>, targets: set<string>)
    ensures TargetSections(a + b, targets) == TargetSections(a, targets) + TargetSections(b, targets)
  {
    if a == [] {
      assert a + b == b;
    } else {
      assert (a + b)[1..] == a[1..] + b;
      TargetSectionsConcat(a[1..], b, targets);
    }
  }

  /** Without a target section, everything gated is text. */
  lemma {:induction false} GatedWithoutGate(f: Forest, target: string, targets: set<string>)
    requires Gated(References(f, []), target) && target in targets && TargetSections(References(f, []), targets) == []
    ensures OnlyText(f)
  {
    match f
    case Nil =>
    case Cons(n, rest) =>
      GatedParts(n, rest, [], target);
      TargetSectionsConcat(NodeReferences(n, []), References(rest, []), targets);
      GatedWithoutGate(rest, target, targets);
      NodeIsTextOrGate(n, [], target);
      if n.Section? {
        SectionCounts(n, targets);
      }
  }

  lemma SectionCounts(n: Node, targets: set<string>)
    requires n.Section? && n.name in targets
    ensures TargetSections(NodeReferences(n, []), targets) != []
  {
    var r := Reference(n.name, true, n.inverted, []);
    assert r in NodeReferences(n, []);
    assert r in TargetSections(NodeReferences(n, []), targets);
  }

  /** Text, one positive Target section at top level, text. */
  lemma {:induction false} GatedShape(f: Forest, target: string, targets: set<string>)
    returns (before: Forest, body: Forest, after: Forest)
    requires Gated(References(f, []), target) && target in targets && |TargetSections(References(f, []), targets)| == 1
    ensures f == Join(before, Cons(Section(target, false, body), after)) && OnlyText(before) && OnlyText(after)
    ensures TargetSections(References(body, [Frame(target, false)]), targets) == []
    decreases f
  {
    var n, rest := f.head, f.tail;
    GatedParts(n, rest, [], target);
    TargetSectionsConcat(NodeReferences(n, []), References(rest, []), targets);
    NodeIsTextOrGate(n, [], target);
    if n.TextNode? {
      before, body, after := GatedShape(rest, target, targets);
      before := Cons(n, before);
    } else {
      before, body, after := Nil, n.body, rest;
      var inner := References(body, [] + [Frame(target, false)]);
      assert [] + [Frame(target, false)] == [Frame(target, false)];
      TargetSectionsConcat([Reference(target, true, false, [])], inner, targets);
      assert TargetSections([Reference(target, true, false, [])], targets) == [Reference(target, true, false, [])] by {
        assert [Reference(target, true, false, [])][1..] == [];
      }
      GatedWithoutGate(rest, target, targets);
    }
  }

  /** A front passes only as invisible text around one top-level positive Target section. */
  lemma PassingFrontHasOneGate(f: Forest, target: string, targets: set<string>, invisible: string -> bool)
    returns (before: Forest, body: Forest, after: Forest)
    requires PassesGate(Parse(Flatten(f)), target, targets, invisible) && target in targets
    ensures f == Join(before, Cons(Section(target, false, body), after)) && OnlyText(before) && OnlyText(after)
    ensures TargetSections(References(body, [Frame(target, false)]), targets) == []
  {
    CleanExactlyWhenNested(Flatten(f));
    before, body, after := GatedShape(f, target, targets);
  }

  // -------------------------------------------------------------------------
  // Exactly such fronts pass
  // -------------------------------------------------------------------------

  /** No section in the tree is named as a target. */
  predicate Ungated(f: Forest, targets: set<string>) {
    match f
    case Nil => true
    case Cons(n, rest) =>
      (n.Section? ==> n.name !in targets && Ungated(n.body, targets)) && Ungated(rest, targets)
  }

  /** The literal text of a forest's own text nodes. */
  function TextOf(f: Forest): string {
    match f
    case Nil => ""
    case Cons(n, rest) => (if n.TextNode? then n.text else "") + TextOf(rest)
  }

  /** Invisible text around one positive Target section, which holds no other target section. */
  ghost predicate OneGate(f: Forest, target: string, targets: set<string>, invisible: string -> bool) {
    exists before, body, after ::
      && f == Join(before, Cons(Section(target, false, body), after))
      && OnlyText(before) && OnlyText(after) && Ungated(body, targets)
      && invisible(TextOf(before) + TextOf(after))
  }

  lemma {:induction false} UngatedMeans(f: Forest, path: seq<Frame>, targets: set<string>)
    ensures Ungated(f, targets) <==> TargetSections(References(f, path), targets) == []
    decreases f
  {
    match f
    case Nil =>
    case Cons(n, rest) =>
      TargetSectionsConcat(NodeReferences(n, path), References(rest, path), targets);
      UngatedMeans(rest, path, targets);
      match n {
        case TextNode(_) =>
        case FieldNode(name) => assert [Reference(name, false, false, path)][1..] == [];
        case Section(name, inverted, body) =>
          var own, inner := [Reference(name, true, inverted, path)], References(body, path + [Frame(name, inverted)]);
          TargetSectionsConcat(own, inner, targets);
          assert own[1..] == [];
          UngatedMeans(body, path + [Frame(name, inverted)], targets);
      }
  }

  lemma {:induction false} JoinReads(a: Forest, b: Forest, path: seq<Frame>)
    ensures Texts(Join(a, b), path) == Texts(a, path) + Texts(b, path)
    ensures References(Join(a, b), path) == References(a, path) + References(b, path)
  {
    match a
    case Nil =>
    case Cons(n, rest) => JoinReads(rest, b, path);
  }

  lemma {:induction false} OnlyTextReads(f: Forest, target: string)
    requires OnlyText(f)
    ensures References(f, []) == [] && Outside(Texts(f, []), target) == TextOf(f)
  {
    match f
    case Nil =>
    case Cons(n, rest) =>
      OnlyTextReads(rest, target);
      OutsideConcat(NodeTexts(n, []), Texts(rest, []), target);
      assert [Text(n.text, [])][1..] == [];
  }

  lemma {:induction false} InsideAll(f: Forest, path: seq<Frame>, target: string)
    requires PositivelyInside(path, target)
    ensures forall r :: r in References(f, path) ==> PositivelyInside(r.ancestors, target)
    decreases f
  {
    match f
    case Nil =>
    case Cons(n, rest) =>
      InsideAll(rest, path, target);
      if n.Section? {
        InsideAll(n.body, path + [Frame(n.name, n.inverted)], target);
      }
  }

  /** What is read from text around a gate: the gate, what is inside of it, and the text outside. */
  lemma GateReads(before: Forest, body: Forest, after: Forest, target: string)
    requires OnlyText(before) && OnlyText(after)
    ensures var f := Join(before, Cons(Section(target, false, body), after));
            && References(f, []) == [Reference(target, true, false, [])] + References(body, [Frame(target, false)])
            && Outside(Texts(f, []), target) == TextOf(before) + TextOf(after)
  {
    GateNodeReads(body, target);
    ReferencesAround(before, Section(target, false, body), after);
    TextAround(before, Section(target, false, body), after, target);
  }

  lemma ReferencesAround(before: Forest, n: Node, after: Forest)
    requires OnlyText(before) && OnlyText(after)
    ensures References(Join(before, Cons(n, after)), []) == NodeReferences(n, [])
  {
    JoinReads(before, Cons(n, after), []);
    OnlyTextReads(before, "");
    OnlyTextReads(after, "");
  }

  lemma TextAround(before: Forest, n: Node, after: Forest, target: string)
    requires OnlyText(before) && OnlyText(after) && Outside(NodeTexts(n, []), target) == ""
    ensures Outside(Texts(Join(before, Cons(n, after)), []), target) == TextOf(before) + TextOf(after)
  {
    JoinReads(before, Cons(n, after), []);
    OutsideConcat(Texts(before, []), Texts(Cons(n, after), []), target);
    OutsideConcat(NodeTexts(n, []), Texts(after, []), target);
    OnlyTextReads(before, target);
    OnlyTextReads(after, target);
  }

  lemma GateNodeReads(body: Forest, target: string)
    ensures var gate := Section(target, false, body);
            && NodeReferences(gate, [])
            == [Reference(target, true, false, [])] + References(body, [Frame(target, false)])
            && Outside(NodeTexts(gate, []), target) == ""
  {
    assert [] + [Frame(target, false)] == [Frame(target, false)];
    NothingOutsideInside(body, [Frame(target, false)], target);
  }

  lemma OneGatePasses(f: Forest, target: string, targets: set<string>, invisible: string -> bool)
    requires target in targets && OneGate(f, target, targets, invisible)
    ensures PassesGate(Parse(Flatten(f)), target, targets, invisible)
  {
    var before, body, after :| && f == Join(before, Cons(Section(target, false, body), after))
                               && OnlyText(before) && OnlyText(after) && Ungated(body, targets)
                               && invisible(TextOf(before) + TextOf(after));
    CleanExactlyWhenNested(Flatten(f));
    GateReads(before, body, after, target);
    OneTargetSection(body, target, targets);
    InsideAll(body, [Frame(target, false)], target);
  }

  lemma OneTargetSection(body: Forest, target: string, targets: set<string>)
    requires target in targets && Ungated(body, targets)
    ensures var gate, inner := Reference(target, true, false, []), References(body, [Frame(target, false)]);
            TargetSections([gate] + inner, targets) == [gate]
  {
    var gate, inner := Reference(target, true, false, []), References(body, [Frame(target, false)]);
    UngatedMeans(body, [Frame(target, false)], targets);
    TargetSectionsConcat([gate], inner, targets);
    assert [gate][1..] == [];
  }

  /**
   * A front passes the gate check exactly when it is written from such a tree:
   * invisible text, one positive Target section at top level, invisible text.
   */
  lemma PassesExactlyWhenOneGate(pieces: seq<Piece>, target: string, targets: set<string>, invisible: string -> bool)
    requires target in targets
    ensures PassesGate(Parse(pieces), target, targets, invisible) <==>
            exists f :: pieces == Flatten(f) && OneGate(f, target, targets, invisible)
  {
    CleanExactlyWhenNested(pieces);
    if PassesGate(Parse(pieces), target, targets, invisible) {
      var f :| pieces == Flatten(f);
      var before, body, after := PassingFrontHasOneGate(f, target, targets, invisible);
      UngatedMeans(body, [Frame(target, false)], targets);
      GateReads(before, body, after, target);
      assert OneGate(f, target, targets, invisible);
    }
    if f :| pieces == Flatten(f) && OneGate(f, target, targets, invisible) {
      OneGatePasses(f, target, targets, invisible);
    }
  }
}
