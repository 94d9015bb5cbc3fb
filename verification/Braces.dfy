/**
 * Cutting a card template at its double braces, into texts and tags.
 */
module Braces {
  import opened Wrappers

  datatype Cut = CutText(text: string) | CutTag(body: string) | CutUnclosed(text: string)

  /** Two of the same brace, side by side. */
  predicate PairAt(s: string, i: nat, brace: char) {
    i + 1 < |s| && s[i] == brace && s[i + 1] == brace
  }

  ghost predicate NoPair(s: string, brace: char) {
    forall i: nat :: !PairAt(s, i, brace)
  }

  method FindPair(s: string, brace: char, from: nat) returns (at: Option<nat>)
    requires from <= |s|
    ensures at.Some? ==> from <= at.value && PairAt(s, at.value, brace) && NoPair(s[from..at.value + 1], brace)
    ensures at.None? ==> NoPair(s[from..], brace)
  {
    var i := from;
    while i + 1 < |s|
      invariant from <= i <= |s|
      invariant forall k: nat :: from <= k < i ==> !PairAt(s, k, brace)
    {
      if s[i] == brace && s[i + 1] == brace {
        NoPairInSlice(s, brace, from, i + 1);
        return Some(i);
      }
      i := i + 1;
    }
    assert s[from..] == s[from..|s|];
    NoPairInSlice(s, brace, from, |s|);
    at := None;
  }

  lemma NoPairInSlice(s: string, brace: char, lo: nat, hi: nat)
    requires lo <= hi <= |s|
    requires forall k: nat :: lo <= k && k + 1 < hi ==> !PairAt(s, k, brace)
    ensures NoPair(s[lo..hi], brace)
  {
    forall i: nat ensures !PairAt(s[lo..hi], i, brace) {
      assert lo + i + 1 < hi ==> !PairAt(s, lo + i, brace);
    }
  }

  function Written(cuts: seq<Cut>): string {
    if cuts == [] then ""
    else
      var last := cuts[|cuts| - 1];
      Written(cuts[..|cuts| - 1])
      + match last
        case CutText(text) => text
        case CutTag(body) => "{{" + body + "}}"
        case CutUnclosed(text) => text
  }

  lemma WrittenAppends(cuts: seq<Cut>, c: Cut)
    ensures Written(cuts + [c]) == Written(cuts) + Written([c])
  {
    assert (cuts + [c])[..|cuts|] == cuts && [c][..0] == [];
  }

  ghost predicate CutClean(c: Cut) {
    match c
    case CutText(text) => NoPair(text, '{')
    case CutTag(body) => NoPair(body + "}", '}')
    case CutUnclosed(text) => PairAt(text, 0, '{') && NoPair(text[2..], '}')
  }

  ghost predicate CutsTo(cuts: seq<Cut>, template: string, end: nat) {
    end <= |template| && Written(cuts) == template[..end] && forall c :: c in cuts ==> CutClean(c)
  }

  /** A tag starts at the first opening pair there is, so no text in front of one runs into it. */
  ghost predicate EarlyTags(cuts: seq<Cut>) {
    forall i :: 0 <= i < |cuts| - 1 && cuts[i].CutText? ==> NoPair(cuts[i].text + "{", '{')
  }

  predicate OnlyLastUnclosed(cuts: seq<Cut>) {
    forall i :: 0 <= i < |cuts| - 1 ==> !cuts[i].CutUnclosed?
  }

  /** Text, tag, text, tag, and so on. */
  predicate Alternates(cuts: seq<Cut>) {
    forall i :: 0 <= i < |cuts| ==> (cuts[i].CutText? <==> i % 2 == 0)
  }

  ghost predicate Tidy(cuts: seq<Cut>) {
    EarlyTags(cuts) && OnlyLastUnclosed(cuts) && Alternates(cuts)
  }

  predicate AfterTag(cuts: seq<Cut>) {
    cuts == [] || cuts[|cuts| - 1].CutTag?
  }

  /** A text behind the last tag is only cut off when there is one. */
  predicate NoEmptyEnd(cuts: seq<Cut>) {
    cuts != [] && cuts[|cuts| - 1].CutText? ==> cuts[|cuts| - 1].text != ""
  }

  lemma CutsOn(cuts: seq<Cut>, template: string, lo: nat, c: Cut, hi: nat)
    requires CutsTo(cuts, template, lo) && lo <= hi <= |template| && CutClean(c) && Written([c]) == template[lo..hi]
    ensures CutsTo(cuts + [c], template, hi)
  {
    WrittenAppends(cuts, c);
    assert template[..lo] + template[lo..hi] == template[..hi];
  }

  lemma WrittenOne(c: Cut)
    ensures Written([c]) == match c
                            case CutText(text) => text
                            case CutTag(body) => "{{" + body + "}}"
                            case CutUnclosed(text) => text
  {
    assert [c][..0] == [];
  }

  lemma TagWritten(template: string, lo: nat, close: nat)
    requires PairAt(template, lo, '{') && lo + 2 <= close && PairAt(template, close, '}')
    ensures template[lo..close + 2] == "{{" + template[lo + 2..close] + "}}"
  {
  }

  lemma UnclosedWritten(template: string, lo: nat)
    requires PairAt(template, lo, '{') && NoPair(template[lo + 2..], '}')
    ensures CutClean(CutUnclosed(template[lo..])) && Written([CutUnclosed(template[lo..])]) == template[lo..|template|]
  {
    WrittenOne(CutUnclosed(template[lo..]));
    assert template[lo..][2..] == template[lo + 2..];
  }

  lemma TagClean(template: string, lo: nat, close: nat)
    requires PairAt(template, lo, '{') && lo + 2 <= close && PairAt(template, close, '}')
    requires NoPair(template[lo + 2..close + 1], '}')
    ensures CutClean(CutTag(template[lo + 2..close]))
    ensures Written([CutTag(template[lo + 2..close])]) == template[lo..close + 2]
  {
    WrittenOne(CutTag(template[lo + 2..close]));
    TagWritten(template, lo, close);
    assert template[lo + 2..close] + "}" == template[lo + 2..close + 1];
  }

  predicate TagFrom(template: string, lo: nat, tag: Cut, next: nat) {
    && lo < next <= |template| && !tag.CutText? && Written([tag]) == template[lo..next]
    && (tag.CutUnclosed? ==> next == |template|)
  }

  /** The tag at an opening pair and its end. */
  method TagAt(template: string, lo: nat) returns (tag: Cut, next: nat)
    requires PairAt(template, lo, '{')
    ensures TagFrom(template, lo, tag, next) && CutClean(tag)
  {
    var closing := FindPair(template, '}', lo + 2);
    if closing.None? {
      UnclosedWritten(template, lo);
      tag, next := CutUnclosed(template[lo..]), |template|;
    } else {
      TagClean(template, lo, closing.value);
      tag, next := CutTag(template[lo + 2..closing.value]), closing.value + 2;
    }
  }

  lemma TextClean(template: string, lo: nat, hi: nat)
    requires lo <= hi <= |template|
    ensures hi == |template| ==> template[lo..] == template[lo..hi]
    ensures NoPair(template[lo..hi], '{') ==> CutClean(CutText(template[lo..hi]))
    ensures hi < |template| && template[hi] == '{' && NoPair(template[lo..hi + 1], '{') ==>
              CutClean(CutText(template[lo..hi])) && NoPair(template[lo..hi] + "{", '{')
    ensures Written([CutText(template[lo..hi])]) == template[lo..hi]
  {
    WrittenOne(CutText(template[lo..hi]));
    if hi < |template| && template[hi] == '{' && NoPair(template[lo..hi + 1], '{') {
      assert template[lo..hi] + "{" == template[lo..hi + 1];
      FrontHasNoPair(template[lo..hi + 1], hi - lo, '{');
    }
  }

  lemma FrontHasNoPair(s: string, n: nat, brace: char)
    requires NoPair(s, brace) && n <= |s|
    ensures NoPair(s[..n], brace)
  {
    forall i: nat ensures !PairAt(s[..n], i, brace) {
      assert !PairAt(s, i, brace);
    }
  }

  ghost predicate Cutting(cuts: seq<Cut>, template: string, end: nat) {
    CutsTo(cuts, template, end) && Tidy(cuts)
  }

  /** The text up to the next opening pair, or up to the end, can be cut off. */
  lemma TextOn(cuts: seq<Cut>, template: string, lo: nat, hi: nat)
    requires Cutting(cuts, template, lo) && AfterTag(cuts) && lo <= hi <= |template|
    requires hi == |template| ==> NoPair(template[lo..], '{')
    requires hi < |template| ==> template[hi] == '{' && NoPair(template[lo..hi + 1], '{')
    ensures Cutting(cuts + [CutText(template[lo..hi])], template, hi)
    ensures hi < |template| ==> NoPair(template[lo..hi] + "{", '{')
  {
    TextClean(template, lo, hi);
    CutsOn(cuts, template, lo, CutText(template[lo..hi]), hi);
  }

  lemma TagOn(cuts: seq<Cut>, template: string, lo: nat, tag: Cut, hi: nat)
    requires Cutting(cuts, template, lo) && TagFrom(template, lo, tag, hi) && CutClean(tag)
    requires cuts != [] && cuts[|cuts| - 1].CutText? && NoPair(cuts[|cuts| - 1].text + "{", '{')
    ensures Cutting(cuts + [tag], template, hi)
  {
    CutsOn(cuts, template, lo, tag, hi);
  }

  /** What the parser cuts the template into. */
  ghost predicate CutOf(cuts: seq<Cut>, template: string) {
    Cutting(cuts, template, |template|) && NoEmptyEnd(cuts)
  }

  /**
   * Cuts at the first opening pair, then at the first closing pair after it. Written
   * back, the cuts are the template; texts and tags alternate, no text holds an opening
   * pair, no tag a closing one before its own, each tag starts as early as it can, and
   * only the last cut may be unclosed.
   */
  method CutTemplate(template: string) returns (cuts: seq<Cut>)
    ensures CutOf(cuts, template)
  {
    cuts := [];
    var cursor := 0;
    while cursor < |template|
      invariant cursor <= |template| && Cutting(cuts, template, cursor) && NoEmptyEnd(cuts)
      invariant cursor < |template| ==> AfterTag(cuts)
    {
      var opening := FindPair(template, '{', cursor);
      var hi := if opening.Some? then opening.value else |template|;
      TextOn(cuts, template, cursor, hi);
      cuts := cuts + [CutText(template[cursor..hi])];
      if opening.None? {
        break;
      }
      var tag;
      tag, cursor := TagAt(template, hi);
      TagOn(cuts, template, hi, tag, cursor);
      cuts := cuts + [tag];
    }
  }

  // -------------------------------------------------------------------------
  // There is only one way to cut
  // -------------------------------------------------------------------------

  function WrittenCut(c: Cut): string {
    match c
    case CutText(text) => text
    case CutTag(body) => "{{" + body + "}}"
    case CutUnclosed(text) => text
  }

  lemma {:induction false} WrittenFront(cuts: seq<Cut>)
    requires cuts != []
    ensures Written(cuts) == WrittenCut(cuts[0]) + Written(cuts[1..])
  {
    var init, last := cuts[..|cuts| - 1], cuts[|cuts| - 1];
    if init != [] {
      WrittenFront(init);
      assert cuts[1..][..|cuts| - 2] == init[1..];
      assert WrittenCut(cuts[0]) + Written(init[1..]) + WrittenCut(last)
          == WrittenCut(cuts[0]) + (Written(init[1..]) + WrittenCut(last));
    } else {
      assert cuts[1..] == [];
    }
  }

  /** Up to its first pair of braces a string can be read in one way only. */
  lemma FirstPairIsFirst(brace: char, t: string, rest: string, t': string, rest': string)
    requires t + [brace, brace] + rest == t' + [brace, brace] + rest'
    requires NoPair(t + [brace], brace) && NoPair(t' + [brace], brace)
    ensures t == t' && rest == rest'
  {
    EarlierPair(brace, t, rest, t', rest');
    EarlierPair(brace, t', rest', t, rest);
    assert !PairAt(t' + [brace], |t|, brace) && !PairAt(t + [brace], |t'|, brace);
    var s := t + [brace, brace] + rest;
    assert s[..|t|] == t && s[..|t'|] == t' && s[|t| + 2..] == rest && s[|t'| + 2..] == rest';
  }

  lemma EarlierPair(brace: char, t: string, rest: string, t': string, rest': string)
    requires t + [brace, brace] + rest == t' + [brace, brace] + rest'
    ensures |t| < |t'| ==> PairAt(t' + [brace], |t|, brace)
  {
    var s := t + [brace, brace] + rest;
    assert s[|t|] == brace && s[|t| + 1] == brace;
  }

  lemma PairInside(brace: char, t: string, rest: string)
    ensures PairAt(t + [brace, brace] + rest, |t|, brace)
  {
  }

  /** The rest of the cuts behind a text and its tag. */
  lemma CutRest(cuts: seq<Cut>, s: string)
    requires CutOf(cuts, s) && |cuts| > 1
    ensures CutOf(cuts[2..], Written(cuts[2..]))
    ensures s == WrittenCut(cuts[0]) + (WrittenCut(cuts[1]) + Written(cuts[2..]))
    ensures cuts[0].CutText? && !cuts[1].CutText? && NoPair(cuts[0].text + "{", '{')
    ensures CutClean(cuts[1]) && (cuts[1].CutUnclosed? ==> cuts[2..] == [])
  {
    WrittenFront(cuts);
    WrittenFront(cuts[1..]);
    assert cuts[1..][1..] == cuts[2..] && s[..|s|] == s;
    assert cuts[0] in cuts && cuts[1] in cuts;
    var rest := Written(cuts[2..]);
    assert rest[..|rest|] == rest;
    forall i | 0 <= i < |cuts[2..]| ensures cuts[2..][i].CutText? <==> i % 2 == 0 {
      assert cuts[2..][i] == cuts[i + 2];
    }
  }

  lemma OneText(cuts: seq<Cut>, s: string)
    requires CutOf(cuts, s) && |cuts| == 1
    ensures cuts == [CutText(s)] && NoPair(s, '{') && s != ""
  {
    WrittenFront(cuts);
    assert s[..|s|] == s && cuts[0] in cuts && cuts[1..] == [];
  }

  /** Behind the same text, the same tag and the same rest. */
  lemma TagIsUnique(c: Cut, rest: string, d: Cut, rest': string)
    requires !c.CutText? && !d.CutText? && CutClean(c) && CutClean(d)
    requires WrittenCut(c) + rest == WrittenCut(d) + rest'
    requires c.CutUnclosed? ==> rest == ""
    requires d.CutUnclosed? ==> rest' == ""
    ensures c == d && rest == rest'
  {
    TagTail(c, rest);
    TagTail(d, rest');
    if c.CutTag? && d.CutTag? {
      FirstPairIsFirst('}', c.body, rest, d.body, rest');
    }
  }

  /** What follows the opening braces of a tag. */
  lemma TagTail(c: Cut, rest: string)
    requires !c.CutText? && CutClean(c) && (c.CutUnclosed? ==> rest == "")
    ensures |WrittenCut(c) + rest| >= 2
    ensures c.CutTag? ==>
              && (WrittenCut(c) + rest)[2..] == c.body + ['}', '}'] + rest
              && PairAt((WrittenCut(c) + rest)[2..], |c.body|, '}')
    ensures c.CutUnclosed? ==> WrittenCut(c) + rest == c.text && NoPair((WrittenCut(c) + rest)[2..], '}')
  {
    if c.CutTag? {
      assert (WrittenCut(c) + rest)[2..] == c.body + ['}', '}'] + rest;
      PairInside('}', c.body, rest);
    } else {
      assert PairAt(c.text, 0, '{');
      assert c.text + "" == c.text;
    }
  }

  /** A text and a tag behind it, up to the tag's opening braces. */
  function Tail(c: Cut, rest: string): string {
    (WrittenCut(c) + rest)[if |WrittenCut(c) + rest| >= 2 then 2 else 0..]
  }

  lemma TagOpens(text: string, c: Cut, rest: string)
    requires !c.CutText? && CutClean(c)
    ensures WrittenCut(c) + rest == ['{', '{'] + Tail(c, rest)
    ensures text + (WrittenCut(c) + rest) == text + ['{', '{'] + Tail(c, rest)
  {
    var s := WrittenCut(c) + rest;
    assert c.CutUnclosed? ==> PairAt(c.text, 0, '{');
    assert |s| >= 2 && s[0] == '{' && s[1] == '{';
    assert s == ['{', '{'] + s[2..];
  }

  /** A template has one cutting. */
  lemma {:induction false} CutsAreUnique(a: seq<Cut>, b: seq<Cut>, s: string)
    requires CutOf(a, s) && CutOf(b, s)
    ensures a == b
    decreases |a|
  {
    if |a| <= 1 && |b| <= 1 {
      ShortCuts(a, b, s);
    } else if |a| > 1 && |b| > 1 {
      CutRest(a, s);
      CutRest(b, s);
      SameFront(a, b);
      CutsAreUnique(a[2..], b[2..], Written(a[2..]));
      assert a == [a[0], a[1]] + a[2..] && b == [b[0], b[1]] + b[2..];
    } else if |a| > 1 {
      LongIsNotShort(a, b, s);
    } else {
      LongIsNotShort(b, a, s);
    }
  }

  lemma ShortCuts(a: seq<Cut>, b: seq<Cut>, s: string)
    requires CutOf(a, s) && CutOf(b, s) && |a| <= 1 && |b| <= 1
    ensures a == b
  {
    assert s[..|s|] == s;
    if |a| == 1 { OneText(a, s); }
    if |b| == 1 { OneText(b, s); }
  }

  lemma SameFront(a: seq<Cut>, b: seq<Cut>)
    requires |a| > 1 && |b| > 1
    requires a[0].CutText? && !a[1].CutText? && NoPair(a[0].text + "{", '{') && CutClean(a[1])
    requires b[0].CutText? && !b[1].CutText? && NoPair(b[0].text + "{", '{') && CutClean(b[1])
    requires (a[1].CutUnclosed? ==> a[2..] == []) && (b[1].CutUnclosed? ==> b[2..] == [])
    requires WrittenCut(a[0]) + (WrittenCut(a[1]) + Written(a[2..]))
           == WrittenCut(b[0]) + (WrittenCut(b[1]) + Written(b[2..]))
    ensures a[0] == b[0] && a[1] == b[1] && Written(a[2..]) == Written(b[2..])
  {
    SameTextAndTag(a[0].text, a[1], Written(a[2..]), b[0].text, b[1], Written(b[2..]));
  }

  lemma SameTextAndTag(t: string, c: Cut, rest: string, t': string, d: Cut, rest': string)
    requires !c.CutText? && NoPair(t + "{", '{') && CutClean(c) && (c.CutUnclosed? ==> rest == "")
    requires !d.CutText? && NoPair(t' + "{", '{') && CutClean(d) && (d.CutUnclosed? ==> rest' == "")
    requires t + (WrittenCut(c) + rest) == t' + (WrittenCut(d) + rest')
    ensures t == t' && c == d && rest == rest'
  {
    TagOpens(t, c, rest);
    TagOpens(t', d, rest');
    FirstPairIsFirst('{', t, Tail(c, rest), t', Tail(d, rest'));
    TagIsUnique(c, rest, d, rest');
  }

  lemma LongIsNotShort(a: seq<Cut>, b: seq<Cut>, s: string)
    requires CutOf(a, s) && CutOf(b, s) && |a| > 1
    ensures |b| > 1
  {
    CutRest(a, s);
    TagOpens(a[0].text, a[1], Written(a[2..]));
    PairInside('{', a[0].text, Tail(a[1], Written(a[2..])));
    assert s[..|s|] == s;
    if |b| == 1 {
      OneText(b, s);
    }
  }
}
