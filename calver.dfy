/**
 * The Calver value of calver.go: its fields, the base/suffix split of its
 * layout, its rendering (String) and its layout text (Layout), the small
 * list helpers `reverse` and `contains`, and the copy-and-modify operations
 * NewWithTime, In and TrimSuffix.
 */
module Versions {
  import opened Results
  import opened Strings
  import opened Clock
  import opened Tokens

  /**
   * A calendar version. major, minor and micro only ever come from digit runs,
   * increments or resets to zero, so they are natural numbers here.
   */
  datatype Calver = Calver(
    major: nat,
    minor: nat,
    micro: nat,
    modifier: string,
    ts: Time,
    loc: Location,
    layout: seq<Token>,
    trimSuffix: bool)

  // ---------------------------------------------------------------------------
  // contains and reverse

  /** `contains`: some token of the layout has the same symbol text as t. */
  predicate Has(layout: seq<Token>, t: Token) {
    exists i :: 0 <= i < |layout| && Symbol(layout[i]) == Symbol(t)
  }

  /** contains: a linear scan comparing symbol texts. */
  method Contains(layout: seq<Token>, t: Token) returns (found: bool)
    ensures found <==> Has(layout, t)
  {
    for i := 0 to |layout|
      invariant forall j :: 0 <= j < i ==> Symbol(layout[j]) != Symbol(t)
    {
      if Symbol(layout[i]) == Symbol(t) {
        return true;
      }
    }
    return false;
  }

  /** reverse: prepends each token in turn, so the result is the layout back to front. */
  method Reverse(layout: seq<Token>) returns (reversed: seq<Token>)
    ensures |reversed| == |layout|
    ensures forall i :: 0 <= i < |layout| ==> reversed[i] == layout[|layout| - 1 - i]
  {
    reversed := [];
    for i := 0 to |layout|
      invariant |reversed| == i
      invariant forall j :: 0 <= j < i ==> reversed[j] == layout[i - 1 - j]
    {
      reversed := [layout[i]] + reversed;
    }
  }

  // ---------------------------------------------------------------------------
  // The base/suffix split

  /** A token that may sit in the trailing part: a separator or MODIFIER. */
  predicate Modish(t: Token) {
    t.Sep? || t == Ver(MODIFIER)
  }

  /** Go tells MODIFIER by its symbol text; for a field token that is the same as by its kind. */
  lemma ModifierSymbol(t: Token)
    ensures (!t.Sep? && Symbol(t) == Symbol(Ver(MODIFIER))) <==> t == Ver(MODIFIER)
  {
    if !t.Sep? && Symbol(t) == Symbol(Ver(MODIFIER)) {
      SymbolInjective(t, Ver(MODIFIER));
    }
  }

  /**
   * Where the trailing part starts: the walk from the right keeps separators
   * and MODIFIER in the trailing part until the first other token.
   */
  function ModsStart(layout: seq<Token>): (k: nat)
    ensures k <= |layout|
    ensures forall j :: k <= j < |layout| ==> Modish(layout[j])
    ensures k > 0 ==> !Modish(layout[k - 1])
  {
    if layout == [] then 0
    else if Modish(layout[|layout| - 1]) then ModsStart(layout[..|layout| - 1])
    else |layout|
  }

  function Base(layout: seq<Token>): seq<Token> {
    layout[..ModsStart(layout)]
  }

  function Mods(layout: seq<Token>): seq<Token> {
    layout[ModsStart(layout)..]
  }

  /**
   * The split is the only one of its kind: base ++ mods is the layout, mods holds
   * only separators and MODIFIER, and base is empty or ends in another token.
   */
  lemma {:induction false} SplitUnique(layout: seq<Token>, base: seq<Token>, mods: seq<Token>)
    requires base + mods == layout
    requires forall j :: 0 <= j < |mods| ==> Modish(mods[j])
    requires base == [] || !Modish(base[|base| - 1])
    ensures base == Base(layout) && mods == Mods(layout)
  {
    var k := ModsStart(layout);
    assert base != [] ==> layout[|base| - 1] == base[|base| - 1];
    assert layout[|base|..] == mods;
    ModsStartAtMost(layout, |base|);
    assert |base| == k;
    assert layout[..k] == base;
  }

  /** The trailing part starts no later than any point after which only separators and MODIFIER follow. */
  lemma {:induction false} ModsStartAtMost(layout: seq<Token>, n: nat)
    requires n <= |layout|
    requires forall j :: 0 <= j < |layout[n..]| ==> Modish(layout[n..][j])
    ensures ModsStart(layout) <= n
  {
    if n < |layout| {
      var init := layout[..|layout| - 1];
      assert layout[n..][|layout| - 1 - n] == layout[|layout| - 1];
      assert init[n..] == layout[n..][..|layout| - 1 - n];
      ModsStartAtMost(init, n);
    }
  }

  /** One step of the walk from the right: the next token joins the front of base, or of mods while base is empty. */
  lemma PrependSplit(layout: seq<Token>, i: nat, t: Token, base: seq<Token>, mods: seq<Token>)
    requires i < |layout| && t == layout[|layout| - 1 - i] && base + mods == layout[|layout| - i..]
    ensures ([t] + base) + mods == layout[|layout| - (i + 1)..]
    ensures base == [] ==> [] + ([t] + mods) == layout[|layout| - (i + 1)..]
  {
    assert layout[|layout| - (i + 1)..] == [t] + layout[|layout| - i..];
  }

  /** No token of p is a calendar token. */
  predicate NoCalendar(p: seq<Token>) {
    forall j :: 0 <= j < |p| ==> !p[j].Cal?
  }

  /** The trailing part holds no calendar token. */
  lemma ModsNoCalendar(layout: seq<Token>)
    ensures NoCalendar(Mods(layout))
  {
    var k := ModsStart(layout);
    var mods := layout[k..];
    forall j | 0 <= j < |mods|
      ensures !mods[j].Cal?
    {
      assert mods[j] == layout[k + j] && Modish(layout[k + j]);
    }
  }

  /** Prepending a separator or MODIFIER keeps a trailing part made of those. */
  lemma ModishCons(t: Token, mods: seq<Token>)
    requires Modish(t) && forall j :: 0 <= j < |mods| ==> Modish(mods[j])
    ensures forall j :: 0 <= j < |[t] + mods| ==> Modish(([t] + mods)[j])
  {
  }

  /**
   * The split as calver.go builds it for Parse: walking the reversed layout,
   * prepending to mods while only separators and MODIFIER have been seen, to
   * base from the first other token on.
   */
  method SplitLayout(layout: seq<Token>) returns (base: seq<Token>, mods: seq<Token>)
    ensures base == Base(layout) && mods == Mods(layout)
  {
    var reversed := Reverse(layout);
    base, mods := [], [];
    var contain := true;
    for i := 0 to |reversed|
      invariant base + mods == layout[|layout| - i..]
      invariant forall j :: 0 <= j < |mods| ==> Modish(mods[j])
      invariant contain ==> base == []
      invariant !contain ==> base != [] && !Modish(base[|base| - 1])
    {
      var t := reversed[i];
      PrependSplit(layout, i, t, base, mods);
      if t.Sep? {
        if contain {
          ModishCons(t, mods);
          mods := [t] + mods;
        } else {
          base := [t] + base;
        }
      } else if contain && t == Ver(MODIFIER) {
        ModishCons(t, mods);
        mods := [t] + mods;
      } else {
        base := [t] + base;
        contain := false;
      }
    }
    assert layout[|layout| - |reversed|..] == layout;
    SplitUnique(layout, base, mods);
  }

  // ---------------------------------------------------------------------------
  // Rendering (String)

  /** The text one token shows for a version, with civ the calendar reading of its time. */
  function TokenText(t: Token, civ: Civil, cv: Calver): string {
    match t
    case Cal(c) => CalString(c, civ)
    case Ver(v) => VerString(v, cv.major, cv.minor, cv.micro, cv.modifier)
    case Sep(s) => s
  }

  /**
   * A token trimming may pass over: a separator, or a version field whose text
   * is "0" or "". A calendar token never is.
   */
  predicate Neutral(t: Token, cv: Calver) {
    match t
    case Cal(_) => false
    case Ver(v) => var s := VerString(v, cv.major, cv.minor, cv.micro, cv.modifier); s == "0" || s == ""
    case Sep(_) => true
  }

  predicate AllNeutral(part: seq<Token>, cv: Calver) {
    forall j :: 0 <= j < |part| ==> Neutral(part[j], cv)
  }

  /**
   * One part of the layout rendered: with trim, a token shows nothing when it and
   * every token to its right in the part are neutral.
   */
  function RenderPart(part: seq<Token>, civ: Civil, cv: Calver, trim: bool): string {
    if part == [] then ""
    else
      (if trim && AllNeutral(part, cv) then "" else TokenText(part[0], civ, cv))
      + RenderPart(part[1..], civ, cv, trim)
  }

  /** Every token's text in layout order, nothing elided. */
  function FullText(part: seq<Token>, civ: Civil, cv: Calver): string {
    if part == [] then "" else TokenText(part[0], civ, cv) + FullText(part[1..], civ, cv)
  }

  /** The calendar reading a version renders: its time shown in its own zone. */
  function CivilOf(cal: Calendar, cv: Calver): Civil {
    cal.civil(In(cv.ts, cv.loc))
  }

  /** String: the base part and then the trailing part, each trimmed on its own. */
  function Render(cal: Calendar, cv: Calver): string {
    var civ := CivilOf(cal, cv);
    RenderPart(Base(cv.layout), civ, cv, cv.trimSuffix) + RenderPart(Mods(cv.layout), civ, cv, cv.trimSuffix)
  }

  /** A part's rendering reads only the version fields, never the time or layout of cv. */
  lemma {:induction false} RenderPartFields(part: seq<Token>, civ: Civil, cv: Calver, cv': Calver, trim: bool)
    requires cv'.major == cv.major && cv'.minor == cv.minor && cv'.micro == cv.micro && cv'.modifier == cv.modifier
    ensures RenderPart(part, civ, cv', trim) == RenderPart(part, civ, cv, trim)
  {
    if part != [] {
      RenderPartFields(part[1..], civ, cv, cv', trim);
      assert AllNeutral(part, cv') == AllNeutral(part, cv);
      assert TokenText(part[0], civ, cv') == TokenText(part[0], civ, cv);
    }
  }

  /** String depends on the time only through its instant: a new time at the same instant renders the same. */
  lemma RenderSameInstant(cal: Calendar, cv: Calver, now: Time)
    requires now.unixNano == cv.ts.unixNano
    ensures Render(cal, cv.(ts := now)) == Render(cal, cv)
  {
    var ncv := cv.(ts := now);
    assert CivilOf(cal, ncv) == CivilOf(cal, cv);
    RenderPartFields(Base(cv.layout), CivilOf(cal, cv), cv, ncv, cv.trimSuffix);
    RenderPartFields(Mods(cv.layout), CivilOf(cal, cv), cv, ncv, cv.trimSuffix);
  }

  /** Without trimming a part renders in full. */
  lemma {:induction false} RenderPartUntrimmed(part: seq<Token>, civ: Civil, cv: Calver)
    ensures RenderPart(part, civ, cv, false) == FullText(part, civ, cv)
  {
    if part != [] {
      RenderPartUntrimmed(part[1..], civ, cv);
    }
  }

  lemma {:induction false} FullTextAppend(a: seq<Token>, b: seq<Token>, civ: Civil, cv: Calver)
    ensures FullText(a + b, civ, cv) == FullText(a, civ, cv) + FullText(b, civ, cv)
  {
    if a == [] {
      assert a + b == b;
    } else {
      var head := TokenText(a[0], civ, cv);
      calc {
        FullText(a + b, civ, cv);
      == { assert (a + b)[0] == a[0] && (a + b)[1..] == a[1..] + b; }
        head + FullText(a[1..] + b, civ, cv);
      == { FullTextAppend(a[1..], b, civ, cv); }
        head + (FullText(a[1..], civ, cv) + FullText(b, civ, cv));
      }
    }
  }

  /** With trimSuffix off, String is every token's text in layout order. */
  lemma RenderUntrimmed(cal: Calendar, cv: Calver)
    requires !cv.trimSuffix
    ensures Render(cal, cv) == FullText(cv.layout, CivilOf(cal, cv), cv)
  {
    var base, mods := Base(cv.layout), Mods(cv.layout);
    assert base + mods == cv.layout;
    UntrimmedJoin(base, mods, cv.layout, CivilOf(cal, cv), cv);
  }

  /** Two parts rendered untrimmed, one after the other, show the text of their join. */
  lemma UntrimmedJoin(base: seq<Token>, mods: seq<Token>, layout: seq<Token>, civ: Civil, cv: Calver)
    requires base + mods == layout
    ensures RenderPart(base, civ, cv, false) + RenderPart(mods, civ, cv, false) == FullText(layout, civ, cv)
  {
    RenderPartUntrimmed(base, civ, cv);
    RenderPartUntrimmed(mods, civ, cv);
    FullTextAppend(base, mods, civ, cv);
  }

  /**
   * Trimming only cuts: everything up to and including a non-neutral token (a
   * calendar token, a non-zero number, a non-empty modifier) renders in full.
   */
  lemma {:induction false} TrimKeepsUpTo(part: seq<Token>, i: nat, civ: Civil, cv: Calver)
    requires i < |part| && !Neutral(part[i], cv)
    ensures RenderPart(part, civ, cv, true) == FullText(part[..i + 1], civ, cv) + RenderPart(part[i + 1..], civ, cv, true)
  {
    assert !AllNeutral(part, cv);
    if i > 0 {
      var head := TokenText(part[0], civ, cv);
      calc {
        RenderPart(part, civ, cv, true);
        head + RenderPart(part[1..], civ, cv, true);
      == { assert part[1..][i - 1] == part[i];
           TrimKeepsUpTo(part[1..], i - 1, civ, cv);
           assert part[1..][i..] == part[i + 1..]; }
        head + (FullText(part[1..][..i], civ, cv) + RenderPart(part[i + 1..], civ, cv, true));
      == { assert part[1..][..i] == part[..i + 1][1..] && part[..i + 1][0] == part[0]; }
        FullText(part[..i + 1], civ, cv) + RenderPart(part[i + 1..], civ, cv, true);
      }
    } else {
      assert part[..1][1..] == [];
    }
  }

  /** A trimmed part is a prefix of the untrimmed one, and what is cut is all neutral text. */
  lemma {:induction false} TrimIsPrefix(part: seq<Token>, civ: Civil, cv: Calver)
    ensures IsPrefix(RenderPart(part, civ, cv, true), RenderPart(part, civ, cv, false))
    ensures AllNeutral(part, cv) ==> RenderPart(part, civ, cv, true) == ""
  {
    if part != [] {
      TrimIsPrefix(part[1..], civ, cv);
      var rest := RenderPart(part[1..], civ, cv, true);
      var full := RenderPart(part[1..], civ, cv, false);
      var head := TokenText(part[0], civ, cv);
      if AllNeutral(part, cv) {
        assert AllNeutral(part[1..], cv);
      } else {
        assert (head + full)[..|head + rest|] == head + full[..|rest|];
      }
    }
  }

  /** A sequence back to front. */
  function Rev(s: seq<Token>): (r: seq<Token>)
    ensures |r| == |s|
  {
    if s == [] then [] else Rev(s[1..]) + [s[0]]
  }

  lemma RevCons(t: Token, s: seq<Token>)
    ensures Rev([t] + s) == Rev(s) + [t]
  {
    assert ([t] + s)[1..] == s;
  }

  /** Position j of the reversal holds the j-th token from the back. */
  lemma {:induction false} RevAt(s: seq<Token>, j: nat)
    requires j < |s|
    ensures Rev(s)[j] == s[|s| - 1 - j]
  {
    if j < |s| - 1 {
      RevAt(s[1..], j);
    }
  }

  /**
   * String's own split (calver.go builds it by appending while walking the
   * reversed layout): rbase and rmods are the base and the trailing part, each
   * back to front.
   */
  method SplitReversed(layout: seq<Token>) returns (rbase: seq<Token>, rmods: seq<Token>)
    ensures rbase == Rev(Base(layout)) && rmods == Rev(Mods(layout))
  {
    var reversed := Reverse(layout);
    rbase, rmods := [], [];
    ghost var base: seq<Token>, mods: seq<Token> := [], [];
    var contain := true;
    for i := 0 to |reversed|
      invariant base + mods == layout[|layout| - i..]
      invariant forall j :: 0 <= j < |mods| ==> Modish(mods[j])
      invariant contain ==> base == []
      invariant !contain ==> base != [] && !Modish(base[|base| - 1])
      invariant rbase == Rev(base) && rmods == Rev(mods)
    {
      var t := reversed[i];
      PrependSplit(layout, i, t, base, mods);
      if t.Sep? {
        if contain {
          RevCons(t, mods);
          ModishCons(t, mods);
          rmods, mods := rmods + [t], [t] + mods;
        } else {
          RevCons(t, base);
          rbase, base := rbase + [t], [t] + base;
        }
      } else if contain && t == Ver(MODIFIER) {
        RevCons(t, mods);
        ModishCons(t, mods);
        rmods, mods := rmods + [t], [t] + mods;
      } else {
        RevCons(t, base);
        rbase, base := rbase + [t], [t] + base;
        contain := false;
      }
    }
    assert layout[|layout| - |reversed|..] == layout;
    SplitUnique(layout, base, mods);
  }

  /**
   * String as calver.go writes it: the trailing part and then the base are
   * rendered right to left, each onto the front of the text so far.
   */
  method String(cal: Calendar, cv: Calver) returns (s: string)
    ensures s == Render(cal, cv)
  {
    var civ := CivilOf(cal, cv);
    var rbase, rmods := SplitReversed(cv.layout);
    s := "";
    // modifier suffix
    ModsNoCalendar(cv.layout);
    s := RenderReversed(rmods, Mods(cv.layout), civ, cv, s, true);
    // base
    s := RenderReversed(rbase, Base(cv.layout), civ, cv, s, false);
    assert s == RenderPart(Base(cv.layout), civ, cv, cv.trimSuffix) + (RenderPart(Mods(cv.layout), civ, cv, cv.trimSuffix) + "");
  }

  /**
   * One of String's loops: the tokens of a part, back to front, each prepended
   * to s under a `trimable` flag that starts as trimSuffix and drops at the
   * first token that shows something. In the trailing part (`inMods`) a
   * calendar token would panic; the part holds none, so that cannot happen.
   */
  method RenderReversed(rpart: seq<Token>, ghost part: seq<Token>, civ: Civil, cv: Calver, s0: string, inMods: bool)
    returns (s: string)
    requires rpart == Rev(part)
    requires inMods ==> NoCalendar(part)
    ensures s == RenderPart(part, civ, cv, cv.trimSuffix) + s0
  {
    s := s0;
    var trimable := cv.trimSuffix;
    for i := 0 to |rpart|
      invariant s == RenderPart(part[|part| - i..], civ, cv, cv.trimSuffix) + s0
      invariant trimable == (cv.trimSuffix && AllNeutral(part[|part| - i..], cv))
    {
      var t := rpart[i];
      ghost var k := |part| - 1 - i;
      RevAt(part, i);
      if inMods && t.Cal? {
        assert false;
      }
      assert k + 1 == |part| - i;
      s, trimable := RenderStep(t, part, k, civ, cv, s, trimable, s0);
      assert k == |part| - (i + 1);
    }
    assert part[|part| - |rpart|..] == part;
  }

  /**
   * One iteration of String's loops: the token part[k] is prepended to the text
   * of part[k+1..], shown or elided by the `trimable` flag, which it updates.
   */
  method RenderStep(t: Token, ghost part: seq<Token>, ghost k: nat, civ: Civil, cv: Calver, s: string, trimable: bool, ghost tail: string)
    returns (s': string, trimable': bool)
    requires k < |part| && t == part[k]
    requires s == RenderPart(part[k + 1..], civ, cv, cv.trimSuffix) + tail
    requires trimable == (cv.trimSuffix && AllNeutral(part[k + 1..], cv))
    ensures s' == RenderPart(part[k..], civ, cv, cv.trimSuffix) + tail
    ensures trimable' == (cv.trimSuffix && AllNeutral(part[k..], cv))
  {
    RenderPartAt(part, k, civ, cv, cv.trimSuffix);
    var piece: string;
    match t {
      case Cal(c) =>
        trimable' := false;
        piece := CalString(c, civ);
      case Ver(v) =>
        piece := VerString(v, cv.major, cv.minor, cv.micro, cv.modifier);
        trimable' := trimable;
        if trimable && (piece == "0" || piece == "") {
          piece := "";
        } else {
          trimable' := false;
        }
      case Sep(sep) =>
        trimable' := trimable;
        piece := "";
        if !trimable {
          piece := sep;
        }
    }
    s' := piece + s;
    assert piece + (RenderPart(part[k + 1..], civ, cv, cv.trimSuffix) + tail)
        == (piece + RenderPart(part[k + 1..], civ, cv, cv.trimSuffix)) + tail;
  }

  /** RenderPart unfolded at position k of a part. */
  lemma RenderPartAt(part: seq<Token>, k: nat, civ: Civil, cv: Calver, trim: bool)
    requires k < |part|
    ensures AllNeutral(part[k..], cv) == (Neutral(part[k], cv) && AllNeutral(part[k + 1..], cv))
    ensures RenderPart(part[k..], civ, cv, trim)
         == (if trim && AllNeutral(part[k..], cv) then "" else TokenText(part[k], civ, cv))
            + RenderPart(part[k + 1..], civ, cv, trim)
  {
    assert part[k..][1..] == part[k + 1..];
    assert forall j :: 1 <= j < |part[k..]| ==> part[k..][j] == part[k + 1..][j - 1];
  }

  // ---------------------------------------------------------------------------
  // Layout

  /** Layout: the symbols of the tokens, concatenated in order. */
  method Layout(cv: Calver) returns (s: string)
    ensures s == LayoutText(cv.layout)
  {
    s := "";
    for i := 0 to |cv.layout|
      invariant s == LayoutText(cv.layout[..i])
    {
      LayoutTextAppend(cv.layout[..i], [cv.layout[i]]);
      assert cv.layout[..i + 1] == cv.layout[..i] + [cv.layout[i]];
      assert LayoutText([cv.layout[i]]) == Symbol(cv.layout[i]) + LayoutText([]);
      s := s + Symbol(cv.layout[i]);
    }
    assert cv.layout[..|cv.layout|] == cv.layout;
  }

  // ---------------------------------------------------------------------------
  // Construction and copy-and-modify

  /**
   * NewWithTime: a zero version at `now`, in now's zone, over the tokenized
   * layout; it never fails, and the layout reads back as the given text.
   */
  method NewWithTime(layout: string, now: Time) returns (cv: Calver)
    ensures cv.layout == Tokenize(layout) && LayoutText(cv.layout) == layout && WellFormed(cv.layout)
    ensures cv.major == 0 && cv.minor == 0 && cv.micro == 0 && cv.modifier == ""
    ensures cv.ts == now && cv.loc == now.loc && !cv.trimSuffix
  {
    var tokens := TokenizeLayout(layout);
    cv := Calver(0, 0, 0, "", now, now.loc, tokens, false);
  }

  /** In: the same version shown in another zone; only loc changes. */
  function InZone(cv: Calver, loc: Location): (r: Calver)
    ensures r.loc == loc
    ensures r.major == cv.major && r.minor == cv.minor && r.micro == cv.micro && r.modifier == cv.modifier
    ensures r.ts == cv.ts && r.layout == cv.layout && r.trimSuffix == cv.trimSuffix
  {
    cv.(loc := loc)
  }

  /** TrimSuffix: the same version with trimming switched on or off; only trimSuffix changes. */
  function TrimSuffix(cv: Calver, enable: bool): (r: Calver)
    ensures r.trimSuffix == enable
    ensures r.major == cv.major && r.minor == cv.minor && r.micro == cv.micro && r.modifier == cv.modifier
    ensures r.ts == cv.ts && r.loc == cv.loc && r.layout == cv.layout
  {
    cv.(trimSuffix := enable)
  }
}
