/**
 * The layout grammar of token.go: the builtin calendar and version symbols,
 * literal separators, the prefix consumers that take a field's text off the
 * front of a version string, the renderers, and the layout tokenizer.
 */
module Tokens {
  import opened Results
  import opened Strings
  import opened Clock

  /** Calendar symbols; ZeroY..ZeroD are the zero-padded 0Y, 0M, 0W, 0D. */
  datatype CalSym = YYYY | YY | ZeroY | MM | ZeroM | WW | ZeroW | DD | ZeroD

  /** Version symbols. */
  datatype VerSym = MAJOR | MINOR | MICRO | MODIFIER

  /** A layout token: a calendar field, a version field or a literal separator. */
  datatype Token = Cal(cal: CalSym) | Ver(ver: VerSym) | Sep(text: string)

  predicate IsBuiltinSymbol(s: string) {
    || s == "YYYY" || s == "YY" || s == "0Y" || s == "MM" || s == "0M"
    || s == "WW" || s == "0W" || s == "DD" || s == "0D"
    || s == "MAJOR" || s == "MINOR" || s == "MICRO" || s == "MODIFIER"
  }

  /** The layout text of a token (its Token() method). */
  function Symbol(t: Token): string
  {
    match t
    case Cal(c) =>
      (match c
       case YYYY => "YYYY" case YY => "YY" case ZeroY => "0Y"
       case MM => "MM" case ZeroM => "0M" case WW => "WW" case ZeroW => "0W"
       case DD => "DD" case ZeroD => "0D")
    case Ver(v) =>
      (match v case MAJOR => "MAJOR" case MINOR => "MINOR" case MICRO => "MICRO" case MODIFIER => "MODIFIER")
    case Sep(s) => s
  }

  /** Two field tokens with the same symbol are the same token. */
  lemma SymbolInjective(a: Token, b: Token)
    requires !a.Sep? && !b.Sep? && Symbol(a) == Symbol(b)
    ensures a == b
  {
  }

  /** The builtin table, in the order the tokenizer scans it. */
  const Builtins: seq<Token> := [
    Cal(YYYY), Cal(YY), Cal(ZeroY), Cal(MM), Cal(ZeroM), Cal(WW), Cal(ZeroW), Cal(DD), Cal(ZeroD),
    Ver(MAJOR), Ver(MINOR), Ver(MICRO), Ver(MODIFIER)
  ]

  /** Every field token is in the builtin table, and the table holds no separator. */
  lemma BuiltinsAreFields(t: Token)
    ensures t in Builtins <==> !t.Sep?
  {
    match t
    case Cal(c) =>
      match c {
        case YYYY =>
        case YY =>
        case ZeroY =>
        case MM =>
        case ZeroM =>
        case WW =>
        case ZeroW =>
        case DD =>
        case ZeroD =>
      }
    case Ver(v) =>
      match v {
        case MAJOR =>
        case MINOR =>
        case MICRO =>
        case MODIFIER =>
      }
    case Sep(_) =>
  }

  /** A table of builtins: it holds every field token and no separator. */
  ghost predicate ValidTable(bs: seq<Token>) {
    forall t :: t in bs <==> !t.Sep?
  }

  lemma BuiltinsValid()
    ensures ValidTable(Builtins)
  {
    forall t: Token
      ensures t in Builtins <==> !t.Sep?
    {
      BuiltinsAreFields(t);
    }
  }

  /** A field token's symbol is a builtin symbol of at least two letters. */
  lemma FieldSymbol(t: Token)
    requires !t.Sep?
    ensures IsBuiltinSymbol(Symbol(t)) && |Symbol(t)| >= 2
  {
  }

  /** What the tokenizer guarantees of its output: separators are non-empty and never a builtin symbol. */
  predicate WellFormed(layout: seq<Token>) {
    forall i :: 0 <= i < |layout| ==> GoodSep(layout[i])
  }

  /** The layout text of a token sequence: its symbols concatenated (Calver.Layout). */
  function LayoutText(tokens: seq<Token>): string {
    if tokens == [] then "" else Symbol(tokens[0]) + LayoutText(tokens[1..])
  }

  lemma {:induction false} LayoutTextAppend(a: seq<Token>, b: seq<Token>)
    ensures LayoutText(a + b) == LayoutText(a) + LayoutText(b)
  {
    if a == [] {
      assert a + b == b;
    } else {
      calc {
        LayoutText(a + b);
      == { assert (a + b)[0] == a[0] && (a + b)[1..] == a[1..] + b; }
        Symbol(a[0]) + LayoutText(a[1..] + b);
      == { LayoutTextAppend(a[1..], b); }
        Symbol(a[0]) + (LayoutText(a[1..]) + LayoutText(b));
      }
    }
  }

  // ---------------------------------------------------------------------------
  // Prefix consumers (TrimPrefix)

  /** A successful TrimPrefix: the text the token took and what is left. */
  datatype Cut = Cut(prefix: string, rest: string)

  /** The pattern width of each calendar symbol, read off its text. */
  lemma CalWidth(c: CalSym)
    ensures (|Symbol(Cal(c))| == 2 && !IsPrefix("0", Symbol(Cal(c)))) <==> c in {YY, MM, WW, DD}
    ensures |Symbol(Cal(c))| == if c == YYYY then 4 else 2
  {
    var sym := Symbol(Cal(c));
    assert sym[..1][0] == sym[0];
    match c
    case YYYY =>
    case YY =>
    case ZeroY =>
    case MM =>
    case ZeroM =>
    case WW =>
    case ZeroW =>
    case DD =>
    case ZeroD =>
  }

  /**
   * tokenCal.TrimPrefix. A two-letter symbol not starting with 0 (YY, MM, WW, DD)
   * takes `[1-9][0-9]?`; the others take exactly as many digits as the symbol has
   * letters (four for YYYY, two for 0Y, 0M, 0W, 0D). The pattern's `(.*)$` tail
   * cannot match a line break, so a value holding one is refused.
   */
  function TrimCal(c: CalSym, value: string): (r: Result<Cut>)
    ensures r.Ok? ==> r.value.prefix + r.value.rest == value && IsDigits(r.value.prefix) && r.value.prefix != ""
    ensures r.Err? ==> r.error == NoValue(Symbol(Cal(c)), value)
    ensures c in {YY, MM, WW, DD} ==>
      && (r.Ok? <==> value != "" && '1' <= value[0] <= '9' && NoNewline(value))
      && (r.Ok? ==> |r.value.prefix| == if |value| >= 2 && IsDigit(value[1]) then 2 else 1)
    ensures c == YYYY ==>
      && (r.Ok? <==> |value| >= 4 && IsDigits(value[..4]) && NoNewline(value))
      && (r.Ok? ==> |r.value.prefix| == 4)
    ensures c in {ZeroY, ZeroM, ZeroW, ZeroD} ==>
      && (r.Ok? <==> |value| >= 2 && IsDigits(value[..2]) && NoNewline(value))
      && (r.Ok? ==> |r.value.prefix| == 2)
  {
    CalWidth(c);
    var sym := Symbol(Cal(c));
    var l := |sym|;
    if l == 2 && !IsPrefix("0", sym) then
      if value != "" && '1' <= value[0] <= '9' && NoNewline(value) then
        var n := if |value| >= 2 && IsDigit(value[1]) then 2 else 1;
        Ok(Cut(value[..n], value[n..]))
      else
        Err(NoValue(sym, value))
    else if |value| >= l && IsDigits(value[..l]) && NoNewline(value) then
      Ok(Cut(value[..l], value[l..]))
    else
      Err(NoValue(sym, value))
  }

  /**
   * tokenVer.TrimPrefix. MODIFIER takes the whole value and never fails; MAJOR,
   * MINOR and MICRO take the longest leading run of digits and fail when the
   * value does not start with a digit (or holds a line break).
   */
  function TrimVer(v: VerSym, value: string): (r: Result<Cut>)
    ensures v == MODIFIER ==> r == Ok(Cut(value, ""))
    ensures v != MODIFIER ==> (r.Ok? <==> value != "" && IsDigit(value[0]) && NoNewline(value))
    ensures v != MODIFIER && r.Ok? ==>
      && r.value.prefix + r.value.rest == value
      && r.value.prefix != "" && IsDigits(r.value.prefix)
      && (r.value.rest == "" || !IsDigit(r.value.rest[0]))
    ensures r.Err? ==> r.error == NoValue(Symbol(Ver(v)), value)
  {
    if v == MODIFIER then
      Ok(Cut(value, ""))
    else if value != "" && IsDigit(value[0]) && NoNewline(value) then
      var n := DigitRun(value);
      Ok(Cut(value[..n], value[n..]))
    else
      Err(NoValue(Symbol(Ver(v)), value))
  }

  /** tokenSep.TrimPrefix: succeeds exactly when the value starts with the separator. */
  function TrimSep(sep: string, value: string): (r: Result<Cut>)
    ensures r.Ok? <==> IsPrefix(sep, value)
    ensures r.Ok? ==> r.value.prefix == sep && sep + r.value.rest == value
    ensures r.Err? ==> r.error == NoValue(sep, value)
  {
    if IsPrefix(sep, value) then Ok(Cut(sep, value[|sep|..])) else Err(NoValue(sep, value))
  }

  /** TrimPrefix of any token; on success the value splits into prefix and rest. */
  function TrimPrefix(t: Token, value: string): (r: Result<Cut>)
    ensures r.Ok? ==> r.value.prefix + r.value.rest == value
  {
    match t
    case Cal(c) => TrimCal(c, value)
    case Ver(v) => TrimVer(v, value)
    case Sep(s) => TrimSep(s, value)
  }

  // ---------------------------------------------------------------------------
  // Renderers (timeToString, verToString)

  /** The calendar quantity a calendar symbol shows. */
  function CalField(c: CalSym, civ: Civil): nat {
    match c
    case YYYY => civ.year
    case YY => civ.year % 100
    case ZeroY => civ.year % 100
    case MM => civ.month
    case ZeroM => civ.month
    case WW => civ.week
    case ZeroW => civ.week
    case DD => civ.day
    case ZeroD => civ.day
  }

  /**
   * timeToString: YYYY is t.Format("2006"), YY the two-digit year of
   * t.Format("06") with one leading "0" removed, 0Y that two-digit year,
   * MM/0M t.Format("1")/"01", DD/0D "2"/"02", WW/0W the ISO week as %d/%02d.
   */
  function CalString(c: CalSym, civ: Civil): (s: string)
    ensures s != "" && IsDigits(s) && DigitsValue(s) == CalField(c, civ)
  {
    match c
    case YYYY => ZeroPad(civ.year, 4)
    case YY =>
      var p := ZeroPad(civ.year % 100, 2);
      if IsPrefix("0", p) then
        assert p == Zeros(1) + p[1..];
        ZerosValue(1, p[1..]);
        p[1..]
      else p
    case ZeroY => ZeroPad(civ.year % 100, 2)
    case MM => Decimal(civ.month)
    case ZeroM => ZeroPad(civ.month, 2)
    case WW => Decimal(civ.week)
    case ZeroW => ZeroPad(civ.week, 2)
    case DD => Decimal(civ.day)
    case ZeroD => ZeroPad(civ.day, 2)
  }

  /** The widths of the renderings: YY, MM, WW, DD are unpadded, the 0-forms two digits, YYYY at least four. */
  lemma {:induction false} CalStringShape(c: CalSym, civ: Civil)
    ensures c in {YY, MM, WW, DD} ==> CalString(c, civ) == Decimal(CalField(c, civ))
    ensures c in {ZeroY, ZeroM, ZeroW, ZeroD} && CalField(c, civ) < 100 ==> |CalString(c, civ)| == 2
    ensures c == YYYY ==> |CalString(c, civ)| >= 4
    ensures c == YYYY && civ.year < 10000 ==> |CalString(c, civ)| == 4
  {
    match c
    case YYYY => DecimalWidth(civ.year);
    case YY => YYUnpadded(civ);
    case ZeroY => DecimalWidth(civ.year % 100);
    case ZeroM => DecimalWidth(civ.month);
    case ZeroW => DecimalWidth(civ.week);
    case ZeroD => DecimalWidth(civ.day);
    case _ =>
  }

  /** YY drops the padding zero of a one-digit year, leaving the plain decimal. */
  lemma YYUnpadded(civ: Civil)
    ensures CalString(YY, civ) == Decimal(civ.year % 100)
  {
    var n := civ.year % 100;
    var p := ZeroPad(n, 2);
    DecimalWidth(n);
    if n < 10 {
      assert Decimal(n) == [Digit(n)];
      assert p == "0" + Decimal(n);
    } else {
      assert p == Decimal(n);
      assert Decimal(n)[0] != '0';
    }
  }

  /** How many characters %d uses below 100 and below 10000. */
  lemma DecimalWidth(n: nat)
    ensures n < 10 ==> |Decimal(n)| == 1
    ensures 10 <= n < 100 ==> |Decimal(n)| == 2
    ensures n < 100 ==> |Decimal(n)| <= 2
    ensures n < 10000 ==> |Decimal(n)| <= 4
  {
    if n >= 10 {
      DecimalWidth(n / 10);
    }
  }

  /** verToString: MAJOR, MINOR, MICRO in decimal, MODIFIER verbatim. */
  function VerString(v: VerSym, major: nat, minor: nat, micro: nat, modifier: string): (s: string)
    ensures v != MODIFIER ==> s != "" && IsDigits(s)
    ensures v == MAJOR ==> DigitsValue(s) == major
    ensures v == MINOR ==> DigitsValue(s) == minor
    ensures v == MICRO ==> DigitsValue(s) == micro
    ensures v == MODIFIER ==> s == modifier
  {
    match v
    case MAJOR => Decimal(major)
    case MINOR => Decimal(minor)
    case MICRO => Decimal(micro)
    case MODIFIER => modifier
  }

  // ---------------------------------------------------------------------------
  // Tokenizer

  /** The builtins whose symbol starts with v, in table order. */
  function PrefixMatches(bs: seq<Token>, v: string): seq<Token>
  {
    if bs == [] then []
    else
      var last := bs[|bs| - 1];
      PrefixMatches(bs[..|bs| - 1], v) + (if IsPrefix(v, Symbol(last)) then [last] else [])
  }

  /** The last builtin whose symbol is exactly s. */
  function Lookup(bs: seq<Token>, s: string): (r: Option<Token>)
    ensures r.Some? ==> r.value in bs && Symbol(r.value) == s
    ensures r.None? ==> forall t :: t in bs ==> Symbol(t) != s
  {
    if bs == [] then None
    else if Symbol(bs[|bs| - 1]) == s then Some(bs[|bs| - 1])
    else Lookup(bs[..|bs| - 1], s)
  }

  /** The builtin scan of one tokenizer step: prefix matches of the window, and exact matches of it and of its shorter form. */
  method ScanBuiltins(bs: seq<Token>, v: string, prev: string) returns (prefixMatches: seq<Token>, exact: Option<Token>, prevExact: Option<Token>)
    ensures prefixMatches == PrefixMatches(bs, v)
    ensures exact == Lookup(bs, v)
    ensures prevExact == Lookup(bs, prev)
  {
    prefixMatches, exact, prevExact := [], None, None;
    for i := 0 to |bs|
      invariant prefixMatches == PrefixMatches(bs[..i], v)
      invariant exact == Lookup(bs[..i], v)
      invariant prevExact == Lookup(bs[..i], prev)
    {
      var t := bs[i];
      assert bs[..i + 1][..i] == bs[..i];
      if IsPrefix(v, Symbol(t)) {
        prefixMatches := prefixMatches + [t];
      }
      if Symbol(t) == v {
        exact := Some(t);
      }
      if Symbol(t) == prev {
        prevExact := Some(t);
      }
    }
    assert bs[..|bs|] == bs;
  }

  /** One scan step: the tokens it emits and the next window (pos, idx), after the loop's idx++. */
  datatype Step = Step(emit: seq<Token>, pos: nat, idx: nat)

  /** A separator the tokenizer may emit: non-empty and not a builtin symbol. */
  predicate GoodSep(t: Token) {
    t.Sep? ==> t.text != "" && !IsBuiltinSymbol(t.text)
  }

  /**
   * The switch of tokenizeLayout's loop, given the builtin scan of the window v:
   * how many symbols start with v, the builtin equal to v, the builtin equal to
   * prev (v without its last character), and whether v reaches the end of the
   * layout. When no case applies the window grows by one character.
   */
  function Switch(v: string, count: nat, m: Option<Token>, pm: Option<Token>, last: bool, pos: nat, idx: nat): Step
  {
    if count == 1 && m.Some? then Step([m.value], idx + 1, idx + 1)
    else if count == 0 && pm.Some? then Step([pm.value], idx, idx)
    else if count == 0 then Step([Sep(v)], idx + 1, idx + 1)
    else if last && m.Some? then Step([m.value], pos, idx + 1)
    else if last && pm.Some? then Step([pm.value], idx, idx)
    else if last then Step([Sep(v)], pos, idx + 1)
    else Step([], pos, idx + 1)
  }

  /** Where each case of the switch leaves the window, and what text it emits. */
  lemma SwitchFacts(v: string, prev: string, count: nat, m: Option<Token>, pm: Option<Token>, last: bool, pos: nat, idx: nat)
    requires pos <= idx
    requires m.Some? ==> LayoutText([m.value]) == v && GoodSep(m.value)
    requires pm.Some? ==> LayoutText([pm.value]) == prev && prev != "" && GoodSep(pm.value)
    requires prev != "" ==> pos < idx
    requires LayoutText([Sep(v)]) == v
    requires count == 0 || m.None? ==> GoodSep(Sep(v))
    ensures var st := Switch(v, count, m, pm, last, pos, idx);
      && (|| (st.pos == st.idx == idx + 1 && LayoutText(st.emit) == v)
          || (st.pos == st.idx == idx && pos < idx && LayoutText(st.emit) == prev)
          || (st.pos == pos && st.idx == idx + 1 && last && LayoutText(st.emit) == v)
          || (st.pos == pos && st.idx == idx + 1 && !last && st.emit == []))
      && forall t :: t in st.emit ==> GoodSep(t)
  {
  }

  /**
   * One iteration of tokenizeLayout's loop on the window layout[pos..idx+1]. It
   * moves the window forward (2|layout| - pos - idx falls), emits exactly the
   * text it leaves behind, and emits only well-formed separators.
   */
  function ScanStep(bs: seq<Token>, layout: string, pos: nat, idx: nat): (st: Step)
    requires ValidTable(bs) && pos <= idx < |layout|
    ensures pos <= st.pos <= st.idx <= |layout|
    ensures 2 * |layout| - st.pos - st.idx < 2 * |layout| - pos - idx
    ensures st.idx < |layout| ==> LayoutText(st.emit) == layout[pos..st.pos]
    ensures st.idx == |layout| ==> LayoutText(st.emit) == layout[pos..]
    ensures forall t :: t in st.emit ==> GoodSep(t)
  {
    var v := layout[pos..idx + 1];
    var prev := layout[pos..idx];
    var count := |PrefixMatches(bs, v)|;
    var m := Lookup(bs, v);
    var pm := Lookup(bs, prev);
    ScanFacts(bs, v, prev, count, m, pm);
    SwitchFacts(v, prev, count, m, pm, idx + 1 == |layout|, pos, idx);
    var st := Switch(v, count, m, pm, idx + 1 == |layout|, pos, idx);
    SwitchText(layout, pos, idx, st);
    st
  }

  /** Where a step of the switch leaves the window, read as text of the layout. */
  lemma SwitchText(layout: string, pos: nat, idx: nat, st: Step)
    requires pos <= idx < |layout|
    requires || (st.pos == st.idx == idx + 1 && LayoutText(st.emit) == layout[pos..idx + 1])
             || (st.pos == st.idx == idx && pos < idx && LayoutText(st.emit) == layout[pos..idx])
             || (st.pos == pos && st.idx == idx + 1 && idx + 1 == |layout| && LayoutText(st.emit) == layout[pos..idx + 1])
             || (st.pos == pos && st.idx == idx + 1 && idx + 1 != |layout| && st.emit == [])
    ensures pos <= st.pos <= st.idx <= |layout|
    ensures 2 * |layout| - st.pos - st.idx < 2 * |layout| - pos - idx
    ensures st.idx < |layout| ==> LayoutText(st.emit) == layout[pos..st.pos]
    ensures st.idx == |layout| ==> LayoutText(st.emit) == layout[pos..]
  {
    if idx + 1 == |layout| {
      assert layout[pos..] == layout[pos..idx + 1];
    }
    if st.emit == [] {
      assert LayoutText(st.emit) == "";
    }
  }

  /** What the builtin scan of a window tells about the tokens a step may emit. */
  lemma ScanFacts(bs: seq<Token>, v: string, prev: string, count: nat, m: Option<Token>, pm: Option<Token>)
    requires ValidTable(bs)
    requires count == |PrefixMatches(bs, v)| && m == Lookup(bs, v) && pm == Lookup(bs, prev)
    ensures m.Some? ==> LayoutText([m.value]) == v && GoodSep(m.value)
    ensures pm.Some? ==> LayoutText([pm.value]) == prev && prev != "" && GoodSep(pm.value)
    ensures LayoutText([Sep(v)]) == v
    ensures v != "" ==> count == 0 || m.None? ==> GoodSep(Sep(v))
  {
    if m.Some? {
      FieldToken(m.value);
    }
    if pm.Some? {
      FieldToken(pm.value);
    }
    SepToken(v);
    if count == 0 {
      NotBuiltinWhenNoPrefix(bs, v);
    } else if m.None? {
      NotBuiltinWhenNoMatch(bs, v);
    }
  }

  /** A builtin as a one-token layout: its text is its non-empty symbol. */
  lemma FieldToken(t: Token)
    requires !t.Sep?
    ensures LayoutText([t]) == Symbol(t) && |Symbol(t)| >= 2 && GoodSep(t)
  {
    FieldSymbol(t);
    assert [t][..0] == [];
  }

  /** A separator as a one-token layout: its text is its own. */
  lemma SepToken(v: string)
    ensures LayoutText([Sep(v)]) == v
  {
    assert [Sep(v)][..0] == [];
  }

  /** The tokenizer as a function of its scan state: the steps from (pos, idx) to the end. */
  function TokenizeFrom(bs: seq<Token>, layout: string, pos: nat, idx: nat): seq<Token>
    requires ValidTable(bs) && pos <= idx <= |layout|
    decreases 2 * |layout| - pos - idx
  {
    if idx == |layout| then []
    else
      var st := ScanStep(bs, layout, pos, idx);
      st.emit + TokenizeFrom(bs, layout, st.pos, st.idx)
  }

  function Tokenize(layout: string): seq<Token> {
    BuiltinsValid();
    TokenizeFrom(Builtins, layout, 0, 0)
  }

  /**
   * tokenizeLayout. The scan window grows one character at a time; the retreat
   * (`idx--`) only happens when the shorter window is a whole builtin, and then
   * the window start jumps to idx, so 2|layout| - pos - idx still falls.
   * It never fails, so it returns the tokens alone.
   */
  method TokenizeLayout(layout: string) returns (tokens: seq<Token>)
    ensures tokens == Tokenize(layout)
    ensures LayoutText(tokens) == layout
    ensures WellFormed(tokens)
  {
    BuiltinsValid();
    tokens := [];
    var size := |layout|;
    var pos := 0;
    var idx := 0;
    while idx < size
      invariant 0 <= pos <= idx <= size
      invariant tokens + TokenizeFrom(Builtins, layout, pos, idx) == Tokenize(layout)
      decreases 2 * size - pos - idx
    {
      var emit, pos', idx' := ScanOnce(Builtins, layout, pos, idx);
      TokenizeAdvance(Builtins, layout, pos, idx, tokens, emit, pos', idx');
      tokens, pos, idx := tokens + emit, pos', idx';
    }
    TokenizeText(Builtins, layout, 0, 0);
    TokenizeWellFormed(Builtins, layout, 0, 0);
  }

  /** The scan from (pos, idx) is one step followed by the scan from where that step leaves the window. */
  lemma TokenizeFromStep(bs: seq<Token>, layout: string, pos: nat, idx: nat)
    requires ValidTable(bs) && pos <= idx < |layout|
    ensures var st := ScanStep(bs, layout, pos, idx);
      TokenizeFrom(bs, layout, pos, idx) == st.emit + TokenizeFrom(bs, layout, st.pos, st.idx)
  {
  }

  /** Appending one step's tokens moves the loop invariant of TokenizeLayout forward. */
  lemma TokenizeAdvance(bs: seq<Token>, layout: string, pos: nat, idx: nat, done: seq<Token>, emit: seq<Token>, pos': nat, idx': nat)
    requires ValidTable(bs) && pos <= idx < |layout|
    requires Step(emit, pos', idx') == ScanStep(bs, layout, pos, idx)
    ensures pos' <= idx' <= |layout| && 2 * |layout| - pos' - idx' < 2 * |layout| - pos - idx
    ensures done + TokenizeFrom(bs, layout, pos, idx) == (done + emit) + TokenizeFrom(bs, layout, pos', idx')
  {
    var rest := TokenizeFrom(bs, layout, pos', idx');
    calc {
      done + TokenizeFrom(bs, layout, pos, idx);
    == { TokenizeFromStep(bs, layout, pos, idx); }
      done + (emit + rest);
    == { AppendAssoc(done, emit, rest); }
      (done + emit) + rest;
    }
  }

  lemma AppendAssoc<T>(a: seq<T>, b: seq<T>, c: seq<T>)
    ensures a + (b + c) == (a + b) + c
  {
  }

  /** One pass of tokenizeLayout's loop body, from the builtin scan to the loop's idx++. */
  method ScanOnce(bs: seq<Token>, layout: string, pos: nat, idx: nat) returns (emit: seq<Token>, pos': nat, idx': nat)
    requires ValidTable(bs) && pos <= idx < |layout|
    ensures Step(emit, pos', idx') == ScanStep(bs, layout, pos, idx)
  {
    var size := |layout|;
    var v := layout[pos..idx + 1];
    var prev := layout[pos..idx];
    var prefixMatches, exact, prevExact := ScanBuiltins(bs, v, prev);
    var next: int;
    emit, pos', next := [], pos, idx;
    if |prefixMatches| == 1 && exact.Some? {
      emit := [exact.value];
      pos' := idx + 1;
    } else if |prefixMatches| == 0 && prevExact.Some? {
      emit := [prevExact.value];
      pos' := idx;
      next := idx - 1;
    } else if |prefixMatches| == 0 && prevExact.None? {
      emit := [Sep(v)];
      pos' := idx + 1;
    } else if size == idx + 1 && exact.Some? {
      emit := [exact.value];
    } else if size == idx + 1 && exact.None? && prevExact.Some? {
      emit := [prevExact.value];
      pos' := idx;
      next := idx - 1;
    } else if size == idx + 1 && exact.None? && prevExact.None? {
      emit := [Sep(v)];
    }
    idx' := next + 1;
  }

  /** Re-joining the tokens' texts gives back exactly the scanned text. */
  lemma {:induction false} TokenizeText(bs: seq<Token>, layout: string, pos: nat, idx: nat)
    requires ValidTable(bs)
    requires pos <= idx < |layout| || pos == idx == |layout|
    ensures LayoutText(TokenizeFrom(bs, layout, pos, idx)) == layout[pos..]
    decreases 2 * |layout| - pos - idx
  {
    if idx < |layout| {
      var st := ScanStep(bs, layout, pos, idx);
      TextStep(bs, layout, pos, idx);
      if st.idx < |layout| {
        TokenizeText(bs, layout, st.pos, st.idx);
        SliceJoin(layout, pos, st.pos);
      }
    }
  }

  /** The text of the scan from (pos, idx) is that of one step followed by that of the rest. */
  lemma TextStep(bs: seq<Token>, layout: string, pos: nat, idx: nat)
    requires ValidTable(bs) && pos <= idx < |layout|
    ensures var st := ScanStep(bs, layout, pos, idx);
      && (st.idx == |layout| ==> TokenizeFrom(bs, layout, st.pos, st.idx) == [])
      && LayoutText(TokenizeFrom(bs, layout, pos, idx))
         == LayoutText(st.emit) + LayoutText(TokenizeFrom(bs, layout, st.pos, st.idx))
  {
    var st := ScanStep(bs, layout, pos, idx);
    var rest := TokenizeFrom(bs, layout, st.pos, st.idx);
    calc {
      LayoutText(TokenizeFrom(bs, layout, pos, idx));
    == { TokenizeFromStep(bs, layout, pos, idx); }
      LayoutText(st.emit + rest);
    == { LayoutTextAppend(st.emit, rest); }
      LayoutText(st.emit) + LayoutText(rest);
    }
  }

  lemma SliceJoin(s: string, i: nat, j: nat)
    requires i <= j <= |s|
    ensures s[i..] == s[i..j] + s[j..]
  {
  }

  /** Every separator the tokenizer emits is non-empty and is not a builtin symbol. */
  lemma {:induction false} TokenizeWellFormed(bs: seq<Token>, layout: string, pos: nat, idx: nat)
    requires ValidTable(bs) && pos <= idx <= |layout|
    ensures WellFormed(TokenizeFrom(bs, layout, pos, idx))
    decreases 2 * |layout| - pos - idx
  {
    if idx < |layout| {
      var st := ScanStep(bs, layout, pos, idx);
      var rest := TokenizeFrom(bs, layout, st.pos, st.idx);
      TokenizeWellFormed(bs, layout, st.pos, st.idx);
      var all := st.emit + rest;
      forall i | 0 <= i < |all|
        ensures GoodSep(all[i])
      {
        if i < |st.emit| {
          assert all[i] in st.emit;
        } else {
          assert all[i] == rest[i - |st.emit|];
        }
      }
    }
  }

  lemma {:induction false} PrefixMatchesHas(bs: seq<Token>, v: string, t: Token)
    requires t in bs && IsPrefix(v, Symbol(t))
    ensures PrefixMatches(bs, v) != []
  {
    if t != bs[|bs| - 1] {
      PrefixMatchesHas(bs[..|bs| - 1], v, t);
    }
  }

  /** A text that no builtin symbol starts with is not itself a builtin symbol. */
  lemma NotBuiltinWhenNoPrefix(bs: seq<Token>, v: string)
    requires ValidTable(bs) && |PrefixMatches(bs, v)| == 0
    ensures !IsBuiltinSymbol(v)
  {
    if IsBuiltinSymbol(v) {
      PrefixMatchesHas(bs, v, BuiltinOf(v));
    }
  }

  /** A text that no builtin symbol equals is not a builtin symbol. */
  lemma NotBuiltinWhenNoMatch(bs: seq<Token>, v: string)
    requires ValidTable(bs) && Lookup(bs, v).None?
    ensures !IsBuiltinSymbol(v)
  {
    if IsBuiltinSymbol(v) {
      var t := BuiltinOf(v);
    }
  }

  /** The builtin token of a builtin symbol. */
  function BuiltinOf(s: string): (t: Token)
    requires IsBuiltinSymbol(s)
    ensures !t.Sep? && Symbol(t) == s
  {
    if s == "YYYY" then Cal(YYYY) else if s == "YY" then Cal(YY) else if s == "0Y" then Cal(ZeroY)
    else if s == "MM" then Cal(MM) else if s == "0M" then Cal(ZeroM)
    else if s == "WW" then Cal(WW) else if s == "0W" then Cal(ZeroW)
    else if s == "DD" then Cal(DD) else if s == "0D" then Cal(ZeroD)
    else if s == "MAJOR" then Ver(MAJOR) else if s == "MINOR" then Ver(MINOR)
    else if s == "MICRO" then Ver(MICRO) else Ver(MODIFIER)
  }
}
