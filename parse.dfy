/**
 * Calver.Parse of calver.go: the walk of the layout over an input string,
 * as a specification (a left fold of one step per token) and as the
 * imperative method the package has, with the properties the package
 * promises of it.
 */
module Parsing {
  import opened Results
  import opened Strings
  import opened Clock
  import opened Tokens
  import opened Versions

  /** The parse defaults: a missing year, month or day reads as 2000-01-01. */
  const DefaultYear: int := 2000
  const DefaultMonth: int := 1
  const DefaultDay: int := 1

  /**
   * The state of the walk: the input still to consume, the calendar fields read
   * so far, and the version fields of the clone being filled in.
   */
  datatype Fields = Fields(
    value: string,
    year: int, month: int, day: int, week: int,
    major: nat, minor: nat, micro: nat, modifier: string)

  /** A parsed year below 2000 is taken as 20xx. */
  function FullYear(n: nat): (y: int)
    ensures y >= 2000
    ensures n >= 2000 ==> y == n
    ensures n < 2000 ==> y == n + 2000
  {
    if n < 2000 then n + 2000 else n
  }

  /** What a calendar token's digits set: the year (made four-digit), month, ISO week or day. */
  function SetCal(c: CalSym, n: nat, f: Fields): Fields {
    match c
    case YYYY => f.(year := FullYear(n))
    case YY => f.(year := FullYear(n))
    case ZeroY => f.(year := FullYear(n))
    case MM => f.(month := n)
    case ZeroM => f.(month := n)
    case WW => f.(week := n)
    case ZeroW => f.(week := n)
    case DD => f.(day := n)
    case ZeroD => f.(day := n)
  }

  /** What a version token sets: a number for MAJOR, MINOR, MICRO, the text for MODIFIER. */
  function SetVer(v: VerSym, n: nat, text: string, f: Fields): Fields {
    match v
    case MAJOR => f.(major := n)
    case MINOR => f.(minor := n)
    case MICRO => f.(micro := n)
    case MODIFIER => f.(modifier := text)
  }

  /**
   * One token of the base walk. With trimSuffix an exhausted input sets a version
   * field to zero (MODIFIER to "") and skips a separator; and when the layout has
   * a trailing part, a number or separator that does not match is skipped (the
   * `break` out of the switch) and the input is left as it was.
   */
  function BaseStep(t: Token, f: Fields, trim: bool, hasMods: bool): Result<Fields> {
    match t
    case Cal(c) =>
      var cut :- TrimCal(c, f.value);
      Ok(SetCal(c, DigitsValue(cut.prefix), f.(value := cut.rest)))
    case Ver(v) =>
      if f.value == "" && trim then Ok(SetVer(v, 0, "", f))
      else if v == MODIFIER then
        var cut :- TrimVer(v, f.value);
        Ok(f.(modifier := cut.prefix, value := cut.rest))
      else
        (match TrimVer(v, f.value)
         case Err(e) => if trim && hasMods then Ok(f) else Err(e)
         case Ok(cut) => Ok(SetVer(v, DigitsValue(cut.prefix), "", f.(value := cut.rest))))
    case Sep(sep) =>
      if f.value == "" && trim then Ok(f)
      else
        (match TrimSep(sep, f.value)
         case Err(e) => if trim && hasMods then Ok(f) else Err(e)
         case Ok(cut) => Ok(f.(value := cut.rest)))
  }

  /** The base walk: one step per token, left to right, stopping at the first error. */
  function WalkBase(base: seq<Token>, f: Fields, trim: bool, hasMods: bool): Result<Fields> {
    if base == [] then Ok(f)
    else
      var g :- BaseStep(base[0], f, trim, hasMods);
      WalkBase(base[1..], g, trim, hasMods)
  }

  /**
   * One token of the trailing walk (only reached with trimSuffix): MODIFIER takes
   * what is left, any other token its own prefix; an exhausted input is skipped.
   */
  function ModStep(t: Token, f: Fields): Result<Fields> {
    if t == Ver(MODIFIER) then
      if f.value == "" then Ok(f.(modifier := "")) else Ok(f.(modifier := f.value, value := ""))
    else if f.value == "" then Ok(f)
    else
      var cut :- TrimPrefix(t, f.value);
      Ok(f.(value := cut.rest))
  }

  function WalkMods(mods: seq<Token>, f: Fields): Result<Fields> {
    if mods == [] then Ok(f)
    else
      var g :- ModStep(mods[0], f);
      WalkMods(mods[1..], g)
  }

  /** The date the calendar fields name: the ISO week's Monday when a week was read. */
  function ParsedDate(cal: Calendar, f: Fields, loc: Location): Time {
    if f.week > 0 then
      var (y, m, d) := cal.isoWeekStart(f.year, f.week);
      cal.date(y, m, d, loc)
    else
      cal.date(f.year, f.month, f.day, loc)
  }

  /** The walk of cv's layout starts from the defaults and cv's own version fields. */
  function StartFields(cv: Calver, value: string): Fields {
    Fields(value, DefaultYear, DefaultMonth, DefaultDay, 0, cv.major, cv.minor, cv.micro, cv.modifier)
  }

  function ParseBase(cv: Calver): seq<Token> {
    if cv.trimSuffix then Base(cv.layout) else cv.layout
  }

  function ParseMods(cv: Calver): seq<Token> {
    if cv.trimSuffix then Mods(cv.layout) else []
  }

  /**
   * Parse: a copy of cv with the version fields read from value and its time set
   * to midnight of the parsed date in cv's zone. Input left over is an error;
   * layout, zone and trimSuffix are those of cv.
   */
  function ParseValue(cal: Calendar, cv: Calver, value: string): (r: Result<Calver>)
    ensures r.Ok? ==> r.value.layout == cv.layout && r.value.loc == cv.loc && r.value.trimSuffix == cv.trimSuffix
    ensures r.Ok? ==> exists f :: WalkBase(ParseBase(cv), StartFields(cv, value), cv.trimSuffix, ParseMods(cv) != []) == Ok(f)
                                  && r.value.ts == ParsedDate(cal, f, cv.loc)
  {
    var mods := ParseMods(cv);
    var f :- WalkBase(ParseBase(cv), StartFields(cv, value), cv.trimSuffix, mods != []);
    var ts := ParsedDate(cal, f, cv.loc);
    var g :- if f.value != "" && cv.trimSuffix then WalkMods(mods, f) else Ok(f);
    if g.value != "" then Err(Unparsed)
    else Ok(cv.(major := g.major, minor := g.minor, micro := g.micro, modifier := g.modifier, ts := ts))
  }

  /**
   * The only failure that is not a field's NoValue is input left over: without
   * trimSuffix any input after the layout, with it any input the trailing part
   * leaves unread.
   */
  lemma LeftoverRefused(cal: Calendar, cv: Calver, value: string)
    ensures ParseValue(cal, cv, value) == Err(Unparsed) <==>
      var w := WalkBase(ParseBase(cv), StartFields(cv, value), cv.trimSuffix, ParseMods(cv) != []);
      && w.Ok? && w.value.value != ""
      && (cv.trimSuffix ==> WalkMods(ParseMods(cv), w.value).Ok? && WalkMods(ParseMods(cv), w.value).value.value != "")
  {
    var w := WalkBase(ParseBase(cv), StartFields(cv, value), cv.trimSuffix, ParseMods(cv) != []);
    WalkBaseErrors(ParseBase(cv), StartFields(cv, value), cv.trimSuffix, ParseMods(cv) != []);
    if w.Ok? {
      WalkModsErrors(ParseMods(cv), w.value);
    }
  }

  /** The base walk fails only with a field's NoValue. */
  lemma {:induction false} WalkBaseErrors(base: seq<Token>, f: Fields, trim: bool, hasMods: bool)
    ensures WalkBase(base, f, trim, hasMods).Err? ==> WalkBase(base, f, trim, hasMods).error.NoValue?
  {
    if base != [] {
      var g := BaseStep(base[0], f, trim, hasMods);
      if g.Ok? {
        WalkBaseErrors(base[1..], g.value, trim, hasMods);
      }
    }
  }

  /** The trailing walk fails only with a field's NoValue. */
  lemma {:induction false} WalkModsErrors(mods: seq<Token>, f: Fields)
    ensures WalkMods(mods, f).Err? ==> WalkMods(mods, f).error.NoValue?
  {
    if mods != [] {
      var g := ModStep(mods[0], f);
      if g.Ok? {
        WalkModsErrors(mods[1..], g.value);
      }
    }
  }

  // ---------------------------------------------------------------------------
  // What a parse sets

  /** No token of p reads an ISO week. */
  predicate NoWeek(p: seq<Token>) {
    forall j :: 0 <= j < |p| ==> p[j] != Cal(WW) && p[j] != Cal(ZeroW)
  }

  /** No token of p reads a month. */
  predicate NoMonth(p: seq<Token>) {
    forall j :: 0 <= j < |p| ==> p[j] != Cal(MM) && p[j] != Cal(ZeroM)
  }

  /** No token of p reads a day of the month. */
  predicate NoDay(p: seq<Token>) {
    forall j :: 0 <= j < |p| ==> p[j] != Cal(DD) && p[j] != Cal(ZeroD)
  }

  /**
   * The calendar fields a walk leaves: a year of at least 2000 stays so (every
   * year read is made four-digit), a walk over no calendar token changes none
   * of them, and one over no week, month or day token leaves that field alone.
   */
  lemma {:induction false} WalkBaseCalendar(p: seq<Token>, f: Fields, trim: bool, hasMods: bool)
    requires WalkBase(p, f, trim, hasMods).Ok?
    ensures f.year >= 2000 ==> WalkBase(p, f, trim, hasMods).value.year >= 2000
    ensures NoCalendar(p) ==>
      var g := WalkBase(p, f, trim, hasMods).value;
      g.year == f.year && g.month == f.month && g.day == f.day && g.week == f.week
    ensures NoWeek(p) ==> WalkBase(p, f, trim, hasMods).value.week == f.week
    ensures NoMonth(p) ==> WalkBase(p, f, trim, hasMods).value.month == f.month
    ensures NoDay(p) ==> WalkBase(p, f, trim, hasMods).value.day == f.day
  {
    if p != [] {
      StepCalendar(p[0], f, trim, hasMods);
      var g := BaseStep(p[0], f, trim, hasMods).value;
      WalkBaseCalendar(p[1..], g, trim, hasMods);
      assert NoCalendar(p) ==> NoCalendar(p[1..]);
      assert NoWeek(p) ==> NoWeek(p[1..]);
      assert NoMonth(p) ==> NoMonth(p[1..]);
      assert NoDay(p) ==> NoDay(p[1..]);
    }
  }

  /** One step of WalkBaseCalendar. */
  lemma StepCalendar(t: Token, f: Fields, trim: bool, hasMods: bool)
    requires BaseStep(t, f, trim, hasMods).Ok?
    ensures var g := BaseStep(t, f, trim, hasMods).value;
      && (f.year >= 2000 ==> g.year >= 2000)
      && (!t.Cal? ==> g.year == f.year && g.month == f.month && g.day == f.day && g.week == f.week)
      && (t != Cal(WW) && t != Cal(ZeroW) ==> g.week == f.week)
      && (t != Cal(MM) && t != Cal(ZeroM) ==> g.month == f.month)
      && (t != Cal(DD) && t != Cal(ZeroD) ==> g.day == f.day)
  {
    match t
    case Cal(c) =>
    case Ver(v) =>
    case Sep(s) =>
  }

  /**
   * The time of a parsed version: midnight of 2000-01-01 in the version's zone
   * when the layout has no calendar token. When it reads no ISO week, the time
   * is the calendar date of the year, month and day the base walk read. That
   * year is 2000 or later, and a month or day the layout does not read stays
   * at its default of 1.
   */
  lemma ParsedTime(cal: Calendar, cv: Calver, value: string)
    requires ParseValue(cal, cv, value).Ok?
    ensures NoCalendar(cv.layout) ==> ParseValue(cal, cv, value).value.ts == cal.date(2000, 1, 1, cv.loc)
    ensures NoWeek(cv.layout) ==>
      var w := WalkBase(ParseBase(cv), StartFields(cv, value), cv.trimSuffix, ParseMods(cv) != []);
      && w.Ok? && w.value.year >= 2000
      && ParseValue(cal, cv, value).value.ts == cal.date(w.value.year, w.value.month, w.value.day, cv.loc)
      && (NoMonth(cv.layout) ==> w.value.month == 1)
      && (NoDay(cv.layout) ==> w.value.day == 1)
  {
    var base := ParseBase(cv);
    var start := StartFields(cv, value);
    var hasMods := ParseMods(cv) != [];
    var f := WalkBase(base, start, cv.trimSuffix, hasMods).value;
    WalkBaseCalendar(base, start, cv.trimSuffix, hasMods);
    BaseOfLayout(cv);
    var ts := ParseValue(cal, cv, value).value.ts;
    assert ts == ParsedDate(cal, f, cv.loc);
  }

  /** The tokens the base walk reads are tokens of the layout, so what the layout lacks, the walk does not read. */
  lemma BaseOfLayout(cv: Calver)
    ensures var base := ParseBase(cv);
      && (NoCalendar(cv.layout) ==> NoCalendar(base))
      && (NoWeek(cv.layout) ==> NoWeek(base))
      && (NoMonth(cv.layout) ==> NoMonth(base))
      && (NoDay(cv.layout) ==> NoDay(base))
  {
    var base := ParseBase(cv);
    assert forall j :: 0 <= j < |base| ==> base[j] == cv.layout[j];
  }

  // ---------------------------------------------------------------------------
  // Reading back what String wrote

  /**
   * A token whose text reads back unambiguously: MAJOR, MINOR or MICRO, or a
   * separator that starts with a non-digit and holds no line break.
   */
  predicate Readable(t: Token) {
    match t
    case Cal(_) => false
    case Ver(v) => v != MODIFIER
    case Sep(s) => s != "" && !IsDigit(s[0]) && NoNewline(s)
  }

  /** A version-number layout: readable tokens, and no two numbers side by side. */
  predicate NumberLayout(p: seq<Token>) {
    && (forall j :: 0 <= j < |p| ==> Readable(p[j]))
    && (forall j :: 0 <= j < |p| - 1 ==> p[j].Ver? ==> p[j + 1].Sep?)
  }

  /** The fields a walk over p fills in from cv: those p names, the others as in f. */
  function ReadFrom(p: seq<Token>, f: Fields, cv: Calver): Fields {
    f.(major := if Ver(MAJOR) in p then cv.major else f.major,
       minor := if Ver(MINOR) in p then cv.minor else f.minor,
       micro := if Ver(MICRO) in p then cv.micro else f.micro)
  }

  lemma {:induction false} NumberTextNoNewline(p: seq<Token>, civ: Civil, cv: Calver)
    requires NumberLayout(p)
    ensures NoNewline(FullText(p, civ, cv))
  {
    if p != [] {
      assert NumberLayout(p[1..]);
      NumberTextNoNewline(p[1..], civ, cv);
      var head := TokenText(p[0], civ, cv);
      assert NoNewline(head);
      var s := FullText(p, civ, cv);
      assert s == head + FullText(p[1..], civ, cv);
      forall i | 0 <= i < |s|
        ensures s[i] != '\n'
      {
        if i >= |head| {
          assert s[i] == FullText(p[1..], civ, cv)[i - |head|];
        }
      }
    }
  }

  /**
   * Walking a number layout over its own full text (and anything after it that
   * cannot extend the last number) reads every number back and stops exactly
   * at the rest: the parse inverts the rendering.
   */
  lemma {:induction false} WalkReadsBack(p: seq<Token>, f: Fields, civ: Civil, cv: Calver, rest: string, hasMods: bool)
    requires NumberLayout(p) && NoNewline(rest)
    requires p != [] && p[|p| - 1].Ver? ==> rest == "" || !IsDigit(rest[0])
    ensures WalkBase(p, f.(value := FullText(p, civ, cv) + rest), false, hasMods) == Ok(ReadFrom(p, f, cv).(value := rest))
  {
    var value := FullText(p, civ, cv) + rest;
    if p == [] {
      assert value == rest;
    } else {
      var tail := FullText(p[1..], civ, cv) + rest;
      var g := ReadFrom([p[0]], f, cv).(value := tail);
      ReadHead(p, f, civ, cv, rest, hasMods);
      assert NumberLayout(p[1..]);
      WalkReadsBack(p[1..], g, civ, cv, rest, hasMods);
      assert WalkBase(p, f.(value := value), false, hasMods) == WalkBase(p[1..], g, false, hasMods);
      ReadFromStep(p, f, g, cv);
    }
  }

  /** The first token of a number layout reads its own text back. */
  lemma ReadHead(p: seq<Token>, f: Fields, civ: Civil, cv: Calver, rest: string, hasMods: bool)
    requires p != [] && NumberLayout(p) && NoNewline(rest)
    requires p[|p| - 1].Ver? ==> rest == "" || !IsDigit(rest[0])
    ensures BaseStep(p[0], f.(value := FullText(p, civ, cv) + rest), false, hasMods)
         == Ok(ReadFrom([p[0]], f, cv).(value := FullText(p[1..], civ, cv) + rest))
  {
    var head := TokenText(p[0], civ, cv);
    var tail := FullText(p[1..], civ, cv) + rest;
    FullTextHead(p, civ, cv, rest);
    if p[0].Ver? {
      NumberTail(p, civ, cv, rest);
      ReadNumber(p[0].ver, head, tail, f, hasMods);
    }
  }

  /** The text of a layout is its first token's text followed by the rest. */
  lemma FullTextHead(p: seq<Token>, civ: Civil, cv: Calver, rest: string)
    requires p != []
    ensures FullText(p, civ, cv) + rest == TokenText(p[0], civ, cv) + (FullText(p[1..], civ, cv) + rest)
  {
    AppendAssoc(TokenText(p[0], civ, cv), FullText(p[1..], civ, cv), rest);
  }

  /** After a number comes a separator's non-digit or the end, and no line break follows. */
  lemma NumberTail(p: seq<Token>, civ: Civil, cv: Calver, rest: string)
    requires p != [] && NumberLayout(p) && NoNewline(rest)
    requires p[|p| - 1].Ver? ==> rest == "" || !IsDigit(rest[0])
    ensures var tail := FullText(p[1..], civ, cv) + rest;
      p[0].Ver? ==> tail == "" || !IsDigit(tail[0])
    ensures NoNewline(FullText(p, civ, cv) + rest)
  {
    NumberTextNoNewline(p, civ, cv);
    NoNewlineAppend(FullText(p, civ, cv), rest);
    if p[0].Ver? && p[1..] != [] {
      assert p[1].Sep?;
      assert FullText(p[1..], civ, cv) == p[1].text + FullText(p[2..], civ, cv);
    }
  }

  /** Reading the first token and then the others reads the whole layout. */
  lemma ReadFromStep(p: seq<Token>, f: Fields, g: Fields, cv: Calver)
    requires p != [] && !p[0].Cal?
    requires g == ReadFrom([p[0]], f, cv).(value := g.value)
    ensures ReadFrom(p[1..], g, cv) == ReadFrom(p, f, cv).(value := g.value)
  {
    assert p == [p[0]] + p[1..];
  }

  /** A number followed by a non-digit (or nothing) is read back whole. */
  lemma ReadNumber(v: VerSym, head: string, tail: string, f: Fields, hasMods: bool)
    requires v != MODIFIER && head != "" && IsDigits(head) && NoNewline(head + tail)
    requires tail == "" || !IsDigit(tail[0])
    ensures BaseStep(Ver(v), f.(value := head + tail), false, hasMods) == Ok(SetVer(v, DigitsValue(head), "", f.(value := tail)))
  {
    var cut := TrimVer(v, head + tail).value;
    DigitSplitUnique(cut.prefix, cut.rest, head, tail);
  }

  /**
   * Parse reads back what String wrote: for a version-number layout without
   * trimming, parsing the rendering of cv with any version of the same layout
   * yields cv's numbers, keeps the modifier and dates the result 2000-01-01.
   */
  lemma ParseReadsBack(cal: Calendar, cv0: Calver, cv: Calver)
    requires cv0.layout == cv.layout && !cv0.trimSuffix && !cv.trimSuffix
    requires NumberLayout(cv.layout)
    ensures var r := ParseValue(cal, cv0, Render(cal, cv));
      && r.Ok?
      && r.value.major == (if Ver(MAJOR) in cv.layout then cv.major else cv0.major)
      && r.value.minor == (if Ver(MINOR) in cv.layout then cv.minor else cv0.minor)
      && r.value.micro == (if Ver(MICRO) in cv.layout then cv.micro else cv0.micro)
      && r.value.modifier == cv0.modifier
      && r.value.ts == cal.date(2000, 1, 1, cv0.loc)
  {
    var civ := CivilOf(cal, cv);
    RenderUntrimmed(cal, cv);
    var text := FullText(cv.layout, civ, cv);
    assert text + "" == text;
    WalkReadsBack(cv.layout, StartFields(cv0, text), civ, cv, "", false);
    assert StartFields(cv0, text).(value := text) == StartFields(cv0, text);
  }

  /** The package's plain MAJOR.MINOR.MICRO layout reads back all three numbers. */
  lemma SemverReadsBack(cal: Calendar, cv0: Calver, cv: Calver)
    requires cv.layout == [Ver(MAJOR), Sep("."), Ver(MINOR), Sep("."), Ver(MICRO)]
    requires cv0.layout == cv.layout && !cv0.trimSuffix && !cv.trimSuffix
    ensures var r := ParseValue(cal, cv0, Render(cal, cv));
      r.Ok? && r.value.major == cv.major && r.value.minor == cv.minor && r.value.micro == cv.micro
  {
    assert Ver(MAJOR) == cv.layout[0] && Ver(MINOR) == cv.layout[2] && Ver(MICRO) == cv.layout[4];
    ParseReadsBack(cal, cv0, cv);
  }

  // ---------------------------------------------------------------------------
  // The method

  /** The base loop of Parse: one step per token, returning at the first error. */
  method ReadBase(base: seq<Token>, start: Fields, trim: bool, hasMods: bool) returns (r: Result<Fields>)
    ensures r == WalkBase(base, start, trim, hasMods)
  {
    var f := start;
    for i := 0 to |base|
      invariant WalkBase(base, start, trim, hasMods) == WalkBase(base[i..], f, trim, hasMods)
    {
      WalkBaseAt(base, i, f, trim, hasMods);
      var step := ReadToken(base[i], f, trim, hasMods);
      if step.Err? {
        return Err(step.error);
      }
      f := step.value;
    }
    assert base[|base|..] == [];
    return Ok(f);
  }

  /** The walk from token i is token i's step followed by the walk from i + 1. */
  lemma WalkBaseAt(base: seq<Token>, i: nat, f: Fields, trim: bool, hasMods: bool)
    requires i < |base|
    ensures var step := BaseStep(base[i], f, trim, hasMods);
      WalkBase(base[i..], f, trim, hasMods) == if step.Err? then Err(step.error) else WalkBase(base[i + 1..], step.value, trim, hasMods)
  {
    assert base[i..][0] == base[i] && base[i..][1..] == base[i + 1..];
  }

  /**
   * The body of the base loop: the switch over the token kinds, updating year,
   * month, day, week, the input and the clone's version fields.
   */
  method ReadToken(t: Token, f: Fields, trim: bool, hasMods: bool) returns (r: Result<Fields>)
    ensures r == BaseStep(t, f, trim, hasMods)
  {
    var year, month, day, week := f.year, f.month, f.day, f.week;
    var major, minor, micro, modifier := f.major, f.minor, f.micro, f.modifier;
    var rest := f.value;
    match t {
      case Cal(c) =>
        var cut := TrimCal(c, rest);
        if cut.Err? {
          return Err(cut.error);
        }
        var n := DigitsValue(cut.value.prefix);
        rest := cut.value.rest;
        if c == YYYY || c == YY || c == ZeroY {
          year := n;
          if year < 2000 {
            year := year + 2000;
          }
        } else if c == MM || c == ZeroM {
          month := n;
        } else if c == WW || c == ZeroW {
          week := n;
        } else {
          day := n;
        }
      case Ver(v) =>
        if rest == "" && trim {
          match v {
            case MAJOR => major := 0;
            case MINOR => minor := 0;
            case MICRO => micro := 0;
            case MODIFIER => modifier := "";
          }
        } else if v == MODIFIER {
          var cut := TrimVer(v, rest);
          modifier, rest := cut.value.prefix, cut.value.rest;
        } else {
          var cut := TrimVer(v, rest);
          if cut.Err? {
            if !(trim && hasMods) {
              return Err(cut.error);
            }
            // otherwise the switch is left and the token skipped
          } else {
            rest := cut.value.rest;
            var n := DigitsValue(cut.value.prefix);
            match v {
              case MAJOR => major := n;
              case MINOR => minor := n;
              case MICRO => micro := n;
            }
          }
        }
      case Sep(sep) =>
        if rest == "" && trim {
          // nothing left to match
        } else {
          var cut := TrimSep(sep, rest);
          if cut.Err? {
            if !(trim && hasMods) {
              return Err(cut.error);
            }
            // otherwise the switch is left and the token skipped
          } else {
            rest := cut.value.rest;
          }
        }
    }
    return Ok(Fields(rest, year, month, day, week, major, minor, micro, modifier));
  }

  /** The trailing loop of Parse, entered only with trimSuffix and input left. */
  method ReadMods(mods: seq<Token>, start: Fields) returns (r: Result<Fields>)
    ensures r == WalkMods(mods, start)
  {
    var rest, modifier := start.value, start.modifier;
    for i := 0 to |mods|
      invariant WalkMods(mods, start) == WalkMods(mods[i..], start.(value := rest, modifier := modifier))
    {
      var t := mods[i];
      assert mods[i..][1..] == mods[i + 1..];
      if t == Ver(MODIFIER) {
        if rest == "" {
          modifier := "";
        } else {
          modifier, rest := rest, "";
        }
      } else if rest != "" {
        var cut := TrimPrefix(t, rest);
        if cut.Err? {
          return Err(cut.error);
        }
        rest := cut.value.rest;
      }
    }
    assert mods[|mods|..] == [];
    return Ok(start.(value := rest, modifier := modifier));
  }

  /**
   * Parse as calver.go writes it: split the layout when trimming, read the base,
   * build the time at midnight of the parsed date (the ISO week's Monday when a
   * week was read), read the trailing part while input remains, and refuse
   * leftover input.
   */
  method Parse(cal: Calendar, cv: Calver, value: string) returns (r: Result<Calver>)
    ensures r == ParseValue(cal, cv, value)
  {
    var base, mods;
    if cv.trimSuffix {
      base, mods := SplitLayout(cv.layout);
    } else {
      base, mods := cv.layout, [];
    }
    var f := ReadBase(base, StartFields(cv, value), cv.trimSuffix, |mods| > 0);
    if f.Err? {
      return Err(f.error);
    }
    var year, month, day := f.value.year, f.value.month, f.value.day;
    if f.value.week > 0 {
      var (y, m, d) := cal.isoWeekStart(year, f.value.week);
      year, month, day := y, m, d;
    }
    var ts := cal.date(year, month, day, cv.loc);
    var g := f;
    if f.value.value != "" && cv.trimSuffix {
      g := ReadMods(mods, f.value);
      if g.Err? {
        return Err(g.error);
      }
    }
    if g.value.value != "" {
      return Err(Unparsed);
    }
    return Ok(cv.(major := g.value.major, minor := g.value.minor, micro := g.value.micro,
                  modifier := g.value.modifier, ts := ts));
  }
}
