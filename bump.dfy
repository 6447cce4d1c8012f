/**
 * The copy-and-modify bumps of calver.go (Major, Minor, Micro, Modifier),
 * IsTimeVersionFirst, and NextWithTime, which decides how a version moves on
 * to a given time.
 */
module Bumping {
  import opened Results
  import opened Clock
  import opened Tokens
  import opened Versions

  /** Major: a copy with major one higher, or an error when the layout has no MAJOR. */
  function Major(cv: Calver): (r: Result<Calver>)
    ensures r.Ok? <==> Has(cv.layout, Ver(MAJOR))
    ensures r.Ok? ==> r.value.major == cv.major + 1 && r.value == cv.(major := r.value.major)
    ensures r.Err? ==> r.error == NotInLayout("MAJOR")
  {
    if !Has(cv.layout, Ver(MAJOR)) then Err(NotInLayout("MAJOR")) else Ok(cv.(major := cv.major + 1))
  }

  /** Minor: a copy with minor one higher, or an error when the layout has no MINOR. */
  function Minor(cv: Calver): (r: Result<Calver>)
    ensures r.Ok? <==> Has(cv.layout, Ver(MINOR))
    ensures r.Ok? ==> r.value.minor == cv.minor + 1 && r.value == cv.(minor := r.value.minor)
    ensures r.Err? ==> r.error == NotInLayout("MINOR")
  {
    if !Has(cv.layout, Ver(MINOR)) then Err(NotInLayout("MINOR")) else Ok(cv.(minor := cv.minor + 1))
  }

  /** Micro: a copy with micro one higher, or an error when the layout has no MICRO. */
  function Micro(cv: Calver): (r: Result<Calver>)
    ensures r.Ok? <==> Has(cv.layout, Ver(MICRO))
    ensures r.Ok? ==> r.value.micro == cv.micro + 1 && r.value == cv.(micro := r.value.micro)
    ensures r.Err? ==> r.error == NotInLayout("MICRO")
  {
    if !Has(cv.layout, Ver(MICRO)) then Err(NotInLayout("MICRO")) else Ok(cv.(micro := cv.micro + 1))
  }

  /** Modifier: a copy carrying modifier m, or an error when the layout has no MODIFIER. */
  function Modifier(cv: Calver, m: string): (r: Result<Calver>)
    ensures r.Ok? <==> Has(cv.layout, Ver(MODIFIER))
    ensures r.Ok? ==> r.value.modifier == m && r.value == cv.(modifier := m)
    ensures r.Err? ==> r.error == NotInLayout("MODIFIER")
  {
    if !Has(cv.layout, Ver(MODIFIER)) then Err(NotInLayout("MODIFIER")) else Ok(cv.(modifier := m))
  }

  /** The symbols of the calendar builtins. */
  const CalendarSymbols: set<string> := {"YYYY", "YY", "0Y", "MM", "0M", "WW", "0W", "DD", "0D"}

  /**
   * IsTimeVersionFirst: the first token's symbol is a calendar symbol. The
   * package indexes layout[0] unguarded, so the layout must not be empty. For a
   * tokenizer-made layout this is exactly "the first token is a calendar token".
   */
  function IsTimeVersionFirst(layout: seq<Token>): (r: bool)
    requires |layout| > 0
    ensures GoodSep(layout[0]) ==> (r <==> layout[0].Cal?)
  {
    match layout[0]
    case Cal(c) => assert Symbol(layout[0]) in CalendarSymbols by { CalSymbolListed(c); } true
    case Ver(v) => assert Symbol(layout[0]) !in CalendarSymbols by { VerSymbolUnlisted(v); } false
    case Sep(s) => s in CalendarSymbols
  }

  lemma CalSymbolListed(c: CalSym)
    ensures Symbol(Cal(c)) in CalendarSymbols
  {
  }

  lemma VerSymbolUnlisted(v: VerSym)
    ensures Symbol(Ver(v)) !in CalendarSymbols
  {
  }

  /** The bump NextWithTime falls back on when the rendering did not change and no modifier is set. */
  function BumpLowest(cv: Calver): (r: Result<Calver>)
    ensures r.Err? <==> !Has(cv.layout, Ver(MICRO)) && !Has(cv.layout, Ver(MINOR)) && !Has(cv.layout, Ver(MAJOR))
    ensures r.Err? ==> r.error == CannotBump
    ensures Has(cv.layout, Ver(MICRO)) ==> r == Ok(cv.(micro := cv.micro + 1))
    ensures !Has(cv.layout, Ver(MICRO)) && Has(cv.layout, Ver(MINOR)) ==> r == Ok(cv.(minor := cv.minor + 1))
    ensures !Has(cv.layout, Ver(MICRO)) && !Has(cv.layout, Ver(MINOR)) && Has(cv.layout, Ver(MAJOR)) ==> r == Ok(cv.(major := cv.major + 1))
  {
    if Has(cv.layout, Ver(MICRO)) then Micro(cv)
    else if Has(cv.layout, Ver(MINOR)) then Minor(cv)
    else if Has(cv.layout, Ver(MAJOR)) then Major(cv)
    else Err(CannotBump)
  }

  /** The empty layout renders as the empty string, whatever the version holds. */
  lemma EmptyLayoutRender(cal: Calendar, cv: Calver)
    requires cv.layout == []
    ensures Render(cal, cv) == ""
  {
    assert Base(cv.layout) == [] && Mods(cv.layout) == [];
  }

  /**
   * NextWithTime: refuse a time earlier than the version's; otherwise move the
   * version to now. When that changes its rendering, the numbers restart at
   * zero if the layout leads with a calendar token; when it does not, a set
   * modifier is simply dropped, and otherwise the lowest number the layout has
   * is bumped. Every result has its modifier cleared.
   */
  function NextWithTime(cal: Calendar, cv: Calver, now: Time): (r: Result<Calver>)
    ensures r.Err? <==> cv.ts.unixNano > now.unixNano
                        || (&& Render(cal, cv) == Render(cal, cv.(ts := now)) && cv.modifier == ""
                            && !Has(cv.layout, Ver(MICRO)) && !Has(cv.layout, Ver(MINOR)) && !Has(cv.layout, Ver(MAJOR)))
    ensures cv.ts.unixNano > now.unixNano ==> r == Err(Older)
    ensures r.Err? && cv.ts.unixNano <= now.unixNano ==> r.error == CannotBump
    ensures r.Ok? ==> && r.value.modifier == "" && r.value.ts == now
                      && r.value.layout == cv.layout && r.value.loc == cv.loc && r.value.trimSuffix == cv.trimSuffix
    ensures r.Ok? && Render(cal, cv) != Render(cal, cv.(ts := now)) ==>
      && cv.layout != []
      && (IsTimeVersionFirst(cv.layout) ==> r.value.major == 0 && r.value.minor == 0 && r.value.micro == 0)
      && (!IsTimeVersionFirst(cv.layout) ==> r.value.major == cv.major && r.value.minor == cv.minor && r.value.micro == cv.micro)
    ensures r.Ok? && Render(cal, cv) == Render(cal, cv.(ts := now)) && cv.modifier != "" ==>
      r.value.major == cv.major && r.value.minor == cv.minor && r.value.micro == cv.micro
    ensures cv.ts.unixNano <= now.unixNano && Render(cal, cv) == Render(cal, cv.(ts := now)) && cv.modifier == "" ==>
      r == (var b := BumpLowest(cv.(ts := now)); if b.Ok? then Ok(b.value.(modifier := "")) else b)
  {
    if cv.ts.unixNano > now.unixNano then Err(Older)
    else
      var ncv := cv.(ts := now);
      var next :=
        if Render(cal, cv) != Render(cal, ncv) then
          if cv.layout == [] then
            EmptyLayoutRender(cal, cv);
            EmptyLayoutRender(cal, ncv);
            assert false;
            Ok(ncv)
          else if IsTimeVersionFirst(ncv.layout) then Ok(ncv.(major := 0, minor := 0, micro := 0))
          else Ok(ncv)
        else if ncv.modifier != "" then Ok(ncv)
        else BumpLowest(ncv);
      // the deferred clear of the modifier on every returned version
      if next.Ok? then Ok(next.value.(modifier := "")) else next
  }
}
