/**
 * The package's documented parses, derived from the model of Parse. The
 * layouts are written as the token lists the tokenizer makes of them; the
 * calendar is left open, so a parsed time is stated as the calendar's
 * midnight for the fields read.
 */
module ParseCases {
  import opened Results
  import opened Strings
  import opened Clock
  import opened Tokens
  import opened Versions
  import opened Parsing

  /** One token of the base walk. */
  lemma WalkCons(t: Token, p: seq<Token>, f: Fields, g: Fields, trim: bool, hasMods: bool)
    requires BaseStep(t, f, trim, hasMods) == Ok(g)
    ensures WalkBase([t] + p, f, trim, hasMods) == WalkBase(p, g, trim, hasMods)
  {
    assert ([t] + p)[0] == t && ([t] + p)[1..] == p;
  }

  /** The walk is over with its last token. */
  lemma WalkLast(t: Token, f: Fields, g: Fields, trim: bool, hasMods: bool)
    requires BaseStep(t, f, trim, hasMods) == Ok(g)
    ensures WalkBase([t], f, trim, hasMods) == Ok(g)
  {
    assert [t][1..] == [];
  }

  /** YYYY, 0Y, 0M, 0W, 0D read their fixed number of digits. */
  lemma FixedStep(c: CalSym, f: Fields, digits: string, rest: string)
    requires c !in {YY, MM, WW, DD}
    requires |digits| == (if c == YYYY then 4 else 2) && IsDigits(digits)
    requires f.value == digits + rest && NoNewline(f.value)
    ensures BaseStep(Cal(c), f, false, false) == Ok(SetCal(c, DigitsValue(digits), f.(value := rest)))
  {
    assert f.value[..|digits|] == digits && f.value[|digits|..] == rest;
    var r := TrimCal(c, f.value);
    assert r.Ok?;
    assert r.value.prefix + r.value.rest == f.value;
    assert r.value.prefix == f.value[..|digits|];
  }

  /** YY, MM, WW, DD read one or two digits, the first not a zero. */
  lemma ShortStep(c: CalSym, f: Fields, digits: string, rest: string)
    requires c in {YY, MM, WW, DD}
    requires 1 <= |digits| <= 2 && IsDigits(digits) && digits[0] != '0'
    requires |digits| == 1 ==> rest == "" || !IsDigit(rest[0])
    requires f.value == digits + rest && NoNewline(f.value)
    ensures BaseStep(Cal(c), f, false, false) == Ok(SetCal(c, DigitsValue(digits), f.(value := rest)))
  {
    assert f.value[..|digits|] == digits && f.value[|digits|..] == rest;
    assert |digits| == 1 && rest != "" ==> f.value[1] == rest[0];
    var r := TrimCal(c, f.value);
    assert r.value.prefix + r.value.rest == f.value;
    assert r.value.prefix == f.value[..|r.value.prefix|];
  }

  /** A separator reads itself. */
  lemma SepStep(s: string, f: Fields, rest: string)
    requires f.value == s + rest
    ensures BaseStep(Sep(s), f, false, false) == Ok(f.(value := rest))
  {
    assert f.value[..|s|] == s && f.value[|s|..] == rest;
  }

  /** A separator "." at the head of the value. */
  lemma ReadDot(f: Fields, rest: string)
    requires f.value == "." + rest
    ensures BaseStep(Sep("."), f, false, false) == Ok(f.(value := rest))
  {
    SepStep(".", f, rest);
  }

  /** Without trimSuffix, a finished base walk decides the parse: input left over or the version read. */
  lemma ParseOfWalk(cal: Calendar, cv: Calver, value: string, g: Fields)
    requires !cv.trimSuffix && WalkBase(cv.layout, StartFields(cv, value), false, false) == Ok(g)
    ensures g.value != "" ==> ParseValue(cal, cv, value) == Err(Unparsed)
    ensures g.value == "" ==>
      ParseValue(cal, cv, value) == Ok(cv.(major := g.major, minor := g.minor, micro := g.micro, modifier := g.modifier, ts := ParsedDate(cal, g, cv.loc)))
  {
  }

  /** Without trimSuffix, a failed base walk is the parse's error. */
  lemma ParseOfFailedWalk(cal: Calendar, cv: Calver, value: string, e: Error)
    requires !cv.trimSuffix && WalkBase(cv.layout, StartFields(cv, value), false, false) == Err(e)
    ensures ParseValue(cal, cv, value) == Err(e)
  {
  }

  /** The digits of the four-digit years in the cases below. */
  lemma YearValues()
    ensures DigitsValue("2012") == 2012 && DigitsValue("2002") == 2002 && DigitsValue("2026") == 2026
  {
    assert "2012"[..3] == "201" && "201"[..2] == "20" && "20"[..1] == "2";
    assert "2002"[..3] == "200" && "200"[..2] == "20";
    assert "2026"[..3] == "202" && "202"[..2] == "20";
  }

  lemma ReadYear2012(f: Fields)
    requires f.value == "2012.12.03"
    ensures BaseStep(Cal(YYYY), f, false, false) == Ok(f.(value := ".12.03", year := 2012))
  {
    YearValues();
    assert "2012" + ".12.03" == f.value;
    FixedStep(YYYY, f, "2012", ".12.03");
  }

  lemma ReadZeroMonth12(f: Fields)
    requires f.value == "12.03"
    ensures BaseStep(Cal(ZeroM), f, false, false) == Ok(f.(value := ".03", month := 12))
  {
    assert DigitsValue("12") == 12;
    assert "12" + ".03" == f.value;
    FixedStep(ZeroM, f, "12", ".03");
  }

  lemma ReadZeroDay03(f: Fields)
    requires f.value == "03"
    ensures BaseStep(Cal(ZeroD), f, false, false) == Ok(f.(value := "", day := 3))
  {
    assert DigitsValue("03") == 3 by { assert "03"[..1] == "0"; }
    assert "03" + "" == f.value;
    FixedStep(ZeroD, f, "03", "");
  }

  /** "YYYY.0M.0D" reads "2012.12.03" as 3 December 2012. */
  lemma ParseDateCase(cal: Calendar, cv: Calver)
    requires cv.layout == [Cal(YYYY), Sep("."), Cal(ZeroM), Sep("."), Cal(ZeroD)] && !cv.trimSuffix
    ensures ParseValue(cal, cv, "2012.12.03") == Ok(cv.(ts := cal.date(2012, 12, 3, cv.loc)))
  {
    var f0 := StartFields(cv, "2012.12.03");
    var f1 := f0.(value := ".12.03", year := 2012);
    var f2 := f1.(value := "12.03");
    var f3 := f2.(value := ".03", month := 12);
    var f4 := f3.(value := "03");
    var f5 := f4.(value := "", day := 3);
    calc {
      WalkBase(cv.layout, f0, false, false);
    == { ReadYear2012(f0); WalkCons(Cal(YYYY), [Sep("."), Cal(ZeroM), Sep("."), Cal(ZeroD)], f0, f1, false, false); }
      WalkBase([Sep("."), Cal(ZeroM), Sep("."), Cal(ZeroD)], f1, false, false);
    == { ReadDot(f1, "12.03"); WalkCons(Sep("."), [Cal(ZeroM), Sep("."), Cal(ZeroD)], f1, f2, false, false); }
      WalkBase([Cal(ZeroM), Sep("."), Cal(ZeroD)], f2, false, false);
    == { ReadZeroMonth12(f2); WalkCons(Cal(ZeroM), [Sep("."), Cal(ZeroD)], f2, f3, false, false); }
      WalkBase([Sep("."), Cal(ZeroD)], f3, false, false);
    == { ReadDot(f3, "03"); WalkCons(Sep("."), [Cal(ZeroD)], f3, f4, false, false); }
      WalkBase([Cal(ZeroD)], f4, false, false);
    == { ReadZeroDay03(f4); WalkLast(Cal(ZeroD), f4, f5, false, false); }
      Ok(f5);
    }
    ParseOfWalk(cal, cv, "2012.12.03", f5);
  }


  /** "YYYY.0M" does not take all of "2012.12.03": the rest is refused. */
  lemma ParseLeftoverCase(cal: Calendar, cv: Calver)
    requires cv.layout == [Cal(YYYY), Sep("."), Cal(ZeroM)] && !cv.trimSuffix
    ensures ParseValue(cal, cv, "2012.12.03") == Err(Unparsed)
  {
    var f0 := StartFields(cv, "2012.12.03");
    var f1 := f0.(value := ".12.03", year := 2012);
    var f2 := f1.(value := "12.03");
    var f3 := f2.(value := ".03", month := 12);
    calc {
      WalkBase(cv.layout, f0, false, false);
    == { ReadYear2012(f0); WalkCons(Cal(YYYY), [Sep("."), Cal(ZeroM)], f0, f1, false, false); }
      WalkBase([Sep("."), Cal(ZeroM)], f1, false, false);
    == { ReadDot(f1, "12.03"); WalkCons(Sep("."), [Cal(ZeroM)], f1, f2, false, false); }
      WalkBase([Cal(ZeroM)], f2, false, false);
    == { ReadZeroMonth12(f2); WalkLast(Cal(ZeroM), f2, f3, false, false); }
      Ok(f3);
    }
    ParseOfWalk(cal, cv, "2012.12.03", f3);
  }


  lemma ReadYear2002(f: Fields)
    requires f.value == "2002.06.2"
    ensures BaseStep(Cal(YYYY), f, false, false) == Ok(f.(value := ".06.2", year := 2002))
  {
    YearValues();
    assert "2002" + ".06.2" == f.value;
    FixedStep(YYYY, f, "2002", ".06.2");
  }

  lemma ReadZeroWeek06(f: Fields)
    requires f.value == "06.2"
    ensures BaseStep(Cal(ZeroW), f, false, false) == Ok(f.(value := ".2", week := 6))
  {
    assert DigitsValue("06") == 6 by { assert "06"[..1] == "0"; }
    assert "06" + ".2" == f.value;
    FixedStep(ZeroW, f, "06", ".2");
  }

  /** A last version number of one digit. */
  lemma ReadLastDigit(v: VerSym, f: Fields, d: char)
    requires v != MODIFIER && IsDigit(d) && f.value == [d]
    ensures BaseStep(Ver(v), f, false, false) == Ok(SetVer(v, DigitsValue([d]), "", f.(value := "")))
  {
    assert [d] + "" == f.value;
    ReadNumber(v, [d], "", f, false);
    assert f.(value := [d] + "") == f;
  }

  /** "YYYY.0W.MICRO" reads "2002.06.2" as micro 2 at the Monday of ISO week 6 of 2002. */
  lemma ParseWeekCase(cal: Calendar, cv: Calver)
    requires cv.layout == [Cal(YYYY), Sep("."), Cal(ZeroW), Sep("."), Ver(MICRO)] && !cv.trimSuffix
    ensures var (y, m, d) := cal.isoWeekStart(2002, 6);
      ParseValue(cal, cv, "2002.06.2") == Ok(cv.(micro := 2, ts := cal.date(y, m, d, cv.loc)))
  {
    var f0 := StartFields(cv, "2002.06.2");
    var f1 := f0.(value := ".06.2", year := 2002);
    var f2 := f1.(value := "06.2");
    var f3 := f2.(value := ".2", week := 6);
    var f4 := f3.(value := "2");
    var f5 := f4.(value := "", micro := 2);
    calc {
      WalkBase(cv.layout, f0, false, false);
    == { ReadYear2002(f0); WalkCons(Cal(YYYY), [Sep("."), Cal(ZeroW), Sep("."), Ver(MICRO)], f0, f1, false, false); }
      WalkBase([Sep("."), Cal(ZeroW), Sep("."), Ver(MICRO)], f1, false, false);
    == { ReadDot(f1, "06.2"); WalkCons(Sep("."), [Cal(ZeroW), Sep("."), Ver(MICRO)], f1, f2, false, false); }
      WalkBase([Cal(ZeroW), Sep("."), Ver(MICRO)], f2, false, false);
    == { ReadZeroWeek06(f2); WalkCons(Cal(ZeroW), [Sep("."), Ver(MICRO)], f2, f3, false, false); }
      WalkBase([Sep("."), Ver(MICRO)], f3, false, false);
    == { ReadDot(f3, "2"); WalkCons(Sep("."), [Ver(MICRO)], f3, f4, false, false); }
      WalkBase([Ver(MICRO)], f4, false, false);
    == { ReadMicro(f4, '2'); WalkLast(Ver(MICRO), f4, f5, false, false); }
      Ok(f5);
    }
    ParseOfWalk(cal, cv, "2002.06.2", f5);
  }


  lemma ReadYear2026(f: Fields)
    requires f.value == "2026.123.0"
    ensures BaseStep(Cal(YYYY), f, false, false) == Ok(f.(value := ".123.0", year := 2026))
  {
    YearValues();
    assert "2026" + ".123.0" == f.value;
    FixedStep(YYYY, f, "2026", ".123.0");
  }

  /** MM takes two digits when two are there. */
  lemma ReadMonth12(f: Fields)
    requires f.value == "123.0"
    ensures BaseStep(Cal(MM), f, false, false) == Ok(f.(value := "3.0", month := 12))
  {
    assert DigitsValue("12") == 12;
    assert "12" + "3.0" == f.value;
    ShortStep(MM, f, "12", "3.0");
  }

  lemma ReadDay3(f: Fields)
    requires f.value == "3.0"
    ensures BaseStep(Cal(DD), f, false, false) == Ok(f.(value := ".0", day := 3))
  {
    assert DigitsValue("3") == 3;
    assert "3" + ".0" == f.value;
    ShortStep(DD, f, "3", ".0");
  }

  /**
   * "YYYY.MMDD.MICRO" reads "2026.123.0" as 3 December 2026: MM takes two
   * digits whenever two are there, leaving one for DD.
   */
  lemma ParseGreedyMonthCase(cal: Calendar, cv: Calver)
    requires cv.layout == [Cal(YYYY), Sep("."), Cal(MM), Cal(DD), Sep("."), Ver(MICRO)] && !cv.trimSuffix
    ensures ParseValue(cal, cv, "2026.123.0") == Ok(cv.(micro := 0, ts := cal.date(2026, 12, 3, cv.loc)))
  {
    var f0 := StartFields(cv, "2026.123.0");
    var f1 := f0.(value := ".123.0", year := 2026);
    var f2 := f1.(value := "123.0");
    var f3 := f2.(value := "3.0", month := 12);
    var f4 := f3.(value := ".0", day := 3);
    var f5 := f4.(value := "0");
    var f6 := f5.(value := "", micro := 0);
    calc {
      WalkBase(cv.layout, f0, false, false);
    == { ReadYear2026(f0); WalkCons(Cal(YYYY), [Sep("."), Cal(MM), Cal(DD), Sep("."), Ver(MICRO)], f0, f1, false, false); }
      WalkBase([Sep("."), Cal(MM), Cal(DD), Sep("."), Ver(MICRO)], f1, false, false);
    == { ReadDot(f1, "123.0"); WalkCons(Sep("."), [Cal(MM), Cal(DD), Sep("."), Ver(MICRO)], f1, f2, false, false); }
      WalkBase([Cal(MM), Cal(DD), Sep("."), Ver(MICRO)], f2, false, false);
    == { ReadMonth12(f2); WalkCons(Cal(MM), [Cal(DD), Sep("."), Ver(MICRO)], f2, f3, false, false); }
      WalkBase([Cal(DD), Sep("."), Ver(MICRO)], f3, false, false);
    == { ReadDay3(f3); WalkCons(Cal(DD), [Sep("."), Ver(MICRO)], f3, f4, false, false); }
      WalkBase([Sep("."), Ver(MICRO)], f4, false, false);
    == { ReadDot(f4, "0"); WalkCons(Sep("."), [Ver(MICRO)], f4, f5, false, false); }
      WalkBase([Ver(MICRO)], f5, false, false);
    == { ReadMicro(f5, '0'); WalkLast(Ver(MICRO), f5, f6, false, false); }
      Ok(f6);
    }
    ParseOfWalk(cal, cv, "2026.123.0", f6);
  }


  /**
   * "YYYY.MM0D.MICRO" cannot read "2026.123.0": MM takes "12", and 0D then
   * needs two digits where only "3" is left.
   */
  lemma ParseGreedyMonthRefused(cal: Calendar, cv: Calver)
    requires cv.layout == [Cal(YYYY), Sep("."), Cal(MM), Cal(ZeroD), Sep("."), Ver(MICRO)] && !cv.trimSuffix
    ensures ParseValue(cal, cv, "2026.123.0") == Err(NoValue("0D", "3.0"))
  {
    var f0 := StartFields(cv, "2026.123.0");
    var f1 := f0.(value := ".123.0", year := 2026);
    var f2 := f1.(value := "123.0");
    var f3 := f2.(value := "3.0", month := 12);
    calc {
      WalkBase(cv.layout, f0, false, false);
    == { ReadYear2026(f0); WalkCons(Cal(YYYY), [Sep("."), Cal(MM), Cal(ZeroD), Sep("."), Ver(MICRO)], f0, f1, false, false); }
      WalkBase([Sep("."), Cal(MM), Cal(ZeroD), Sep("."), Ver(MICRO)], f1, false, false);
    == { ReadDot(f1, "123.0"); WalkCons(Sep("."), [Cal(MM), Cal(ZeroD), Sep("."), Ver(MICRO)], f1, f2, false, false); }
      WalkBase([Cal(MM), Cal(ZeroD), Sep("."), Ver(MICRO)], f2, false, false);
    == { ReadMonth12(f2); WalkCons(Cal(MM), [Cal(ZeroD), Sep("."), Ver(MICRO)], f2, f3, false, false); }
      WalkBase([Cal(ZeroD), Sep("."), Ver(MICRO)], f3, false, false);
    == { ZeroDayRefused(f3, [Sep("."), Ver(MICRO)]); }
      Err(NoValue("0D", "3.0"));
    }
    ParseOfFailedWalk(cal, cv, "2026.123.0", NoValue("0D", "3.0"));
  }

  /** 0D finds one digit in "3.0" and fails, and with it the rest of the walk. */
  lemma ZeroDayRefused(f: Fields, p: seq<Token>)
    requires f.value == "3.0"
    ensures WalkBase([Cal(ZeroD)] + p, f, false, false) == Err(NoValue("0D", "3.0"))
  {
    assert TrimCal(ZeroD, "3.0") == Err(NoValue("0D", "3.0")) by {
      assert "3.0"[..2][1] == '.';
    }
    assert ([Cal(ZeroD)] + p)[0] == Cal(ZeroD);
  }


  /** A version number of one digit followed by a separator. */
  lemma ReadDigitBeforeDot(v: VerSym, f: Fields, d: char, rest: string)
    requires v != MODIFIER && IsDigit(d) && f.value == [d] + "." + rest && NoNewline(f.value)
    ensures BaseStep(Ver(v), f, false, false) == Ok(SetVer(v, DigitsValue([d]), "", f.(value := "." + rest)))
  {
    assert [d] + ("." + rest) == f.value;
    ReadNumber(v, [d], "." + rest, f, false);
    assert f.(value := [d] + ("." + rest)) == f;
  }

  lemma ReadMajor1(f: Fields)
    requires f.value == "1.2.3"
    ensures BaseStep(Ver(MAJOR), f, false, false) == Ok(f.(value := ".2.3", major := 1))
  {
    assert DigitsValue("1") == 1;
    assert ['1'] + "." + "2.3" == f.value;
    ReadDigitBeforeDot(MAJOR, f, '1', "2.3");
  }

  lemma ReadMinor2(f: Fields)
    requires f.value == "2.3"
    ensures BaseStep(Ver(MINOR), f, false, false) == Ok(f.(value := ".3", minor := 2))
  {
    assert DigitsValue("2") == 2;
    assert ['2'] + "." + "3" == f.value;
    ReadDigitBeforeDot(MINOR, f, '2', "3");
  }

  lemma ReadMicro(f: Fields, d: char)
    requires IsDigit(d) && f.value == [d]
    ensures BaseStep(Ver(MICRO), f, false, false) == Ok(f.(value := "", micro := DigitValue(d)))
  {
    assert [d][..0] == [];
    ReadLastDigit(MICRO, f, d);
  }

  /** "MAJOR.MINOR.MICRO" reads "1.2.3" as 1.2.3 on 1 January 2000. */
  lemma ParseSemverCase(cal: Calendar, cv: Calver)
    requires cv.layout == [Ver(MAJOR), Sep("."), Ver(MINOR), Sep("."), Ver(MICRO)] && !cv.trimSuffix
    ensures ParseValue(cal, cv, "1.2.3") == Ok(cv.(major := 1, minor := 2, micro := 3, ts := cal.date(2000, 1, 1, cv.loc)))
  {
    var f0 := StartFields(cv, "1.2.3");
    var f1 := f0.(value := ".2.3", major := 1);
    var f2 := f1.(value := "2.3");
    var f3 := f2.(value := ".3", minor := 2);
    var f4 := f3.(value := "3");
    var f5 := f4.(value := "", micro := 3);
    calc {
      WalkBase(cv.layout, f0, false, false);
    == { ReadMajor1(f0); WalkCons(Ver(MAJOR), [Sep("."), Ver(MINOR), Sep("."), Ver(MICRO)], f0, f1, false, false); }
      WalkBase([Sep("."), Ver(MINOR), Sep("."), Ver(MICRO)], f1, false, false);
    == { ReadDot(f1, "2.3"); WalkCons(Sep("."), [Ver(MINOR), Sep("."), Ver(MICRO)], f1, f2, false, false); }
      WalkBase([Ver(MINOR), Sep("."), Ver(MICRO)], f2, false, false);
    == { ReadMinor2(f2); WalkCons(Ver(MINOR), [Sep("."), Ver(MICRO)], f2, f3, false, false); }
      WalkBase([Sep("."), Ver(MICRO)], f3, false, false);
    == { ReadDot(f3, "3"); WalkCons(Sep("."), [Ver(MICRO)], f3, f4, false, false); }
      WalkBase([Ver(MICRO)], f4, false, false);
    == { ReadMicro(f4, '3'); WalkLast(Ver(MICRO), f4, f5, false, false); }
      Ok(f5);
    }
    ParseOfWalk(cal, cv, "1.2.3", f5);
  }

  /** MODIFIER at the end of the input takes the empty rest. */
  lemma ReadEmptyModifier(f: Fields)
    requires f.value == ""
    ensures BaseStep(Ver(MODIFIER), f, false, false) == Ok(f.(modifier := ""))
  {
  }

  /**
   * "MAJOR.MINOR.MICROMODIFIER" reads "1.2.3" as 1.2.3 with an empty modifier
   * on 1 January 2000: MICRO takes the last digit and MODIFIER what is left.
   */
  lemma ParseSemverModifierCase(cal: Calendar, cv: Calver)
    requires cv.layout == [Ver(MAJOR), Sep("."), Ver(MINOR), Sep("."), Ver(MICRO), Ver(MODIFIER)] && !cv.trimSuffix
    ensures ParseValue(cal, cv, "1.2.3") == Ok(cv.(major := 1, minor := 2, micro := 3, modifier := "", ts := cal.date(2000, 1, 1, cv.loc)))
  {
    var f0 := StartFields(cv, "1.2.3");
    var f1 := f0.(value := ".2.3", major := 1);
    var f2 := f1.(value := "2.3");
    var f3 := f2.(value := ".3", minor := 2);
    var f4 := f3.(value := "3");
    var f5 := f4.(value := "", micro := 3);
    var f6 := f5.(modifier := "");
    calc {
      WalkBase(cv.layout, f0, false, false);
    == { ReadMajor1(f0); WalkCons(Ver(MAJOR), [Sep("."), Ver(MINOR), Sep("."), Ver(MICRO), Ver(MODIFIER)], f0, f1, false, false); }
      WalkBase([Sep("."), Ver(MINOR), Sep("."), Ver(MICRO), Ver(MODIFIER)], f1, false, false);
    == { ReadDot(f1, "2.3"); WalkCons(Sep("."), [Ver(MINOR), Sep("."), Ver(MICRO), Ver(MODIFIER)], f1, f2, false, false); }
      WalkBase([Ver(MINOR), Sep("."), Ver(MICRO), Ver(MODIFIER)], f2, false, false);
    == { ReadMinor2(f2); WalkCons(Ver(MINOR), [Sep("."), Ver(MICRO), Ver(MODIFIER)], f2, f3, false, false); }
      WalkBase([Sep("."), Ver(MICRO), Ver(MODIFIER)], f3, false, false);
    == { ReadDot(f3, "3"); WalkCons(Sep("."), [Ver(MICRO), Ver(MODIFIER)], f3, f4, false, false); }
      WalkBase([Ver(MICRO), Ver(MODIFIER)], f4, false, false);
    == { ReadMicro(f4, '3'); WalkCons(Ver(MICRO), [Ver(MODIFIER)], f4, f5, false, false); }
      WalkBase([Ver(MODIFIER)], f5, false, false);
    == { ReadEmptyModifier(f5); WalkLast(Ver(MODIFIER), f5, f6, false, false); }
      Ok(f6);
    }
    ParseOfWalk(cal, cv, "1.2.3", f6);
  }
}
