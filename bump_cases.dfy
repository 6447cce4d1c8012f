/**
 * The package's documented renderings and bumps, derived from the model of
 * String and NextWithTime. Layouts are written as the token lists the
 * tokenizer makes of them; the calendar is left open, so its reading of the
 * version's time is stated as a precondition where the rendering needs it.
 */
module BumpCases {
  import opened Results
  import opened Strings
  import opened Clock
  import opened Tokens
  import opened Versions
  import opened Bumping

  /** "MAJOR.MINOR.MICRO" shows 1.2.3 as "1.2.3", whatever the time. */
  lemma StringSemverCase(cal: Calendar, cv: Calver)
    requires cv.layout == [Ver(MAJOR), Sep("."), Ver(MINOR), Sep("."), Ver(MICRO)]
    requires cv.major == 1 && cv.minor == 2 && cv.micro == 3 && !cv.trimSuffix
    ensures Render(cal, cv) == "1.2.3"
  {
    var civ := CivilOf(cal, cv);
    var l := cv.layout;
    assert ModsStart(l) == 5;
    assert Base(l) == l && Mods(l) == [];
    assert Decimal(1) == "1" && Decimal(2) == "2" && Decimal(3) == "3";
    assert RenderPart(l[4..], civ, cv, false) == "3";
    assert RenderPart(l[3..], civ, cv, false) == ".3";
    assert RenderPart(l[2..], civ, cv, false) == "2.3";
    assert RenderPart(l[1..], civ, cv, false) == ".2.3";
  }

  /**
   * "YY.0M.MICRO" in May 2023 with micro 0: trimmed, the zero micro and the
   * separator before it are dropped ("23.05"); untrimmed they stay ("23.05.0").
   */
  lemma TrimSuffixCase(cal: Calendar, cv: Calver)
    requires cv.layout == [Cal(YY), Sep("."), Cal(ZeroM), Sep("."), Ver(MICRO)] && cv.micro == 0
    requires CivilOf(cal, cv).year == 2023 && CivilOf(cal, cv).month == 5
    ensures cv.trimSuffix ==> Render(cal, cv) == "23.05"
    ensures !cv.trimSuffix ==> Render(cal, cv) == "23.05.0"
  {
    var civ := CivilOf(cal, cv);
    var l := cv.layout;
    assert ModsStart(l) == 5;
    assert Base(l) == l && Mods(l) == [];
    MayOf2023(civ);
    assert VerString(MICRO, cv.major, cv.minor, cv.micro, cv.modifier) == "0" by { assert Decimal(0) == "0"; }
    if cv.trimSuffix {
      TrimmedYearMonth(l, civ, cv);
    } else {
      UntrimmedYearMonth(l, civ, cv);
    }
  }

  /** May 2023 as YY and 0M: "23" and "05". */
  lemma MayOf2023(civ: Civil)
    requires civ.year == 2023 && civ.month == 5
    ensures CalString(YY, civ) == "23" && CalString(ZeroM, civ) == "05"
  {
    assert CalString(YY, civ) == "23" by {
      assert Decimal(23) == "2" + "3";
      assert ZeroPad(23, 2) == "23";
      assert !IsPrefix("0", "23");
    }
    assert CalString(ZeroM, civ) == "05" by {
      assert Decimal(5) == "5" && Zeros(1) == "0";
    }
  }

  lemma TrimmedYearMonth(l: seq<Token>, civ: Civil, cv: Calver)
    requires l == [Cal(YY), Sep("."), Cal(ZeroM), Sep("."), Ver(MICRO)]
    requires CalString(YY, civ) == "23" && CalString(ZeroM, civ) == "05"
    requires VerString(MICRO, cv.major, cv.minor, cv.micro, cv.modifier) == "0"
    ensures RenderPart(l, civ, cv, true) == "23.05"
  {
    TrimKeepsUpTo(l, 2, civ, cv);
    YearMonthText(l[..3], civ, cv);
    NeutralTail(l[3..], civ, cv);
  }

  /** The kept year, separator and month read "23.05". */
  lemma YearMonthText(kept: seq<Token>, civ: Civil, cv: Calver)
    requires kept == [Cal(YY), Sep("."), Cal(ZeroM)]
    requires CalString(YY, civ) == "23" && CalString(ZeroM, civ) == "05"
    ensures FullText(kept, civ, cv) == "23.05"
  {
    assert FullText(kept[2..], civ, cv) == "05";
    assert FullText(kept[1..], civ, cv) == ".05";
  }

  /** A separator and a zero micro at the end of a part are cut entirely. */
  lemma NeutralTail(cut: seq<Token>, civ: Civil, cv: Calver)
    requires cut == [Sep("."), Ver(MICRO)]
    requires VerString(MICRO, cv.major, cv.minor, cv.micro, cv.modifier) == "0"
    ensures RenderPart(cut, civ, cv, true) == ""
  {
    assert AllNeutral(cut, cv);
    TrimIsPrefix(cut, civ, cv);
  }

  lemma UntrimmedYearMonth(l: seq<Token>, civ: Civil, cv: Calver)
    requires l == [Cal(YY), Sep("."), Cal(ZeroM), Sep("."), Ver(MICRO)]
    requires CalString(YY, civ) == "23" && CalString(ZeroM, civ) == "05"
    requires VerString(MICRO, cv.major, cv.minor, cv.micro, cv.modifier) == "0"
    ensures RenderPart(l, civ, cv, false) == "23.05.0"
  {
    assert RenderPart(l[4..], civ, cv, false) == "0";
    assert RenderPart(l[3..], civ, cv, false) == ".0";
    assert RenderPart(l[2..], civ, cv, false) == "05.0";
    assert RenderPart(l[1..], civ, cv, false) == ".05.0";
  }

  /** At the version's own time the rendering is unchanged: with no modifier, MICRO is bumped ("02.02.3" to "02.02.4"). */
  lemma NextMicroCase(cal: Calendar, cv: Calver)
    requires cv.layout == [Cal(ZeroY), Sep("."), Cal(ZeroM), Sep("."), Ver(MICRO)]
    requires cv.major == 1 && cv.minor == 2 && cv.micro == 3 && cv.modifier == ""
    ensures NextWithTime(cal, cv, cv.ts) == Ok(cv.(micro := 4))
  {
    assert cv.(ts := cv.ts) == cv;
    assert Symbol(cv.layout[4]) == Symbol(Ver(MICRO));
  }

  /** Without MICRO the same call bumps MINOR ("02.02.2" to "02.02.3"). */
  lemma NextMinorCase(cal: Calendar, cv: Calver)
    requires cv.layout == [Cal(ZeroY), Sep("."), Cal(ZeroM), Sep("."), Ver(MINOR)]
    requires cv.major == 1 && cv.minor == 2 && cv.micro == 3 && cv.modifier == ""
    ensures NextWithTime(cal, cv, cv.ts) == Ok(cv.(minor := 3))
  {
    assert cv.(ts := cv.ts) == cv;
    assert Symbol(cv.layout[4]) == Symbol(Ver(MINOR));
    assert !Has(cv.layout, Ver(MICRO)) by {
      forall i | 0 <= i < |cv.layout| ensures Symbol(cv.layout[i]) != Symbol(Ver(MICRO)) {
        assert i == 0 || i == 1 || i == 2 || i == 3 || i == 4;
      }
    }
  }

  /** A set modifier is only dropped ("02.06.3-dev" to "02.06.3"). */
  lemma NextModifierCase(cal: Calendar, cv: Calver)
    requires cv.layout == [Cal(ZeroY), Sep("."), Cal(ZeroW), Sep("."), Ver(MICRO), Sep("-"), Ver(MODIFIER)]
    requires cv.major == 1 && cv.minor == 2 && cv.micro == 3 && cv.modifier == "dev"
    ensures NextWithTime(cal, cv, cv.ts) == Ok(cv.(modifier := ""))
  {
    assert cv.(ts := cv.ts) == cv;
  }

  /** "YYYY.0M.0D" has no number to bump, so at the same day it cannot move on. */
  lemma NextDateOnlyCase(cal: Calendar, cv: Calver)
    requires cv.layout == [Cal(YYYY), Sep("."), Cal(ZeroM), Sep("."), Cal(ZeroD)] && cv.modifier == ""
    ensures NextWithTime(cal, cv, cv.ts) == Err(CannotBump)
  {
    assert cv.(ts := cv.ts) == cv;
    forall v: VerSym ensures !Has(cv.layout, Ver(v)) {
      forall i | 0 <= i < |cv.layout| ensures Symbol(cv.layout[i]) != Symbol(Ver(v)) {
        assert i == 0 || i == 1 || i == 2 || i == 3 || i == 4;
      }
    }
  }
}
