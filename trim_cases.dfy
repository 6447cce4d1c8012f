/**
 * The package's documented examples of the field readers (TrimPrefix) and of
 * the calendar renderers, derived from their definitions.
 */
module FieldCases {
  import opened Results
  import opened Strings
  import opened Clock
  import opened Tokens

  /** YYYY takes exactly four digits; three are not enough. */
  lemma TrimYYYYCases()
    ensures TrimPrefix(Cal(YYYY), "2033.12.05") == Ok(Cut("2033", ".12.05"))
    ensures TrimPrefix(Cal(YYYY), "2033") == Ok(Cut("2033", ""))
    ensures TrimPrefix(Cal(YYYY), "203").Err?
  {
    assert "2033.12.05"[..4] == "2033" && "2033.12.05"[4..] == ".12.05";
    assert "2033"[..4] == "2033" && "2033"[4..] == "";
    assert NoNewline("2033.12.05");
  }

  /** YY takes one digit before a non-digit and two when two are there. */
  lemma TrimYYCases()
    ensures TrimPrefix(Cal(YY), "3.12.05") == Ok(Cut("3", ".12.05"))
    ensures TrimPrefix(Cal(YY), "12.12.05") == Ok(Cut("12", ".12.05"))
  {
    assert "3.12.05"[..1] == "3" && "3.12.05"[1..] == ".12.05";
    assert "12.12.05"[..2] == "12" && "12.12.05"[2..] == ".12.05";
    assert NoNewline("3.12.05") && NoNewline("12.12.05");
  }

  /** 0Y takes exactly two digits. */
  lemma TrimZeroYCases()
    ensures TrimPrefix(Cal(ZeroY), "03.12.05") == Ok(Cut("03", ".12.05"))
  {
    assert "03.12.05"[..2] == "03" && "03.12.05"[2..] == ".12.05";
    assert NoNewline("03.12.05");
  }

  /** MAJOR, MINOR and MICRO take the leading digits; a value without one is refused. */
  lemma TrimNumberCases()
    ensures TrimPrefix(Ver(MAJOR), "3.7.5") == Ok(Cut("3", ".7.5"))
    ensures TrimPrefix(Ver(MINOR), "7.5") == Ok(Cut("7", ".5"))
    ensures TrimPrefix(Ver(MICRO), "5-dev") == Ok(Cut("5", "-dev"))
    ensures TrimPrefix(Ver(MICRO), "dev").Err?
  {
    NumberCut("3", ".7.5");
    assert "3" + ".7.5" == "3.7.5";
    NumberCut("7", ".5");
    assert "7" + ".5" == "7.5";
    NumberCut("5", "-dev");
    assert "5" + "-dev" == "5-dev";
  }

  /** A single digit before a non-digit is what a version field takes. */
  lemma NumberCut(d: string, rest: string)
    requires |d| == 1 && IsDigit(d[0]) && rest != "" && !IsDigit(rest[0]) && NoNewline(rest)
    ensures TrimVer(MAJOR, d + rest) == Ok(Cut(d, rest))
    ensures TrimVer(MINOR, d + rest) == Ok(Cut(d, rest))
    ensures TrimVer(MICRO, d + rest) == Ok(Cut(d, rest))
  {
    var value := d + rest;
    assert value[0] == d[0] && value[1] == rest[0];
    assert NoNewline(value) by {
      assert forall i :: 1 <= i < |value| ==> value[i] == rest[i - 1];
    }
    assert DigitRun(value) == 1 by {
      assert DigitRun(value[1..]) == 0 by { assert value[1..] == rest; }
    }
    assert value[..1] == d && value[1..] == rest;
  }

  /** MODIFIER takes the whole value; a separator must start the value. */
  lemma TrimModifierSepCases()
    ensures TrimPrefix(Ver(MODIFIER), "-dev") == Ok(Cut("-dev", ""))
    ensures TrimPrefix(Sep("."), ".5") == Ok(Cut(".", "5"))
    ensures TrimPrefix(Sep("."), "3.5").Err?
  {
    assert ".5"[..1] == "." && ".5"[1..] == "5";
    assert "3.5"[..1][0] == '3';
  }

  /** 2002-02-04, a Monday in ISO week 6: the reading of the package's test instant. */
  const TestDay: Civil := Civil(2002, 2, 4, 6)

  /** The calendar renderings of that day. */
  lemma RenderCases()
    ensures CalString(YYYY, TestDay) == "2002"
    ensures CalString(YY, TestDay) == "2"
    ensures CalString(ZeroY, TestDay) == "02"
    ensures CalString(MM, TestDay) == "2"
    ensures CalString(ZeroM, TestDay) == "02"
    ensures CalString(WW, TestDay) == "6"
    ensures CalString(ZeroW, TestDay) == "06"
    ensures CalString(DD, TestDay) == "4"
    ensures CalString(ZeroD, TestDay) == "04"
  {
    DecimalOf2002();
    assert Decimal(2) == "2" && Decimal(4) == "4" && Decimal(6) == "6";
    assert Zeros(1) == "0" && Zeros(0) == "";
    assert ZeroPad(2, 2) == "02" && ZeroPad(4, 2) == "04" && ZeroPad(6, 2) == "06";
    assert IsPrefix("0", "02") && "02"[1..] == "2";
  }

  lemma DecimalOf2002()
    ensures Decimal(2002) == "2002" && ZeroPad(2002, 4) == "2002"
  {
    assert Decimal(2) == "2";
    assert Decimal(20) == "2" + "0";
    assert Decimal(200) == "20" + "0";
    assert Decimal(2002) == "200" + "2";
  }
}
