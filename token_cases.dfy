/**
 * The tokenizations the package documents for its layouts, derived from the
 * tokenizer's specification: per window of the scan, which builtin symbols it
 * is a prefix of and which builtin it equals.
 */
module TokenizerCases {
  import opened Results
  import opened Strings
  import opened Tokens

  predicate Distinct(s: seq<Token>) {
    forall i, j :: 0 <= i < j < |s| ==> s[i] != s[j]
  }

  /** The prefix matches are exactly the table entries the window is a prefix of, without repeats. */
  lemma {:induction false} PrefixMatchesExact(bs: seq<Token>, v: string)
    ensures forall t :: t in PrefixMatches(bs, v) <==> t in bs && IsPrefix(v, Symbol(t))
    ensures Distinct(bs) ==> Distinct(PrefixMatches(bs, v))
  {
    if bs != [] {
      var init := bs[..|bs| - 1];
      var last := bs[|bs| - 1];
      PrefixMatchesExact(init, v);
      assert bs == init + [last];
      if Distinct(bs) {
        assert Distinct(init);
        assert last !in init;
      }
    }
  }

  /** Where each field token sits in the builtin table. */
  function Position(t: Token): nat {
    match t
    case Cal(c) =>
      (match c
       case YYYY => 0 case YY => 1 case ZeroY => 2 case MM => 3 case ZeroM => 4
       case WW => 5 case ZeroW => 6 case DD => 7 case ZeroD => 8)
    case Ver(v) => (match v case MAJOR => 9 case MINOR => 10 case MICRO => 11 case MODIFIER => 12)
    case Sep(_) => 13
  }

  lemma BuiltinsDistinct()
    ensures Distinct(Builtins)
  {
    assert forall i :: 0 <= i < |Builtins| ==> Position(Builtins[i]) == i;
  }

  lemma {:induction false} DistinctCard(s: seq<Token>, m: set<Token>)
    requires Distinct(s) && forall t :: t in s <==> t in m
    ensures |s| == |m|
  {
    if s != [] {
      var x := s[|s| - 1];
      var init := s[..|s| - 1];
      assert s == init + [x];
      assert x !in init;
      DistinctCard(init, m - {x});
    } else {
      assert m == {};
    }
  }

  /** The number of prefix matches of a window is the number of builtins it is a prefix of. */
  lemma MatchCount(v: string, matching: set<Token>)
    requires forall t :: t in matching ==> !t.Sep?
    requires forall c :: IsPrefix(v, Symbol(Cal(c))) <==> Cal(c) in matching
    requires forall w :: IsPrefix(v, Symbol(Ver(w))) <==> Ver(w) in matching
    ensures |PrefixMatches(Builtins, v)| == |matching|
  {
    BuiltinsValid();
    forall t | t in Builtins
      ensures IsPrefix(v, Symbol(t)) <==> t in matching
    {
      FieldSymbol(t);
    }
    forall t | t in matching
      ensures t in Builtins
    {
      assert Builtins[Position(t)] == t;
    }
    PrefixMatchesExact(Builtins, v);
    BuiltinsDistinct();
    DistinctCard(PrefixMatches(Builtins, v), matching);
  }

  lemma NotPrefixAt(p: string, s: string, i: nat)
    requires i < |p| && i < |s| && p[i] != s[i]
    ensures !IsPrefix(p, s)
  {
    if |p| <= |s| {
      assert s[..|p|][i] == s[i];
    }
  }

  /** A field token's symbol looks up that token. */
  lemma LookupField(t: Token)
    requires !t.Sep?
    ensures Lookup(Builtins, Symbol(t)) == Some(t)
  {
    BuiltinsValid();
    var r := Lookup(Builtins, Symbol(t));
    if r.Some? {
      SymbolInjective(r.value, t);
    }
  }

  /** A text that is no builtin symbol looks up nothing. */
  lemma LookupNone(s: string)
    requires !IsBuiltinSymbol(s)
    ensures Lookup(Builtins, s) == None
  {
    BuiltinsValid();
    var r := Lookup(Builtins, s);
    if r.Some? {
      FieldSymbol(r.value);
    }
  }

  /** A scan step, from the builtin scan of its window and the switch case that scan selects. */
  lemma SwitchStep(layout: string, pos: nat, idx: nat, v: string, prev: string,
                   n: nat, m: Option<Token>, pm: Option<Token>, st: Step)
    requires pos <= idx < |layout|
    requires layout[pos..idx + 1] == v
    requires |v| > 0 && v[..|v| - 1] == prev
    requires |PrefixMatches(Builtins, v)| == n
    requires Lookup(Builtins, v) == m
    requires Lookup(Builtins, prev) == pm
    requires Switch(v, n, m, pm, idx + 1 == |layout|, pos, idx) == st
    ensures ValidTable(Builtins) && ScanStep(Builtins, layout, pos, idx) == st
  {
    BuiltinsValid();
    assert layout[pos..idx] == v[..|v| - 1];
  }

  // ---------------------------------------------------------------------------
  // Windows. For each window the scans of the layouts below visit: how many
  // builtin symbols it is a prefix of (Window*), and which builtin it and the
  // window one character shorter look up (Scan*).

  lemma WindowDot()
    ensures |PrefixMatches(Builtins, ".")| == 0
  {
    assert !IsPrefix(".", Symbol(Cal(YYYY))) by { NotPrefixAt(".", "YYYY", 0); }
    assert !IsPrefix(".", Symbol(Cal(YY))) by { NotPrefixAt(".", "YY", 0); }
    assert !IsPrefix(".", Symbol(Cal(ZeroY))) by { NotPrefixAt(".", "0Y", 0); }
    assert !IsPrefix(".", Symbol(Cal(MM))) by { NotPrefixAt(".", "MM", 0); }
    assert !IsPrefix(".", Symbol(Cal(ZeroM))) by { NotPrefixAt(".", "0M", 0); }
    assert !IsPrefix(".", Symbol(Cal(WW))) by { NotPrefixAt(".", "WW", 0); }
    assert !IsPrefix(".", Symbol(Cal(ZeroW))) by { NotPrefixAt(".", "0W", 0); }
    assert !IsPrefix(".", Symbol(Cal(DD))) by { NotPrefixAt(".", "DD", 0); }
    assert !IsPrefix(".", Symbol(Cal(ZeroD))) by { NotPrefixAt(".", "0D", 0); }
    assert !IsPrefix(".", Symbol(Ver(MAJOR))) by { NotPrefixAt(".", "MAJOR", 0); }
    assert !IsPrefix(".", Symbol(Ver(MINOR))) by { NotPrefixAt(".", "MINOR", 0); }
    assert !IsPrefix(".", Symbol(Ver(MICRO))) by { NotPrefixAt(".", "MICRO", 0); }
    assert !IsPrefix(".", Symbol(Ver(MODIFIER))) by { NotPrefixAt(".", "MODIFIER", 0); }
    MatchCount(".", {});
  }

  lemma ScanDot()
    ensures "."[..0] == ""
    ensures |PrefixMatches(Builtins, ".")| == 0
    ensures Lookup(Builtins, ".") == None
    ensures Lookup(Builtins, "") == None
  {
    WindowDot();
    LookupNone(".");
    LookupNone("");
    assert |"."[..0]| == 0;
  }

  lemma WindowZero()
    ensures |PrefixMatches(Builtins, "0")| == 4
  {
    assert !IsPrefix("0", Symbol(Cal(YYYY))) by { NotPrefixAt("0", "YYYY", 0); }
    assert !IsPrefix("0", Symbol(Cal(YY))) by { NotPrefixAt("0", "YY", 0); }
    assert IsPrefix("0", Symbol(Cal(ZeroY))) by { assert "0Y"[..1] == "0"; }
    assert !IsPrefix("0", Symbol(Cal(MM))) by { NotPrefixAt("0", "MM", 0); }
    assert IsPrefix("0", Symbol(Cal(ZeroM))) by { assert "0M"[..1] == "0"; }
    assert !IsPrefix("0", Symbol(Cal(WW))) by { NotPrefixAt("0", "WW", 0); }
    assert IsPrefix("0", Symbol(Cal(ZeroW))) by { assert "0W"[..1] == "0"; }
    assert !IsPrefix("0", Symbol(Cal(DD))) by { NotPrefixAt("0", "DD", 0); }
    assert IsPrefix("0", Symbol(Cal(ZeroD))) by { assert "0D"[..1] == "0"; }
    assert !IsPrefix("0", Symbol(Ver(MAJOR))) by { NotPrefixAt("0", "MAJOR", 0); }
    assert !IsPrefix("0", Symbol(Ver(MINOR))) by { NotPrefixAt("0", "MINOR", 0); }
    assert !IsPrefix("0", Symbol(Ver(MICRO))) by { NotPrefixAt("0", "MICRO", 0); }
    assert !IsPrefix("0", Symbol(Ver(MODIFIER))) by { NotPrefixAt("0", "MODIFIER", 0); }
    MatchCount("0", {Cal(ZeroY), Cal(ZeroM), Cal(ZeroW), Cal(ZeroD)});
  }

  lemma ScanZero()
    ensures "0"[..0] == ""
    ensures |PrefixMatches(Builtins, "0")| == 4
    ensures Lookup(Builtins, "0") == None
    ensures Lookup(Builtins, "") == None
  {
    WindowZero();
    LookupNone("0");
    LookupNone("");
    assert |"0"[..0]| == 0;
  }

  lemma WindowZeroD()
    ensures |PrefixMatches(Builtins, "0D")| == 1
  {
    assert !IsPrefix("0D", Symbol(Cal(YYYY))) by { NotPrefixAt("0D", "YYYY", 0); }
    assert !IsPrefix("0D", Symbol(Cal(YY))) by { NotPrefixAt("0D", "YY", 0); }
    assert !IsPrefix("0D", Symbol(Cal(ZeroY))) by { NotPrefixAt("0D", "0Y", 1); }
    assert !IsPrefix("0D", Symbol(Cal(MM))) by { NotPrefixAt("0D", "MM", 0); }
    assert !IsPrefix("0D", Symbol(Cal(ZeroM))) by { NotPrefixAt("0D", "0M", 1); }
    assert !IsPrefix("0D", Symbol(Cal(WW))) by { NotPrefixAt("0D", "WW", 0); }
    assert !IsPrefix("0D", Symbol(Cal(ZeroW))) by { NotPrefixAt("0D", "0W", 1); }
    assert !IsPrefix("0D", Symbol(Cal(DD))) by { NotPrefixAt("0D", "DD", 0); }
    assert IsPrefix("0D", Symbol(Cal(ZeroD))) by { assert "0D"[..2] == "0D"; }
    assert !IsPrefix("0D", Symbol(Ver(MAJOR))) by { NotPrefixAt("0D", "MAJOR", 0); }
    assert !IsPrefix("0D", Symbol(Ver(MINOR))) by { NotPrefixAt("0D", "MINOR", 0); }
    assert !IsPrefix("0D", Symbol(Ver(MICRO))) by { NotPrefixAt("0D", "MICRO", 0); }
    assert !IsPrefix("0D", Symbol(Ver(MODIFIER))) by { NotPrefixAt("0D", "MODIFIER", 0); }
    MatchCount("0D", {Cal(ZeroD)});
  }

  lemma ScanZeroD()
    ensures "0D"[..1] == "0"
    ensures |PrefixMatches(Builtins, "0D")| == 1
    ensures Lookup(Builtins, "0D") == Some(Cal(ZeroD))
    ensures Lookup(Builtins, "0") == None
  {
    WindowZeroD();
    LookupField(Cal(ZeroD));
    LookupNone("0");
    assert "0D"[..1] == "0";
  }

  lemma WindowZeroM()
    ensures |PrefixMatches(Builtins, "0M")| == 1
  {
    assert !IsPrefix("0M", Symbol(Cal(YYYY))) by { NotPrefixAt("0M", "YYYY", 0); }
    assert !IsPrefix("0M", Symbol(Cal(YY))) by { NotPrefixAt("0M", "YY", 0); }
    assert !IsPrefix("0M", Symbol(Cal(ZeroY))) by { NotPrefixAt("0M", "0Y", 1); }
    assert !IsPrefix("0M", Symbol(Cal(MM))) by { NotPrefixAt("0M", "MM", 0); }
    assert IsPrefix("0M", Symbol(Cal(ZeroM))) by { assert "0M"[..2] == "0M"; }
    assert !IsPrefix("0M", Symbol(Cal(WW))) by { NotPrefixAt("0M", "WW", 0); }
    assert !IsPrefix("0M", Symbol(Cal(ZeroW))) by { NotPrefixAt("0M", "0W", 1); }
    assert !IsPrefix("0M", Symbol(Cal(DD))) by { NotPrefixAt("0M", "DD", 0); }
    assert !IsPrefix("0M", Symbol(Cal(ZeroD))) by { NotPrefixAt("0M", "0D", 1); }
    assert !IsPrefix("0M", Symbol(Ver(MAJOR))) by { NotPrefixAt("0M", "MAJOR", 0); }
    assert !IsPrefix("0M", Symbol(Ver(MINOR))) by { NotPrefixAt("0M", "MINOR", 0); }
    assert !IsPrefix("0M", Symbol(Ver(MICRO))) by { NotPrefixAt("0M", "MICRO", 0); }
    assert !IsPrefix("0M", Symbol(Ver(MODIFIER))) by { NotPrefixAt("0M", "MODIFIER", 0); }
    MatchCount("0M", {Cal(ZeroM)});
  }

  lemma ScanZeroM()
    ensures "0M"[..1] == "0"
    ensures |PrefixMatches(Builtins, "0M")| == 1
    ensures Lookup(Builtins, "0M") == Some(Cal(ZeroM))
    ensures Lookup(Builtins, "0") == None
  {
    WindowZeroM();
    LookupField(Cal(ZeroM));
    LookupNone("0");
    assert "0M"[..1] == "0";
  }

  lemma WindowM()
    ensures |PrefixMatches(Builtins, "M")| == 5
  {
    assert !IsPrefix("M", Symbol(Cal(YYYY))) by { NotPrefixAt("M", "YYYY", 0); }
    assert !IsPrefix("M", Symbol(Cal(YY))) by { NotPrefixAt("M", "YY", 0); }
    assert !IsPrefix("M", Symbol(Cal(ZeroY))) by { NotPrefixAt("M", "0Y", 0); }
    assert IsPrefix("M", Symbol(Cal(MM))) by { assert "MM"[..1] == "M"; }
    assert !IsPrefix("M", Symbol(Cal(ZeroM))) by { NotPrefixAt("M", "0M", 0); }
    assert !IsPrefix("M", Symbol(Cal(WW))) by { NotPrefixAt("M", "WW", 0); }
    assert !IsPrefix("M", Symbol(Cal(ZeroW))) by { NotPrefixAt("M", "0W", 0); }
    assert !IsPrefix("M", Symbol(Cal(DD))) by { NotPrefixAt("M", "DD", 0); }
    assert !IsPrefix("M", Symbol(Cal(ZeroD))) by { NotPrefixAt("M", "0D", 0); }
    assert IsPrefix("M", Symbol(Ver(MAJOR))) by { assert "MAJOR"[..1] == "M"; }
    assert IsPrefix("M", Symbol(Ver(MINOR))) by { assert "MINOR"[..1] == "M"; }
    assert IsPrefix("M", Symbol(Ver(MICRO))) by { assert "MICRO"[..1] == "M"; }
    assert IsPrefix("M", Symbol(Ver(MODIFIER))) by { assert "MODIFIER"[..1] == "M"; }
    MatchCount("M", {Cal(MM), Ver(MAJOR), Ver(MINOR), Ver(MICRO), Ver(MODIFIER)});
  }

  lemma ScanM()
    ensures "M"[..0] == ""
    ensures |PrefixMatches(Builtins, "M")| == 5
    ensures Lookup(Builtins, "M") == None
    ensures Lookup(Builtins, "") == None
  {
    WindowM();
    LookupNone("M");
    LookupNone("");
    assert |"M"[..0]| == 0;
  }

  lemma WindowMI()
    ensures |PrefixMatches(Builtins, "MI")| == 2
  {
    assert !IsPrefix("MI", Symbol(Cal(YYYY))) by { NotPrefixAt("MI", "YYYY", 0); }
    assert !IsPrefix("MI", Symbol(Cal(YY))) by { NotPrefixAt("MI", "YY", 0); }
    assert !IsPrefix("MI", Symbol(Cal(ZeroY))) by { NotPrefixAt("MI", "0Y", 0); }
    assert !IsPrefix("MI", Symbol(Cal(MM))) by { NotPrefixAt("MI", "MM", 1); }
    assert !IsPrefix("MI", Symbol(Cal(ZeroM))) by { NotPrefixAt("MI", "0M", 0); }
    assert !IsPrefix("MI", Symbol(Cal(WW))) by { NotPrefixAt("MI", "WW", 0); }
    assert !IsPrefix("MI", Symbol(Cal(ZeroW))) by { NotPrefixAt("MI", "0W", 0); }
    assert !IsPrefix("MI", Symbol(Cal(DD))) by { NotPrefixAt("MI", "DD", 0); }
    assert !IsPrefix("MI", Symbol(Cal(ZeroD))) by { NotPrefixAt("MI", "0D", 0); }
    assert !IsPrefix("MI", Symbol(Ver(MAJOR))) by { NotPrefixAt("MI", "MAJOR", 1); }
    assert IsPrefix("MI", Symbol(Ver(MINOR))) by { assert "MINOR"[..2] == "MI"; }
    assert IsPrefix("MI", Symbol(Ver(MICRO))) by { assert "MICRO"[..2] == "MI"; }
    assert !IsPrefix("MI", Symbol(Ver(MODIFIER))) by { NotPrefixAt("MI", "MODIFIER", 1); }
    MatchCount("MI", {Ver(MINOR), Ver(MICRO)});
  }

  lemma ScanMI()
    ensures "MI"[..1] == "M"
    ensures |PrefixMatches(Builtins, "MI")| == 2
    ensures Lookup(Builtins, "MI") == None
    ensures Lookup(Builtins, "M") == None
  {
    WindowMI();
    LookupNone("MI");
    LookupNone("M");
    assert "MI"[..1] == "M";
  }

  lemma WindowMIC()
    ensures |PrefixMatches(Builtins, "MIC")| == 1
  {
    assert !IsPrefix("MIC", Symbol(Cal(YYYY))) by { NotPrefixAt("MIC", "YYYY", 0); }
    assert !IsPrefix("MIC", Symbol(Cal(YY)));
    assert !IsPrefix("MIC", Symbol(Cal(ZeroY)));
    assert !IsPrefix("MIC", Symbol(Cal(MM)));
    assert !IsPrefix("MIC", Symbol(Cal(ZeroM)));
    assert !IsPrefix("MIC", Symbol(Cal(WW)));
    assert !IsPrefix("MIC", Symbol(Cal(ZeroW)));
    assert !IsPrefix("MIC", Symbol(Cal(DD)));
    assert !IsPrefix("MIC", Symbol(Cal(ZeroD)));
    assert !IsPrefix("MIC", Symbol(Ver(MAJOR))) by { NotPrefixAt("MIC", "MAJOR", 1); }
    assert !IsPrefix("MIC", Symbol(Ver(MINOR))) by { NotPrefixAt("MIC", "MINOR", 2); }
    assert IsPrefix("MIC", Symbol(Ver(MICRO))) by { assert "MICRO"[..3] == "MIC"; }
    assert !IsPrefix("MIC", Symbol(Ver(MODIFIER))) by { NotPrefixAt("MIC", "MODIFIER", 1); }
    MatchCount("MIC", {Ver(MICRO)});
  }

  lemma ScanMIC()
    ensures "MIC"[..2] == "MI"
    ensures |PrefixMatches(Builtins, "MIC")| == 1
    ensures Lookup(Builtins, "MIC") == None
    ensures Lookup(Builtins, "MI") == None
  {
    WindowMIC();
    LookupNone("MIC");
    LookupNone("MI");
    assert "MIC"[..2] == "MI";
  }

  lemma WindowMICR()
    ensures |PrefixMatches(Builtins, "MICR")| == 1
  {
    assert !IsPrefix("MICR", Symbol(Cal(YYYY))) by { NotPrefixAt("MICR", "YYYY", 0); }
    assert !IsPrefix("MICR", Symbol(Cal(YY)));
    assert !IsPrefix("MICR", Symbol(Cal(ZeroY)));
    assert !IsPrefix("MICR", Symbol(Cal(MM)));
    assert !IsPrefix("MICR", Symbol(Cal(ZeroM)));
    assert !IsPrefix("MICR", Symbol(Cal(WW)));
    assert !IsPrefix("MICR", Symbol(Cal(ZeroW)));
    assert !IsPrefix("MICR", Symbol(Cal(DD)));
    assert !IsPrefix("MICR", Symbol(Cal(ZeroD)));
    assert !IsPrefix("MICR", Symbol(Ver(MAJOR))) by { NotPrefixAt("MICR", "MAJOR", 1); }
    assert !IsPrefix("MICR", Symbol(Ver(MINOR))) by { NotPrefixAt("MICR", "MINOR", 2); }
    assert IsPrefix("MICR", Symbol(Ver(MICRO))) by { assert "MICRO"[..4] == "MICR"; }
    assert !IsPrefix("MICR", Symbol(Ver(MODIFIER))) by { NotPrefixAt("MICR", "MODIFIER", 1); }
    MatchCount("MICR", {Ver(MICRO)});
  }

  lemma ScanMICR()
    ensures "MICR"[..3] == "MIC"
    ensures |PrefixMatches(Builtins, "MICR")| == 1
    ensures Lookup(Builtins, "MICR") == None
    ensures Lookup(Builtins, "MIC") == None
  {
    WindowMICR();
    LookupNone("MICR");
    LookupNone("MIC");
    assert "MICR"[..3] == "MIC";
  }

  lemma WindowMICRO()
    ensures |PrefixMatches(Builtins, "MICRO")| == 1
  {
    assert !IsPrefix("MICRO", Symbol(Cal(YYYY)));
    assert !IsPrefix("MICRO", Symbol(Cal(YY)));
    assert !IsPrefix("MICRO", Symbol(Cal(ZeroY)));
    assert !IsPrefix("MICRO", Symbol(Cal(MM)));
    assert !IsPrefix("MICRO", Symbol(Cal(ZeroM)));
    assert !IsPrefix("MICRO", Symbol(Cal(WW)));
    assert !IsPrefix("MICRO", Symbol(Cal(ZeroW)));
    assert !IsPrefix("MICRO", Symbol(Cal(DD)));
    assert !IsPrefix("MICRO", Symbol(Cal(ZeroD)));
    assert !IsPrefix("MICRO", Symbol(Ver(MAJOR))) by { NotPrefixAt("MICRO", "MAJOR", 1); }
    assert !IsPrefix("MICRO", Symbol(Ver(MINOR))) by { NotPrefixAt("MICRO", "MINOR", 2); }
    assert IsPrefix("MICRO", Symbol(Ver(MICRO))) by { assert "MICRO"[..5] == "MICRO"; }
    assert !IsPrefix("MICRO", Symbol(Ver(MODIFIER))) by { NotPrefixAt("MICRO", "MODIFIER", 1); }
    MatchCount("MICRO", {Ver(MICRO)});
  }

  lemma ScanMICRO()
    ensures "MICRO"[..4] == "MICR"
    ensures |PrefixMatches(Builtins, "MICRO")| == 1
    ensures Lookup(Builtins, "MICRO") == Some(Ver(MICRO))
    ensures Lookup(Builtins, "MICR") == None
  {
    WindowMICRO();
    LookupField(Ver(MICRO));
    LookupNone("MICR");
    assert "MICRO"[..4] == "MICR";
  }

  lemma WindowY()
    ensures |PrefixMatches(Builtins, "Y")| == 2
  {
    assert IsPrefix("Y", Symbol(Cal(YYYY))) by { assert "YYYY"[..1] == "Y"; }
    assert IsPrefix("Y", Symbol(Cal(YY))) by { assert "YY"[..1] == "Y"; }
    assert !IsPrefix("Y", Symbol(Cal(ZeroY))) by { NotPrefixAt("Y", "0Y", 0); }
    assert !IsPrefix("Y", Symbol(Cal(MM))) by { NotPrefixAt("Y", "MM", 0); }
    assert !IsPrefix("Y", Symbol(Cal(ZeroM))) by { NotPrefixAt("Y", "0M", 0); }
    assert !IsPrefix("Y", Symbol(Cal(WW))) by { NotPrefixAt("Y", "WW", 0); }
    assert !IsPrefix("Y", Symbol(Cal(ZeroW))) by { NotPrefixAt("Y", "0W", 0); }
    assert !IsPrefix("Y", Symbol(Cal(DD))) by { NotPrefixAt("Y", "DD", 0); }
    assert !IsPrefix("Y", Symbol(Cal(ZeroD))) by { NotPrefixAt("Y", "0D", 0); }
    assert !IsPrefix("Y", Symbol(Ver(MAJOR))) by { NotPrefixAt("Y", "MAJOR", 0); }
    assert !IsPrefix("Y", Symbol(Ver(MINOR))) by { NotPrefixAt("Y", "MINOR", 0); }
    assert !IsPrefix("Y", Symbol(Ver(MICRO))) by { NotPrefixAt("Y", "MICRO", 0); }
    assert !IsPrefix("Y", Symbol(Ver(MODIFIER))) by { NotPrefixAt("Y", "MODIFIER", 0); }
    MatchCount("Y", {Cal(YYYY), Cal(YY)});
  }

  lemma ScanY()
    ensures "Y"[..0] == ""
    ensures |PrefixMatches(Builtins, "Y")| == 2
    ensures Lookup(Builtins, "Y") == None
    ensures Lookup(Builtins, "") == None
  {
    WindowY();
    LookupNone("Y");
    LookupNone("");
    assert |"Y"[..0]| == 0;
  }

  lemma WindowYY()
    ensures |PrefixMatches(Builtins, "YY")| == 2
  {
    assert IsPrefix("YY", Symbol(Cal(YYYY))) by { assert "YYYY"[..2] == "YY"; }
    assert IsPrefix("YY", Symbol(Cal(YY))) by { assert "YY"[..2] == "YY"; }
    assert !IsPrefix("YY", Symbol(Cal(ZeroY))) by { NotPrefixAt("YY", "0Y", 0); }
    assert !IsPrefix("YY", Symbol(Cal(MM))) by { NotPrefixAt("YY", "MM", 0); }
    assert !IsPrefix("YY", Symbol(Cal(ZeroM))) by { NotPrefixAt("YY", "0M", 0); }
    assert !IsPrefix("YY", Symbol(Cal(WW))) by { NotPrefixAt("YY", "WW", 0); }
    assert !IsPrefix("YY", Symbol(Cal(ZeroW))) by { NotPrefixAt("YY", "0W", 0); }
    assert !IsPrefix("YY", Symbol(Cal(DD))) by { NotPrefixAt("YY", "DD", 0); }
    assert !IsPrefix("YY", Symbol(Cal(ZeroD))) by { NotPrefixAt("YY", "0D", 0); }
    assert !IsPrefix("YY", Symbol(Ver(MAJOR))) by { NotPrefixAt("YY", "MAJOR", 0); }
    assert !IsPrefix("YY", Symbol(Ver(MINOR))) by { NotPrefixAt("YY", "MINOR", 0); }
    assert !IsPrefix("YY", Symbol(Ver(MICRO))) by { NotPrefixAt("YY", "MICRO", 0); }
    assert !IsPrefix("YY", Symbol(Ver(MODIFIER))) by { NotPrefixAt("YY", "MODIFIER", 0); }
    MatchCount("YY", {Cal(YYYY), Cal(YY)});
  }

  lemma ScanYY()
    ensures "YY"[..1] == "Y"
    ensures |PrefixMatches(Builtins, "YY")| == 2
    ensures Lookup(Builtins, "YY") == Some(Cal(YY))
    ensures Lookup(Builtins, "Y") == None
  {
    WindowYY();
    LookupField(Cal(YY));
    LookupNone("Y");
    assert "YY"[..1] == "Y";
  }

  lemma WindowYYDot()
    ensures |PrefixMatches(Builtins, "YY.")| == 0
  {
    assert !IsPrefix("YY.", Symbol(Cal(YYYY))) by { NotPrefixAt("YY.", "YYYY", 2); }
    assert !IsPrefix("YY.", Symbol(Cal(YY)));
    assert !IsPrefix("YY.", Symbol(Cal(ZeroY)));
    assert !IsPrefix("YY.", Symbol(Cal(MM)));
    assert !IsPrefix("YY.", Symbol(Cal(ZeroM)));
    assert !IsPrefix("YY.", Symbol(Cal(WW)));
    assert !IsPrefix("YY.", Symbol(Cal(ZeroW)));
    assert !IsPrefix("YY.", Symbol(Cal(DD)));
    assert !IsPrefix("YY.", Symbol(Cal(ZeroD)));
    assert !IsPrefix("YY.", Symbol(Ver(MAJOR))) by { NotPrefixAt("YY.", "MAJOR", 0); }
    assert !IsPrefix("YY.", Symbol(Ver(MINOR))) by { NotPrefixAt("YY.", "MINOR", 0); }
    assert !IsPrefix("YY.", Symbol(Ver(MICRO))) by { NotPrefixAt("YY.", "MICRO", 0); }
    assert !IsPrefix("YY.", Symbol(Ver(MODIFIER))) by { NotPrefixAt("YY.", "MODIFIER", 0); }
    MatchCount("YY.", {});
  }

  lemma ScanYYDot()
    ensures "YY."[..2] == "YY"
    ensures |PrefixMatches(Builtins, "YY.")| == 0
    ensures Lookup(Builtins, "YY.") == None
    ensures Lookup(Builtins, "YY") == Some(Cal(YY))
  {
    WindowYYDot();
    LookupNone("YY.");
    LookupField(Cal(YY));
    assert "YY."[..2] == "YY";
  }

  lemma WindowYYZero()
    ensures |PrefixMatches(Builtins, "YY0")| == 0
  {
    assert !IsPrefix("YY0", Symbol(Cal(YYYY))) by { NotPrefixAt("YY0", "YYYY", 2); }
    assert !IsPrefix("YY0", Symbol(Cal(YY)));
    assert !IsPrefix("YY0", Symbol(Cal(ZeroY)));
    assert !IsPrefix("YY0", Symbol(Cal(MM)));
    assert !IsPrefix("YY0", Symbol(Cal(ZeroM)));
    assert !IsPrefix("YY0", Symbol(Cal(WW)));
    assert !IsPrefix("YY0", Symbol(Cal(ZeroW)));
    assert !IsPrefix("YY0", Symbol(Cal(DD)));
    assert !IsPrefix("YY0", Symbol(Cal(ZeroD)));
    assert !IsPrefix("YY0", Symbol(Ver(MAJOR))) by { NotPrefixAt("YY0", "MAJOR", 0); }
    assert !IsPrefix("YY0", Symbol(Ver(MINOR))) by { NotPrefixAt("YY0", "MINOR", 0); }
    assert !IsPrefix("YY0", Symbol(Ver(MICRO))) by { NotPrefixAt("YY0", "MICRO", 0); }
    assert !IsPrefix("YY0", Symbol(Ver(MODIFIER))) by { NotPrefixAt("YY0", "MODIFIER", 0); }
    MatchCount("YY0", {});
  }

  lemma ScanYYZero()
    ensures "YY0"[..2] == "YY"
    ensures |PrefixMatches(Builtins, "YY0")| == 0
    ensures Lookup(Builtins, "YY0") == None
    ensures Lookup(Builtins, "YY") == Some(Cal(YY))
  {
    WindowYYZero();
    LookupNone("YY0");
    LookupField(Cal(YY));
    assert "YY0"[..2] == "YY";
  }

  lemma WindowYYY()
    ensures |PrefixMatches(Builtins, "YYY")| == 1
  {
    assert IsPrefix("YYY", Symbol(Cal(YYYY))) by { assert "YYYY"[..3] == "YYY"; }
    assert !IsPrefix("YYY", Symbol(Cal(YY)));
    assert !IsPrefix("YYY", Symbol(Cal(ZeroY)));
    assert !IsPrefix("YYY", Symbol(Cal(MM)));
    assert !IsPrefix("YYY", Symbol(Cal(ZeroM)));
    assert !IsPrefix("YYY", Symbol(Cal(WW)));
    assert !IsPrefix("YYY", Symbol(Cal(ZeroW)));
    assert !IsPrefix("YYY", Symbol(Cal(DD)));
    assert !IsPrefix("YYY", Symbol(Cal(ZeroD)));
    assert !IsPrefix("YYY", Symbol(Ver(MAJOR))) by { NotPrefixAt("YYY", "MAJOR", 0); }
    assert !IsPrefix("YYY", Symbol(Ver(MINOR))) by { NotPrefixAt("YYY", "MINOR", 0); }
    assert !IsPrefix("YYY", Symbol(Ver(MICRO))) by { NotPrefixAt("YYY", "MICRO", 0); }
    assert !IsPrefix("YYY", Symbol(Ver(MODIFIER))) by { NotPrefixAt("YYY", "MODIFIER", 0); }
    MatchCount("YYY", {Cal(YYYY)});
  }

  lemma ScanYYY()
    ensures "YYY"[..2] == "YY"
    ensures |PrefixMatches(Builtins, "YYY")| == 1
    ensures Lookup(Builtins, "YYY") == None
    ensures Lookup(Builtins, "YY") == Some(Cal(YY))
  {
    WindowYYY();
    LookupNone("YYY");
    LookupField(Cal(YY));
    assert "YYY"[..2] == "YY";
  }

  lemma WindowYYYY()
    ensures |PrefixMatches(Builtins, "YYYY")| == 1
  {
    assert IsPrefix("YYYY", Symbol(Cal(YYYY))) by { assert "YYYY"[..4] == "YYYY"; }
    assert !IsPrefix("YYYY", Symbol(Cal(YY)));
    assert !IsPrefix("YYYY", Symbol(Cal(ZeroY)));
    assert !IsPrefix("YYYY", Symbol(Cal(MM)));
    assert !IsPrefix("YYYY", Symbol(Cal(ZeroM)));
    assert !IsPrefix("YYYY", Symbol(Cal(WW)));
    assert !IsPrefix("YYYY", Symbol(Cal(ZeroW)));
    assert !IsPrefix("YYYY", Symbol(Cal(DD)));
    assert !IsPrefix("YYYY", Symbol(Cal(ZeroD)));
    assert !IsPrefix("YYYY", Symbol(Ver(MAJOR))) by { NotPrefixAt("YYYY", "MAJOR", 0); }
    assert !IsPrefix("YYYY", Symbol(Ver(MINOR))) by { NotPrefixAt("YYYY", "MINOR", 0); }
    assert !IsPrefix("YYYY", Symbol(Ver(MICRO))) by { NotPrefixAt("YYYY", "MICRO", 0); }
    assert !IsPrefix("YYYY", Symbol(Ver(MODIFIER))) by { NotPrefixAt("YYYY", "MODIFIER", 0); }
    MatchCount("YYYY", {Cal(YYYY)});
  }

  lemma ScanYYYY()
    ensures "YYYY"[..3] == "YYY"
    ensures |PrefixMatches(Builtins, "YYYY")| == 1
    ensures Lookup(Builtins, "YYYY") == Some(Cal(YYYY))
    ensures Lookup(Builtins, "YYY") == None
  {
    WindowYYYY();
    LookupField(Cal(YYYY));
    LookupNone("YYY");
    assert "YYYY"[..3] == "YYY";
  }

  lemma WindowYYv()
    ensures |PrefixMatches(Builtins, "YYv")| == 0
  {
    assert !IsPrefix("YYv", Symbol(Cal(YYYY))) by { NotPrefixAt("YYv", "YYYY", 2); }
    assert !IsPrefix("YYv", Symbol(Cal(YY)));
    assert !IsPrefix("YYv", Symbol(Cal(ZeroY)));
    assert !IsPrefix("YYv", Symbol(Cal(MM)));
    assert !IsPrefix("YYv", Symbol(Cal(ZeroM)));
    assert !IsPrefix("YYv", Symbol(Cal(WW)));
    assert !IsPrefix("YYv", Symbol(Cal(ZeroW)));
    assert !IsPrefix("YYv", Symbol(Cal(DD)));
    assert !IsPrefix("YYv", Symbol(Cal(ZeroD)));
    assert !IsPrefix("YYv", Symbol(Ver(MAJOR))) by { NotPrefixAt("YYv", "MAJOR", 0); }
    assert !IsPrefix("YYv", Symbol(Ver(MINOR))) by { NotPrefixAt("YYv", "MINOR", 0); }
    assert !IsPrefix("YYv", Symbol(Ver(MICRO))) by { NotPrefixAt("YYv", "MICRO", 0); }
    assert !IsPrefix("YYv", Symbol(Ver(MODIFIER))) by { NotPrefixAt("YYv", "MODIFIER", 0); }
    MatchCount("YYv", {});
  }

  lemma ScanYYv()
    ensures "YYv"[..2] == "YY"
    ensures |PrefixMatches(Builtins, "YYv")| == 0
    ensures Lookup(Builtins, "YYv") == None
    ensures Lookup(Builtins, "YY") == Some(Cal(YY))
  {
    WindowYYv();
    LookupNone("YYv");
    LookupField(Cal(YY));
    assert "YYv"[..2] == "YY";
  }

  lemma Windowv()
    ensures |PrefixMatches(Builtins, "v")| == 0
  {
    assert !IsPrefix("v", Symbol(Cal(YYYY))) by { NotPrefixAt("v", "YYYY", 0); }
    assert !IsPrefix("v", Symbol(Cal(YY))) by { NotPrefixAt("v", "YY", 0); }
    assert !IsPrefix("v", Symbol(Cal(ZeroY))) by { NotPrefixAt("v", "0Y", 0); }
    assert !IsPrefix("v", Symbol(Cal(MM))) by { NotPrefixAt("v", "MM", 0); }
    assert !IsPrefix("v", Symbol(Cal(ZeroM))) by { NotPrefixAt("v", "0M", 0); }
    assert !IsPrefix("v", Symbol(Cal(WW))) by { NotPrefixAt("v", "WW", 0); }
    assert !IsPrefix("v", Symbol(Cal(ZeroW))) by { NotPrefixAt("v", "0W", 0); }
    assert !IsPrefix("v", Symbol(Cal(DD))) by { NotPrefixAt("v", "DD", 0); }
    assert !IsPrefix("v", Symbol(Cal(ZeroD))) by { NotPrefixAt("v", "0D", 0); }
    assert !IsPrefix("v", Symbol(Ver(MAJOR))) by { NotPrefixAt("v", "MAJOR", 0); }
    assert !IsPrefix("v", Symbol(Ver(MINOR))) by { NotPrefixAt("v", "MINOR", 0); }
    assert !IsPrefix("v", Symbol(Ver(MICRO))) by { NotPrefixAt("v", "MICRO", 0); }
    assert !IsPrefix("v", Symbol(Ver(MODIFIER))) by { NotPrefixAt("v", "MODIFIER", 0); }
    MatchCount("v", {});
  }

  lemma Scanv()
    ensures "v"[..0] == ""
    ensures |PrefixMatches(Builtins, "v")| == 0
    ensures Lookup(Builtins, "v") == None
    ensures Lookup(Builtins, "") == None
  {
    Windowv();
    LookupNone("v");
    LookupNone("");
    assert |"v"[..0]| == 0;
  }

  // ---------------------------------------------------------------------------
  // Layouts. For a layout X, StepX_p_i unfolds the scan step at window start p
  // and end i, FromX_p_i states every token emitted from that step on, and
  // TokenizeX is the tokenization the package documents.

  lemma StepYY_0_0(l: string)
    requires l == "YY"
    ensures ValidTable(Builtins) && TokenizeFrom(Builtins, l, 0, 0) == TokenizeFrom(Builtins, l, 0, 1)
  {
    assert l[0..1] == "Y";
    ScanY();
    SwitchStep(l, 0, 0, "Y", "", 2, None, None, Step([], 0, 1));
    TokenizeFromStep(Builtins, l, 0, 0);
  }

  lemma StepYY_0_1(l: string)
    requires l == "YY"
    ensures ValidTable(Builtins) && TokenizeFrom(Builtins, l, 0, 1) == [Cal(YY)] + TokenizeFrom(Builtins, l, 0, 2)
  {
    assert l[0..2] == "YY";
    ScanYY();
    SwitchStep(l, 0, 1, "YY", "Y", 2, Some(Cal(YY)), None, Step([Cal(YY)], 0, 2));
    TokenizeFromStep(Builtins, l, 0, 1);
  }

  lemma FromYY_0_1(l: string)
    requires l == "YY"
    ensures ValidTable(Builtins) && TokenizeFrom(Builtins, l, 0, 1) == [Cal(YY)]
  {
    StepYY_0_1(l);
    assert TokenizeFrom(Builtins, l, 0, 2) == [];
  }

  lemma FromYY_0_0(l: string)
    requires l == "YY"
    ensures ValidTable(Builtins) && TokenizeFrom(Builtins, l, 0, 0) == [Cal(YY)]
  {
    StepYY_0_0(l);
    FromYY_0_1(l);
  }

  /** tokenizeLayout("YY") */
  lemma TokenizeYY()
    ensures Tokenize("YY") == [Cal(YY)]
  {
    FromYY_0_0("YY");
  }

  lemma StepYYYY_0_0(l: string)
    requires l == "YYYY"
    ensures ValidTable(Builtins) && TokenizeFrom(Builtins, l, 0, 0) == TokenizeFrom(Builtins, l, 0, 1)
  {
    assert l[0..1] == "Y";
    ScanY();
    SwitchStep(l, 0, 0, "Y", "", 2, None, None, Step([], 0, 1));
    TokenizeFromStep(Builtins, l, 0, 0);
  }

  lemma StepYYYY_0_1(l: string)
    requires l == "YYYY"
    ensures ValidTable(Builtins) && TokenizeFrom(Builtins, l, 0, 1) == TokenizeFrom(Builtins, l, 0, 2)
  {
    assert l[0..2] == "YY";
    ScanYY();
    SwitchStep(l, 0, 1, "YY", "Y", 2, Some(Cal(YY)), None, Step([], 0, 2));
    TokenizeFromStep(Builtins, l, 0, 1);
  }

  lemma StepYYYY_0_2(l: string)
    requires l == "YYYY"
    ensures ValidTable(Builtins) && TokenizeFrom(Builtins, l, 0, 2) == TokenizeFrom(Builtins, l, 0, 3)
  {
    assert l[0..3] == "YYY";
    ScanYYY();
    SwitchStep(l, 0, 2, "YYY", "YY", 1, None, Some(Cal(YY)), Step([], 0, 3));
    TokenizeFromStep(Builtins, l, 0, 2);
  }

  lemma StepYYYY_0_3(l: string)
    requires l == "YYYY"
    ensures ValidTable(Builtins) && TokenizeFrom(Builtins, l, 0, 3) == [Cal(YYYY)] + TokenizeFrom(Builtins, l, 4, 4)
  {
    assert l[0..4] == "YYYY";
    ScanYYYY();
    SwitchStep(l, 0, 3, "YYYY", "YYY", 1, Some(Cal(YYYY)), None, Step([Cal(YYYY)], 4, 4));
    TokenizeFromStep(Builtins, l, 0, 3);
  }

  lemma FromYYYY_0_3(l: string)
    requires l == "YYYY"
    ensures ValidTable(Builtins) && TokenizeFrom(Builtins, l, 0, 3) == [Cal(YYYY)]
  {
    StepYYYY_0_3(l);
    assert TokenizeFrom(Builtins, l, 4, 4) == [];
  }

  lemma FromYYYY_0_2(l: string)
    requires l == "YYYY"
    ensures ValidTable(Builtins) && TokenizeFrom(Builtins, l, 0, 2) == [Cal(YYYY)]
  {
    StepYYYY_0_2(l);
    FromYYYY_0_3(l);
  }

  lemma FromYYYY_0_1(l: string)
    requires l == "YYYY"
    ensures ValidTable(Builtins) && TokenizeFrom(Builtins, l, 0, 1) == [Cal(YYYY)]
  {
    StepYYYY_0_1(l);
    FromYYYY_0_2(l);
  }

  lemma FromYYYY_0_0(l: string)
    requires l == "YYYY"
    ensures ValidTable(Builtins) && TokenizeFrom(Builtins, l, 0, 0) == [Cal(YYYY)]
  {
    StepYYYY_0_0(l);
    FromYYYY_0_1(l);
  }

  /** tokenizeLayout("YYYY") */
  lemma TokenizeYYYY()
    ensures Tokenize("YYYY") == [Cal(YYYY)]
  {
    FromYYYY_0_0("YYYY");
  }

  lemma StepvYY_0_0(l: string)
    requires l == "vYY"
    ensures ValidTable(Builtins) && TokenizeFrom(Builtins, l, 0, 0) == [Sep("v")] + TokenizeFrom(Builtins, l, 1, 1)
  {
    assert l[0..1] == "v";
    Scanv();
    SwitchStep(l, 0, 0, "v", "", 0, None, None, Step([Sep("v")], 1, 1));
    TokenizeFromStep(Builtins, l, 0, 0);
  }

  lemma StepvYY_1_1(l: string)
    requires l == "vYY"
    ensures ValidTable(Builtins) && TokenizeFrom(Builtins, l, 1, 1) == TokenizeFrom(Builtins, l, 1, 2)
  {
    assert l[1..2] == "Y";
    ScanY();
    SwitchStep(l, 1, 1, "Y", "", 2, None, None, Step([], 1, 2));
    TokenizeFromStep(Builtins, l, 1, 1);
  }

  lemma StepvYY_1_2(l: string)
    requires l == "vYY"
    ensures ValidTable(Builtins) && TokenizeFrom(Builtins, l, 1, 2) == [Cal(YY)] + TokenizeFrom(Builtins, l, 1, 3)
  {
    assert l[1..3] == "YY";
    ScanYY();
    SwitchStep(l, 1, 2, "YY", "Y", 2, Some(Cal(YY)), None, Step([Cal(YY)], 1, 3));
    TokenizeFromStep(Builtins, l, 1, 2);
  }

  lemma FromvYY_1_2(l: string)
    requires l == "vYY"
    ensures ValidTable(Builtins) && TokenizeFrom(Builtins, l, 1, 2) == [Cal(YY)]
  {
    StepvYY_1_2(l);
    assert TokenizeFrom(Builtins, l, 1, 3) == [];
  }

  lemma FromvYY_1_1(l: string)
    requires l == "vYY"
    ensures ValidTable(Builtins) && TokenizeFrom(Builtins, l, 1, 1) == [Cal(YY)]
  {
    StepvYY_1_1(l);
    FromvYY_1_2(l);
  }

  lemma FromvYY_0_0(l: string)
    requires l == "vYY"
    ensures ValidTable(Builtins) && TokenizeFrom(Builtins, l, 0, 0) == [Sep("v"), Cal(YY)]
  {
    assert [Sep("v")] + [Cal(YY)] == [Sep("v"), Cal(YY)];
    StepvYY_0_0(l);
    FromvYY_1_1(l);
  }

  /** tokenizeLayout("vYY") */
  lemma TokenizevYY()
    ensures Tokenize("vYY") == [Sep("v"), Cal(YY)]
  {
    FromvYY_0_0("vYY");
  }

  lemma StepYYv_0_0(l: string)
    requires l == "YYv"
    ensures ValidTable(Builtins) && TokenizeFrom(Builtins, l, 0, 0) == TokenizeFrom(Builtins, l, 0, 1)
  {
    assert l[0..1] == "Y";
    ScanY();
    SwitchStep(l, 0, 0, "Y", "", 2, None, None, Step([], 0, 1));
    TokenizeFromStep(Builtins, l, 0, 0);
  }

  lemma StepYYv_0_1(l: string)
    requires l == "YYv"
    ensures ValidTable(Builtins) && TokenizeFrom(Builtins, l, 0, 1) == TokenizeFrom(Builtins, l, 0, 2)
  {
    assert l[0..2] == "YY";
    ScanYY();
    SwitchStep(l, 0, 1, "YY", "Y", 2, Some(Cal(YY)), None, Step([], 0, 2));
    TokenizeFromStep(Builtins, l, 0, 1);
  }

  lemma StepYYv_0_2(l: string)
    requires l == "YYv"
    ensures ValidTable(Builtins) && TokenizeFrom(Builtins, l, 0, 2) == [Cal(YY)] + TokenizeFrom(Builtins, l, 2, 2)
  {
    assert l[0..3] == "YYv";
    ScanYYv();
    SwitchStep(l, 0, 2, "YYv", "YY", 0, None, Some(Cal(YY)), Step([Cal(YY)], 2, 2));
    TokenizeFromStep(Builtins, l, 0, 2);
  }

  lemma StepYYv_2_2(l: string)
    requires l == "YYv"
    ensures ValidTable(Builtins) && TokenizeFrom(Builtins, l, 2, 2) == [Sep("v")] + TokenizeFrom(Builtins, l, 3, 3)
  {
    assert l[2..3] == "v";
    Scanv();
    SwitchStep(l, 2, 2, "v", "", 0, None, None, Step([Sep("v")], 3, 3));
    TokenizeFromStep(Builtins, l, 2, 2);
  }

  lemma FromYYv_2_2(l: string)
    requires l == "YYv"
    ensures ValidTable(Builtins) && TokenizeFrom(Builtins, l, 2, 2) == [Sep("v")]
  {
    StepYYv_2_2(l);
    assert TokenizeFrom(Builtins, l, 3, 3) == [];
  }

  lemma FromYYv_0_2(l: string)
    requires l == "YYv"
    ensures ValidTable(Builtins) && TokenizeFrom(Builtins, l, 0, 2) == [Cal(YY), Sep("v")]
  {
    assert [Cal(YY)] + [Sep("v")] == [Cal(YY), Sep("v")];
    StepYYv_0_2(l);
    FromYYv_2_2(l);
  }

  lemma FromYYv_0_1(l: string)
    requires l == "YYv"
    ensures ValidTable(Builtins) && TokenizeFrom(Builtins, l, 0, 1) == [Cal(YY), Sep("v")]
  {
    StepYYv_0_1(l);
    FromYYv_0_2(l);
  }

  lemma FromYYv_0_0(l: string)
    requires l == "YYv"
    ensures ValidTable(Builtins) && TokenizeFrom(Builtins, l, 0, 0) == [Cal(YY), Sep("v")]
  {
    StepYYv_0_0(l);
    FromYYv_0_1(l);
  }

  /** tokenizeLayout("YYv") */
  lemma TokenizeYYv()
    ensures Tokenize("YYv") == [Cal(YY), Sep("v")]
  {
    FromYYv_0_0("YYv");
  }

  lemma StepYYDot0D_0_0(l: string)
    requires l == "YY.0D"
    ensures ValidTable(Builtins) && TokenizeFrom(Builtins, l, 0, 0) == TokenizeFrom(Builtins, l, 0, 1)
  {
    assert l[0..1] == "Y";
    ScanY();
    SwitchStep(l, 0, 0, "Y", "", 2, None, None, Step([], 0, 1));
    TokenizeFromStep(Builtins, l, 0, 0);
  }

  lemma StepYYDot0D_0_1(l: string)
    requires l == "YY.0D"
    ensures ValidTable(Builtins) && TokenizeFrom(Builtins, l, 0, 1) == TokenizeFrom(Builtins, l, 0, 2)
  {
    assert l[0..2] == "YY";
    ScanYY();
    SwitchStep(l, 0, 1, "YY", "Y", 2, Some(Cal(YY)), None, Step([], 0, 2));
    TokenizeFromStep(Builtins, l, 0, 1);
  }

  lemma StepYYDot0D_0_2(l: string)
    requires l == "YY.0D"
    ensures ValidTable(Builtins) && TokenizeFrom(Builtins, l, 0, 2) == [Cal(YY)] + TokenizeFrom(Builtins, l, 2, 2)
  {
    assert l[0..3] == "YY.";
    ScanYYDot();
    SwitchStep(l, 0, 2, "YY.", "YY", 0, None, Some(Cal(YY)), Step([Cal(YY)], 2, 2));
    TokenizeFromStep(Builtins, l, 0, 2);
  }

  lemma StepYYDot0D_2_2(l: string)
    requires l == "YY.0D"
    ensures ValidTable(Builtins) && TokenizeFrom(Builtins, l, 2, 2) == [Sep(".")] + TokenizeFrom(Builtins, l, 3, 3)
  {
    assert l[2..3] == ".";
    ScanDot();
    SwitchStep(l, 2, 2, ".", "", 0, None, None, Step([Sep(".")], 3, 3));
    TokenizeFromStep(Builtins, l, 2, 2);
  }

  lemma StepYYDot0D_3_3(l: string)
    requires l == "YY.0D"
    ensures ValidTable(Builtins) && TokenizeFrom(Builtins, l, 3, 3) == TokenizeFrom(Builtins, l, 3, 4)
  {
    assert l[3..4] == "0";
    ScanZero();
    SwitchStep(l, 3, 3, "0", "", 4, None, None, Step([], 3, 4));
    TokenizeFromStep(Builtins, l, 3, 3);
  }

  lemma StepYYDot0D_3_4(l: string)
    requires l == "YY.0D"
    ensures ValidTable(Builtins) && TokenizeFrom(Builtins, l, 3, 4) == [Cal(ZeroD)] + TokenizeFrom(Builtins, l, 5, 5)
  {
    assert l[3..5] == "0D";
    ScanZeroD();
    SwitchStep(l, 3, 4, "0D", "0", 1, Some(Cal(ZeroD)), None, Step([Cal(ZeroD)], 5, 5));
    TokenizeFromStep(Builtins, l, 3, 4);
  }

  lemma FromYYDot0D_3_4(l: string)
    requires l == "YY.0D"
    ensures ValidTable(Builtins) && TokenizeFrom(Builtins, l, 3, 4) == [Cal(ZeroD)]
  {
    StepYYDot0D_3_4(l);
    assert TokenizeFrom(Builtins, l, 5, 5) == [];
  }

  lemma FromYYDot0D_3_3(l: string)
    requires l == "YY.0D"
    ensures ValidTable(Builtins) && TokenizeFrom(Builtins, l, 3, 3) == [Cal(ZeroD)]
  {
    StepYYDot0D_3_3(l);
    FromYYDot0D_3_4(l);
  }

  lemma FromYYDot0D_2_2(l: string)
    requires l == "YY.0D"
    ensures ValidTable(Builtins) && TokenizeFrom(Builtins, l, 2, 2) == [Sep("."), Cal(ZeroD)]
  {
    assert [Sep(".")] + [Cal(ZeroD)] == [Sep("."), Cal(ZeroD)];
    StepYYDot0D_2_2(l);
    FromYYDot0D_3_3(l);
  }

  lemma FromYYDot0D_0_2(l: string)
    requires l == "YY.0D"
    ensures ValidTable(Builtins) && TokenizeFrom(Builtins, l, 0, 2) == [Cal(YY), Sep("."), Cal(ZeroD)]
  {
    assert [Cal(YY)] + [Sep("."), Cal(ZeroD)] == [Cal(YY), Sep("."), Cal(ZeroD)];
    StepYYDot0D_0_2(l);
    FromYYDot0D_2_2(l);
  }

  lemma FromYYDot0D_0_1(l: string)
    requires l == "YY.0D"
    ensures ValidTable(Builtins) && TokenizeFrom(Builtins, l, 0, 1) == [Cal(YY), Sep("."), Cal(ZeroD)]
  {
    StepYYDot0D_0_1(l);
    FromYYDot0D_0_2(l);
  }

  lemma FromYYDot0D_0_0(l: string)
    requires l == "YY.0D"
    ensures ValidTable(Builtins) && TokenizeFrom(Builtins, l, 0, 0) == [Cal(YY), Sep("."), Cal(ZeroD)]
  {
    StepYYDot0D_0_0(l);
    FromYYDot0D_0_1(l);
  }

  /** tokenizeLayout("YY.0D") */
  lemma TokenizeYYDot0D()
    ensures Tokenize("YY.0D") == [Cal(YY), Sep("."), Cal(ZeroD)]
  {
    FromYYDot0D_0_0("YY.0D");
  }

  lemma StepYY0D_0_0(l: string)
    requires l == "YY0D"
    ensures ValidTable(Builtins) && TokenizeFrom(Builtins, l, 0, 0) == TokenizeFrom(Builtins, l, 0, 1)
  {
    assert l[0..1] == "Y";
    ScanY();
    SwitchStep(l, 0, 0, "Y", "", 2, None, None, Step([], 0, 1));
    TokenizeFromStep(Builtins, l, 0, 0);
  }

  lemma StepYY0D_0_1(l: string)
    requires l == "YY0D"
    ensures ValidTable(Builtins) && TokenizeFrom(Builtins, l, 0, 1) == TokenizeFrom(Builtins, l, 0, 2)
  {
    assert l[0..2] == "YY";
    ScanYY();
    SwitchStep(l, 0, 1, "YY", "Y", 2, Some(Cal(YY)), None, Step([], 0, 2));
    TokenizeFromStep(Builtins, l, 0, 1);
  }

  lemma StepYY0D_0_2(l: string)
    requires l == "YY0D"
    ensures ValidTable(Builtins) && TokenizeFrom(Builtins, l, 0, 2) == [Cal(YY)] + TokenizeFrom(Builtins, l, 2, 2)
  {
    assert l[0..3] == "YY0";
    ScanYYZero();
    SwitchStep(l, 0, 2, "YY0", "YY", 0, None, Some(Cal(YY)), Step([Cal(YY)], 2, 2));
    TokenizeFromStep(Builtins, l, 0, 2);
  }

  lemma StepYY0D_2_2(l: string)
    requires l == "YY0D"
    ensures ValidTable(Builtins) && TokenizeFrom(Builtins, l, 2, 2) == TokenizeFrom(Builtins, l, 2, 3)
  {
    assert l[2..3] == "0";
    ScanZero();
    SwitchStep(l, 2, 2, "0", "", 4, None, None, Step([], 2, 3));
    TokenizeFromStep(Builtins, l, 2, 2);
  }

  lemma StepYY0D_2_3(l: string)
    requires l == "YY0D"
    ensures ValidTable(Builtins) && TokenizeFrom(Builtins, l, 2, 3) == [Cal(ZeroD)] + TokenizeFrom(Builtins, l, 4, 4)
  {
    assert l[2..4] == "0D";
    ScanZeroD();
    SwitchStep(l, 2, 3, "0D", "0", 1, Some(Cal(ZeroD)), None, Step([Cal(ZeroD)], 4, 4));
    TokenizeFromStep(Builtins, l, 2, 3);
  }

  lemma FromYY0D_2_3(l: string)
    requires l == "YY0D"
    ensures ValidTable(Builtins) && TokenizeFrom(Builtins, l, 2, 3) == [Cal(ZeroD)]
  {
    StepYY0D_2_3(l);
    assert TokenizeFrom(Builtins, l, 4, 4) == [];
  }

  lemma FromYY0D_2_2(l: string)
    requires l == "YY0D"
    ensures ValidTable(Builtins) && TokenizeFrom(Builtins, l, 2, 2) == [Cal(ZeroD)]
  {
    StepYY0D_2_2(l);
    FromYY0D_2_3(l);
  }

  lemma FromYY0D_0_2(l: string)
    requires l == "YY0D"
    ensures ValidTable(Builtins) && TokenizeFrom(Builtins, l, 0, 2) == [Cal(YY), Cal(ZeroD)]
  {
    assert [Cal(YY)] + [Cal(ZeroD)] == [Cal(YY), Cal(ZeroD)];
    StepYY0D_0_2(l);
    FromYY0D_2_2(l);
  }

  lemma FromYY0D_0_1(l: string)
    requires l == "YY0D"
    ensures ValidTable(Builtins) && TokenizeFrom(Builtins, l, 0, 1) == [Cal(YY), Cal(ZeroD)]
  {
    StepYY0D_0_1(l);
    FromYY0D_0_2(l);
  }

  lemma FromYY0D_0_0(l: string)
    requires l == "YY0D"
    ensures ValidTable(Builtins) && TokenizeFrom(Builtins, l, 0, 0) == [Cal(YY), Cal(ZeroD)]
  {
    StepYY0D_0_0(l);
    FromYY0D_0_1(l);
  }

  /** tokenizeLayout("YY0D") */
  lemma TokenizeYY0D()
    ensures Tokenize("YY0D") == [Cal(YY), Cal(ZeroD)]
  {
    FromYY0D_0_0("YY0D");
  }

  lemma StepYYDot0DDotMICRO_0_0(l: string)
    requires l == "YY.0D.MICRO"
    ensures ValidTable(Builtins) && TokenizeFrom(Builtins, l, 0, 0) == TokenizeFrom(Builtins, l, 0, 1)
  {
    assert l[0..1] == "Y";
    ScanY();
    SwitchStep(l, 0, 0, "Y", "", 2, None, None, Step([], 0, 1));
    TokenizeFromStep(Builtins, l, 0, 0);
  }

  lemma StepYYDot0DDotMICRO_0_1(l: string)
    requires l == "YY.0D.MICRO"
    ensures ValidTable(Builtins) && TokenizeFrom(Builtins, l, 0, 1) == TokenizeFrom(Builtins, l, 0, 2)
  {
    assert l[0..2] == "YY";
    ScanYY();
    SwitchStep(l, 0, 1, "YY", "Y", 2, Some(Cal(YY)), None, Step([], 0, 2));
    TokenizeFromStep(Builtins, l, 0, 1);
  }

  lemma StepYYDot0DDotMICRO_0_2(l: string)
    requires l == "YY.0D.MICRO"
    ensures ValidTable(Builtins) && TokenizeFrom(Builtins, l, 0, 2) == [Cal(YY)] + TokenizeFrom(Builtins, l, 2, 2)
  {
    assert l[0..3] == "YY.";
    ScanYYDot();
    SwitchStep(l, 0, 2, "YY.", "YY", 0, None, Some(Cal(YY)), Step([Cal(YY)], 2, 2));
    TokenizeFromStep(Builtins, l, 0, 2);
  }

  lemma StepYYDot0DDotMICRO_2_2(l: string)
    requires l == "YY.0D.MICRO"
    ensures ValidTable(Builtins) && TokenizeFrom(Builtins, l, 2, 2) == [Sep(".")] + TokenizeFrom(Builtins, l, 3, 3)
  {
    assert l[2..3] == ".";
    ScanDot();
    SwitchStep(l, 2, 2, ".", "", 0, None, None, Step([Sep(".")], 3, 3));
    TokenizeFromStep(Builtins, l, 2, 2);
  }

  lemma StepYYDot0DDotMICRO_3_3(l: string)
    requires l == "YY.0D.MICRO"
    ensures ValidTable(Builtins) && TokenizeFrom(Builtins, l, 3, 3) == TokenizeFrom(Builtins, l, 3, 4)
  {
    assert l[3..4] == "0";
    ScanZero();
    SwitchStep(l, 3, 3, "0", "", 4, None, None, Step([], 3, 4));
    TokenizeFromStep(Builtins, l, 3, 3);
  }

  lemma StepYYDot0DDotMICRO_3_4(l: string)
    requires l == "YY.0D.MICRO"
    ensures ValidTable(Builtins) && TokenizeFrom(Builtins, l, 3, 4) == [Cal(ZeroD)] + TokenizeFrom(Builtins, l, 5, 5)
  {
    assert l[3..5] == "0D";
    ScanZeroD();
    SwitchStep(l, 3, 4, "0D", "0", 1, Some(Cal(ZeroD)), None, Step([Cal(ZeroD)], 5, 5));
    TokenizeFromStep(Builtins, l, 3, 4);
  }

  lemma StepYYDot0DDotMICRO_5_5(l: string)
    requires l == "YY.0D.MICRO"
    ensures ValidTable(Builtins) && TokenizeFrom(Builtins, l, 5, 5) == [Sep(".")] + TokenizeFrom(Builtins, l, 6, 6)
  {
    assert l[5..6] == ".";
    ScanDot();
    SwitchStep(l, 5, 5, ".", "", 0, None, None, Step([Sep(".")], 6, 6));
    TokenizeFromStep(Builtins, l, 5, 5);
  }

  lemma StepYYDot0DDotMICRO_6_6(l: string)
    requires l == "YY.0D.MICRO"
    ensures ValidTable(Builtins) && TokenizeFrom(Builtins, l, 6, 6) == TokenizeFrom(Builtins, l, 6, 7)
  {
    assert l[6..7] == "M";
    ScanM();
    SwitchStep(l, 6, 6, "M", "", 5, None, None, Step([], 6, 7));
    TokenizeFromStep(Builtins, l, 6, 6);
  }

  lemma StepYYDot0DDotMICRO_6_7(l: string)
    requires l == "YY.0D.MICRO"
    ensures ValidTable(Builtins) && TokenizeFrom(Builtins, l, 6, 7) == TokenizeFrom(Builtins, l, 6, 8)
  {
    assert l[6..8] == "MI";
    ScanMI();
    SwitchStep(l, 6, 7, "MI", "M", 2, None, None, Step([], 6, 8));
    TokenizeFromStep(Builtins, l, 6, 7);
  }

  lemma StepYYDot0DDotMICRO_6_8(l: string)
    requires l == "YY.0D.MICRO"
    ensures ValidTable(Builtins) && TokenizeFrom(Builtins, l, 6, 8) == TokenizeFrom(Builtins, l, 6, 9)
  {
    assert l[6..9] == "MIC";
    ScanMIC();
    SwitchStep(l, 6, 8, "MIC", "MI", 1, None, None, Step([], 6, 9));
    TokenizeFromStep(Builtins, l, 6, 8);
  }

  lemma StepYYDot0DDotMICRO_6_9(l: string)
    requires l == "YY.0D.MICRO"
    ensures ValidTable(Builtins) && TokenizeFrom(Builtins, l, 6, 9) == TokenizeFrom(Builtins, l, 6, 10)
  {
    assert l[6..10] == "MICR";
    ScanMICR();
    SwitchStep(l, 6, 9, "MICR", "MIC", 1, None, None, Step([], 6, 10));
    TokenizeFromStep(Builtins, l, 6, 9);
  }

  lemma StepYYDot0DDotMICRO_6_10(l: string)
    requires l == "YY.0D.MICRO"
    ensures ValidTable(Builtins) && TokenizeFrom(Builtins, l, 6, 10) == [Ver(MICRO)] + TokenizeFrom(Builtins, l, 11, 11)
  {
    assert l[6..11] == "MICRO";
    ScanMICRO();
    SwitchStep(l, 6, 10, "MICRO", "MICR", 1, Some(Ver(MICRO)), None, Step([Ver(MICRO)], 11, 11));
    TokenizeFromStep(Builtins, l, 6, 10);
  }

  lemma FromYYDot0DDotMICRO_6_10(l: string)
    requires l == "YY.0D.MICRO"
    ensures ValidTable(Builtins) && TokenizeFrom(Builtins, l, 6, 10) == [Ver(MICRO)]
  {
    StepYYDot0DDotMICRO_6_10(l);
    assert TokenizeFrom(Builtins, l, 11, 11) == [];
  }

  lemma FromYYDot0DDotMICRO_6_9(l: string)
    requires l == "YY.0D.MICRO"
    ensures ValidTable(Builtins) && TokenizeFrom(Builtins, l, 6, 9) == [Ver(MICRO)]
  {
    StepYYDot0DDotMICRO_6_9(l);
    FromYYDot0DDotMICRO_6_10(l);
  }

  lemma FromYYDot0DDotMICRO_6_8(l: string)
    requires l == "YY.0D.MICRO"
    ensures ValidTable(Builtins) && TokenizeFrom(Builtins, l, 6, 8) == [Ver(MICRO)]
  {
    StepYYDot0DDotMICRO_6_8(l);
    FromYYDot0DDotMICRO_6_9(l);
  }

  lemma FromYYDot0DDotMICRO_6_7(l: string)
    requires l == "YY.0D.MICRO"
    ensures ValidTable(Builtins) && TokenizeFrom(Builtins, l, 6, 7) == [Ver(MICRO)]
  {
    StepYYDot0DDotMICRO_6_7(l);
    FromYYDot0DDotMICRO_6_8(l);
  }

  lemma FromYYDot0DDotMICRO_6_6(l: string)
    requires l == "YY.0D.MICRO"
    ensures ValidTable(Builtins) && TokenizeFrom(Builtins, l, 6, 6) == [Ver(MICRO)]
  {
    StepYYDot0DDotMICRO_6_6(l);
    FromYYDot0DDotMICRO_6_7(l);
  }

  lemma FromYYDot0DDotMICRO_5_5(l: string)
    requires l == "YY.0D.MICRO"
    ensures ValidTable(Builtins) && TokenizeFrom(Builtins, l, 5, 5) == [Sep("."), Ver(MICRO)]
  {
    assert [Sep(".")] + [Ver(MICRO)] == [Sep("."), Ver(MICRO)];
    StepYYDot0DDotMICRO_5_5(l);
    FromYYDot0DDotMICRO_6_6(l);
  }

  lemma FromYYDot0DDotMICRO_3_4(l: string)
    requires l == "YY.0D.MICRO"
    ensures ValidTable(Builtins) && TokenizeFrom(Builtins, l, 3, 4) == [Cal(ZeroD), Sep("."), Ver(MICRO)]
  {
    assert [Cal(ZeroD)] + [Sep("."), Ver(MICRO)] == [Cal(ZeroD), Sep("."), Ver(MICRO)];
    StepYYDot0DDotMICRO_3_4(l);
    FromYYDot0DDotMICRO_5_5(l);
  }

  lemma FromYYDot0DDotMICRO_3_3(l: string)
    requires l == "YY.0D.MICRO"
    ensures ValidTable(Builtins) && TokenizeFrom(Builtins, l, 3, 3) == [Cal(ZeroD), Sep("."), Ver(MICRO)]
  {
    StepYYDot0DDotMICRO_3_3(l);
    FromYYDot0DDotMICRO_3_4(l);
  }

  lemma FromYYDot0DDotMICRO_2_2(l: string)
    requires l == "YY.0D.MICRO"
    ensures ValidTable(Builtins) && TokenizeFrom(Builtins, l, 2, 2) == [Sep("."), Cal(ZeroD), Sep("."), Ver(MICRO)]
  {
    assert [Sep(".")] + [Cal(ZeroD), Sep("."), Ver(MICRO)] == [Sep("."), Cal(ZeroD), Sep("."), Ver(MICRO)];
    StepYYDot0DDotMICRO_2_2(l);
    FromYYDot0DDotMICRO_3_3(l);
  }

  lemma FromYYDot0DDotMICRO_0_2(l: string)
    requires l == "YY.0D.MICRO"
    ensures ValidTable(Builtins) && TokenizeFrom(Builtins, l, 0, 2) == [Cal(YY), Sep("."), Cal(ZeroD), Sep("."), Ver(MICRO)]
  {
    assert [Cal(YY)] + [Sep("."), Cal(ZeroD), Sep("."), Ver(MICRO)] == [Cal(YY), Sep("."), Cal(ZeroD), Sep("."), Ver(MICRO)];
    StepYYDot0DDotMICRO_0_2(l);
    FromYYDot0DDotMICRO_2_2(l);
  }

  lemma FromYYDot0DDotMICRO_0_1(l: string)
    requires l == "YY.0D.MICRO"
    ensures ValidTable(Builtins) && TokenizeFrom(Builtins, l, 0, 1) == [Cal(YY), Sep("."), Cal(ZeroD), Sep("."), Ver(MICRO)]
  {
    StepYYDot0DDotMICRO_0_1(l);
    FromYYDot0DDotMICRO_0_2(l);
  }

  lemma FromYYDot0DDotMICRO_0_0(l: string)
    requires l == "YY.0D.MICRO"
    ensures ValidTable(Builtins) && TokenizeFrom(Builtins, l, 0, 0) == [Cal(YY), Sep("."), Cal(ZeroD), Sep("."), Ver(MICRO)]
  {
    StepYYDot0DDotMICRO_0_0(l);
    FromYYDot0DDotMICRO_0_1(l);
  }

  /** tokenizeLayout("YY.0D.MICRO") */
  lemma TokenizeYYDot0DDotMICRO()
    ensures Tokenize("YY.0D.MICRO") == [Cal(YY), Sep("."), Cal(ZeroD), Sep("."), Ver(MICRO)]
  {
    FromYYDot0DDotMICRO_0_0("YY.0D.MICRO");
  }

  lemma StepYYYYDot0MDotMICRO_0_0(l: string)
    requires l == "YYYY.0M.MICRO"
    ensures ValidTable(Builtins) && TokenizeFrom(Builtins, l, 0, 0) == TokenizeFrom(Builtins, l, 0, 1)
  {
    assert l[0..1] == "Y";
    ScanY();
    SwitchStep(l, 0, 0, "Y", "", 2, None, None, Step([], 0, 1));
    TokenizeFromStep(Builtins, l, 0, 0);
  }

  lemma StepYYYYDot0MDotMICRO_0_1(l: string)
    requires l == "YYYY.0M.MICRO"
    ensures ValidTable(Builtins) && TokenizeFrom(Builtins, l, 0, 1) == TokenizeFrom(Builtins, l, 0, 2)
  {
    assert l[0..2] == "YY";
    ScanYY();
    SwitchStep(l, 0, 1, "YY", "Y", 2, Some(Cal(YY)), None, Step([], 0, 2));
    TokenizeFromStep(Builtins, l, 0, 1);
  }

  lemma StepYYYYDot0MDotMICRO_0_2(l: string)
    requires l == "YYYY.0M.MICRO"
    ensures ValidTable(Builtins) && TokenizeFrom(Builtins, l, 0, 2) == TokenizeFrom(Builtins, l, 0, 3)
  {
    assert l[0..3] == "YYY";
    ScanYYY();
    SwitchStep(l, 0, 2, "YYY", "YY", 1, None, Some(Cal(YY)), Step([], 0, 3));
    TokenizeFromStep(Builtins, l, 0, 2);
  }

  lemma StepYYYYDot0MDotMICRO_0_3(l: string)
    requires l == "YYYY.0M.MICRO"
    ensures ValidTable(Builtins) && TokenizeFrom(Builtins, l, 0, 3) == [Cal(YYYY)] + TokenizeFrom(Builtins, l, 4, 4)
  {
    assert l[0..4] == "YYYY";
    ScanYYYY();
    SwitchStep(l, 0, 3, "YYYY", "YYY", 1, Some(Cal(YYYY)), None, Step([Cal(YYYY)], 4, 4));
    TokenizeFromStep(Builtins, l, 0, 3);
  }

  lemma StepYYYYDot0MDotMICRO_4_4(l: string)
    requires l == "YYYY.0M.MICRO"
    ensures ValidTable(Builtins) && TokenizeFrom(Builtins, l, 4, 4) == [Sep(".")] + TokenizeFrom(Builtins, l, 5, 5)
  {
    assert l[4..5] == ".";
    ScanDot();
    SwitchStep(l, 4, 4, ".", "", 0, None, None, Step([Sep(".")], 5, 5));
    TokenizeFromStep(Builtins, l, 4, 4);
  }

  lemma StepYYYYDot0MDotMICRO_5_5(l: string)
    requires l == "YYYY.0M.MICRO"
    ensures ValidTable(Builtins) && TokenizeFrom(Builtins, l, 5, 5) == TokenizeFrom(Builtins, l, 5, 6)
  {
    assert l[5..6] == "0";
    ScanZero();
    SwitchStep(l, 5, 5, "0", "", 4, None, None, Step([], 5, 6));
    TokenizeFromStep(Builtins, l, 5, 5);
  }

  lemma StepYYYYDot0MDotMICRO_5_6(l: string)
    requires l == "YYYY.0M.MICRO"
    ensures ValidTable(Builtins) && TokenizeFrom(Builtins, l, 5, 6) == [Cal(ZeroM)] + TokenizeFrom(Builtins, l, 7, 7)
  {
    assert l[5..7] == "0M";
    ScanZeroM();
    SwitchStep(l, 5, 6, "0M", "0", 1, Some(Cal(ZeroM)), None, Step([Cal(ZeroM)], 7, 7));
    TokenizeFromStep(Builtins, l, 5, 6);
  }

  lemma StepYYYYDot0MDotMICRO_7_7(l: string)
    requires l == "YYYY.0M.MICRO"
    ensures ValidTable(Builtins) && TokenizeFrom(Builtins, l, 7, 7) == [Sep(".")] + TokenizeFrom(Builtins, l, 8, 8)
  {
    assert l[7..8] == ".";
    ScanDot();
    SwitchStep(l, 7, 7, ".", "", 0, None, None, Step([Sep(".")], 8, 8));
    TokenizeFromStep(Builtins, l, 7, 7);
  }

  lemma StepYYYYDot0MDotMICRO_8_8(l: string)
    requires l == "YYYY.0M.MICRO"
    ensures ValidTable(Builtins) && TokenizeFrom(Builtins, l, 8, 8) == TokenizeFrom(Builtins, l, 8, 9)
  {
    assert l[8..9] == "M";
    ScanM();
    SwitchStep(l, 8, 8, "M", "", 5, None, None, Step([], 8, 9));
    TokenizeFromStep(Builtins, l, 8, 8);
  }

  lemma StepYYYYDot0MDotMICRO_8_9(l: string)
    requires l == "YYYY.0M.MICRO"
    ensures ValidTable(Builtins) && TokenizeFrom(Builtins, l, 8, 9) == TokenizeFrom(Builtins, l, 8, 10)
  {
    assert l[8..10] == "MI";
    ScanMI();
    SwitchStep(l, 8, 9, "MI", "M", 2, None, None, Step([], 8, 10));
    TokenizeFromStep(Builtins, l, 8, 9);
  }

  lemma StepYYYYDot0MDotMICRO_8_10(l: string)
    requires l == "YYYY.0M.MICRO"
    ensures ValidTable(Builtins) && TokenizeFrom(Builtins, l, 8, 10) == TokenizeFrom(Builtins, l, 8, 11)
  {
    assert l[8..11] == "MIC";
    ScanMIC();
    SwitchStep(l, 8, 10, "MIC", "MI", 1, None, None, Step([], 8, 11));
    TokenizeFromStep(Builtins, l, 8, 10);
  }

  lemma StepYYYYDot0MDotMICRO_8_11(l: string)
    requires l == "YYYY.0M.MICRO"
    ensures ValidTable(Builtins) && TokenizeFrom(Builtins, l, 8, 11) == TokenizeFrom(Builtins, l, 8, 12)
  {
    assert l[8..12] == "MICR";
    ScanMICR();
    SwitchStep(l, 8, 11, "MICR", "MIC", 1, None, None, Step([], 8, 12));
    TokenizeFromStep(Builtins, l, 8, 11);
  }

  lemma StepYYYYDot0MDotMICRO_8_12(l: string)
    requires l == "YYYY.0M.MICRO"
    ensures ValidTable(Builtins) && TokenizeFrom(Builtins, l, 8, 12) == [Ver(MICRO)] + TokenizeFrom(Builtins, l, 13, 13)
  {
    assert l[8..13] == "MICRO";
    ScanMICRO();
    SwitchStep(l, 8, 12, "MICRO", "MICR", 1, Some(Ver(MICRO)), None, Step([Ver(MICRO)], 13, 13));
    TokenizeFromStep(Builtins, l, 8, 12);
  }

  lemma FromYYYYDot0MDotMICRO_8_12(l: string)
    requires l == "YYYY.0M.MICRO"
    ensures ValidTable(Builtins) && TokenizeFrom(Builtins, l, 8, 12) == [Ver(MICRO)]
  {
    StepYYYYDot0MDotMICRO_8_12(l);
    assert TokenizeFrom(Builtins, l, 13, 13) == [];
  }

  lemma FromYYYYDot0MDotMICRO_8_11(l: string)
    requires l == "YYYY.0M.MICRO"
    ensures ValidTable(Builtins) && TokenizeFrom(Builtins, l, 8, 11) == [Ver(MICRO)]
  {
    StepYYYYDot0MDotMICRO_8_11(l);
    FromYYYYDot0MDotMICRO_8_12(l);
  }

  lemma FromYYYYDot0MDotMICRO_8_10(l: string)
    requires l == "YYYY.0M.MICRO"
    ensures ValidTable(Builtins) && TokenizeFrom(Builtins, l, 8, 10) == [Ver(MICRO)]
  {
    StepYYYYDot0MDotMICRO_8_10(l);
    FromYYYYDot0MDotMICRO_8_11(l);
  }

  lemma FromYYYYDot0MDotMICRO_8_9(l: string)
    requires l == "YYYY.0M.MICRO"
    ensures ValidTable(Builtins) && TokenizeFrom(Builtins, l, 8, 9) == [Ver(MICRO)]
  {
    StepYYYYDot0MDotMICRO_8_9(l);
    FromYYYYDot0MDotMICRO_8_10(l);
  }

  lemma FromYYYYDot0MDotMICRO_8_8(l: string)
    requires l == "YYYY.0M.MICRO"
    ensures ValidTable(Builtins) && TokenizeFrom(Builtins, l, 8, 8) == [Ver(MICRO)]
  {
    StepYYYYDot0MDotMICRO_8_8(l);
    FromYYYYDot0MDotMICRO_8_9(l);
  }

  lemma FromYYYYDot0MDotMICRO_7_7(l: string)
    requires l == "YYYY.0M.MICRO"
    ensures ValidTable(Builtins) && TokenizeFrom(Builtins, l, 7, 7) == [Sep("."), Ver(MICRO)]
  {
    assert [Sep(".")] + [Ver(MICRO)] == [Sep("."), Ver(MICRO)];
    StepYYYYDot0MDotMICRO_7_7(l);
    FromYYYYDot0MDotMICRO_8_8(l);
  }

  lemma FromYYYYDot0MDotMICRO_5_6(l: string)
    requires l == "YYYY.0M.MICRO"
    ensures ValidTable(Builtins) && TokenizeFrom(Builtins, l, 5, 6) == [Cal(ZeroM), Sep("."), Ver(MICRO)]
  {
    assert [Cal(ZeroM)] + [Sep("."), Ver(MICRO)] == [Cal(ZeroM), Sep("."), Ver(MICRO)];
    StepYYYYDot0MDotMICRO_5_6(l);
    FromYYYYDot0MDotMICRO_7_7(l);
  }

  lemma FromYYYYDot0MDotMICRO_5_5(l: string)
    requires l == "YYYY.0M.MICRO"
    ensures ValidTable(Builtins) && TokenizeFrom(Builtins, l, 5, 5) == [Cal(ZeroM), Sep("."), Ver(MICRO)]
  {
    StepYYYYDot0MDotMICRO_5_5(l);
    FromYYYYDot0MDotMICRO_5_6(l);
  }

  lemma FromYYYYDot0MDotMICRO_4_4(l: string)
    requires l == "YYYY.0M.MICRO"
    ensures ValidTable(Builtins) && TokenizeFrom(Builtins, l, 4, 4) == [Sep("."), Cal(ZeroM), Sep("."), Ver(MICRO)]
  {
    assert [Sep(".")] + [Cal(ZeroM), Sep("."), Ver(MICRO)] == [Sep("."), Cal(ZeroM), Sep("."), Ver(MICRO)];
    StepYYYYDot0MDotMICRO_4_4(l);
    FromYYYYDot0MDotMICRO_5_5(l);
  }

  lemma FromYYYYDot0MDotMICRO_0_3(l: string)
    requires l == "YYYY.0M.MICRO"
    ensures ValidTable(Builtins) && TokenizeFrom(Builtins, l, 0, 3) == [Cal(YYYY), Sep("."), Cal(ZeroM), Sep("."), Ver(MICRO)]
  {
    assert [Cal(YYYY)] + [Sep("."), Cal(ZeroM), Sep("."), Ver(MICRO)] == [Cal(YYYY), Sep("."), Cal(ZeroM), Sep("."), Ver(MICRO)];
    StepYYYYDot0MDotMICRO_0_3(l);
    FromYYYYDot0MDotMICRO_4_4(l);
  }

  lemma FromYYYYDot0MDotMICRO_0_2(l: string)
    requires l == "YYYY.0M.MICRO"
    ensures ValidTable(Builtins) && TokenizeFrom(Builtins, l, 0, 2) == [Cal(YYYY), Sep("."), Cal(ZeroM), Sep("."), Ver(MICRO)]
  {
    StepYYYYDot0MDotMICRO_0_2(l);
    FromYYYYDot0MDotMICRO_0_3(l);
  }

  lemma FromYYYYDot0MDotMICRO_0_1(l: string)
    requires l == "YYYY.0M.MICRO"
    ensures ValidTable(Builtins) && TokenizeFrom(Builtins, l, 0, 1) == [Cal(YYYY), Sep("."), Cal(ZeroM), Sep("."), Ver(MICRO)]
  {
    StepYYYYDot0MDotMICRO_0_1(l);
    FromYYYYDot0MDotMICRO_0_2(l);
  }

  lemma FromYYYYDot0MDotMICRO_0_0(l: string)
    requires l == "YYYY.0M.MICRO"
    ensures ValidTable(Builtins) && TokenizeFrom(Builtins, l, 0, 0) == [Cal(YYYY), Sep("."), Cal(ZeroM), Sep("."), Ver(MICRO)]
  {
    StepYYYYDot0MDotMICRO_0_0(l);
    FromYYYYDot0MDotMICRO_0_1(l);
  }

  /** tokenizeLayout("YYYY.0M.MICRO") */
  lemma TokenizeYYYYDot0MDotMICRO()
    ensures Tokenize("YYYY.0M.MICRO") == [Cal(YYYY), Sep("."), Cal(ZeroM), Sep("."), Ver(MICRO)]
  {
    FromYYYYDot0MDotMICRO_0_0("YYYY.0M.MICRO");
  }

  lemma StepYYY_0_0(l: string)
    requires l == "YYY"
    ensures ValidTable(Builtins) && TokenizeFrom(Builtins, l, 0, 0) == TokenizeFrom(Builtins, l, 0, 1)
  {
    assert l[0..1] == "Y";
    ScanY();
    SwitchStep(l, 0, 0, "Y", "", 2, None, None, Step([], 0, 1));
    TokenizeFromStep(Builtins, l, 0, 0);
  }

  lemma StepYYY_0_1(l: string)
    requires l == "YYY"
    ensures ValidTable(Builtins) && TokenizeFrom(Builtins, l, 0, 1) == TokenizeFrom(Builtins, l, 0, 2)
  {
    assert l[0..2] == "YY";
    ScanYY();
    SwitchStep(l, 0, 1, "YY", "Y", 2, Some(Cal(YY)), None, Step([], 0, 2));
    TokenizeFromStep(Builtins, l, 0, 1);
  }

  lemma StepYYY_0_2(l: string)
    requires l == "YYY"
    ensures ValidTable(Builtins) && TokenizeFrom(Builtins, l, 0, 2) == [Cal(YY)] + TokenizeFrom(Builtins, l, 2, 2)
  {
    assert l[0..3] == "YYY";
    ScanYYY();
    SwitchStep(l, 0, 2, "YYY", "YY", 1, None, Some(Cal(YY)), Step([Cal(YY)], 2, 2));
    TokenizeFromStep(Builtins, l, 0, 2);
  }

  lemma StepYYY_2_2(l: string)
    requires l == "YYY"
    ensures ValidTable(Builtins) && TokenizeFrom(Builtins, l, 2, 2) == [Sep("Y")] + TokenizeFrom(Builtins, l, 2, 3)
  {
    assert l[2..3] == "Y";
    ScanY();
    SwitchStep(l, 2, 2, "Y", "", 2, None, None, Step([Sep("Y")], 2, 3));
    TokenizeFromStep(Builtins, l, 2, 2);
  }

  lemma FromYYY_2_2(l: string)
    requires l == "YYY"
    ensures ValidTable(Builtins) && TokenizeFrom(Builtins, l, 2, 2) == [Sep("Y")]
  {
    StepYYY_2_2(l);
    assert TokenizeFrom(Builtins, l, 2, 3) == [];
  }

  lemma FromYYY_0_2(l: string)
    requires l == "YYY"
    ensures ValidTable(Builtins) && TokenizeFrom(Builtins, l, 0, 2) == [Cal(YY), Sep("Y")]
  {
    assert [Cal(YY)] + [Sep("Y")] == [Cal(YY), Sep("Y")];
    StepYYY_0_2(l);
    FromYYY_2_2(l);
  }

  lemma FromYYY_0_1(l: string)
    requires l == "YYY"
    ensures ValidTable(Builtins) && TokenizeFrom(Builtins, l, 0, 1) == [Cal(YY), Sep("Y")]
  {
    StepYYY_0_1(l);
    FromYYY_0_2(l);
  }

  lemma FromYYY_0_0(l: string)
    requires l == "YYY"
    ensures ValidTable(Builtins) && TokenizeFrom(Builtins, l, 0, 0) == [Cal(YY), Sep("Y")]
  {
    StepYYY_0_0(l);
    FromYYY_0_1(l);
  }

  /** tokenizeLayout("YYY") */
  lemma TokenizeYYY()
    ensures Tokenize("YYY") == [Cal(YY), Sep("Y")]
  {
    FromYYY_0_0("YYY");
  }

}
