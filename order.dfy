/**
 * Calvers.Sort and Calvers.Latest of calver.go: the comparator the package
 * sorts with, the strict rank order it refines, the in-place insertion sort
 * and the choice of the newest version.
 */
module Ordering {
  import opened Results
  import opened Clock
  import opened Versions
  import opened Bumping

  /**
   * Go's `>` on strings, read from the right-hand side: a before b in byte-wise
   * lexicographic order. Code-point order on characters agrees with the byte
   * order of their UTF-8 encodings.
   */
  predicate StrLess(a: string, b: string) {
    if b == [] then false
    else if a == [] then true
    else if a[0] != b[0] then a[0] < b[0]
    else StrLess(a[1..], b[1..])
  }

  lemma {:induction false} StrLessIrreflexive(a: string)
    ensures !StrLess(a, a)
  {
    if a != [] {
      StrLessIrreflexive(a[1..]);
    }
  }

  lemma {:induction false} StrLessTransitive(a: string, b: string, c: string)
    requires StrLess(a, b) && StrLess(b, c)
    ensures StrLess(a, c)
  {
    if a != [] && a[0] == b[0] && b[0] == c[0] {
      StrLessTransitive(a[1..], b[1..], c[1..]);
    }
  }

  /** Two different strings are ordered one way or the other, and never both ways. */
  lemma {:induction false} StrLessTotal(a: string, b: string)
    ensures a != b ==> StrLess(a, b) || StrLess(b, a)
    ensures !(StrLess(a, b) && StrLess(b, a))
  {
    if a != [] && b != [] && a[0] == b[0] {
      StrLessTotal(a[1..], b[1..]);
      assert a == [a[0]] + a[1..] && b == [b[0]] + b[1..];
    }
  }

  /**
   * The comparator of Sort as written: a goes before b when it is later in time,
   * then has the higher major, minor, micro; on a full tie an empty modifier
   * goes first, and otherwise the greater modifier does.
   */
  predicate Ahead(a: Calver, b: Calver) {
    if a.ts.unixNano != b.ts.unixNano then a.ts.unixNano > b.ts.unixNano
    else if a.major != b.major then a.major > b.major
    else if a.minor != b.minor then a.minor > b.minor
    else if a.micro != b.micro then a.micro > b.micro
    else if a.modifier == "" then true
    else if b.modifier == "" then false
    else StrLess(b.modifier, a.modifier)
  }

  /** A release outranks any pre-release; of two modifiers the greater does. */
  predicate ModifierOutranks(x: string, y: string) {
    x != y && (x == "" || (y != "" && StrLess(y, x)))
  }

  /** The rank order of versions: lexicographic on time, major, minor, micro, modifier, each descending. */
  predicate Outranks(a: Calver, b: Calver) {
    || a.ts.unixNano > b.ts.unixNano
    || (a.ts.unixNano == b.ts.unixNano &&
         (|| a.major > b.major
          || (a.major == b.major &&
               (|| a.minor > b.minor
                || (a.minor == b.minor &&
                     (|| a.micro > b.micro
                      || (a.micro == b.micro && ModifierOutranks(a.modifier, b.modifier))))))))
  }

  /** Equal in every field the comparator looks at. */
  predicate SameRank(a: Calver, b: Calver) {
    && a.ts.unixNano == b.ts.unixNano && a.major == b.major && a.minor == b.minor
    && a.micro == b.micro && a.modifier == b.modifier
  }

  /** a may come before b in a sorted list: b does not outrank a. */
  predicate AtLeast(a: Calver, b: Calver) {
    !Outranks(b, a)
  }

  /**
   * The comparator as written is the rank order plus one extra case: two
   * versions of the same rank with an empty modifier are each ahead of the
   * other, so the comparator is not a strict order.
   */
  lemma AheadIsRankOrFullTie(a: Calver, b: Calver)
    ensures Ahead(a, b) <==> Outranks(a, b) || (SameRank(a, b) && a.modifier == "")
  {
    if a.modifier != "" && b.modifier != "" && a.modifier == b.modifier {
      StrLessIrreflexive(a.modifier);
    }
  }

  lemma OutranksAsymmetric(a: Calver, b: Calver)
    ensures !(Outranks(a, b) && Outranks(b, a))
    ensures !Outranks(a, a)
  {
    StrLessTotal(a.modifier, b.modifier);
    StrLessIrreflexive(a.modifier);
  }

  lemma OutranksTransitive(a: Calver, b: Calver, c: Calver)
    requires Outranks(a, b) && Outranks(b, c)
    ensures Outranks(a, c)
  {
    if ModifierOutranks(a.modifier, b.modifier) && ModifierOutranks(b.modifier, c.modifier) {
      ModifierOutranksTransitive(a.modifier, b.modifier, c.modifier);
    }
  }

  lemma ModifierOutranksTransitive(x: string, y: string, z: string)
    requires ModifierOutranks(x, y) && ModifierOutranks(y, z)
    ensures ModifierOutranks(x, z)
  {
    if x != "" {
      StrLessTransitive(z, y, x);
      StrLessIrreflexive(x);
    }
  }

  /** Versions of different rank are ordered one way or the other. */
  lemma OutranksTotal(a: Calver, b: Calver)
    ensures SameRank(a, b) || Outranks(a, b) || Outranks(b, a)
  {
    StrLessTotal(a.modifier, b.modifier);
  }

  /** AtLeast is a total preorder: total and transitive. */
  lemma AtLeastPreorder(a: Calver, b: Calver, c: Calver)
    ensures AtLeast(a, b) || AtLeast(b, a)
    ensures AtLeast(a, b) && AtLeast(b, c) ==> AtLeast(a, c)
  {
    OutranksAsymmetric(a, b);
    if AtLeast(a, b) && AtLeast(b, c) && Outranks(c, a) {
      OutranksTotal(c, b);
      if Outranks(b, c) {
        OutranksTransitive(b, c, a);
      }
    }
  }

  /** Every version is ranked no lower than the ones after it. */
  predicate Sorted(s: seq<Calver>) {
    forall i, j :: 0 <= i < j < |s| ==> AtLeast(s[i], s[j])
  }

  /** Neighbours in order. */
  predicate Chained(s: seq<Calver>) {
    forall k :: 0 < k < |s| ==> AtLeast(s[k - 1], s[k])
  }

  /** Ordered neighbours make an ordered sequence. */
  lemma {:induction false} ChainedSorted(s: seq<Calver>)
    requires Chained(s)
    ensures Sorted(s)
  {
    if |s| > 1 {
      var t := s[1..];
      assert Chained(t);
      ChainedSorted(t);
      forall j | 1 < j < |s|
        ensures AtLeast(s[0], s[j])
      {
        assert AtLeast(s[1], s[j]) by { assert s[1] == t[0] && s[j] == t[j - 1]; }
        AtLeastPreorder(s[0], s[1], s[j]);
      }
      assert forall i, j :: 1 <= i < j < |s| ==> s[i] == t[i - 1] && s[j] == t[j - 1];
    }
  }

  /**
   * Calvers.Sort as the package's stable sort runs it on a short slice: an
   * insertion sort that moves each version left past every neighbour the
   * comparator puts behind it. The result is ordered by rank and holds the same
   * versions.
   */
  method Sort(a: array<Calver>)
    modifies a
    ensures Sorted(a[..])
    ensures multiset(a[..]) == multiset(old(a[..]))
  {
    if a.Length == 0 {
      return;
    }
    for i := 1 to a.Length
      invariant Chained(a[..i])
      invariant multiset(a[..]) == multiset(old(a[..]))
    {
      Insert(a, i);
    }
    ChainedSorted(a[..]);
  }

  /**
   * One pass of the insertion sort: a[i] is swapped left while the comparator
   * puts it ahead of its left neighbour. With a[..i] in order, a[..i + 1] is.
   */
  method Insert(a: array<Calver>, i: nat)
    requires 0 < i < a.Length && Chained(a[..i])
    modifies a
    ensures Chained(a[..i + 1])
    ensures multiset(a[..]) == multiset(old(a[..]))
  {
    var j := i;
    while j > 0 && Ahead(a[j], a[j - 1])
      invariant 0 <= j <= i
      invariant Inserting(a[..], i, j)
      invariant multiset(a[..]) == multiset(old(a[..]))
    {
      ghost var s := a[..];
      SwapLeft(a, j);
      SwapKeepsInserting(s, a[..], i, j);
      j := j - 1;
    }
    InsertingDone(a[..], i, j);
  }

  /** Exchanges a[j] with its left neighbour; the versions held stay the same. */
  method SwapLeft(a: array<Calver>, j: nat)
    requires 0 < j < a.Length
    modifies a
    ensures a[..] == old(a[..])[j - 1 := old(a[j])][j := old(a[j - 1])]
    ensures multiset(a[..]) == multiset(old(a[..]))
  {
    a[j], a[j - 1] := a[j - 1], a[j];
  }

  /**
   * The state of an insertion pass with the moving version at j: every pair of
   * neighbours up to i is in order except the one j closes, and j's neighbours
   * are in order with each other.
   */
  predicate Inserting(s: seq<Calver>, i: nat, j: nat) {
    && j <= i < |s|
    && (forall k :: 0 < k <= i && k != j ==> AtLeast(s[k - 1], s[k]))
    && (0 < j < i ==> AtLeast(s[j - 1], s[j + 1]))
  }

  /** Swapping the moving version with a left neighbour it is ahead of keeps the pass in shape. */
  lemma SwapKeepsInserting(s: seq<Calver>, t: seq<Calver>, i: nat, j: nat)
    requires 0 < j && Inserting(s, i, j) && Ahead(s[j], s[j - 1])
    requires t == s[j - 1 := s[j]][j := s[j - 1]]
    ensures Inserting(t, i, j - 1)
  {
    AheadIsRankOrFullTie(s[j], s[j - 1]);
    OutranksAsymmetric(s[j], s[j - 1]);
    assert AtLeast(t[j - 1], t[j]);
  }

  /** The pass stops at the front or behind a neighbour that is not behind it: then a[..i + 1] is in order. */
  lemma InsertingDone(s: seq<Calver>, i: nat, j: nat)
    requires Inserting(s, i, j)
    requires j > 0 ==> !Ahead(s[j], s[j - 1])
    ensures Chained(s[..i + 1])
  {
    if j > 0 {
      AheadIsRankOrFullTie(s[j], s[j - 1]);
    }
  }

  /**
   * Calvers.Latest: no versions is an error; otherwise the slice is sorted in
   * place and its first version, one no other outranks, is returned.
   */
  method Latest(a: array<Calver>) returns (r: Result<Calver>)
    modifies a
    ensures r.Err? <==> a.Length == 0
    ensures r.Err? ==> r.error == NoVersions
    ensures r.Ok? ==> r.value == a[0] && r.value in multiset(old(a[..]))
    ensures r.Ok? ==> forall i :: 0 <= i < a.Length ==> AtLeast(r.value, a[i])
    ensures multiset(a[..]) == multiset(old(a[..]))
  {
    if a.Length == 0 {
      return Err(NoVersions);
    }
    Sort(a);
    assert a[0] in a[..];
    forall i | 0 < i < a.Length
      ensures AtLeast(a[0], a[i])
    {
      assert a[..][0] == a[0] && a[..][i] == a[i];
    }
    OutranksAsymmetric(a[0], a[0]);
    return Ok(a[0]);
  }

  /** A successful NextWithTime always ranks strictly ahead of the version it came from. */
  lemma NextOutranks(cal: Calendar, cv: Calver, now: Time)
    requires NextWithTime(cal, cv, now).Ok?
    ensures Outranks(NextWithTime(cal, cv, now).value, cv)
  {
    if now.unixNano == cv.ts.unixNano {
      RenderSameInstant(cal, cv, now);
    }
  }

  /** Each bump ranks the new version strictly ahead of the old. */
  lemma BumpsOutrank(cv: Calver, m: string)
    ensures Major(cv).Ok? ==> Outranks(Major(cv).value, cv)
    ensures Minor(cv).Ok? ==> Outranks(Minor(cv).value, cv)
    ensures Micro(cv).Ok? ==> Outranks(Micro(cv).value, cv)
    ensures Modifier(cv, m).Ok? && cv.modifier != "" && m == "" ==> Outranks(Modifier(cv, m).value, cv)
  {
  }
}
