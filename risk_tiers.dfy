/** The three risk tiers, the comprehensions that fill them, and the style each tier is drawn in. */
module RiskTiers {
  import opened RiskRecords
  import opened RiskOrder

  datatype Tier = High | Medium | Low

  /** The conditions of the three list comprehensions `high_risks`, `medium_risks`, `low_risks`. */
  predicate InHigh(v: real) { v >= 5.0 }
  predicate InMedium(v: real) { 3.5 <= v < 5.0 }
  predicate InLow(v: real) { v < 3.5 }

  predicate Admits(t: Tier, v: real)
  {
    match t
    case High => InHigh(v)
    case Medium => InMedium(v)
    case Low => InLow(v)
  }

  /** The one tier whose comprehension takes a record of value v. */
  function TierOf(v: real): (t: Tier)
    ensures Admits(t, v)
    ensures forall u: Tier :: Admits(u, v) ==> u == t
  {
    if InHigh(v) then High else if InMedium(v) then Medium else Low
  }

  /** Position of a tier left to right on the chart. */
  function Rank(t: Tier): nat
  {
    match t
    case High => 0
    case Medium => 1
    case Low => 2
  }

  /** `[r for r in c if <condition of t>]` */
  function Select(c: seq<Risk>, t: Tier): (sel: seq<Risk>)
    ensures |sel| <= |c|
    ensures forall k :: 0 <= k < |sel| ==> Admits(t, sel[k].value)
  {
    if c == [] then []
    else if Admits(t, c[0].value) then [c[0]] + Select(c[1..], t)
    else Select(c[1..], t)
  }

  /** Every record lands in exactly one tier: the lengths add up and nothing is lost or duplicated. */
  lemma {:induction false} TiersPartition(c: seq<Risk>)
    ensures |Select(c, High)| + |Select(c, Medium)| + |Select(c, Low)| == |c|
    ensures multiset(Select(c, High)) + multiset(Select(c, Medium)) + multiset(Select(c, Low)) == multiset(c)
  {
    if c != [] {
      var x, rest := c[0], c[1..];
      TiersPartition(rest);
      assert c == [x] + rest;
      assert multiset(c) == multiset{x} + multiset(rest);
    }
  }

  /** A record is in tier t's list exactly when it is in c and TierOf puts it in t. */
  lemma {:induction false} SelectMembers(c: seq<Risk>, t: Tier)
    ensures forall r :: r in Select(c, t) <==> r in c && TierOf(r.value) == t
  {
    if c != [] {
      SelectMembers(c[1..], t);
      assert c == [c[0]] + c[1..];
      assert Admits(t, c[0].value) <==> TierOf(c[0].value) == t;
    }
  }

  lemma {:induction false} SelectNone(c: seq<Risk>, t: Tier)
    requires forall r :: r in c ==> !Admits(t, r.value)
    ensures Select(c, t) == []
  {
    if c != [] {
      assert c[0] in c;
      SelectNone(c[1..], t);
    }
  }

  lemma HeadIsLargest(c: seq<Risk>)
    requires NonIncreasing(c) && c != []
    ensures NonIncreasing(c[1..])
    ensures forall r :: r in c[1..] ==> r.value <= c[0].value
  {
    forall r | r in c[1..] ensures r.value <= c[0].value {
      var i :| 0 <= i < |c[1..]| && c[1..][i] == r;
      assert c[i + 1] == r;
    }
  }

  /** On the sorted list the tiers are consecutive runs: HIGH, then MEDIUM, then LOW,
      each in the order of `combined`. */
  lemma {:induction false} SortedSplit(c: seq<Risk>)
    requires NonIncreasing(c)
    ensures Select(c, High) + Select(c, Medium) + Select(c, Low) == c
  {
    if c != [] {
      var rest := c[1..];
      HeadIsLargest(c);
      SortedSplit(rest);
      if !InHigh(c[0].value) {
        SelectNone(rest, High);
      }
      if InLow(c[0].value) {
        SelectNone(rest, Medium);
      }
      SplitCons(c);
    }
  }

  /** One step of SortedSplit: the head joins its own tier's run, which is the first
      non-empty run of the rest. */
  lemma SplitCons(c: seq<Risk>)
    requires c != []
    requires Select(c[1..], High) + Select(c[1..], Medium) + Select(c[1..], Low) == c[1..]
    requires !InHigh(c[0].value) ==> Select(c[1..], High) == []
    requires InLow(c[0].value) ==> Select(c[1..], Medium) == []
    ensures Select(c, High) + Select(c, Medium) + Select(c, Low) == c
  {
    var x, rest := c[0], c[1..];
    HeadTail(c);
    Regroup(x, rest, Select(c, High), Select(c, Medium), Select(c, Low),
            Select(rest, High), Select(rest, Medium), Select(rest, Low), InHigh(x.value), InLow(x.value));
  }

  /** The sequence algebra of SplitCons: the head goes to the front of its own run. */
  lemma Regroup(x: Risk, rest: seq<Risk>, h: seq<Risk>, m: seq<Risk>, l: seq<Risk>,
                sh: seq<Risk>, sm: seq<Risk>, sl: seq<Risk>, inHigh: bool, inLow: bool)
    requires sh + sm + sl == rest
    requires !inHigh ==> sh == []
    requires inLow ==> sm == []
    requires h == (if inHigh then [x] + sh else sh)
    requires m == (if !inHigh && !inLow then [x] + sm else sm)
    requires l == (if inLow && !inHigh then [x] + sl else sl)
    ensures h + m + l == [x] + rest
  {
    if inHigh {
      assert ([x] + sh) + sm + sl == [x] + (sh + sm + sl);
    } else if inLow {
      assert [] + sm + ([x] + sl) == [x] + (sm + sl);
    } else {
      assert [] + ([x] + sm) + sl == [x] + (sm + sl);
    }
  }

  lemma HeadTail(c: seq<Risk>)
    requires c != []
    ensures [c[0]] + c[1..] == c
  {
  }

  /** Along a sorted list the tier never moves back toward HIGH. */
  lemma SortedTiersOrdered(c: seq<Risk>, i: nat, j: nat)
    requires NonIncreasing(c)
    requires i <= j < |c|
    ensures Rank(TierOf(c[i].value)) <= Rank(TierOf(c[j].value))
  {
  }

  const HighColor: string := "#FF6B6B"
  const MediumColor: string := "#FFD166"
  const LowColor: string := "#06D6A0"

  /** Bubble fill colour of each tier (secondrisk.py lines 50, 59, 68). */
  function TierColor(t: Tier): string
  {
    match t
    case High => HighColor
    case Medium => MediumColor
    case Low => LowColor
  }

  /** Bubble area of each tier. */
  function TierSize(t: Tier): int
  {
    match t
    case High => 2000
    case Medium => 1500
    case Low => 1000
  }

  /** Column of each tier on the bubble chart. */
  function TierColumn(t: Tier): int
  {
    match t
    case High => 1
    case Medium => 2
    case Low => 3
  }

  /** The three colours are distinct, so a colour names its tier. */
  lemma ColorNamesTier(t: Tier, u: Tier)
    ensures TierColor(t) == TierColor(u) <==> t == u
  {
    assert HighColor[3] != MediumColor[3];
    assert HighColor[1] != LowColor[1];
    assert MediumColor[1] != LowColor[1];
  }

  /** The separate if/elif chain that colours a commentary entry. It agrees with the
      tier the comprehensions put the record in. */
  function CommentColor(v: real): (c: string)
    ensures c == TierColor(TierOf(v))
  {
    if v >= 5.0 then HighColor else if v >= 3.5 then MediumColor else LowColor
  }

  /** Red exactly for HIGH, yellow exactly for MEDIUM, green exactly for LOW. */
  lemma CommentColorExact(v: real)
    ensures CommentColor(v) == HighColor <==> InHigh(v)
    ensures CommentColor(v) == MediumColor <==> InMedium(v)
    ensures CommentColor(v) == LowColor <==> InLow(v)
  {
    var t := TierOf(v);
    ColorNamesTier(t, High);
    ColorNamesTier(t, Medium);
    ColorNamesTier(t, Low);
  }
}
