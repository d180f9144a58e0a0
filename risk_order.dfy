/** The ordering step: `sorted(..., key=value, reverse=True)`, which is stable. */
module RiskOrder {
  import opened RiskRecords

  /** No record is followed by one with a larger value. */
  predicate NonIncreasing(s: seq<Risk>)
  {
    forall i, j :: 0 <= i < j < |s| ==> s[i].value >= s[j].value
  }

  /** The records of s whose value is exactly v, in their order in s. */
  function WithValue(s: seq<Risk>, v: real): seq<Risk>
  {
    if s == [] then []
    else if s[0].value == v then [s[0]] + WithValue(s[1..], v)
    else WithValue(s[1..], v)
  }

  /** Puts x in front of the first record whose value is not larger than x's,
      so x stays ahead of every record with an equal value. */
  function Insert(x: Risk, s: seq<Risk>): (r: seq<Risk>)
    ensures |r| == |s| + 1
  {
    if s == [] || s[0].value <= x.value then [x] + s
    else [s[0]] + Insert(x, s[1..])
  }

  /** The list `combined`: the records by value, largest first, ties in input order. */
  function SortDesc(s: seq<Risk>): (r: seq<Risk>)
    ensures |r| == |s|
  {
    if s == [] then [] else Insert(s[0], SortDesc(s[1..]))
  }

  lemma {:induction false} InsertPermutes(x: Risk, s: seq<Risk>)
    ensures multiset(Insert(x, s)) == multiset(s) + multiset{x}
  {
    if s == [] || s[0].value <= x.value {
    } else {
      InsertPermutes(x, s[1..]);
      assert s == [s[0]] + s[1..];
    }
  }

  /** A record no smaller than every record of a non-increasing list can lead it. */
  lemma ConsNonIncreasing(x: Risk, s: seq<Risk>)
    requires NonIncreasing(s)
    requires forall k :: 0 <= k < |s| ==> s[k].value <= x.value
    ensures NonIncreasing([x] + s)
  {
  }

  /** Inserting below a bound keeps every record below it. */
  lemma {:induction false} InsertBelow(x: Risk, s: seq<Risk>, b: real)
    requires x.value <= b
    requires forall k :: 0 <= k < |s| ==> s[k].value <= b
    ensures forall k :: 0 <= k < |Insert(x, s)| ==> Insert(x, s)[k].value <= b
  {
    if s != [] && s[0].value > x.value {
      InsertBelow(x, s[1..], b);
    }
  }

  lemma {:induction false} InsertKeepsOrder(x: Risk, s: seq<Risk>)
    requires NonIncreasing(s)
    ensures NonIncreasing(Insert(x, s))
  {
    if s == [] || s[0].value <= x.value {
      ConsNonIncreasing(x, s);
    } else {
      InsertKeepsOrder(x, s[1..]);
      InsertBelow(x, s[1..], s[0].value);
      ConsNonIncreasing(s[0], Insert(x, s[1..]));
    }
  }

  lemma {:induction false} InsertWithValue(x: Risk, s: seq<Risk>, v: real)
    ensures x.value == v ==> WithValue(Insert(x, s), v) == [x] + WithValue(s, v)
    ensures x.value != v ==> WithValue(Insert(x, s), v) == WithValue(s, v)
  {
    if s == [] || s[0].value <= x.value {
      assert ([x] + s)[1..] == s;
    } else {
      var rest := Insert(x, s[1..]);
      assert ([s[0]] + rest)[1..] == rest;
      InsertWithValue(x, s[1..], v);
    }
  }

  /** `combined` holds exactly the input records. */
  lemma {:induction false} SortPermutes(s: seq<Risk>)
    ensures multiset(SortDesc(s)) == multiset(s)
    ensures |SortDesc(s)| == |s|
  {
    if s != [] {
      SortPermutes(s[1..]);
      InsertPermutes(s[0], SortDesc(s[1..]));
      assert s == [s[0]] + s[1..];
      assert |multiset(SortDesc(s))| == |multiset(s)|;
    }
  }

  /** `combined` is ordered by value, largest first. */
  lemma {:induction false} SortOrders(s: seq<Risk>)
    ensures NonIncreasing(SortDesc(s))
  {
    if s != [] {
      SortOrders(s[1..]);
      InsertKeepsOrder(s[0], SortDesc(s[1..]));
    }
  }

  /** The sort is stable: records of equal value keep their input order. */
  lemma {:induction false} SortStable(s: seq<Risk>, v: real)
    ensures WithValue(SortDesc(s), v) == WithValue(s, v)
  {
    if s != [] {
      SortStable(s[1..], v);
      InsertWithValue(s[0], SortDesc(s[1..]), v);
    }
  }
}
