/** The bubble panel: the three loops that fill the parallel lists `x_pos`, `y_pos`,
    `colors`, `sizes`, `labels`, `values`, the loop that places the text on the bubbles,
    and the upper y-limit of the panel. */
module BubbleLayout {
  import opened RiskRecords
  import opened RiskTiers

  /** One entry of the six parallel lists. */
  datatype Bubble = Bubble(x: int, y: real, color: string, size: int, name: string, value: real)

  /** How far a tier's column is raised, proportionally to the number of HIGH records. */
  function Offset(t: Tier, nHigh: nat): real
  {
    match t
    case High => 0.0
    case Medium => nHigh as real * 0.2
    case Low => nHigh as real * 0.4
  }

  /** The bubble drawn for the k-th record r of tier t: it depends only on t, k and the
      size of the HIGH tier, apart from the record's own name and value. */
  function Place(t: Tier, k: nat, nHigh: nat, r: Risk): Bubble
  {
    Bubble(TierColumn(t), (k + 1) as real + Offset(t, nHigh), TierColor(t), TierSize(t), r.name, r.value)
  }

  function TierBubbles(t: Tier, rs: seq<Risk>, nHigh: nat): seq<Bubble>
  {
    seq(|rs|, k requires 0 <= k < |rs| => Place(t, k, nHigh, rs[k]))
  }

  /** All bubbles, HIGH first, then MEDIUM, then LOW. */
  function Bubbles(high: seq<Risk>, medium: seq<Risk>, low: seq<Risk>): seq<Bubble>
  {
    TierBubbles(High, high, |high|) + TierBubbles(Medium, medium, |high|) + TierBubbles(Low, low, |high|)
  }

  /** Bubble j is the (j - start)-th of the tier whose run covers index j. */
  lemma BubbleAt(high: seq<Risk>, medium: seq<Risk>, low: seq<Risk>, j: nat)
    requires j < |high| + |medium| + |low|
    ensures var h, m, bs := |high|, |medium|, Bubbles(high, medium, low);
      |bs| == |high| + |medium| + |low| &&
      (j < h ==> bs[j] == Place(High, j, h, high[j])) &&
      (h <= j < h + m ==> bs[j] == Place(Medium, j - h, h, medium[j - h])) &&
      (h + m <= j ==> bs[j] == Place(Low, j - h - m, h, low[j - h - m]))
  {
  }

  /** The six parallel lists hold, index by index, the fields of the first n bubbles of bs. */
  predicate UnzippedUpTo(bs: seq<Bubble>, n: nat, xPos: seq<int>, yPos: seq<real>, colors: seq<string>,
                         sizes: seq<int>, labels: seq<string>, values: seq<real>)
  {
    n <= |bs| &&
    |xPos| == n && |yPos| == n && |colors| == n && |sizes| == n && |labels| == n && |values| == n &&
    forall j :: 0 <= j < n ==>
      xPos[j] == bs[j].x && yPos[j] == bs[j].y && colors[j] == bs[j].color &&
      sizes[j] == bs[j].size && labels[j] == bs[j].name && values[j] == bs[j].value
  }

  /** The six parallel lists hold, index by index, the fields of bs. */
  predicate Unzipped(bs: seq<Bubble>, xPos: seq<int>, yPos: seq<real>, colors: seq<string>,
                     sizes: seq<int>, labels: seq<string>, values: seq<real>)
  {
    UnzippedUpTo(bs, |bs|, xPos, yPos, colors, sizes, labels, values)
  }

  /** Appending bubble n's fields to lists that hold the bubbles before n. */
  lemma UnzippedStep(bs: seq<Bubble>, n: nat, xPos: seq<int>, yPos: seq<real>, colors: seq<string>,
                     sizes: seq<int>, labels: seq<string>, values: seq<real>)
    requires n < |bs| && UnzippedUpTo(bs, n, xPos, yPos, colors, sizes, labels, values)
    ensures UnzippedUpTo(bs, n + 1, xPos + [bs[n].x], yPos + [bs[n].y], colors + [bs[n].color],
                         sizes + [bs[n].size], labels + [bs[n].name], values + [bs[n].value])
  {
  }

  /** The HIGH loop: column 1, slots 1, 2, ..., red, size 2000. */
  method AppendHigh(high: seq<Risk>, ghost done: seq<Bubble>,
                    xPos0: seq<int>, yPos0: seq<real>, colors0: seq<string>,
                    sizes0: seq<int>, labels0: seq<string>, values0: seq<real>)
    returns (xPos: seq<int>, yPos: seq<real>, colors: seq<string>, sizes: seq<int>,
             labels: seq<string>, values: seq<real>)
    requires Unzipped(done, xPos0, yPos0, colors0, sizes0, labels0, values0)
    ensures Unzipped(done + TierBubbles(High, high, |high|), xPos, yPos, colors, sizes, labels, values)
  {
    ghost var bs := done + TierBubbles(High, high, |high|);
    xPos, yPos, colors, sizes, labels, values := xPos0, yPos0, colors0, sizes0, labels0, values0;
    for i := 0 to |high|
      invariant UnzippedUpTo(bs, |done| + i, xPos, yPos, colors, sizes, labels, values)
    {
      var r := high[i];
      assert bs[|done| + i] == Place(High, i, |high|, r);
      UnzippedStep(bs, |done| + i, xPos, yPos, colors, sizes, labels, values);
      xPos := xPos + [1];
      yPos := yPos + [(i + 1) as real];
      colors := colors + [HighColor];
      sizes := sizes + [2000];
      labels := labels + [r.name];
      values := values + [r.value];
    }
  }

  /** The MEDIUM loop: column 2, slots raised by 0.2 per HIGH record, yellow, size 1500. */
  method AppendMedium(medium: seq<Risk>, nHigh: nat, ghost done: seq<Bubble>,
                      xPos0: seq<int>, yPos0: seq<real>, colors0: seq<string>,
                      sizes0: seq<int>, labels0: seq<string>, values0: seq<real>)
    returns (xPos: seq<int>, yPos: seq<real>, colors: seq<string>, sizes: seq<int>,
             labels: seq<string>, values: seq<real>)
    requires Unzipped(done, xPos0, yPos0, colors0, sizes0, labels0, values0)
    ensures Unzipped(done + TierBubbles(Medium, medium, nHigh), xPos, yPos, colors, sizes, labels, values)
  {
    ghost var bs := done + TierBubbles(Medium, medium, nHigh);
    xPos, yPos, colors, sizes, labels, values := xPos0, yPos0, colors0, sizes0, labels0, values0;
    for i := 0 to |medium|
      invariant UnzippedUpTo(bs, |done| + i, xPos, yPos, colors, sizes, labels, values)
    {
      var r := medium[i];
      assert bs[|done| + i] == Place(Medium, i, nHigh, r);
      UnzippedStep(bs, |done| + i, xPos, yPos, colors, sizes, labels, values);
      xPos := xPos + [2];
      yPos := yPos + [(i + 1) as real + nHigh as real * 0.2];
      colors := colors + [MediumColor];
      sizes := sizes + [1500];
      labels := labels + [r.name];
      values := values + [r.value];
    }
  }

  /** The LOW loop: column 3, slots raised by 0.4 per HIGH record, green, size 1000. */
  method AppendLow(low: seq<Risk>, nHigh: nat, ghost done: seq<Bubble>,
                   xPos0: seq<int>, yPos0: seq<real>, colors0: seq<string>,
                   sizes0: seq<int>, labels0: seq<string>, values0: seq<real>)
    returns (xPos: seq<int>, yPos: seq<real>, colors: seq<string>, sizes: seq<int>,
             labels: seq<string>, values: seq<real>)
    requires Unzipped(done, xPos0, yPos0, colors0, sizes0, labels0, values0)
    ensures Unzipped(done + TierBubbles(Low, low, nHigh), xPos, yPos, colors, sizes, labels, values)
  {
    ghost var bs := done + TierBubbles(Low, low, nHigh);
    xPos, yPos, colors, sizes, labels, values := xPos0, yPos0, colors0, sizes0, labels0, values0;
    for i := 0 to |low|
      invariant UnzippedUpTo(bs, |done| + i, xPos, yPos, colors, sizes, labels, values)
    {
      var r := low[i];
      assert bs[|done| + i] == Place(Low, i, nHigh, r);
      UnzippedStep(bs, |done| + i, xPos, yPos, colors, sizes, labels, values);
      xPos := xPos + [3];
      yPos := yPos + [(i + 1) as real + nHigh as real * 0.4];
      colors := colors + [LowColor];
      sizes := sizes + [1000];
      labels := labels + [r.name];
      values := values + [r.value];
    }
  }

  /** The three loops in turn, starting from six empty lists. */
  method LayOutBubbles(high: seq<Risk>, medium: seq<Risk>, low: seq<Risk>)
    returns (xPos: seq<int>, yPos: seq<real>, colors: seq<string>, sizes: seq<int>,
             labels: seq<string>, values: seq<real>)
    ensures Unzipped(Bubbles(high, medium, low), xPos, yPos, colors, sizes, labels, values)
  {
    ghost var hs := TierBubbles(High, high, |high|);
    ghost var ms := TierBubbles(Medium, medium, |high|);
    xPos, yPos, colors, sizes, labels, values := AppendHigh(high, [], [], [], [], [], [], []);
    assert [] + hs == hs;
    xPos, yPos, colors, sizes, labels, values :=
      AppendMedium(medium, |high|, hs, xPos, yPos, colors, sizes, labels, values);
    xPos, yPos, colors, sizes, labels, values :=
      AppendLow(low, |high|, hs + ms, xPos, yPos, colors, sizes, labels, values);
  }

  /** Two bubbles never share a position: they stand in different columns, or the later
      one stands higher in the same column. */
  lemma BubblesApart(high: seq<Risk>, medium: seq<Risk>, low: seq<Risk>, i: nat, j: nat)
    requires i < j < |Bubbles(high, medium, low)|
    ensures var bs := Bubbles(high, medium, low);
      bs[i].x != bs[j].x || bs[i].y < bs[j].y
  {
    var h, m := |high|, |medium|;
    var bs := Bubbles(high, medium, low);
    if i < h && j < h {
      assert bs[i] == Place(High, i, h, high[i]) && bs[j] == Place(High, j, h, high[j]);
    } else if h <= i < h + m && h <= j < h + m {
      assert bs[i] == Place(Medium, i - h, h, medium[i - h]);
      assert bs[j] == Place(Medium, j - h, h, medium[j - h]);
    } else if h + m <= i {
      assert bs[i] == Place(Low, i - h - m, h, low[i - h - m]);
      assert bs[j] == Place(Low, j - h - m, h, low[j - h - m]);
    } else if i < h {
      assert bs[i].x == 1;
      assert bs[j].x != 1;
    } else {
      assert bs[i].x == 2;
      assert bs[j].x == 3;
    }
  }

  /** The rule that puts the value inside a bubble: only for HIGH and MEDIUM values. */
  predicate ShowsValue(v: real) { v >= 3.5 }

  lemma ShowsValueByTier(v: real)
    ensures ShowsValue(v) <==> TierOf(v) == High || TierOf(v) == Medium
  {
  }

  /** The name tag below a bubble and the value text inside it. */
  datatype NameTag = NameTag(x: int, y: real, name: string)
  datatype ValueTag = ValueTag(x: int, y: real, value: real)

  /** The value texts the label loop draws for the first n entries of the lists. */
  function ValueTags(xPos: seq<int>, yPos: seq<real>, values: seq<real>, n: nat): seq<ValueTag>
    requires n <= |xPos| && n <= |yPos| && n <= |values|
  {
    if n == 0 then []
    else ValueTags(xPos, yPos, values, n - 1) +
         (if ShowsValue(values[n - 1]) then [ValueTag(xPos[n - 1], yPos[n - 1], values[n - 1])] else [])
  }

  function Min(a: nat, b: nat): nat { if a <= b then a else b }

  /** The loop over `zip(x_pos, y_pos, labels, values)`, which stops at the shortest list:
      a name tag 0.3 below every bubble, a value text inside those that pass the rule. */
  method LabelBubbles(xPos: seq<int>, yPos: seq<real>, labels: seq<string>, values: seq<real>)
    returns (names: seq<NameTag>, inner: seq<ValueTag>)
    ensures var n := Min(Min(|xPos|, |yPos|), Min(|labels|, |values|));
      |names| == n &&
      (forall j :: 0 <= j < n ==> names[j] == NameTag(xPos[j], yPos[j] - 0.3, labels[j])) &&
      inner == ValueTags(xPos, yPos, values, n)
  {
    var n := Min(Min(|xPos|, |yPos|), Min(|labels|, |values|));
    names, inner := [], [];
    for i := 0 to n
      invariant |names| == i
      invariant forall j :: 0 <= j < i ==> names[j] == NameTag(xPos[j], yPos[j] - 0.3, labels[j])
      invariant inner == ValueTags(xPos, yPos, values, i)
    {
      names := names + [NameTag(xPos[i], yPos[i] - 0.3, labels[i])];
      if values[i] >= 3.5 {
        inner := inner + [ValueTag(xPos[i], yPos[i], values[i])];
      }
    }
  }

  /** Value texts for each of the first m entries. */
  function LeadingValueTags(xPos: seq<int>, yPos: seq<real>, values: seq<real>, m: nat): seq<ValueTag>
    requires m <= |xPos| && m <= |yPos| && m <= |values|
  {
    seq(m, j requires 0 <= j < m => ValueTag(xPos[j], yPos[j], values[j]))
  }

  /** When the first m values pass the rule and the rest do not, the value texts are
      exactly those of the first m entries, in order. */
  lemma {:induction false} ValueTagsPrefix(xPos: seq<int>, yPos: seq<real>, values: seq<real>, m: nat, n: nat)
    requires m <= n <= |xPos| && n <= |yPos| && n <= |values|
    requires forall j :: 0 <= j < m ==> ShowsValue(values[j])
    requires forall j :: m <= j < n ==> !ShowsValue(values[j])
    ensures ValueTags(xPos, yPos, values, n) == LeadingValueTags(xPos, yPos, values, m)
  {
    if n > m {
      ValueTagsPrefix(xPos, yPos, values, m, n - 1);
    } else if n > 0 {
      ValueTagsPrefix(xPos, yPos, values, n - 1, n - 1);
    }
  }

  /** Tier lists as the comprehensions produce them: each holds only records its condition admits. */
  predicate Tiered(high: seq<Risk>, medium: seq<Risk>, low: seq<Risk>)
  {
    (forall r :: r in high ==> InHigh(r.value)) &&
    (forall r :: r in medium ==> InMedium(r.value)) &&
    (forall r :: r in low ==> InLow(r.value))
  }

  /** On the laid-out lists, a value is drawn inside exactly the HIGH and MEDIUM bubbles. */
  lemma InnerValuesAreHighAndMedium(high: seq<Risk>, medium: seq<Risk>, low: seq<Risk>,
                                    xPos: seq<int>, yPos: seq<real>, colors: seq<string>,
                                    sizes: seq<int>, labels: seq<string>, values: seq<real>)
    requires Tiered(high, medium, low)
    requires Unzipped(Bubbles(high, medium, low), xPos, yPos, colors, sizes, labels, values)
    ensures ValueTags(xPos, yPos, values, |xPos|) == LeadingValueTags(xPos, yPos, values, |high| + |medium|)
  {
    var h, m := |high|, |medium|;
    var bs := Bubbles(high, medium, low);
    forall j | 0 <= j < h + m ensures ShowsValue(values[j]) {
      if j < h {
        assert values[j] == high[j].value && high[j] in high;
      } else {
        assert values[j] == medium[j - h].value && medium[j - h] in medium;
      }
    }
    forall j | h + m <= j < |xPos| ensures !ShowsValue(values[j]) {
      assert values[j] == low[j - h - m].value && low[j - h - m] in low;
    }
    ValueTagsPrefix(xPos, yPos, values, h + m, |xPos|);
  }

  /** The largest of a non-empty list of reals, as Python's `max` gives it. */
  function MaxOf(ys: seq<real>): (m: real)
    requires |ys| > 0
    ensures forall j :: 0 <= j < |ys| ==> ys[j] <= m
    ensures exists j :: 0 <= j < |ys| && ys[j] == m
  {
    if |ys| == 1 then ys[0]
    else
      var rest := MaxOf(ys[1..]);
      if ys[0] >= rest then ys[0] else rest
  }

  /** `max(y_pos) + 1 if y_pos else 4`: one unit of headroom above the highest bubble. */
  function YLimit(yPos: seq<real>): (top: real)
    ensures |yPos| == 0 ==> top == 4.0
    ensures forall j :: 0 <= j < |yPos| ==> yPos[j] + 1.0 <= top
    ensures |yPos| > 0 ==> exists j :: 0 <= j < |yPos| && yPos[j] + 1.0 == top
  {
    if |yPos| > 0 then MaxOf(yPos) + 1.0 else 4.0
  }

  /** Height of the topmost bubble of a column holding n bubbles. */
  function ColumnTop(t: Tier, n: nat, nHigh: nat): real
  {
    n as real + Offset(t, nHigh)
  }

  /** The tops of the non-empty columns. */
  function ColumnTops(h: nat, m: nat, l: nat): seq<real>
  {
    (if h > 0 then [ColumnTop(High, h, h)] else []) +
    (if m > 0 then [ColumnTop(Medium, m, h)] else []) +
    (if l > 0 then [ColumnTop(Low, l, h)] else [])
  }

  /** Every non-empty column's top is at most the largest top, and some column reaches it. */
  lemma TallestColumn(h: nat, m: nat, l: nat)
    requires h + m + l > 0
    ensures var top := MaxOf(ColumnTops(h, m, l));
      (h > 0 ==> ColumnTop(High, h, h) <= top) &&
      (m > 0 ==> ColumnTop(Medium, m, h) <= top) &&
      (l > 0 ==> ColumnTop(Low, l, h) <= top) &&
      ((h > 0 && ColumnTop(High, h, h) == top) ||
       (m > 0 && ColumnTop(Medium, m, h) == top) ||
       (l > 0 && ColumnTop(Low, l, h) == top))
  {
    var tops := ColumnTops(h, m, l);
    var a: seq<real> := if h > 0 then [ColumnTop(High, h, h)] else [];
    var b: seq<real> := if m > 0 then [ColumnTop(Medium, m, h)] else [];
    var c: seq<real> := if l > 0 then [ColumnTop(Low, l, h)] else [];
    assert tops == a + b + c;
    if h > 0 { assert tops[0] == ColumnTop(High, h, h); }
    if m > 0 { assert tops[|a|] == ColumnTop(Medium, m, h); }
    if l > 0 { assert tops[|a| + |b|] == ColumnTop(Low, l, h); }
  }

  /** Each bubble stands no higher than the top of its column. */
  lemma BelowColumnTop(high: seq<Risk>, medium: seq<Risk>, low: seq<Risk>, j: nat)
    requires j < |Bubbles(high, medium, low)|
    ensures var h, m, bs := |high|, |medium|, Bubbles(high, medium, low);
      if j < h then bs[j].y <= ColumnTop(High, h, h)
      else if j < h + m then bs[j].y <= ColumnTop(Medium, m, h)
      else bs[j].y <= ColumnTop(Low, |low|, h)
  {
    var h, m, bs := |high|, |medium|, Bubbles(high, medium, low);
    if j < h {
      assert bs[j] == Place(High, j, h, high[j]);
    } else if j < h + m {
      assert bs[j] == Place(Medium, j - h, h, medium[j - h]);
    } else {
      assert bs[j] == Place(Low, j - h - m, h, low[j - h - m]);
    }
  }

  /** A column that reaches height top has its last bubble there. */
  lemma BubbleAtTop(high: seq<Risk>, medium: seq<Risk>, low: seq<Risk>, top: real) returns (k: nat)
    requires var h, m, l := |high|, |medium|, |low|;
      (h > 0 && ColumnTop(High, h, h) == top) ||
      (m > 0 && ColumnTop(Medium, m, h) == top) ||
      (l > 0 && ColumnTop(Low, l, h) == top)
    ensures k < |Bubbles(high, medium, low)|
    ensures Bubbles(high, medium, low)[k].y == top
  {
    var h, m, l := |high|, |medium|, |low|;
    if h > 0 && ColumnTop(High, h, h) == top {
      k := h - 1;
    } else if m > 0 && ColumnTop(Medium, m, h) == top {
      k := h + m - 1;
    } else {
      k := h + m + l - 1;
    }
    BubbleAt(high, medium, low, k);
  }

  /** No bubble stands above the tallest column's top. */
  lemma NoneAboveTallest(high: seq<Risk>, medium: seq<Risk>, low: seq<Risk>, j: nat)
    requires j < |Bubbles(high, medium, low)|
    ensures Bubbles(high, medium, low)[j].y <= MaxOf(ColumnTops(|high|, |medium|, |low|))
  {
    TallestColumn(|high|, |medium|, |low|);
    BelowColumnTop(high, medium, low, j);
  }

  lemma MaxOfIs(ys: seq<real>, m: real, k: nat)
    requires k < |ys| && ys[k] == m
    requires forall j :: 0 <= j < |ys| ==> ys[j] <= m
    ensures MaxOf(ys) == m
  {
  }

  /** The y-limit in closed form: one above the tallest non-empty column. */
  lemma YLimitOfColumns(high: seq<Risk>, medium: seq<Risk>, low: seq<Risk>, yPos: seq<real>)
    requires |high| + |medium| + |low| > 0
    requires |yPos| == |Bubbles(high, medium, low)|
    requires forall j :: 0 <= j < |yPos| ==> yPos[j] == Bubbles(high, medium, low)[j].y
    ensures YLimit(yPos) == MaxOf(ColumnTops(|high|, |medium|, |low|)) + 1.0
  {
    var top := MaxOf(ColumnTops(|high|, |medium|, |low|));
    forall j | 0 <= j < |yPos| ensures yPos[j] <= top {
      NoneAboveTallest(high, medium, low, j);
    }
    TallestColumn(|high|, |medium|, |low|);
    var k := BubbleAtTop(high, medium, low, top);
    MaxOfIs(yPos, top, k);
  }
}
