/** plot_risk_assessment end to end, without the drawing: sort, tier, lay out both panels. */
module RiskAssessment {
  import opened RiskRecords
  import opened RiskOrder
  import opened RiskTiers
  import opened BubbleLayout
  import opened CommentFlow

  /** Everything the function computes before handing it to the plotting library. */
  datatype Chart = Chart(
    combined: seq<Risk>, high: seq<Risk>, medium: seq<Risk>, low: seq<Risk>,
    xPos: seq<int>, yPos: seq<real>, colors: seq<string>, sizes: seq<int>,
    labels: seq<string>, values: seq<real>,
    names: seq<NameTag>, inner: seq<ValueTag>, yLimit: real,
    blocks: seq<Block>, cursor: real)

  /** Index in the sorted list at which tier t's run begins. */
  function TierStart(c: seq<Risk>, t: Tier): nat
  {
    match t
    case High => 0
    case Medium => |Select(c, High)|
    case Low => |Select(c, High)| + |Select(c, Medium)|
  }

  /** The three tier lists hold only what their comprehension admits. */
  lemma SelectTiered(c: seq<Risk>)
    ensures Tiered(Select(c, High), Select(c, Medium), Select(c, Low))
  {
    SelectMembers(c, High);
    SelectMembers(c, Medium);
    SelectMembers(c, Low);
  }

  /** On the sorted list, the j-th bubble belongs to the j-th record: it stands in the
      record's tier column, at the record's index within its tier, in its tier's colour
      and size, and carries its name and value. */
  lemma BubbleOfRecord(c: seq<Risk>, j: nat)
    requires NonIncreasing(c)
    requires j < |c|
    ensures var t := TierOf(c[j].value);
      var high, medium, low := Select(c, High), Select(c, Medium), Select(c, Low);
      |Bubbles(high, medium, low)| == |c| &&
      TierStart(c, t) <= j &&
      Bubbles(high, medium, low)[j] == Place(t, j - TierStart(c, t), |high|, c[j])
  {
    var high, medium, low := Select(c, High), Select(c, Medium), Select(c, Low);
    var h, m := |high|, |medium|;
    SortedSplit(c);
    SelectTiered(c);
    var bs := Bubbles(high, medium, low);
    if j < h {
      assert c[j] == high[j] && high[j] in high;
      assert bs[j] == Place(High, j, h, high[j]);
    } else if j < h + m {
      assert c[j] == medium[j - h] && medium[j - h] in medium;
      assert bs[j] == Place(Medium, j - h, h, medium[j - h]);
    } else {
      assert c[j] == low[j - h - m] && low[j - h - m] in low;
      assert bs[j] == Place(Low, j - h - m, h, low[j - h - m]);
    }
  }

  /** The two panels agree: on the sorted list, the k-th commentary entry describes the
      k-th bubble's record and its marker has that bubble's colour. */
  lemma CommentMatchesBubble(c: seq<Risk>, wrap: string -> nat, k: nat)
    requires NonIncreasing(c)
    requires k < |c|
    ensures var bs := Bubbles(Select(c, High), Select(c, Medium), Select(c, Low));
      var e := Flow(c, wrap)[k];
      |bs| == |c| && e.color == bs[k].color && e.name == bs[k].name && e.value == bs[k].value
  {
    BubbleOfRecord(c, k);
  }

  /** The tier lists are the comprehensions over `combined`, which they split into
      three consecutive runs. */
  predicate Tiers(ch: Chart)
  {
    ch.high == Select(ch.combined, High) && ch.medium == Select(ch.combined, Medium) &&
    ch.low == Select(ch.combined, Low) &&
    ch.high + ch.medium + ch.low == ch.combined
  }

  /** The bubble panel: the parallel lists, a name tag under every bubble, a value
      inside exactly the HIGH and MEDIUM bubbles, and the y-limit above the tallest column. */
  predicate BubblePanel(ch: Chart)
  {
    var n := |ch.combined|;
    |Bubbles(ch.high, ch.medium, ch.low)| == n &&
    Unzipped(Bubbles(ch.high, ch.medium, ch.low), ch.xPos, ch.yPos, ch.colors, ch.sizes, ch.labels, ch.values) &&
    |ch.names| == n &&
    (forall j :: 0 <= j < n ==> ch.names[j] == NameTag(ch.xPos[j], ch.yPos[j] - 0.3, ch.labels[j])) &&
    ch.inner == LeadingValueTags(ch.xPos, ch.yPos, ch.values, |ch.high| + |ch.medium|) &&
    n > 0 && ch.yLimit == MaxOf(ColumnTops(|ch.high|, |ch.medium|, |ch.low|)) + 1.0
  }

  /** The commentary panel: the entries and the final cursor. */
  predicate CommentPanel(ch: Chart, wrap: string -> nat)
  {
    ch.blocks == Flow(ch.combined, wrap) &&
    ch.cursor == Start - Descent(Newlines(ch.combined, wrap))
  }

  /** Bubble k and commentary entry k describe record k of `combined`, in one colour. */
  predicate PanelsAgree(ch: Chart)
  {
    |ch.labels| == |ch.combined| && |ch.values| == |ch.combined| &&
    |ch.colors| == |ch.combined| && |ch.blocks| == |ch.combined| &&
    forall k :: 0 <= k < |ch.combined| ==>
      ch.labels[k] == ch.combined[k].name && ch.values[k] == ch.combined[k].value &&
      ch.colors[k] == ch.blocks[k].color
  }

  /** What the bubble loops, the label loop and the y-limit give, on the tier lists of a
      non-empty sorted list, is the bubble panel described above. */
  lemma BubblePanelHolds(ch: Chart)
    requires NonIncreasing(ch.combined) && |ch.combined| > 0 && Tiers(ch)
    requires Unzipped(Bubbles(ch.high, ch.medium, ch.low), ch.xPos, ch.yPos, ch.colors, ch.sizes, ch.labels, ch.values)
    requires var n := Min(Min(|ch.xPos|, |ch.yPos|), Min(|ch.labels|, |ch.values|));
      |ch.names| == n &&
      (forall j :: 0 <= j < n ==> ch.names[j] == NameTag(ch.xPos[j], ch.yPos[j] - 0.3, ch.labels[j])) &&
      ch.inner == ValueTags(ch.xPos, ch.yPos, ch.values, n)
    requires ch.yLimit == YLimit(ch.yPos)
    ensures BubblePanel(ch)
  {
    var n := |ch.combined|;
    assert |Bubbles(ch.high, ch.medium, ch.low)| == n by {
      TiersPartition(ch.combined);
    }
    assert ch.inner == LeadingValueTags(ch.xPos, ch.yPos, ch.values, |ch.high| + |ch.medium|) by {
      SelectTiered(ch.combined);
      InnerValuesAreHighAndMedium(ch.high, ch.medium, ch.low, ch.xPos, ch.yPos, ch.colors, ch.sizes, ch.labels, ch.values);
    }
    assert ch.yLimit == MaxOf(ColumnTops(|ch.high|, |ch.medium|, |ch.low|)) + 1.0 by {
      YLimitOfColumns(ch.high, ch.medium, ch.low, ch.yPos);
    }
  }

  /** Bubble k and entry k of the commentary agree on a sorted list. */
  lemma PanelsAgreeHold(ch: Chart, wrap: string -> nat)
    requires NonIncreasing(ch.combined) && Tiers(ch) && CommentPanel(ch, wrap)
    requires Unzipped(Bubbles(ch.high, ch.medium, ch.low), ch.xPos, ch.yPos, ch.colors, ch.sizes, ch.labels, ch.values)
    ensures PanelsAgree(ch)
  {
    forall k | 0 <= k < |ch.combined|
      ensures ch.labels[k] == ch.combined[k].name && ch.values[k] == ch.combined[k].value &&
              ch.colors[k] == ch.blocks[k].color
    {
      CommentMatchesBubble(ch.combined, wrap, k);
    }
  }

  /** ch is what plot_risk_assessment computes from data. */
  predicate Describes(data: seq<Risk>, wrap: string -> nat, ch: Chart)
  {
    ch.combined == SortDesc(data) &&
    multiset(ch.combined) == multiset(data) && NonIncreasing(ch.combined) &&
    Tiers(ch) && BubblePanel(ch) && CommentPanel(ch, wrap) && PanelsAgree(ch)
  }

  /** The steps of plot_risk_assessment, each as its own member promises, add up to a
      chart that Describes the input. */
  lemma ChartHolds(data: seq<Risk>, wrap: string -> nat, ch: Chart)
    requires data != [] && ch.combined == SortDesc(data)
    requires ch.high == Select(ch.combined, High) && ch.medium == Select(ch.combined, Medium) &&
             ch.low == Select(ch.combined, Low)
    requires Unzipped(Bubbles(ch.high, ch.medium, ch.low), ch.xPos, ch.yPos, ch.colors, ch.sizes, ch.labels, ch.values)
    requires var n := Min(Min(|ch.xPos|, |ch.yPos|), Min(|ch.labels|, |ch.values|));
      |ch.names| == n &&
      (forall j :: 0 <= j < n ==> ch.names[j] == NameTag(ch.xPos[j], ch.yPos[j] - 0.3, ch.labels[j])) &&
      ch.inner == ValueTags(ch.xPos, ch.yPos, ch.values, n)
    requires ch.yLimit == YLimit(ch.yPos)
    requires CommentPanel(ch, wrap)
    ensures Describes(data, wrap, ch)
  {
    SortPermutes(data);
    SortOrders(data);
    SortedSplit(ch.combined);
    BubblePanelHolds(ch);
    PanelsAgreeHold(ch, wrap);
  }

  /** plot_risk_assessment(data). Empty data fails at the three-way unpacking of
      `zip(*combined)`; otherwise both panels are laid out. */
  method PlotRiskAssessment(data: seq<Risk>, wrap: string -> nat) returns (r: Result<Chart>)
    ensures r.Err? <==> data == []
    ensures r.Ok? ==> Describes(data, wrap, r.value)
  {
    var combined := SortDesc(data);
    if |combined| == 0 {
      SortPermutes(data);
      return Err(UnpackError);
    }
    var high := Select(combined, High);
    var medium := Select(combined, Medium);
    var low := Select(combined, Low);

    var xPos, yPos, colors, sizes, labels, values := LayOutBubbles(high, medium, low);
    var names, inner := LabelBubbles(xPos, yPos, labels, values);
    var yLimit := YLimit(yPos);

    var blocks, cursor := LayOutComments(combined, wrap);
    var ch := Chart(combined, high, medium, low, xPos, yPos, colors, sizes, labels, values,
                    names, inner, yLimit, blocks, cursor);
    ChartHolds(data, wrap, ch);
    r := Ok(ch);
  }
}
