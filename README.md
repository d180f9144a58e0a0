# Risk bubble chart: ordering, tiering and layout

This project models the deterministic core of `plot_risk_assessment` in `secondrisk.py`.
That function turns a list of risk records into a two-panel chart. It does four things:

- It sorts the records by value, largest first, with Python's stable `sorted`.
- It splits the sorted list into HIGH (value >= 5.0), MEDIUM (3.5 <= value < 5.0) and LOW (value < 3.5).
- It lays out the bubble panel. Each tier gets a column (1, 2, 3), its own colour and size, and
  slots 1, 2, ... raised by 0.2 or 0.4 times the number of HIGH records. A name tag goes under
  every bubble and a value goes inside the HIGH and MEDIUM bubbles. The y-limit is one above
  the highest bubble.
- It lays out the commentary panel. Each record, in sorted order, gets a numbered header and a
  marker coloured by a second threshold chain. A cursor starts at 0.98 and moves down by
  0.04 times (newlines in the wrapped comment + 3) per record.

Values are Dafny `real`, so every threshold and offset is exact. The number of lines that
`textwrap.wrap(comment, width=50)` returns is a parameter: a total function `wrap: string -> nat`.

Modules, one file each:
- `RiskRecords` (risk_records.dfy): the record and the error.
- `RiskOrder` (risk_order.dfy): the stable descending sort.
- `RiskTiers` (risk_tiers.dfy): the tier comprehensions, the tier styles and the commentary colour chain.
- `BubbleLayout` (bubble_layout.dfy): the append loops, the label loop and the y-limit.
- `CommentFlow` (comment_flow.dfy): the commentary loop.
- `RiskAssessment` (risk_assessment.dfy): the whole function.

Pure parts of the source are functions with lemmas. The loops are methods with loop
invariants, proved against specification functions (`Bubbles`, `ValueTags`, `Flow`).

The members that are the program itself, and where they come from in `secondrisk.py`:
- `RiskOrder.SortDesc` (lines 25-30) is `sorted(..., key=lambda x: x[1], reverse=True)`, an
  insertion sort built from `RiskOrder.Insert`. Its properties are in the `SortPermutes`,
  `SortOrders` and `SortStable` rows.
- `RiskTiers.Select` (lines 34-36) is the three list comprehensions, one per tier. Its
  properties are in the `TiersPartition`, `SelectMembers` and `SortedSplit` rows.
- `BubbleLayout.Place`, `TierBubbles` and `Bubbles` (lines 47-71) give the column, y, colour,
  size, name and value each loop appends. `BubbleLayout.LayOutBubbles` is the three loops and
  is proved to produce exactly `Bubbles`.
- `BubbleLayout.ShowsValue` (line 99) is the rule `val >= 3.5`. `BubbleLayout.ValueTags` is the
  value texts the label loop draws.
- `CommentFlow.NewlineCount` (lines 155 and 178) is `'\n'.join(wrap(...)).count('\n')` as a
  function of the number of wrapped lines. `CommentFlow.Join` and `CommentFlow.CountNewlines`
  model the join and the count literally, and `JoinedNewlines` ties them to `NewlineCount`.
  `CommentFlow.Newlines` lists that count for every record.
- `CommentFlow.Flow` (lines 140-178) is where the commentary loop places each entry.
  `CommentFlow.LayOutComments` is the loop and is proved to produce exactly `Flow`.

## Model

| member | source | states |
|---|---|---|
| RiskOrder.SortDesc | secondrisk.py:25-30 | the sort returns exactly as many records as it is given. Order, permutation and stability are in the rows below |
| RiskOrder.InsertPermutes | secondrisk.py:25-30 | inserting one record into a list adds exactly that record |
| RiskOrder.InsertKeepsOrder | secondrisk.py:25-30 | inserting a record into a non-increasing list keeps it non-increasing |
| RiskOrder.InsertWithValue | secondrisk.py:25-30 | inserting a record puts it in front of every record of equal value already in the list and leaves their order alone. The sort inserts each record into the sorted records that follow it in the input, so equal values keep their input order |
| RiskOrder.SortPermutes | secondrisk.py:25-30 | `combined` holds exactly the input records, as a multiset, and has the same length |
| RiskOrder.SortOrders | secondrisk.py:25-30 | `combined` is non-increasing by value |
| RiskOrder.SortStable | secondrisk.py:25-30 | the sort is stable: for every value v, the records with value v are in the same order as in the input |
| RiskTiers.TierOf | secondrisk.py:34-36 | exactly one of the three comprehension conditions admits any value, so each value has exactly one tier; 5.0 is HIGH, 3.5 is MEDIUM, anything below 3.5 is LOW |
| RiskTiers.Select | secondrisk.py:34-36 | a tier list is no longer than `combined` and every record in it satisfies that tier's comprehension condition |
| RiskTiers.TiersPartition | secondrisk.py:34-36 | the three tier lists together hold each record of `combined` exactly once, so their lengths sum to its length |
| RiskTiers.SelectMembers | secondrisk.py:34-36 | a record is in tier t's list exactly when it is in `combined` and its value's tier is t |
| RiskTiers.SortedSplit | secondrisk.py:34-36 | on a sorted list, HIGH + MEDIUM + LOW is the list itself: all HIGH come first, then MEDIUM, then LOW, each tier in list order |
| RiskTiers.SortedTiersOrdered | secondrisk.py:25-36 | along a sorted list the tier never goes back toward HIGH |
| RiskTiers.ColorNamesTier | secondrisk.py:47-71 | the three tier colours '#FF6B6B', '#FFD166' and '#06D6A0' are distinct, so a colour identifies its tier |
| RiskTiers.CommentColor | secondrisk.py:143-148 | the commentary's own if/elif chain gives the colour of the tier the comprehensions assign |
| RiskTiers.CommentColorExact | secondrisk.py:143-148 | the marker is red exactly for HIGH values, yellow exactly for MEDIUM values and green exactly for LOW values |
| BubbleLayout.AppendHigh | secondrisk.py:46-53 | the HIGH loop appends, for slot i, column 1, y = i+1, red, size 2000 and the record's name and value, so the lists now unzip the bubbles laid out so far followed by the HIGH bubbles |
| BubbleLayout.AppendMedium | secondrisk.py:55-62 | the MEDIUM loop appends column 2, y = i+1+0.2·len(HIGH), yellow, size 1500 and the record's name and value, extending the lists by exactly the MEDIUM bubbles |
| BubbleLayout.AppendLow | secondrisk.py:64-71 | the LOW loop appends column 3, y = i+1+0.4·len(HIGH), green, size 1000 and the record's name and value, extending the lists by exactly the LOW bubbles |
| BubbleLayout.BubbleAt | secondrisk.py:38-71 | the lists have one bubble per tier record: entries 0..len(HIGH)-1 are the HIGH records in order, then the MEDIUM records, then the LOW records, each placed by its tier and its index within the tier |
| BubbleLayout.LayOutBubbles | secondrisk.py:39-71 | the six parallel lists all have length len(HIGH)+len(MEDIUM)+len(LOW). Entry k of tier t has column 1/2/3, y = k+1 plus 0, 0.2·len(HIGH) or 0.4·len(HIGH), colour and size 2000/1500/1000 by tier, and the record's name and value |
| BubbleLayout.BubblesApart | secondrisk.py:47-71 | no two bubbles share a position: they are in different columns, or the later one is higher in the same column |
| BubbleLayout.ShowsValueByTier | secondrisk.py:99 | the inner-value rule `val >= 3.5` holds exactly for HIGH and MEDIUM values |
| BubbleLayout.LabelBubbles | secondrisk.py:85-109 | the zip loop stops at the shortest list. It puts a name tag 0.3 below every bubble and a value text inside each bubble that passes the rule, in order |
| BubbleLayout.ValueTagsPrefix | secondrisk.py:99-109 | if the first m values pass the rule and the rest fail it, the value texts are exactly those of the first m entries |
| BubbleLayout.InnerValuesAreHighAndMedium | secondrisk.py:85-109 | on the laid-out lists, value texts are drawn for exactly the HIGH and MEDIUM bubbles, in order |
| BubbleLayout.MaxOf | secondrisk.py:113 | `max` of a non-empty list is at least every element and equals one of them |
| BubbleLayout.YLimit | secondrisk.py:113 | the y-limit is 4 for an empty list. Otherwise it is one above the highest bubble: every y plus 1 is at most the limit, and some y plus 1 equals it |
| BubbleLayout.TallestColumn | secondrisk.py:113 | the maximum of the non-empty columns' top slots is at least every such top and equals one of them |
| BubbleLayout.NoneAboveTallest | secondrisk.py:113 | no bubble sits above the top slot of the tallest column |
| BubbleLayout.BubbleAtTop | secondrisk.py:113 | the top slot of any non-empty column is the y of some actual bubble |
| BubbleLayout.YLimitOfColumns | secondrisk.py:113 | on the laid-out lists, the y-limit is one above the tallest non-empty column: len(HIGH), len(MEDIUM)+0.2·len(HIGH) or len(LOW)+0.4·len(HIGH) |
| CommentFlow.Step | secondrisk.py:178 | each record moves the cursor down by at least 0.12 |
| CommentFlow.JoinedNewlines | secondrisk.py:155 | when no wrapped line holds a newline, `'\n'.join(lines).count('\n')` is one less than the number of lines, and 0 for no lines, which is `NewlineCount` |
| CommentFlow.LayOutComments | secondrisk.py:140-178 | entry k is numbered k+1, carries record k's name, value and chain colour, and sits at 0.98 minus the steps of the records before it. The final cursor is 0.98 minus the sum of all steps |
| CommentFlow.DescentAtLeast | secondrisk.py:178 | after n records the cursor has moved down by at least 0.12·n |
| CommentFlow.DescentAppend | secondrisk.py:178 | the distance moved past two runs of records is the sum of the two distances |
| CommentFlow.FlowContiguous | secondrisk.py:140-178 | each entry starts exactly one step below the previous entry. The final cursor is one step below the last entry |
| CommentFlow.FlowDescends | secondrisk.py:140-178 | the cursor decreases strictly: a later entry sits at least 0.12 per record lower than an earlier one, so entries never overlap |
| CommentFlow.FlowHeaders | secondrisk.py:141-148 | headers are numbered 1..n in sorted order, and each marker has its record's tier colour |
| RiskAssessment.SelectTiered | secondrisk.py:34-36 | every record in a tier list satisfies that tier's comprehension condition |
| RiskAssessment.BubbleOfRecord | secondrisk.py:34-71 | on the sorted list, bubble j is `combined[j]`. It is placed by its tier, its index within the tier and the number of HIGH records, and by nothing else |
| RiskAssessment.CommentMatchesBubble | secondrisk.py:143-148 | commentary entry k and bubble k show the same record in the same colour |
| RiskAssessment.BubblePanelHolds | secondrisk.py:39-113 | on a sorted non-empty list, the lists, tags, value texts and y-limit form the bubble panel described by `BubblePanel` |
| RiskAssessment.PanelsAgreeHold | secondrisk.py:47-178 | the bubble lists and the commentary entries agree, index by index, on the record and the colour |
| RiskAssessment.ChartHolds | secondrisk.py:25-178 | the sorted list, the three tier lists, the six lists, the tags, the y-limit and the commentary entries computed step by step together satisfy `Describes` |
| RiskAssessment.PlotRiskAssessment | secondrisk.py:25-178 | empty input fails at the unpacking of `zip(*combined)`, and only empty input fails. Otherwise the chart satisfies `Describes`: `combined` is the stable descending sort and a permutation of the input, the tiers are its three consecutive runs, and both panels are laid out as above and agree with each other |

## Left out

- All drawing is left out: figure and grid setup, scatter, text boxes, `axvspan`, spines, titles, `Circle` patches, `tight_layout`. These are calls into the plotting library. The model keeps only the positions, colours, sizes and texts those calls receive.
- The font settings in `rcParams` and the debug `print(data)` are ambient side effects and are left out.
- `savefig` to a fixed path and `close` are file I/O and are left out.
- The inside of `textwrap.wrap` is a foreign library. Only the number of lines it returns is modelled, as the parameter `wrap`. `JoinedNewlines` turns that number into the newline count on the condition that no wrapped line holds a newline of its own, which holds because `wrap` replaces whitespace by default; that property of `wrap` itself is not modelled.
- Number formatting (`f"{val:.1f}"`, the header text) is left out. Value texts carry the value itself.
- Binary floating point is left out: 0.2, 0.4, 0.04 and 0.98 are exact reals, so float rounding of positions is not modelled. NaN values are not modelled.
- Records are typed: a record missing `risk_label`, `risk_value` or `comments` (a `KeyError` in the source) cannot be expressed.
- The anchors derived from the cursor (the marker at cursor−0.015, the comment text at cursor−0.04) are drawing arguments. Only the cursor itself is modelled.
- The gauge panel in `firstrisk(2).py` is not part of this model.
- BubbleLayout.YLimit: its `else 4` branch is modelled, but `PlotRiskAssessment` never reaches it. Empty input has already failed at the unpacking of `zip(*combined)`.
