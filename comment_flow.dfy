/** The commentary panel: every record in sorted order gets a coloured marker, a numbered
    header and its wrapped comment, flowing down from a cursor that starts at 0.98. */
module CommentFlow {
  import opened RiskRecords
  import opened RiskTiers

  const Start: real := 0.98

  /** Newlines in `'\n'.join(lines)` when wrapping produced the given number of lines
      (wrapped lines never hold a newline of their own). */
  function NewlineCount(lines: nat): nat
  {
    if lines == 0 then 0 else lines - 1
  }

  /** `'\n'.join(lines)`. */
  function Join(lines: seq<string>): string
  {
    if lines == [] then ""
    else if |lines| == 1 then lines[0]
    else lines[0] + "\n" + Join(lines[1..])
  }

  /** `s.count('\n')`. */
  function CountNewlines(s: string): nat
  {
    if s == [] then 0 else (if s[0] == '\n' then 1 else 0) + CountNewlines(s[1..])
  }

  lemma {:induction false} CountAppend(a: string, b: string)
    ensures CountNewlines(a + b) == CountNewlines(a) + CountNewlines(b)
  {
    if a != [] {
      assert (a + b)[1..] == a[1..] + b;
      CountAppend(a[1..], b);
    } else {
      assert a + b == b;
    }
  }

  lemma {:induction false} CountNone(s: string)
    requires '\n' !in s
    ensures CountNewlines(s) == 0
  {
    if s != [] {
      assert '\n' !in s[1..] by {
        forall i | 0 <= i < |s[1..]| ensures s[1..][i] != '\n' {
          assert s[1..][i] == s[i + 1];
        }
      }
      CountNone(s[1..]);
    }
  }

  /** Joining wrapped lines, none of which holds a newline, yields one newline fewer than
      there are lines, and none for no lines: what NewlineCount gives. */
  lemma {:induction false} JoinedNewlines(lines: seq<string>)
    requires forall k :: 0 <= k < |lines| ==> '\n' !in lines[k]
    ensures CountNewlines(Join(lines)) == NewlineCount(|lines|)
  {
    if |lines| == 1 {
      CountNone(lines[0]);
    } else if |lines| > 1 {
      CountNone(lines[0]);
      assert CountNewlines("\n") == 1;
      CountAppend(lines[0], "\n");
      CountAppend(lines[0] + "\n", Join(lines[1..]));
      JoinedNewlines(lines[1..]);
    }
  }

  /** How far the cursor moves down past one entry. */
  function Step(newlines: nat): (d: real)
    ensures d >= 0.12
  {
    0.04 * (newlines + 3) as real
  }

  /** Total distance moved past entries with the given newline counts. */
  function Descent(ns: seq<nat>): real
  {
    if ns == [] then 0.0 else Descent(ns[..|ns| - 1]) + Step(ns[|ns| - 1])
  }

  /** One entry: its 1-based number, the record's name and value, the marker colour,
      the cursor at which it is placed and the newlines of its wrapped comment. */
  datatype Block = Block(number: nat, name: string, value: real, color: string, top: real, newlines: nat)

  /** The newline count of every record's wrapped comment; `wrap` gives the number of
      lines wrapping at width 50 yields. */
  function Newlines(c: seq<Risk>, wrap: string -> nat): (ns: seq<nat>)
    ensures |ns| == |c|
  {
    seq<nat>(|c|, k requires 0 <= k < |c| => NewlineCount(wrap(c[k].comments)))
  }

  /** The entries as the loop places them. */
  function Flow(c: seq<Risk>, wrap: string -> nat): seq<Block>
  {
    var ns := Newlines(c, wrap);
    seq(|c|, k requires 0 <= k < |c| =>
      Block(k + 1, c[k].name, c[k].value, CommentColor(c[k].value), Start - Descent(ns[..k]), ns[k]))
  }

  /** The `for i, (name, val, comment) in enumerate(combined, 1)` loop. */
  method LayOutComments(combined: seq<Risk>, wrap: string -> nat) returns (blocks: seq<Block>, cursor: real)
    ensures blocks == Flow(combined, wrap)
    ensures cursor == Start - Descent(Newlines(combined, wrap))
  {
    ghost var ns := Newlines(combined, wrap);
    blocks := [];
    var yPosition := 0.98;
    for i := 0 to |combined|
      invariant blocks == Flow(combined, wrap)[..i]
      invariant yPosition == Start - Descent(ns[..i])
    {
      var r := combined[i];
      var color := CommentColor(r.value);
      var newlines := NewlineCount(wrap(r.comments));
      blocks := blocks + [Block(i + 1, r.name, r.value, color, yPosition, newlines)];
      yPosition := yPosition - 0.04 * (newlines + 3) as real;
      assert ns[..i + 1][..i] == ns[..i];
    }
    assert ns[..|combined|] == ns;
    cursor := yPosition;
  }

  /** Every entry moves the cursor down by at least 0.12. */
  lemma {:induction false} DescentAtLeast(ns: seq<nat>)
    ensures Descent(ns) >= 0.12 * |ns| as real
  {
    if ns != [] {
      DescentAtLeast(ns[..|ns| - 1]);
    }
  }

  lemma {:induction false} DescentAppend(a: seq<nat>, b: seq<nat>)
    ensures Descent(a + b) == Descent(a) + Descent(b)
  {
    if b == [] {
      assert a + b == a;
    } else {
      var b' := b[..|b| - 1];
      DescentAppend(a, b');
      assert (a + b)[..|a + b| - 1] == a + b';
      assert (a + b)[|a + b| - 1] == b[|b| - 1];
    }
  }

  /** Each entry starts where the previous one's allotted height ends, and the final
      cursor sits right below the last entry. */
  lemma FlowContiguous(c: seq<Risk>, wrap: string -> nat, k: nat)
    requires k < |c|
    ensures var blocks, ns := Flow(c, wrap), Newlines(c, wrap);
      (k + 1 < |c| ==> blocks[k + 1].top == blocks[k].top - Step(blocks[k].newlines)) &&
      (k + 1 == |c| ==> Start - Descent(ns) == blocks[k].top - Step(blocks[k].newlines))
  {
    var ns := Newlines(c, wrap);
    assert ns[..k + 1][..k] == ns[..k];
    assert ns[..|c|] == ns;
  }

  /** The entries descend strictly: a later one starts at least 0.12 per entry in
      between below an earlier one, so no two overlap. */
  lemma FlowDescends(c: seq<Risk>, wrap: string -> nat, i: nat, j: nat)
    requires i < j < |c|
    ensures Flow(c, wrap)[j].top <= Flow(c, wrap)[i].top - 0.12 * (j - i) as real
  {
    var ns := Newlines(c, wrap);
    assert ns[..j] == ns[..i] + ns[i..j];
    DescentAppend(ns[..i], ns[i..j]);
    DescentAtLeast(ns[i..j]);
  }

  /** Headers are numbered 1..n in sorted order, and each marker has the colour of its
      record's tier. */
  lemma FlowHeaders(c: seq<Risk>, wrap: string -> nat, k: nat)
    requires k < |c|
    ensures Flow(c, wrap)[k].number == k + 1
    ensures Flow(c, wrap)[k].color == TierColor(TierOf(c[k].value))
  {
  }
}
