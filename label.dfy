/**
 * The box label of printer/demo_etikett.py: a 10 cm × 15 cm label in the TSC
 * TSPL command language, built line by line: a fixed printer set-up, the box
 * code, location and optional box label, a ruler, at most ten content lines
 * with over-long names shortened, a hint when there are more, and the box
 * code as a Code 128 barcode at the bottom. Writing the text to the printer
 * device is left to the caller.
 */
module BoxLabel {
  import opened Text
  import opened Seqs

  /** The most content lines a label carries. */
  const MaxItems: nat := 10

  /** The y coordinate (in dots) of the "Inhalt:" heading; the first content line sits 30 dots below it. */
  const HeadingY: int := 170
  const FirstItemY: int := HeadingY + 30
  /** The vertical distance of two content lines. */
  const ItemStep: int := 28

  /** The printer set-up every label starts with: size, gap, density, speed, direction, clear. */
  const Header: seq<string> := ["SIZE 100 mm, 150 mm", "GAP 3 mm, 0 mm", "DENSITY 8", "SPEED 4", "DIRECTION 1", "CLS"]

  const Ruler: string := "BAR 40,145,720,3"
  const BottomRuler: string := "BAR 40,1100,720,3"
  const PrintLine: string := "PRINT 1,1"

  function BoxLine(boxCode: string): string {
    "TEXT 40,30,\"3\",0,2,2,\"BOX: " + boxCode + "\""
  }

  function LocationLine(location: string): string {
    "TEXT 40,80,\"3\",0,1,1,\"" + location + "\""
  }

  function BoxLabelLine(boxLabel: string): string {
    "TEXT 40,115,\"3\",0,1,1,\"" + boxLabel + "\""
  }

  function HeadingLine(y: int): string {
    "TEXT 40," + IntToString(y) + ",\"3\",0,1,1,\"Inhalt:\""
  }

  function MoreLine(y: int): string {
    "TEXT 60," + IntToString(y) + ",\"3\",0,1,1,\"... weitere siehe DB\""
  }

  function BarcodeLine(boxCode: string): string {
    "BARCODE 80,1120,\"128\",120,1,0,2,2,\"" + boxCode + "\""
  }

  function CodeLine(boxCode: string): string {
    "TEXT 80,1250,\"3\",0,1,1,\"" + boxCode + "\""
  }

  /** A name longer than 30 characters is cut to its first 28 and marked with "..", so no name exceeds 30. */
  function Shorten(name: string): (r: string)
    ensures |r| <= 30
    ensures |name| <= 30 <==> r == name
    ensures |name| > 30 ==> |r| == 30 && r[..28] == name[..28] && r[28..] == ".."
  {
    if |name| > 30 then name[..28] + ".." else name
  }

  /** The content line of one `(name, qty)` pair at height `y`. */
  function ItemLine(y: int, item: (string, string)): string {
    "TEXT 60," + IntToString(y) + ",\"3\",0,1,1,\"- " + Shorten(item.0) + " x" + item.1 + "\""
  }

  /** The content lines of `items`, the first at `y0`, each following one a step lower. */
  function ItemLines(items: seq<(string, string)>, y0: int): (r: seq<string>)
    ensures |r| == |items|
    decreases |items|
  {
    if items == [] then [] else [ItemLine(y0, items[0])] + ItemLines(items[1..], y0 + ItemStep)
  }

  /** The j-th content line is the line of the j-th item, j steps below the first. */
  lemma {:induction false} ItemLinesAt(items: seq<(string, string)>, y0: int, j: nat)
    requires j < |items|
    ensures ItemLines(items, y0)[j] == ItemLine(y0 + ItemStep * j, items[j])
    decreases j
  {
    if j > 0 {
      ItemLinesAt(items[1..], y0 + ItemStep, j - 1);
      assert items[1..][j - 1] == items[j];
      assert y0 + ItemStep + ItemStep * (j - 1) == y0 + ItemStep * j;
    }
  }

  /** Python's `items[:10]`: the first ten items, or all of them when there are fewer. */
  function Shown(items: seq<(string, string)>): (r: seq<(string, string)>)
    ensures |r| <= MaxItems && r <= items
    ensures |items| <= MaxItems <==> r == items
    ensures |items| > MaxItems ==> |r| == MaxItems
  {
    if |items| > MaxItems then items[..MaxItems] else items
  }

  /** Where the content lines start: after the header, the box and location lines, the optional box label, the ruler and the heading. */
  function ItemsStart(boxLabel: string): nat {
    if boxLabel != "" then 11 else 10
  }

  /** The lines above the content lines. */
  function Front(boxCode: string, location: string, boxLabel: string): (r: seq<string>)
    ensures |r| == ItemsStart(boxLabel)
  {
    Header + [BoxLine(boxCode), LocationLine(location)]
    + (if boxLabel != "" then [BoxLabelLine(boxLabel)] else [])
    + [Ruler, HeadingLine(HeadingY)]
  }

  /** The lines below the content lines: the hint when items were left off, and the barcode block. */
  function Back(boxCode: string, items: seq<(string, string)>): (r: seq<string>)
    ensures |r| == if |items| > MaxItems then 5 else 4
  {
    (if |items| > MaxItems then [MoreLine(FirstItemY + ItemStep * |Shown(items)|)] else [])
    + [BottomRuler, BarcodeLine(boxCode), CodeLine(boxCode), PrintLine]
  }

  /** The lines of the label, before they are joined. */
  function LabelLines(boxCode: string, location: string, boxLabel: string, items: seq<(string, string)>): (r: seq<string>)
    ensures |r| == (if boxLabel != "" then 11 else 10) + (if |items| > MaxItems then MaxItems + 5 else |items| + 4)
  {
    Front(boxCode, location, boxLabel) + ItemLines(Shown(items), FirstItemY) + Back(boxCode, items)
  }

  /**
   * `tspl_main_label(box_code, location, box_label, items)`: the label lines
   * are collected one after another, with a running y coordinate for the
   * content lines, and joined with newlines plus a final newline.
   */
  method TsplMainLabel(boxCode: string, location: string, boxLabel: string, items: seq<(string, string)>)
    returns (tspl: string)
    ensures tspl == Join("\n", LabelLines(boxCode, location, boxLabel, items)) + "\n"
  {
    var lines: seq<string> := [];
    lines := lines + ["SIZE 100 mm, 150 mm"];
    lines := lines + ["GAP 3 mm, 0 mm"];
    lines := lines + ["DENSITY 8"];
    lines := lines + ["SPEED 4"];
    lines := lines + ["DIRECTION 1"];
    lines := lines + ["CLS"];

    lines := lines + [BoxLine(boxCode)];
    lines := lines + [LocationLine(location)];
    if boxLabel != "" {
      lines := lines + [BoxLabelLine(boxLabel)];
    }

    lines := lines + [Ruler];

    var y := 170;
    lines := lines + [HeadingLine(y)];
    y := y + 30;
    assert lines == Front(boxCode, location, boxLabel);

    var shown := Shown(items);
    lines, y := AppendItemLines(lines, shown, y);
    ghost var body := lines;

    if |items| > MaxItems {
      lines := lines + [MoreLine(y)];
    }
    ghost var more := lines;
    assert more == body + more[|body|..];
    assert more[|body|..] + [BottomRuler, BarcodeLine(boxCode), CodeLine(boxCode), PrintLine] == Back(boxCode, items);

    lines := lines + [BottomRuler];
    lines := lines + [BarcodeLine(boxCode)];
    lines := lines + [CodeLine(boxCode)];

    lines := lines + [PrintLine];
    AppendFour(more, BottomRuler, BarcodeLine(boxCode), CodeLine(boxCode), PrintLine);
    Regroup(body, more[|body|..], [BottomRuler, BarcodeLine(boxCode), CodeLine(boxCode), PrintLine]);
    tspl := Join("\n", lines) + "\n";
  }

  /**
   * The `for` loop of `tspl_main_label` over the shown items: one content line
   * per item, in order, with the y coordinate advancing by one step each time.
   */
  method AppendItemLines(lines: seq<string>, shown: seq<(string, string)>, y0: int) returns (out: seq<string>, y: int)
    ensures out == lines + ItemLines(shown, y0)
    ensures y == y0 + ItemStep * |shown|
  {
    out, y := lines, y0;
    var k := 0;
    while k < |shown|
      invariant 0 <= k <= |shown|
      invariant y == y0 + ItemStep * k
      invariant out + ItemLines(shown[k..], y) == lines + ItemLines(shown, y0)
    {
      ItemLinesStep(out, shown, k, y);
      out := out + [ItemLine(y, shown[k])];
      y := y + 28;
      k := k + 1;
    }
    assert shown[k..] == [];
  }

  /** Emitting the line of item `k` moves it from the pending content lines to the emitted ones. */
  lemma ItemLinesStep(lines: seq<string>, items: seq<(string, string)>, k: nat, y: int)
    requires k < |items|
    ensures lines + ItemLines(items[k..], y) == (lines + [ItemLine(y, items[k])]) + ItemLines(items[k + 1..], y + ItemStep)
  {
    assert items[k..][0] == items[k] && items[k..][1..] == items[k + 1..];
    ItemLinesUnfold(items[k..], y);
  }

  lemma ItemLinesUnfold(items: seq<(string, string)>, y: int)
    requires items != []
    ensures ItemLines(items, y) == [ItemLine(y, items[0])] + ItemLines(items[1..], y + ItemStep)
  {
  }

  /** Every label starts with the six set-up lines and ends with the print command. */
  lemma {:induction false} LabelFrame(boxCode: string, location: string, boxLabel: string, items: seq<(string, string)>)
    ensures var lines := LabelLines(boxCode, location, boxLabel, items);
            |lines| > 6 && lines[..6] == Header && lines[|lines| - 1] == PrintLine
  {
    LabelStart(boxCode, location, boxLabel, items);
    LabelEnd(boxCode, location, boxLabel, items);
  }

  lemma LabelStart(boxCode: string, location: string, boxLabel: string, items: seq<(string, string)>)
    ensures var lines := LabelLines(boxCode, location, boxLabel, items);
            |lines| > 6 && lines[..6] == Header
  {
    var front := Front(boxCode, location, boxLabel);
    PrefixOfConcat(front + ItemLines(Shown(items), FirstItemY), Back(boxCode, items), 6);
    PrefixOfConcat(front, ItemLines(Shown(items), FirstItemY), 6);
    assert front[..6] == Header;
  }

  lemma LabelEnd(boxCode: string, location: string, boxLabel: string, items: seq<(string, string)>)
    ensures var lines := LabelLines(boxCode, location, boxLabel, items);
            |lines| > 0 && lines[|lines| - 1] == PrintLine
  {
    var back := Back(boxCode, items);
    assert back[|back| - 1] == PrintLine;
  }

  /** The text sent to the printer ends with the print command and a newline. */
  lemma {:induction false} LabelEndsWithPrint(boxCode: string, location: string, boxLabel: string,
                                              items: seq<(string, string)>)
    ensures var tspl := Join("\n", LabelLines(boxCode, location, boxLabel, items)) + "\n";
            |tspl| >= |PrintLine| + 1 && tspl[|tspl| - |PrintLine| - 1..] == PrintLine + "\n"
  {
    var lines := LabelLines(boxCode, location, boxLabel, items);
    LabelFrame(boxCode, location, boxLabel, items);
    JoinEndsWithLast("\n", lines);
    var joined := Join("\n", lines);
    assert joined[|joined| - |PrintLine|..] == PrintLine;
    assert (joined + "\n")[|joined| - |PrintLine|..] == joined[|joined| - |PrintLine|..] + "\n";
  }

  /**
   * The box-label line is present exactly when the box label is non-empty:
   * the line after the location is that line, or else the ruler.
   */
  lemma {:induction false} BoxLabelLineIffLabel(boxCode: string, location: string, boxLabel: string,
                                                items: seq<(string, string)>)
    ensures var lines := LabelLines(boxCode, location, boxLabel, items);
            |lines| > 8
            && (boxLabel != "" <==> lines[8] == BoxLabelLine(boxLabel))
            && (boxLabel == "" <==> lines[8] == Ruler)
  {
    var lines := LabelLines(boxCode, location, boxLabel, items);
    assert BoxLabelLine(boxLabel)[0] == 'T' && Ruler[0] == 'B';
  }

  /**
   * The content lines: one per item for at most the first ten items, in input
   * order, the i-th at height 200 + 28·i with the name shortened.
   */
  lemma {:induction false} ContentLines(boxCode: string, location: string, boxLabel: string,
                                        items: seq<(string, string)>)
    ensures var lines := LabelLines(boxCode, location, boxLabel, items);
            var start := ItemsStart(boxLabel);
            var n := |Shown(items)|;
            start + n < |lines|
            && forall j :: 0 <= j < n ==> lines[start + j] == ItemLine(200 + 28 * j, items[j])
  {
    var lines := LabelLines(boxCode, location, boxLabel, items);
    forall j | 0 <= j < |Shown(items)|
      ensures lines[ItemsStart(boxLabel) + j] == ItemLine(200 + 28 * j, items[j])
    {
      ContentLineAt(boxCode, location, boxLabel, items, j);
    }
  }

  lemma ContentLineAt(boxCode: string, location: string, boxLabel: string, items: seq<(string, string)>, j: nat)
    requires j < |Shown(items)|
    ensures var lines := LabelLines(boxCode, location, boxLabel, items);
            ItemsStart(boxLabel) + j < |lines| && lines[ItemsStart(boxLabel) + j] == ItemLine(200 + 28 * j, items[j])
  {
    var shown := Shown(items);
    IndexMiddle(Front(boxCode, location, boxLabel), ItemLines(shown, FirstItemY), Back(boxCode, items), j);
    ItemLinesAt(shown, FirstItemY, j);
    assert shown[j] == items[j];
  }

  /**
   * The "... weitere siehe DB" hint follows the content lines exactly when
   * there are more than ten items; otherwise the bottom ruler does.
   */
  lemma {:induction false} MoreLineIffTruncated(boxCode: string, location: string, boxLabel: string,
                                                items: seq<(string, string)>)
    ensures var lines := LabelLines(boxCode, location, boxLabel, items);
            var after := ItemsStart(boxLabel) + |Shown(items)|;
            after < |lines|
            && (|items| > MaxItems <==> lines[after] == MoreLine(200 + 28 * MaxItems))
            && (|items| <= MaxItems <==> lines[after] == BottomRuler)
  {
    var front := Front(boxCode, location, boxLabel) + ItemLines(Shown(items), FirstItemY);
    var back := Back(boxCode, items);
    var lines := LabelLines(boxCode, location, boxLabel, items);
    assert lines[|front|] == back[0];
    assert MoreLine(200 + 28 * MaxItems)[0] == 'T' && BottomRuler[0] == 'B';
  }
}
