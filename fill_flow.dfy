/**
 * `fill_report_text` (anti_piracy_system/test/test_detection.py): find the description
 * field by four tiers (largest `EditText`, a hint text, the largest suitable focusable
 * area, fixed spots), tap it again, clear it, type the text with the verified input and
 * tap outside to close the keyboard. It always reports success.
 */
module FillFlow {
  import opened Wrappers
  import opened Text
  import opened Seqs
  import opened AdbDevice

  const Hints: seq<string> := ["提供更多信息", "有助于举报", "请输入", "举报描述", "0/200", "字"]

  /** The index of the first node of largest area (`max(..., key=area)` keeps the first maximum). */
  function LargestAt(ns: seq<Node>): (k: nat)
    requires ns != []
    ensures k < |ns|
    ensures forall j :: 0 <= j < |ns| ==> ns[j].bounds.Area() <= ns[k].bounds.Area()
    ensures forall j :: 0 <= j < k ==> ns[j].bounds.Area() < ns[k].bounds.Area()
    decreases |ns|
  {
    if |ns| == 1 then 0
    else
      var k := LargestAt(ns[1..]);
      assert forall j :: 1 <= j < |ns| ==> ns[j] == ns[1..][j - 1];
      if ns[0].bounds.Area() >= ns[1..][k].bounds.Area() then 0 else k + 1
  }

  /** Tier 1: a self-closing node whose class mentions `EditText`. */
  predicate IsEditText(n: Node)
  {
    n.leaf && Contains(n.cls, "EditText")
  }

  /** Tier 3: a self-closing focusable node larger than 10000 pixels inside the band from 20% to 70% of the height. */
  predicate IsFieldArea(n: Node, height: int)
  {
    n.leaf && n.focusable && n.bounds.Area() > 10000
    && n.bounds.y1 as real > height as real * 0.2 && (n.bounds.y2 as real) < height as real * 0.7
  }

  function FieldAreaFilter(height: int): Node -> bool
  {
    (n: Node) => IsFieldArea(n, height)
  }

  function IsLeaf(n: Node): bool
  {
    n.leaf
  }

  /** The dump restricted to self-closing nodes, the only ones the node patterns match. */
  function Leaves(snap: Option<Snapshot>): (r: Option<Snapshot>)
    ensures Dumped(snap) <==> Dumped(r)
  {
    match snap
    case None => None
    case Some(s) => Some(Snapshot(s.xml, Filter(s.nodes, IsLeaf)))
  }

  function Centre(n: Node): (int, int)
  {
    (n.bounds.CenterX(), n.bounds.CenterY())
  }

  /** Where the first three tiers tap, if any of them finds the field. */
  function FieldTarget(snap: Option<Snapshot>, height: int): (r: Option<(int, int)>)
  {
    if !Dumped(snap) then None
    else
      var edits := Filter(snap.value.nodes, IsEditText);
      if edits != [] then Some(Centre(edits[LargestAt(edits)]))
      else
        match FirstLabel(Leaves(snap), Hints)
        case Some(i) => Some(Centre(Locate(Leaves(snap), Hints[i]).value))
        case None =>
          var areas := Filter(snap.value.nodes, FieldAreaFilter(height));
          if areas != [] then Some(Centre(areas[LargestAt(areas)])) else None
  }

  /** The largest `EditText` wins whenever there is one; of equal largest ones, the first. */
  lemma EditTextFirst(snap: Option<Snapshot>, height: int, k: nat)
    requires Dumped(snap) && k < |snap.value.nodes| && IsEditText(snap.value.nodes[k])
    ensures var r := FieldTarget(snap, height);
            r.Some? && exists n :: n in snap.value.nodes && IsEditText(n) && r.value == Centre(n)
                                   && snap.value.nodes[k].bounds.Area() <= n.bounds.Area()
  {
    var edits := Filter(snap.value.nodes, IsEditText);
    FilterMembers(snap.value.nodes, IsEditText);
    assert snap.value.nodes[k] in edits;
    var j :| 0 <= j < |edits| && edits[j] == snap.value.nodes[k];
    assert edits[LargestAt(edits)] in edits;
  }

  /** Without an `EditText`, a hint found in a self-closing node decides, in hint order. */
  lemma HintSecond(snap: Option<Snapshot>, height: int, i: nat)
    requires Dumped(snap) && forall j :: 0 <= j < |snap.value.nodes| ==> !IsEditText(snap.value.nodes[j])
    requires FirstLabel(Leaves(snap), Hints) == Some(i)
    ensures FieldTarget(snap, height) == Some(Centre(Locate(Leaves(snap), Hints[i]).value))
  {
    FilterEmpty(snap.value.nodes, IsEditText);
  }

  /** The three fixed spots of the fourth tier; the last one is kept as the field's position. */
  function DefaultTaps(width: int, height: int): seq<Action>
  {
    [Tapped(Int(width as real * 0.5), Int(height as real * 0.40)),
     Tapped(Int(width as real * 0.5), Int(height as real * 0.45)),
     Tapped(Int(width as real * 0.5), Int(height as real * 0.35))]
  }

  /** The taps up to focusing the field: the tier's tap(s), then the same position again. */
  function FocusTaps(snap: Option<Snapshot>, width: int, height: int): (r: seq<Action>)
    ensures |r| >= 2 && r[|r| - 1] == r[|r| - 2]
  {
    match FieldTarget(snap, height)
    case Some(p) => [Tapped(p.0, p.1), Tapped(p.0, p.1)]
    case None => DefaultTaps(width, height) + [Tapped(Int(width as real * 0.5), Int(height as real * 0.35))]
  }

  const Presses: nat := 20

  /** The tap that closes the keyboard. */
  function DismissTap(width: int, height: int): Action
  {
    Tapped(Int(width as real * 0.5), Int(height as real * 0.10))
  }

  /** `fill_report_text` from history `h`: focus, clear (50 asked, 20 sent), type, close the keyboard. */
  function FillSpec(screenOf: seq<Action> -> Option<Snapshot>, width: int, height: int, h: seq<Action>, text: string): (r: Run)
    ensures r.ok
  {
    var hc := h + FocusTaps(screenOf(h), width, height) + [TextCleared(Presses)];
    Run(hc + SmartInput(screenOf, hc, text).steps + [DismissTap(width, height)], true)
  }

  /** The text is typed after the field is focused and cleared, whatever the tiers find. */
  lemma FillTypesAfterClearing(screenOf: seq<Action> -> Option<Snapshot>, width: int, height: int, h: seq<Action>, text: string)
    ensures var hc := h + FocusTaps(screenOf(h), width, height) + [TextCleared(Presses)];
            var r := FillSpec(screenOf, width, height, h, text).history;
            |hc| < |r| && r[..|hc|] == hc && r[|r| - 1] == DismissTap(width, height)
            && r[|hc|..|r| - 1] == SmartInput(screenOf, hc, text).steps
  {
    var hc := h + FocusTaps(screenOf(h), width, height) + [TextCleared(Presses)];
    var s := SmartInput(screenOf, hc, text).steps;
    var r := hc + s + [DismissTap(width, height)];
    assert r[..|hc|] == hc;
    assert r[|hc|..|r| - 1] == s;
  }

  /** The tier search and the second tap on the field. */
  method FocusField(d: Device)
    modifies d
    ensures d.actions == old(d.actions) + FocusTaps(old(d.Screen()), d.width, d.height)
  {
    var target := FieldTarget(d.Screen(), d.height);
    var position: (int, int);
    if target.Some? {
      d.Tap(target.value.0, target.value.1);
      position := target.value;
    } else {
      var spots := DefaultTaps(d.width, d.height);
      ghost var h := d.actions;
      var i := 0;
      while i < 3
        invariant 0 <= i <= 3
        invariant d.actions == h + spots[..i]
      {
        assert spots[..i + 1] == spots[..i] + [spots[i]];
        d.Tap(spots[i].x, spots[i].y);
        i := i + 1;
      }
      assert spots[..3] == spots;
      position := (spots[2].x, spots[2].y);
    }
    d.Tap(position.0, position.1);
  }

  /** `fill_report_text` against the device. */
  method FillReportText(d: Device, text: string) returns (ok: bool)
    modifies d
    ensures var r := FillSpec(d.screenOf, d.width, d.height, old(d.actions), text);
            ok == r.ok && d.actions == r.history
  {
    FocusField(d);
    d.ClearText(50);
    ghost var hc := d.actions;
    var _ := d.InputTextSmart(text);
    assert d.actions == hc + SmartInput(d.screenOf, hc, text).steps;
    d.Tap(Int(d.width as real * 0.5), Int(d.height as real * 0.10));
    ok := true;
  }
}
