/**
 * `upload_evidence_images` (anti_piracy_system/test/test_detection.py): open the image
 * picker, allow access, choose an album, tap the gallery images top to bottom and left to
 * right, top the count up from a fixed four-column grid, and confirm.
 */
module UploadFlow {
  import opened Wrappers
  import opened Text
  import opened Seqs
  import opened AdbDevice

  const AlbumOptions: seq<string> := ["从相册中选择", "从相册选择", "相册", "选择照片", "照片"]

  const AlbumNames: seq<string> := ["截图", "Screenshots", "屏幕截图", "最近项目", "最近", "全部图片", "全部"]

  const ConfirmButtons: seq<string> := ["确定", "完成", "确认", "下一步", "添加"]

  function TextIs(t: string): Node -> bool
  {
    (n: Node) => n.text == t
  }

  /** The first node whose text is exactly `t`. */
  function NodeTitled(snap: Option<Snapshot>, t: string): (r: Option<Node>)
    ensures r.Some? ==> Dumped(snap) && r.value in snap.value.nodes && r.value.text == t
    ensures r.None? <==> !Dumped(snap) || forall i :: 0 <= i < |snap.value.nodes| ==> snap.value.nodes[i].text != t
  {
    if !Dumped(snap) then None
    else
      FilterMembers(snap.value.nodes, TextIs(t));
      FilterEmpty(snap.value.nodes, TextIs(t));
      First(Filter(snap.value.nodes, TextIs(t)))
  }

  /** The tap on the "+" button: left of "0/3", else below "图片证据", else a fixed spot. */
  function AddTap(snap: Option<Snapshot>, width: int, height: int): Action
  {
    match NodeTitled(snap, "0/3")
    case Some(n) => Tapped(n.bounds.x1 - 50, (n.bounds.y1 + n.bounds.y2) / 2 - 30)
    case None =>
      match NodeTitled(snap, "图片证据")
      case Some(n) => Tapped(n.bounds.x1 + 60, n.bounds.y2 + 60)
      case None => Tapped(Int(width as real * 0.15), Int(height as real * 0.62))
  }

  /** The history after the permission prompt: "允许", then "仅限此次" or else "始终允许". */
  function AfterPermission(screenOf: seq<Action> -> Option<Snapshot>, h: seq<Action>): seq<Action>
  {
    var h1 := h + ClickSteps(screenOf(h), "允许");
    var once := ClickSteps(screenOf(h1), "仅限此次");
    h1 + (if once != [] then once else ClickSteps(screenOf(h1), "始终允许"))
  }

  /** The history after "+" and the picker option. */
  function AfterPicker(screenOf: seq<Action> -> Option<Snapshot>, width: int, height: int, h: seq<Action>): seq<Action>
  {
    var h1 := h + [AddTap(screenOf(h), width, height)];
    h1 + ClickFirstSteps(screenOf(h1), AlbumOptions)
  }

  /** The history on reaching the album screen: "+", picker option, permissions, album. */
  function AtAlbum(screenOf: seq<Action> -> Option<Snapshot>, width: int, height: int, h: seq<Action>): seq<Action>
  {
    var h3 := AfterPermission(screenOf, AfterPicker(screenOf, width, height, h));
    h3 + ClickFirstSteps(screenOf(h3), AlbumNames)
  }

  /** A gallery image: an `ImageView` wider and taller than a sixth of the screen width, below the top tenth. */
  predicate IsImage(n: Node, width: int, height: int)
  {
    Contains(n.cls, "ImageView")
    && n.bounds.x2 - n.bounds.x1 > width / 6
    && n.bounds.y2 - n.bounds.y1 > width / 6
    && n.bounds.y1 as real > height as real * 0.1
  }

  function ImageFilter(width: int, height: int): Node -> bool
  {
    (n: Node) => IsImage(n, width, height)
  }

  function BoundsOf(n: Node): Bounds
  {
    n.bounds
  }

  /** The `(y1, x1)` sort key. */
  function TopLeftFirst(a: Bounds, b: Bounds): bool
  {
    a.y1 < b.y1 || (a.y1 == b.y1 && a.x1 <= b.x1)
  }

  lemma TopLeftFirstPreorder()
    ensures TotalPreorder(TopLeftFirst)
  {
  }

  /** The gallery images, top to bottom and left to right. */
  function Images(snap: Option<Snapshot>, width: int, height: int): seq<Bounds>
  {
    if !Dumped(snap) then []
    else Sort(MapSeq(Filter(snap.value.nodes, ImageFilter(width, height)), BoundsOf), TopLeftFirst)
  }

  /** `image_positions[:max_images]` */
  function Picked(snap: Option<Snapshot>, width: int, height: int, maxImages: int): seq<Bounds>
  {
    PyTake(Images(snap, width, height), maxImages)
  }

  /** The picked images are gallery images and come in `(y1, x1)` order. */
  lemma PickedInOrder(snap: Option<Snapshot>, width: int, height: int, maxImages: int)
    ensures var p := Picked(snap, width, height, maxImages);
            (forall i, j :: 0 <= i < j < |p| ==> TopLeftFirst(p[i], p[j]))
            && (forall i :: 0 <= i < |p| ==> exists n :: n in snap.value.nodes && IsImage(n, width, height) && n.bounds == p[i])
            && (0 <= maxImages ==> |p| == if maxImages < |Images(snap, width, height)| then maxImages else |Images(snap, width, height)|)
  {
    if Dumped(snap) {
      var found := Filter(snap.value.nodes, ImageFilter(width, height));
      var bs := MapSeq(found, BoundsOf);
      TopLeftFirstPreorder();
      SortSorted(bs, TopLeftFirst);
      SortPermutes(bs, TopLeftFirst);
      FilterMembers(snap.value.nodes, ImageFilter(width, height));
      var all := Images(snap, width, height);
      var p := Picked(snap, width, height, maxImages);
      forall i | 0 <= i < |p|
        ensures exists n :: n in snap.value.nodes && IsImage(n, width, height) && n.bounds == p[i]
      {
        assert p[i] == all[i];
        assert all[i] in multiset(all);
        assert p[i] in multiset(bs);
        var k :| 0 <= k < |bs| && bs[k] == p[i];
        assert found[k] in found;
      }
    }
  }

  function CentreTap(b: Bounds): Action
  {
    Tapped(b.CenterX(), b.CenterY())
  }

  /** The grid tap for image `i`: four columns a quarter wide, rows 18% of the height apart. */
  function GridTap(width: int, height: int, i: nat): Action
  {
    Tapped(GridX(width, i % 4), GridY(height, i / 4))
  }

  /** `int(width * (0.125 + col * 0.25))` */
  function GridX(width: int, col: nat): int
  {
    Int(width as real * (0.125 + col as real * 0.25))
  }

  /** `int(height * (0.18 + row * 0.18))` */
  function GridY(height: int, row: nat): int
  {
    Int(height as real * (0.18 + row as real * 0.18))
  }

  /** The grid taps for images `from` up to `to - 1` (none when `from >= to`). */
  function GridTaps(width: int, height: int, from: nat, to: int): (r: seq<Action>)
    ensures |r| == if from < to then to - from else 0
    ensures forall k :: 0 <= k < |r| ==> r[k] == GridTap(width, height, from + k)
  {
    if from < to then seq(to - from, k requires 0 <= k < to - from => GridTap(width, height, from + k)) else []
  }

  const CountOpen := '('

  /** `\(\d+\)` at the start of `s`. */
  predicate CountAt(s: string)
  {
    |s| >= 3 && s[0] == CountOpen && IsDigit(s[1]) && DigitsThenClose(s[2..])
  }

  predicate DigitsThenClose(s: string)
    decreases |s|
  {
    |s| > 0 && (s[0] == ')' || (IsDigit(s[0]) && DigitsThenClose(s[1..])))
  }

  /** `\(\d+\)` somewhere in `s`. */
  predicate HasCount(s: string)
    decreases |s|
  {
    CountAt(s) || (|s| > 0 && HasCount(s[1..]))
  }

  /** A text with 确定, 完成 or 确认 followed, somewhere after it, by a count such as `(2)`. */
  predicate CountedConfirm(t: string)
  {
    exists i: nat | i < |t| :: ConfirmAt(t, i)
  }

  predicate ConfirmAt(t: string, i: nat)
  {
    i + 2 <= |t| && (t[i..i + 2] == "确定" || t[i..i + 2] == "完成" || t[i..i + 2] == "确认") && HasCount(t[i + 2..])
  }

  function CountedConfirmFilter(): Node -> bool
  {
    (n: Node) => CountedConfirm(n.text)
  }

  /** The confirming tap: a counted confirm label, else the first confirm label shown, else the top-right corner. */
  function ConfirmSteps(snap: Option<Snapshot>, width: int, height: int): (r: seq<Action>)
    ensures |r| == 1
  {
    var counted := if Dumped(snap) then First(Filter(snap.value.nodes, CountedConfirmFilter())) else None;
    if counted.Some? then [CentreTap(counted.value.bounds)]
    else if FirstLabel(snap, ConfirmButtons).Some? then ClickFirstSteps(snap, ConfirmButtons)
    else [Tapped(width - 80, Int(height as real * 0.06))]
  }

  /** The image taps: the picked images' centres, then grid taps up to `max_images`. */
  function ImageTaps(picked: seq<Bounds>, width: int, height: int, maxImages: int): seq<Action>
  {
    MapSeq(picked, CentreTap) + GridTaps(width, height, |picked|, maxImages)
  }

  /** `upload_evidence_images` from history `h`: the history it leaves and the returned `selected_count > 0`. */
  function UploadSpec(screenOf: seq<Action> -> Option<Snapshot>, width: int, height: int, h: seq<Action>,
                      maxImages: int): (o: Run)
  {
    var ha := AtAlbum(screenOf, width, height, h);
    var taps := ImageTaps(Picked(screenOf(ha), width, height, maxImages), width, height, maxImages);
    Run(ha + taps + ConfirmSteps(screenOf(ha + taps), width, height), |taps| > 0)
  }

  /** With a non-negative `max_images`, exactly `max_images` images are tapped, so the upload reports `max_images > 0`. */
  lemma UploadCount(screenOf: seq<Action> -> Option<Snapshot>, width: int, height: int, h: seq<Action>, maxImages: int)
    requires maxImages >= 0
    ensures var ha := AtAlbum(screenOf, width, height, h);
            |ImageTaps(Picked(screenOf(ha), width, height, maxImages), width, height, maxImages)| == maxImages
    ensures UploadSpec(screenOf, width, height, h, maxImages).ok <==> maxImages > 0
  {
    PickedInOrder(screenOf(AtAlbum(screenOf, width, height, h)), width, height, maxImages);
  }

  /** The picked images are tapped first, in order; the grid continues their numbering up to `max_images`. */
  lemma ImageTapsOrder(picked: seq<Bounds>, width: int, height: int, maxImages: int)
    ensures var taps := ImageTaps(picked, width, height, maxImages);
            (forall k :: 0 <= k < |picked| ==> taps[k] == CentreTap(picked[k]))
            && (forall k :: |picked| <= k < maxImages ==> taps[k] == GridTap(width, height, k))
  {
    var a := MapSeq(picked, CentreTap);
    var g := GridTaps(width, height, |picked|, maxImages);
    forall k | |picked| <= k < maxImages
      ensures (a + g)[k] == GridTap(width, height, k)
    {
      assert (a + g)[k] == g[k - |picked|];
    }
  }

  method OpenAlbum(d: Device)
    modifies d
    ensures d.actions == AtAlbum(d.screenOf, d.width, d.height, old(d.actions))
  {
    var add := AddTap(d.Screen(), d.width, d.height);
    d.Tap(add.x, add.y);
    var _ := d.ClickFirst(AlbumOptions);
    ghost var h2 := d.actions;
    var _ := d.FindAndClickText("允许");
    ghost var h1 := d.actions;
    var once := d.FindAndClickText("仅限此次");
    if !once {
      assert d.actions == h1;
      var _ := d.FindAndClickText("始终允许");
    }
    assert d.actions == AfterPermission(d.screenOf, h2);
    var _ := d.ClickFirst(AlbumNames);
  }

  method TapImages(d: Device, picked: seq<Bounds>, maxImages: int) returns (count: nat)
    modifies d
    ensures d.actions == old(d.actions) + ImageTaps(picked, d.width, d.height, maxImages)
    ensures count == |ImageTaps(picked, d.width, d.height, maxImages)|
  {
    ghost var h := d.actions;
    var selected: nat := 0;
    while selected < |picked|
      invariant 0 <= selected <= |picked|
      invariant d.actions == h + MapSeq(picked[..selected], CentreTap)
    {
      MapSeqSnoc(picked, selected, CentreTap);
      d.Tap(picked[selected].CenterX(), picked[selected].CenterY());
      selected := selected + 1;
    }
    assert picked[..selected] == picked;
    ghost var tapped := d.actions;
    var i := selected;
    while i < maxImages
      invariant selected <= i && (selected < maxImages ==> i <= maxImages) && (selected >= maxImages ==> i == selected)
      invariant d.actions == tapped + GridTaps(d.width, d.height, selected, i)
    {
      assert GridTaps(d.width, d.height, selected, i + 1) == GridTaps(d.width, d.height, selected, i) + [GridTap(d.width, d.height, i)];
      var t := GridTap(d.width, d.height, i);
      d.Tap(t.x, t.y);
      i := i + 1;
    }
    assert GridTaps(d.width, d.height, selected, i) == GridTaps(d.width, d.height, |picked|, maxImages);
    count := selected + (if selected < maxImages then maxImages - selected else 0);
  }

  method Confirm(d: Device)
    modifies d
    ensures d.actions == old(d.actions) + ConfirmSteps(old(d.Screen()), d.width, d.height)
  {
    var snap := d.Screen();
    var counted := if Dumped(snap) then First(Filter(snap.value.nodes, CountedConfirmFilter())) else None;
    if counted.Some? {
      d.Tap(counted.value.bounds.CenterX(), counted.value.bounds.CenterY());
    } else {
      var hit := d.ClickFirst(ConfirmButtons);
      if hit.None? {
        d.Tap(d.width - 80, Int(d.height as real * 0.06));
      }
    }
  }

  /** `upload_evidence_images` against the device. */
  method UploadEvidenceImages(d: Device, maxImages: int) returns (ok: bool)
    modifies d
    ensures var o := UploadSpec(d.screenOf, d.width, d.height, old(d.actions), maxImages);
            ok == o.ok && d.actions == o.history
  {
    OpenAlbum(d);
    var picked := Picked(d.Screen(), d.width, d.height, maxImages);
    var count := TapImages(d, picked, maxImages);
    Confirm(d);
    ok := count > 0;
  }
}
