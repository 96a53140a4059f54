/**
 * `report_product` (anti_piracy_system/test/test_detection.py): open the share panel, find
 * the report entry (directly, after up to three swipes, or under "更多"), pick the report
 * type and reason from ordered candidate lists, fill in the generated text, upload three
 * images and submit. Missing the entry or the submit button means going back and failing.
 */
module ReportFlow {
  import opened Wrappers
  import opened Text
  import opened AdbDevice
  import ReportText
  import FillFlow
  import UploadFlow

  const Entry := "举报"

  const FirstLevel: seq<string> := ["假货/低质/山寨商品举报", "假货", "低质", "山寨", "商品举报", "其他"]

  const SecondLevel: seq<string> := ["盗版图书音像制品类", "盗版图书", "音像制品", "山寨抄袭商品类", "假货商品类", "低质劣质商品类", "其他"]

  const SubmitButtons: seq<string> := ["提交", "提交举报", "确认提交", "确定"]

  /** The share button in the top-right corner. */
  function ShareTap(width: int, height: int): Action
  {
    Tapped(width - 60, Int(height as real * 0.06))
  }

  /** `n` swipes along the bottom panel. */
  function Swipes(width: int, height: int, n: nat): (r: seq<Action>)
    ensures |r| == n && forall k :: 0 <= k < n ==> r[k] == SwipeLeftBottomStep(width, height)
  {
    seq(n, k => SwipeLeftBottomStep(width, height))
  }

  predicate Shows(screenOf: seq<Action> -> Option<Snapshot>, h: seq<Action>, t: string)
  {
    Locate(screenOf(h), t).Some?
  }

  /** Up to `n` rounds of swiping and looking for the report entry; the first sighting is tapped. */
  function SwipeSearch(screenOf: seq<Action> -> Option<Snapshot>, width: int, height: int, h: seq<Action>, n: nat): Run
    decreases n
  {
    if n == 0 then Run(h, false)
    else
      var h1 := h + [SwipeLeftBottomStep(width, height)];
      if Shows(screenOf, h1, Entry) then Run(h1 + ClickSteps(screenOf(h1), Entry), true)
      else SwipeSearch(screenOf, width, height, h1, n - 1)
  }

  /** One more swipe in front is the same as one more at the end. */
  lemma SwipesShift(width: int, height: int, h: seq<Action>, j: nat)
    requires j >= 1
    ensures h + Swipes(width, height, j) == h + [SwipeLeftBottomStep(width, height)] + Swipes(width, height, j - 1)
  {
    assert Swipes(width, height, j) == [SwipeLeftBottomStep(width, height)] + Swipes(width, height, j - 1);
  }

  /** The search fails iff the entry is missing after every one of the `n` swipes; then only the swipes were made. */
  lemma {:induction false} SwipeSearchFails(screenOf: seq<Action> -> Option<Snapshot>, width: int, height: int, h: seq<Action>, n: nat)
    ensures var r := SwipeSearch(screenOf, width, height, h, n);
            (!r.ok <==> forall j :: 1 <= j <= n ==> !Shows(screenOf, h + Swipes(width, height, j), Entry))
            && (!r.ok ==> r.history == h + Swipes(width, height, n))
    decreases n
  {
    if n == 0 {
      assert Swipes(width, height, 0) == [];
    } else {
      var h1 := h + [SwipeLeftBottomStep(width, height)];
      forall j | 1 <= j <= n
        ensures h + Swipes(width, height, j) == h1 + Swipes(width, height, j - 1)
      {
        SwipesShift(width, height, h, j);
      }
      assert h + Swipes(width, height, 1) == h1 + Swipes(width, height, 0);
      assert h1 + Swipes(width, height, 0) == h1;
      if !Shows(screenOf, h1, Entry) {
        SwipeSearchFails(screenOf, width, height, h1, n - 1);
        if SwipeSearch(screenOf, width, height, h1, n - 1).ok {
          var j :| 1 <= j <= n - 1 && Shows(screenOf, h1 + Swipes(width, height, j), Entry);
          assert Shows(screenOf, h + Swipes(width, height, j + 1), Entry);
        } else {
          forall j | 1 <= j <= n
            ensures !Shows(screenOf, h + Swipes(width, height, j), Entry)
          {
            SwipesShift(width, height, h, j);
            if j > 1 {
              assert 1 <= j - 1 <= n - 1;
              assert !Shows(screenOf, h1 + Swipes(width, height, j - 1), Entry);
            }
          }
        }
      }
    }
  }

  /**
   * Finding the report entry from history `h` (the share panel open): tapped directly, after
   * up to three swipes, or, failing those, through "更多", which counts as found whatever the
   * second look for the entry shows.
   */
  function EntrySpec(screenOf: seq<Action> -> Option<Snapshot>, width: int, height: int, h: seq<Action>): Run
  {
    if Shows(screenOf, h, Entry) then Run(h + ClickSteps(screenOf(h), Entry), true)
    else
      var s := SwipeSearch(screenOf, width, height, h, 3);
      if s.ok then s
      else if Shows(screenOf, s.history, "更多") then
        var h2 := s.history + ClickSteps(screenOf(s.history), "更多");
        Run(h2 + ClickSteps(screenOf(h2), Entry), true)
      else s
  }

  /**
   * No entry is found iff the entry is missing before and after each of the three swipes and
   * "更多" is missing after the last; then only the three swipes were made.
   */
  lemma EntryMissed(screenOf: seq<Action> -> Option<Snapshot>, width: int, height: int, h: seq<Action>)
    ensures var r := EntrySpec(screenOf, width, height, h);
            (!r.ok <==>
              !Shows(screenOf, h, Entry)
              && (forall j :: 1 <= j <= 3 ==> !Shows(screenOf, h + Swipes(width, height, j), Entry))
              && !Shows(screenOf, h + Swipes(width, height, 3), "更多"))
            && (!r.ok ==> r.history == h + Swipes(width, height, 3))
  {
    SwipeSearchFails(screenOf, width, height, h, 3);
  }

  /** A candidate list with its fallback tap: the first label shown is tapped, or else the fallback spot. */
  function Choose(screenOf: seq<Action> -> Option<Snapshot>, h: seq<Action>, labels: seq<string>, fallback: Action): (r: seq<Action>)
    ensures match FirstLabel(screenOf(h), labels)
            case Some(i) => r == h + ClickSteps(screenOf(h), labels[i]) && |r| == |h| + 1
            case None => r == h + [fallback]
  {
    h + (if FirstLabel(screenOf(h), labels).Some? then ClickFirstSteps(screenOf(h), labels) else [fallback])
  }

  /** The history from an opened report entry up to the submit step: type, reason, text, three images. */
  function PreSubmit(screenOf: seq<Action> -> Option<Snapshot>, width: int, height: int, h: seq<Action>, text: string): seq<Action>
  {
    var h1 := Choose(screenOf, h, FirstLevel, Tapped(Int(width as real * 0.5), Int(height as real * 0.4)));
    var h2 := Choose(screenOf, h1, SecondLevel, Tapped(Int(width as real * 0.5), Int(height as real * 0.35)));
    var h3 := FillFlow.FillSpec(screenOf, width, height, h2, text).history;
    UploadFlow.UploadSpec(screenOf, width, height, h3, 3).history
  }

  /** The confirmation dialog after submitting: "确定", or else "知道了". */
  function Acknowledge(screenOf: seq<Action> -> Option<Snapshot>, h: seq<Action>): seq<Action>
  {
    if Shows(screenOf, h, "确定") then h + ClickSteps(screenOf(h), "确定") else h + ClickSteps(screenOf(h), "知道了")
  }

  /** The submit step from history `h`: a submit label tapped and the dialog acknowledged, or back and fail. */
  function SubmitSpec(screenOf: seq<Action> -> Option<Snapshot>, h: seq<Action>): Run
  {
    if FirstLabel(screenOf(h), SubmitButtons).Some? then
      Run(Acknowledge(screenOf, h + ClickFirstSteps(screenOf(h), SubmitButtons)), true)
    else Run(h + [BackPressed], false)
  }

  /** `report_product` from history `h`, typing `text`. */
  function ReportSpec(screenOf: seq<Action> -> Option<Snapshot>, width: int, height: int, h: seq<Action>, text: string): Run
  {
    var e := EntrySpec(screenOf, width, height, h + [ShareTap(width, height)]);
    if !e.ok then Run(e.history + [BackPressed], false)
    else SubmitSpec(screenOf, PreSubmit(screenOf, width, height, e.history, text))
  }

  /**
   * Without a report entry the flow swipes three times, goes back and fails; with one, it
   * succeeds iff a submit label is shown once the images are uploaded. Every failure ends
   * by going back.
   */
  lemma ReportOutcome(screenOf: seq<Action> -> Option<Snapshot>, width: int, height: int, h: seq<Action>, text: string)
    ensures var e := EntrySpec(screenOf, width, height, h + [ShareTap(width, height)]);
            var r := ReportSpec(screenOf, width, height, h, text);
            (!e.ok ==> r == Run(h + [ShareTap(width, height)] + Swipes(width, height, 3) + [BackPressed], false))
            && (e.ok ==> (r.ok <==> FirstLabel(screenOf(PreSubmit(screenOf, width, height, e.history, text)), SubmitButtons).Some?))
            && (!r.ok ==> |r.history| > 0 && r.history[|r.history| - 1] == BackPressed)
  {
    EntryMissed(screenOf, width, height, h + [ShareTap(width, height)]);
  }

  /** The report entry search against the device. */
  method FindEntry(d: Device) returns (found: bool)
    modifies d
    ensures var r := EntrySpec(d.screenOf, d.width, d.height, old(d.actions));
            found == r.ok && d.actions == r.history
  {
    ghost var h := d.actions;
    found := d.FindAndClickText(Entry);
    if found {
      return;
    }
    assert d.actions == h;
    assert d.actions == h + Swipes(d.width, d.height, 0);
    var i := 0;
    while i < 3
      invariant 0 <= i <= 3 && !found
      invariant d.actions == h + Swipes(d.width, d.height, i)
      invariant SwipeSearch(d.screenOf, d.width, d.height, h, 3) == SwipeSearch(d.screenOf, d.width, d.height, d.actions, 3 - i)
    {
      assert Swipes(d.width, d.height, i + 1) == Swipes(d.width, d.height, i) + [SwipeLeftBottomStep(d.width, d.height)];
      ghost var hp := d.actions;
      d.SwipeLeftBottom();
      ghost var h1 := d.actions;
      found := d.FindAndClickText(Entry);
      if found {
        return;
      }
      assert d.actions == h1 == hp + [SwipeLeftBottomStep(d.width, d.height)];
      assert !Shows(d.screenOf, h1, Entry);
      i := i + 1;
    }
    var more := d.FindAndClickText("更多");
    if more {
      var _ := d.FindAndClickText(Entry);
      found := true;
    }
  }

  /** A candidate list with its fallback tap, against the device. */
  method ChooseOn(d: Device, labels: seq<string>, fallback: Action)
    requires fallback.Tapped?
    modifies d
    ensures d.actions == Choose(d.screenOf, old(d.actions), labels, fallback)
  {
    var hit := d.ClickFirst(labels);
    if hit.None? {
      d.Tap(fallback.x, fallback.y);
    }
  }

  /** Report type, reason, text and images, against the device. */
  method Prepare(d: Device, text: string)
    modifies d
    ensures d.actions == PreSubmit(d.screenOf, d.width, d.height, old(d.actions), text)
  {
    ChooseOn(d, FirstLevel, Tapped(Int(d.width as real * 0.5), Int(d.height as real * 0.4)));
    ChooseOn(d, SecondLevel, Tapped(Int(d.width as real * 0.5), Int(d.height as real * 0.35)));
    var _ := FillFlow.FillReportText(d, text);
    var _ := UploadFlow.UploadEvidenceImages(d, 3);
  }

  /** The submit step against the device. */
  method Submit(d: Device) returns (ok: bool)
    modifies d
    ensures var r := SubmitSpec(d.screenOf, old(d.actions));
            ok == r.ok && d.actions == r.history
  {
    var hit := d.ClickFirst(SubmitButtons);
    if hit.Some? {
      ghost var ha := d.actions;
      var confirmed := d.FindAndClickText("确定");
      if !confirmed {
        assert d.actions == ha;
        var _ := d.FindAndClickText("知道了");
      }
      return true;
    }
    d.Back();
    return false;
  }

  /** `report_product` against the device; the text is `generate_report_text` with the default original price. */
  method ReportProduct(d: Device, keyword: string, shop: string, price: Option<real>, title: Option<string>,
                       fmt0: real -> string) returns (ok: bool)
    modifies d
    ensures var text := ReportText.GenerateReportText(keyword, shop, price, title, ReportText.DefaultOriginalPrice, fmt0);
            var r := ReportSpec(d.screenOf, d.width, d.height, old(d.actions), text);
            ok == r.ok && d.actions == r.history
  {
    var share := ShareTap(d.width, d.height);
    d.Tap(share.x, share.y);
    var found := FindEntry(d);
    if !found {
      d.Back();
      return false;
    }
    var text := ReportText.GenerateReportText(keyword, shop, price, title, ReportText.DefaultOriginalPrice, fmt0);
    Prepare(d, text);
    ok := Submit(d);
  }
}
