/**
 * `extract_single_product` and the `run_detection` pagination (anti_piracy_system/test/test_detection.py):
 * products are opened from a two-column grid of four visible items, their top and bottom
 * screens are read, merged, optionally reported, and the list is swiped up after every
 * four processed products.
 */
module DetectionRun {
  import opened Wrappers
  import opened Text
  import opened Seqs
  import opened AdbDevice
  import ProductExtractor
  import OfficialShops
  import ReportText
  import ReportFlow

  const ProductsPerPage: nat := 4

  /** What `extract_single_product` returns; `official`/`reported` are only present in report mode. */
  datatype FinalInfo = FinalInfo(index: nat, title: Option<string>, price: Option<real>, shop: string,
                                 official: Option<bool>, reported: Option<bool>)

  /** Python's `a or b` on optional prices: `a` unless it is missing or zero. */
  function PriceOr(a: Option<real>, b: Option<real>): (r: Option<real>)
    ensures a.Some? && a.value != 0.0 ==> r == a
    ensures a.None? || a.value == 0.0 ==> r == b
  {
    if a.Some? && a.value != 0.0 then a else b
  }

  const UnknownShop := "未知店铺_"

  /**
   * The merged record of product `index` (1-based): title and price prefer the top screen,
   * the shop prefers the bottom screen, then the top, then `未知店铺_<index>`.
   */
  function MergeInfo(top: ProductExtractor.ExtractedInfo, bottom: ProductExtractor.ExtractedInfo, index: nat): (r: FinalInfo)
    ensures r.index == index && r.official.None? && r.reported.None?
    ensures r.title == OrElse(top.title, bottom.title) && r.price == PriceOr(top.price, bottom.price)
    ensures r.shop != ""
    ensures Truthy(bottom.shopName) ==> r.shop == bottom.shopName.value
    ensures !Truthy(bottom.shopName) && Truthy(top.shopName) ==> r.shop == top.shopName.value
    ensures !Truthy(bottom.shopName) && !Truthy(top.shopName) ==> r.shop == UnknownShop + NatToString(index)
  {
    var shop := if Truthy(bottom.shopName) then bottom.shopName.value
                else if Truthy(top.shopName) then top.shopName.value
                else UnknownShop + NatToString(index);
    FinalInfo(index, OrElse(top.title, bottom.title), PriceOr(top.price, bottom.price), shop, None, None)
  }

  /** Where the product at grid position `visible` is tapped: columns at 1/4 and 3/4, rows at 40% and 70%. */
  function TapPosition(width: int, height: int, visible: nat): (p: (int, int))
    ensures p.0 == (if visible % 2 == 0 then width / 4 else (width * 3) / 4)
    ensures p.1 == (if visible / 2 == 0 then Int(height as real * 0.40) else Int(height as real * 0.70))
  {
    var x := if visible % 2 == 0 then width / 4 else (width * 3) / 4;
    var y := if visible / 2 == 0 then Int(height as real * 0.40) else Int(height as real * 0.70);
    (x, y)
  }

  /** The four grid positions are pairwise different whenever the screen is at least 4 by 4 pixels. */
  lemma GridPositionsDistinct(width: int, height: int, u: nat, v: nat)
    requires width >= 4 && height >= 4 && u < ProductsPerPage && v < ProductsPerPage && u != v
    ensures TapPosition(width, height, u) != TapPosition(width, height, v)
  {
    assert width / 4 < (width * 3) / 4;
    assert Int(height as real * 0.40) < Int(height as real * 0.70);
  }

  function NodeText(n: Node): string
  {
    n.text
  }

  /** Every `text` attribute of the dump, in document order; none without a dump. */
  function TextsOf(snap: Option<Snapshot>): (r: seq<string>)
    ensures !Dumped(snap) ==> r == []
    ensures Dumped(snap) ==> |r| == |snap.value.nodes|
  {
    if Dumped(snap) then MapSeq(snap.value.nodes, NodeText) else []
  }

  function SwipeDownStep(width: int, height: int): Action
  {
    Swiped(width / 2, Int(height as real * 0.7), width / 2, Int(height as real * 0.3), 500)
  }

  /** The swipe back to the top of the detail page before reporting. */
  function SwipeBackStep(width: int, height: int): Action
  {
    Swiped(width / 2, Int(height as real * 0.3), width / 2, Int(height as real * 0.7), 500)
  }

  datatype ProductRun = ProductRun(history: seq<Action>, info: FinalInfo)

  /** The history up to the bottom screen: the product tap and the swipe down. */
  function Opened(width: int, height: int, h: seq<Action>, visible: nat): seq<Action>
  {
    var p := TapPosition(width, height, visible);
    h + [Tapped(p.0, p.1)]
  }

  /** The merged record read from the two screens of a product opened from history `h`. */
  function Read(screenOf: seq<Action> -> Option<Snapshot>, width: int, height: int, h: seq<Action>, index: nat, visible: nat): (r: FinalInfo)
    ensures r.index == index && r.shop != "" && r.official.None? && r.reported.None?
  {
    var h1 := Opened(width, height, h, visible);
    var top := ProductExtractor.Extract(TextsOf(screenOf(h1)));
    var bottom := ProductExtractor.Extract(TextsOf(screenOf(h1 + [SwipeDownStep(width, height)])));
    MergeInfo(top, bottom, index)
  }

  /**
   * `extract_single_product` for product `index` (1-based) at grid position `visible`, from
   * history `h`: open, read both screens, in report mode skip official shops and report the
   * others, then go back to the list.
   */
  function ProductSpec(screenOf: seq<Action> -> Option<Snapshot>, width: int, height: int, h: seq<Action>,
                       index: nat, visible: nat, report: bool, keyword: string, fmt0: real -> string): (r: ProductRun)
    ensures |r.history| > 0 && r.history[|r.history| - 1] == BackPressed
    ensures r.info.index == index && r.info.shop != ""
    ensures !report ==> r.info.official.None? && r.info.reported.None?
    ensures report ==> r.info.official == Some(OfficialShops.IsOfficialShop(r.info.shop))
    ensures report && OfficialShops.IsOfficialShop(r.info.shop) ==> r.info.reported == Some(false)
  {
    var h2 := Opened(width, height, h, visible) + [SwipeDownStep(width, height)];
    var info := Read(screenOf, width, height, h, index, visible);
    if !report then ProductRun(h2 + [BackPressed], info)
    else if OfficialShops.IsOfficialShop(info.shop) then
      ProductRun(h2 + [BackPressed], info.(official := Some(true), reported := Some(false)))
    else ReportedProduct(screenOf, width, height, h2, info, keyword, fmt0)
  }

  /** A product whose shop is not official, in report mode: back to the top, report it, then back to the list. */
  function ReportedProduct(screenOf: seq<Action> -> Option<Snapshot>, width: int, height: int, h2: seq<Action>,
                           info: FinalInfo, keyword: string, fmt0: real -> string): (r: ProductRun)
    ensures |r.history| > 0 && r.history[|r.history| - 1] == BackPressed
    ensures r.info.index == info.index && r.info.shop == info.shop && r.info.official == Some(false) && r.info.reported.Some?
  {
    var text := ReportText.GenerateReportText(keyword, info.shop, info.price, info.title, ReportText.DefaultOriginalPrice, fmt0);
    var rs := ReportFlow.ReportSpec(screenOf, width, height, h2 + [SwipeBackStep(width, height)], text);
    ProductRun(rs.history + [BackPressed], info.(official := Some(false), reported := Some(rs.ok)))
  }

  /** `extract_single_product` as a step of the run: from a history, a 1-based index and a grid position. */
  type Product = (seq<Action>, nat, nat) -> ProductRun

  function ProductOf(screenOf: seq<Action> -> Option<Snapshot>, width: int, height: int,
                     report: bool, keyword: string, fmt0: real -> string): (p: Product)
    ensures forall h, index, visible :: p(h, index, visible).info.index == index
    ensures !report ==> forall h, index, visible :: p(h, index, visible).info.reported.None?
  {
    (h: seq<Action>, index: nat, visible: nat) => ProductSpec(screenOf, width, height, h, index, visible, report, keyword, fmt0)
  }

  /** The state of `run_detection` after some products: the device history and the results. */
  datatype RunState = RunState(history: seq<Action>, results: seq<FinalInfo>)

  /** The grid position of product `i` (0-based): four per page. */
  function Visible(i: nat): nat
  {
    i % ProductsPerPage
  }

  /** A list swipe comes before product `i` iff it is the first of a new page. */
  predicate PageTurn(i: nat)
  {
    i > 0 && i % ProductsPerPage == 0
  }

  /**
   * One iteration of `run_detection` for product `i`: the page swipe if due, then the product,
   * or, when the product raises, a back press and no result.
   */
  function Iteration(product: Product, swipe: Action, st: RunState, i: nat, raises: nat -> bool): RunState
  {
    var h := if PageTurn(i) then st.history + [swipe] else st.history;
    if raises(i) then RunState(h + [BackPressed], st.results)
    else
      var p := product(h, i + 1, Visible(i));
      RunState(p.history, st.results + [p.info])
  }

  /** `run_detection`'s loop over the first `n` products, from history `h`. */
  function RunSpec(product: Product, swipe: Action, h: seq<Action>, n: nat, raises: nat -> bool): RunState
    decreases n
  {
    if n == 0 then RunState(h, [])
    else Iteration(product, swipe, RunSpec(product, swipe, h, n - 1, raises), n - 1, raises)
  }

  /** Every result is one of the first `n` products and did not raise. */
  predicate FromNonRaising(rs: seq<FinalInfo>, n: nat, raises: nat -> bool)
  {
    forall j :: 0 <= j < |rs| ==> 1 <= rs[j].index <= n && !raises(rs[j].index - 1)
  }

  predicate IndexOrdered(rs: seq<FinalInfo>)
  {
    forall j, k :: 0 <= j < k < |rs| ==> rs[j].index < rs[k].index
  }

  /** Every one of the first `n` products that did not raise has a result. */
  predicate CoversNonRaising(rs: seq<FinalInfo>, n: nat, raises: nat -> bool)
  {
    forall i :: 0 <= i < n && !raises(i) ==> exists j :: 0 <= j < |rs| && rs[j].index == i + 1
  }

  /** Each result is one of the first `n` products, and one that did not raise. */
  lemma {:induction false} ResultsFromNonRaising(product: Product, swipe: Action, h: seq<Action>, n: nat, raises: nat -> bool)
    requires forall h', index, visible :: product(h', index, visible).info.index == index
    ensures FromNonRaising(RunSpec(product, swipe, h, n, raises).results, n, raises)
    decreases n
  {
    if n > 0 {
      ResultsFromNonRaising(product, swipe, h, n - 1, raises);
      var prev := RunSpec(product, swipe, h, n - 1, raises);
      var hh := if PageTurn(n - 1) then prev.history + [swipe] else prev.history;
      var x := product(hh, n, Visible(n - 1)).info;
      FromNonRaisingStep(prev.results, x, n, raises);
      assert RunSpec(product, swipe, h, n, raises).results == if raises(n - 1) then prev.results else prev.results + [x];
    }
  }

  /** One more product keeps the results drawn from the non-raising ones, whether it raised or not. */
  lemma FromNonRaisingStep(ps: seq<FinalInfo>, x: FinalInfo, n: nat, raises: nat -> bool)
    requires n > 0 && FromNonRaising(ps, n - 1, raises) && x.index == n
    ensures FromNonRaising(ps, n, raises)
    ensures !raises(n - 1) ==> FromNonRaising(ps + [x], n, raises)
  {
    var rs := ps + [x];
    assert forall j :: 0 <= j < |ps| ==> rs[j] == ps[j];
  }

  /** The results come in product order. */
  lemma {:induction false} ResultsOrdered(product: Product, swipe: Action, h: seq<Action>, n: nat, raises: nat -> bool)
    requires forall h', index, visible :: product(h', index, visible).info.index == index
    ensures IndexOrdered(RunSpec(product, swipe, h, n, raises).results)
    decreases n
  {
    if n > 0 {
      ResultsOrdered(product, swipe, h, n - 1, raises);
      ResultsFromNonRaising(product, swipe, h, n - 1, raises);
      var prev := RunSpec(product, swipe, h, n - 1, raises);
      if !raises(n - 1) {
        var hh := if PageTurn(n - 1) then prev.history + [swipe] else prev.history;
        var rs := prev.results + [product(hh, n, Visible(n - 1)).info];
        assert RunSpec(product, swipe, h, n, raises).results == rs;
        forall j, k | 0 <= j < k < |rs|
          ensures rs[j].index < rs[k].index
        {
          if k < |prev.results| {
            assert rs[j] == prev.results[j] && rs[k] == prev.results[k];
          } else {
            assert rs[j] == prev.results[j];
          }
        }
      }
    }
  }

  /** Every product among the first `n` that did not raise has a result. */
  lemma {:induction false} ResultsCover(product: Product, swipe: Action, h: seq<Action>, n: nat, raises: nat -> bool)
    requires forall h', index, visible :: product(h', index, visible).info.index == index
    ensures CoversNonRaising(RunSpec(product, swipe, h, n, raises).results, n, raises)
    decreases n
  {
    if n > 0 {
      ResultsCover(product, swipe, h, n - 1, raises);
      var prev := RunSpec(product, swipe, h, n - 1, raises);
      var ps := prev.results;
      var hh := if PageTurn(n - 1) then prev.history + [swipe] else prev.history;
      var rs := if raises(n - 1) then ps else ps + [product(hh, n, Visible(n - 1)).info];
      assert RunSpec(product, swipe, h, n, raises).results == rs;
      forall i | 0 <= i < n && !raises(i)
        ensures exists j :: 0 <= j < |rs| && rs[j].index == i + 1
      {
        if i == n - 1 {
          assert rs[|ps|].index == i + 1;
        } else {
          var j :| 0 <= j < |ps| && ps[j].index == i + 1;
          assert rs[j] == ps[j];
        }
      }
    }
  }

  predicate Unreported(rs: seq<FinalInfo>)
  {
    forall j :: 0 <= j < |rs| ==> rs[j].reported.None?
  }

  /** Without report mode no result carries a report outcome, so nothing is counted as reported. */
  lemma {:induction false} NothingReportedWithoutReportMode(product: Product, swipe: Action, h: seq<Action>, n: nat, raises: nat -> bool)
    requires forall h', index, visible :: product(h', index, visible).info.reported.None?
    ensures Unreported(RunSpec(product, swipe, h, n, raises).results)
    decreases n
  {
    if n > 0 {
      NothingReportedWithoutReportMode(product, swipe, h, n - 1, raises);
      var prev := RunSpec(product, swipe, h, n - 1, raises);
      if !raises(n - 1) {
        var hh := if PageTurn(n - 1) then prev.history + [swipe] else prev.history;
        assert RunSpec(product, swipe, h, n, raises).results == prev.results + [product(hh, n, Visible(n - 1)).info];
      }
    }
  }

  /** The evidence table after the products `rs` have saved theirs, in order, starting from `t`. */
  function Recorded(t: OfficialShops.Table, evidenceDir: string, captured: nat -> (bool, bool), rs: seq<FinalInfo>): OfficialShops.Table
    decreases |rs|
  {
    if rs == [] then t
    else
      var r := rs[|rs| - 1];
      OfficialShops.ProductEvidence(Recorded(t, evidenceDir, captured, rs[..|rs| - 1]), evidenceDir, r.shop,
                                    captured(r.index).0, captured(r.index).1, ShopInfoOf(r))
  }

  /** A run keeps the table sound: every shop listed once, and exactly the listed shops have an entry. */
  lemma {:induction false} RecordedSound(t: OfficialShops.Table, evidenceDir: string, captured: nat -> (bool, bool), rs: seq<FinalInfo>)
    requires OfficialShops.Sound(t)
    ensures OfficialShops.Sound(Recorded(t, evidenceDir, captured, rs))
    decreases |rs|
  {
    if rs != [] {
      var last := rs[|rs| - 1];
      RecordedSound(t, evidenceDir, captured, rs[..|rs| - 1]);
      OfficialShops.ProductEvidenceSound(Recorded(t, evidenceDir, captured, rs[..|rs| - 1]), evidenceDir, last.shop,
                                         captured(last.index).0, captured(last.index).1, ShopInfoOf(last));
    }
  }

  lemma RecordedSnoc(t: OfficialShops.Table, evidenceDir: string, captured: nat -> (bool, bool), rs: seq<FinalInfo>, r: FinalInfo)
    ensures Recorded(t, evidenceDir, captured, rs + [r])
            == OfficialShops.ProductEvidence(Recorded(t, evidenceDir, captured, rs), evidenceDir, r.shop,
                                             captured(r.index).0, captured(r.index).1, ShopInfoOf(r))
  {
    assert (rs + [r])[..|rs|] == rs;
  }

  /** The shops of a run's results. */
  function ShopsOf(rs: seq<FinalInfo>): (r: set<string>)
    ensures forall j :: 0 <= j < |rs| ==> rs[j].shop in r
  {
    set j | 0 <= j < |rs| :: rs[j].shop
  }

  lemma ShopsOfSnoc(rs: seq<FinalInfo>)
    requires rs != []
    ensures ShopsOf(rs) == ShopsOf(rs[..|rs| - 1]) + {rs[|rs| - 1].shop}
  {
    var init := rs[..|rs| - 1];
    forall s | s in ShopsOf(rs)
      ensures s in ShopsOf(init) + {rs[|rs| - 1].shop}
    {
      var j :| 0 <= j < |rs| && rs[j].shop == s;
      if j < |init| {
        assert init[j] == rs[j];
      }
    }
    forall s | s in ShopsOf(init)
      ensures s in ShopsOf(rs)
    {
      var j :| 0 <= j < |init| && init[j].shop == s;
      assert rs[j] == init[j];
    }
  }

  /** After a run the table lists exactly the shops it had and the shops of the results. */
  lemma {:induction false} RecordedShops(t: OfficialShops.Table, evidenceDir: string, captured: nat -> (bool, bool), rs: seq<FinalInfo>)
    ensures Recorded(t, evidenceDir, captured, rs).shops.Keys == t.shops.Keys + ShopsOf(rs)
    decreases |rs|
  {
    if rs != [] {
      var init := rs[..|rs| - 1];
      var last := rs[|rs| - 1];
      RecordedShops(t, evidenceDir, captured, init);
      OfficialShops.ProductEvidenceFacts(Recorded(t, evidenceDir, captured, init), evidenceDir, last.shop,
                                         captured(last.index).0, captured(last.index).1, ShopInfoOf(last));
      ShopsOfSnoc(rs);
    }
  }

  /**
   * A later save overwrites a shop's facts: after a run the table holds, for the shop of
   * result `j`, the facts of `j` when no later result is from that shop.
   */
  lemma {:induction false} RecordedLast(t: OfficialShops.Table, evidenceDir: string, captured: nat -> (bool, bool),
                                        rs: seq<FinalInfo>, j: nat)
    requires j < |rs| && forall k :: j < k < |rs| ==> rs[k].shop != rs[j].shop
    ensures rs[j].shop in Recorded(t, evidenceDir, captured, rs).shops
    ensures Recorded(t, evidenceDir, captured, rs).shops[rs[j].shop].info == Some(ShopInfoOf(rs[j]))
    decreases |rs|
  {
    var init := rs[..|rs| - 1];
    var last := rs[|rs| - 1];
    var p := Recorded(t, evidenceDir, captured, init);
    OfficialShops.ProductEvidenceFacts(p, evidenceDir, last.shop, captured(last.index).0, captured(last.index).1, ShopInfoOf(last));
    if j < |init| {
      assert init[j] == rs[j];
      assert rs[j].shop != last.shop;
      RecordedLast(t, evidenceDir, captured, init, j);
    }
  }

  /** The facts `save_shop_info` keeps of a product (`report.json` reads its title and price). */
  function ShopInfoOf(info: FinalInfo): OfficialShops.ShopInfo
  {
    OfficialShops.ShopInfo(info.title, info.price)
  }

  /**
   * Step 5 of `extract_single_product`: each temporary screenshot that exists (`shots`) is
   * filed under the shop's folder, and the merged facts are saved.
   */
  method SaveEvidence(ev: OfficialShops.EvidenceManager, info: FinalInfo, shots: (bool, bool))
    requires ev.Valid()
    modifies ev
    ensures ev.Valid()
    ensures ev.State() == OfficialShops.ProductEvidence(old(ev.State()), ev.evidenceDir, info.shop, shots.0, shots.1, ShopInfoOf(info))
  {
    if shots.0 {
      ev.SaveProductScreenshot(info.shop, OfficialShops.ProductShotPath(ev.evidenceDir, info.shop));
    }
    if shots.1 {
      ev.SaveShopScreenshot(info.shop, OfficialShops.ShopShotPath(ev.evidenceDir, info.shop));
    }
    ev.SaveShopInfo(info.shop, ShopInfoOf(info));
  }

  /**
   * `extract_single_product` against the device and the evidence table, for a product that
   * does not raise; `shots` says which of its two temporary screenshots exist.
   */
  method ExtractSingleProduct(d: Device, ev: OfficialShops.EvidenceManager, index: nat, visible: nat, report: bool,
                              keyword: string, fmt0: real -> string, shots: (bool, bool))
    returns (info: FinalInfo)
    requires ev.Valid()
    modifies d, ev
    ensures var r := ProductSpec(d.screenOf, d.width, d.height, old(d.actions), index, visible, report, keyword, fmt0);
            info == r.info && d.actions == r.history
    ensures ev.Valid()
    ensures ev.State() == OfficialShops.ProductEvidence(old(ev.State()), ev.evidenceDir, info.shop, shots.0, shots.1, ShopInfoOf(info))
  {
    ghost var h := d.actions;
    var p := TapPosition(d.width, d.height, visible);
    d.Tap(p.0, p.1);
    var top := ProductExtractor.ExtractFromXml(TextsOf(d.Screen()));
    d.Swipe(d.width / 2, Int(d.height as real * 0.7), d.width / 2, Int(d.height as real * 0.3), 500);
    var bottom := ProductExtractor.ExtractFromXml(TextsOf(d.Screen()));
    info := MergeInfo(top, bottom, index);
    assert info == Read(d.screenOf, d.width, d.height, h, index, visible);
    SaveEvidence(ev, info, shots);
    if report {
      if OfficialShops.IsOfficialShop(info.shop) {
        info := info.(official := Some(true), reported := Some(false));
      } else {
        info := info.(official := Some(false));
        d.Swipe(d.width / 2, Int(d.height as real * 0.3), d.width / 2, Int(d.height as real * 0.7), 500);
        var ok := ReportFlow.ReportProduct(d, keyword, info.shop, info.price, info.title, fmt0);
        info := info.(reported := Some(ok));
      }
    }
    d.Back();
  }

  /** One iteration against the device, given whether a page turn is due and the grid position. */
  method IterationOn(d: Device, ev: OfficialShops.EvidenceManager, ghost t: OfficialShops.Table, results: seq<FinalInfo>,
                     i: nat, turn: bool, visible: nat, report: bool, keyword: string, fmt0: real -> string,
                     raises: nat -> bool, captured: nat -> (bool, bool))
    returns (results': seq<FinalInfo>)
    requires turn == PageTurn(i) && visible == Visible(i)
    requires ev.Valid() && ev.State() == Recorded(t, ev.evidenceDir, captured, results)
    modifies d, ev
    ensures RunState(d.actions, results') ==
            Iteration(ProductOf(d.screenOf, d.width, d.height, report, keyword, fmt0), SwipeUpListStep(d.width, d.height),
                      RunState(old(d.actions), results), i, raises)
    ensures ev.Valid() && ev.State() == Recorded(t, ev.evidenceDir, captured, results')
  {
    if turn {
      d.SwipeUpList();
    }
    if raises(i) {
      d.Back();
      results' := results;
    } else {
      var info := ExtractSingleProduct(d, ev, i + 1, visible, report, keyword, fmt0, captured(i + 1));
      assert info.index == i + 1;
      RecordedSnoc(t, ev.evidenceDir, captured, results, info);
      results' := results + [info];
    }
  }

  /** `current` before product `i`: the products already handled on the page, or four when a page turn is due. */
  function Counter(i: nat): nat
  {
    if i == 0 then 0 else Visible(i - 1) + 1
  }

  /** The page counter before product `i`: it says whether a page turn is due and gives the grid position. */
  lemma PageCounter(i: nat, c: nat)
    requires c == Counter(i)
    ensures c >= ProductsPerPage <==> PageTurn(i)
    ensures (if c >= ProductsPerPage then 0 else c) == Visible(i)
  {
  }

  /** One turn of `run_detection`'s loop: the counter reset and the iteration, extending the run by product `i`. */
  method RunStep(d: Device, ev: OfficialShops.EvidenceManager, ghost h: seq<Action>, ghost t: OfficialShops.Table,
                 results: seq<FinalInfo>, i: nat, current: nat, report: bool, keyword: string, fmt0: real -> string,
                 raises: nat -> bool, captured: nat -> (bool, bool))
    returns (results': seq<FinalInfo>, current': nat)
    requires current == Counter(i)
    requires RunSpec(ProductOf(d.screenOf, d.width, d.height, report, keyword, fmt0), SwipeUpListStep(d.width, d.height), h, i, raises)
             == RunState(d.actions, results)
    requires ev.Valid() && ev.State() == Recorded(t, ev.evidenceDir, captured, results)
    modifies d, ev
    ensures current' == Counter(i + 1)
    ensures RunSpec(ProductOf(d.screenOf, d.width, d.height, report, keyword, fmt0), SwipeUpListStep(d.width, d.height), h, i + 1, raises)
            == RunState(d.actions, results')
    ensures ev.Valid() && ev.State() == Recorded(t, ev.evidenceDir, captured, results')
  {
    PageCounter(i, current);
    var visible := current;
    var turn := false;
    if visible >= ProductsPerPage {
      turn := true;
      visible := 0;
    }
    results' := IterationOn(d, ev, t, results, i, turn, visible, report, keyword, fmt0, raises, captured);
    current' := visible + 1;
  }

  /**
   * `run_detection`'s loop: `current` counts the products handled on this page and a list
   * swipe resets it once four are done; an exception still counts the product. Each product
   * that does not raise saves its evidence (`captured(k)` says which screenshots of product
   * `k` exist), and the run ends with `save_report`, whose contents are returned.
   */
  method RunDetection(d: Device, ev: OfficialShops.EvidenceManager, n: nat, report: bool, keyword: string,
                      fmt0: real -> string, raises: nat -> bool, captured: nat -> (bool, bool))
    returns (results: seq<FinalInfo>, saved: OfficialShops.EvidenceReport)
    requires ev.Valid()
    modifies d, ev
    ensures var r := RunSpec(ProductOf(d.screenOf, d.width, d.height, report, keyword, fmt0), SwipeUpListStep(d.width, d.height),
                             old(d.actions), n, raises);
            results == r.results && d.actions == r.history
    ensures ev.Valid() && ev.State() == Recorded(old(ev.State()), ev.evidenceDir, captured, results)
    ensures ev.shops.Keys == old(ev.shops).Keys + ShopsOf(results)
    ensures saved.keyword == ev.keyword && saved.timestamp == ev.timestamp && saved.totalShops == |ev.shops|
    ensures |saved.shops| == |ev.order|
    ensures forall i :: 0 <= i < |ev.order| ==> saved.shops[i] == OfficialShops.ShopReportOf(ev.order[i], ev.shops[ev.order[i]])
  {
    ghost var h := d.actions;
    ghost var t := ev.State();
    results := [];
    var current := 0;
    var i := 0;
    while i < n
      invariant 0 <= i <= n
      invariant current == Counter(i)
      invariant RunSpec(ProductOf(d.screenOf, d.width, d.height, report, keyword, fmt0), SwipeUpListStep(d.width, d.height), h, i, raises)
                == RunState(d.actions, results)
      invariant ev.Valid() && ev.State() == Recorded(t, ev.evidenceDir, captured, results)
    {
      results, current := RunStep(d, ev, h, t, results, i, current, report, keyword, fmt0, raises, captured);
      i := i + 1;
    }
    RecordedShops(t, ev.evidenceDir, captured, results);
    saved := ev.SaveReport();
  }
}
