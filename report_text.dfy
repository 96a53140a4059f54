/**
 * `generate_report_text` (anti_piracy_system/test/test_detection.py): the three-point
 * complaint text typed into the report form. Prices are rendered by `fmt0`, the caller's
 * stand-in for `f"{x:.0f}"`.
 */
module ReportText {
  import opened Wrappers
  import opened Text
  import opened Seqs

  /** The (pattern, description) pairs looked for in the title, in their fixed order. */
  const Patterns: seq<(string, string)> := [
    ("百度网盘", "百度网盘"), ("网盘", "网盘分发"), ("秒发", "秒发"), ("电子版", "电子版"),
    ("PDF", "PDF电子版"), ("视频课程", "视频课程"), ("录屏", "录屏"), ("资料包", "资料包"),
    ("全套", "全套资料"), ("永久", "永久有效"), ("链接", "链接分发")]

  const DefaultOriginalPrice: real := 299.0

  const FallbackEvidence := "商品以电子资料形式销售，涉嫌非法复制分发"

  const EvidenceLead := "商品描述中包含\""

  const EvidenceTail := "\"等非法分发关键词"

  const Impersonating := "冒充官方店铺"

  const Personal := "个人店铺，无出版社授权证明"

  function PatternIn(title: string): ((string, string)) -> bool
  {
    (p: (string, string)) => Contains(title, p.0)
  }

  function Description(p: (string, string)): string
  {
    p.1
  }

  /** The descriptions of the patterns the title contains, in pattern order; none without a title. */
  function PiracyKeywords(title: Option<string>): (r: seq<string>)
    ensures !Truthy(title) ==> r == []
    ensures |r| <= |Patterns|
  {
    if !Truthy(title) then []
    else Hits(Patterns, title.value)
  }

  /** The descriptions of the pairs whose pattern the title contains, in order. */
  function Hits(ps: seq<(string, string)>, title: string): seq<string>
  {
    MapSeq(Filter(ps, PatternIn(title)), Description)
  }

  lemma HitsExactly(ps: seq<(string, string)>, title: string, d: string)
    ensures d in Hits(ps, title) <==> exists k | 0 <= k < |ps| :: ps[k].1 == d && Contains(title, ps[k].0)
  {
    var hits := Filter(ps, PatternIn(title));
    FilterMembers(ps, PatternIn(title));
    if d in Hits(ps, title) {
      var i :| 0 <= i < |hits| && hits[i].1 == d;
      assert hits[i] in ps;
      var k :| 0 <= k < |ps| && ps[k] == hits[i];
      assert PatternIn(title)(ps[k]);
    }
    if exists k | 0 <= k < |ps| :: ps[k].1 == d && Contains(title, ps[k].0) {
      var k :| 0 <= k < |ps| && ps[k].1 == d && Contains(title, ps[k].0);
      assert PatternIn(title)(ps[k]);
      assert ps[k] in hits;
      var i :| 0 <= i < |hits| && hits[i] == ps[k];
      assert MapSeq(hits, Description)[i] == d;
    }
  }

  /** A description is listed iff the title is non-empty and contains a pattern described so. */
  lemma PiracyKeywordsExactly(title: string, d: string)
    ensures d in PiracyKeywords(Some(title)) <==>
              title != "" && exists k | 0 <= k < |Patterns| :: Patterns[k].1 == d && Contains(title, Patterns[k].0)
  {
    HitsExactly(Patterns, title, d);
  }

  /** The second point: up to three descriptions joined by "、", or the fallback sentence. */
  function KeywordEvidence(kws: seq<string>): (r: string)
    ensures kws == [] <==> r == FallbackEvidence
    ensures kws != [] ==> StartsWith(r, EvidenceLead) && EndsWith(r, EvidenceTail)
  {
    if kws == [] then FallbackEvidence
    else
      var joined := Join(PyTake(kws, 3), "、");
      Affixes(EvidenceLead, joined, EvidenceTail);
      assert (EvidenceLead + joined + EvidenceTail)[2] != FallbackEvidence[2];
      EvidenceLead + joined + EvidenceTail
  }

  /** Only the first three descriptions are rendered. */
  lemma FirstThreeRendered(kws: seq<string>)
    requires |kws| >= 3
    ensures KeywordEvidence(kws) == KeywordEvidence(kws[..3])
  {
    assert PyTake(kws, 3) == kws[..3] == PyTake(kws[..3], 3);
  }

  /** The fallback sentence is used iff the title is empty or contains no pattern. */
  lemma FallbackExactly(title: string)
    ensures KeywordEvidence(PiracyKeywords(Some(title))) == FallbackEvidence <==>
              title == "" || forall k :: 0 <= k < |Patterns| ==> !Contains(title, Patterns[k].0)
  {
    if title != "" {
      HitsEmpty(Patterns, title);
    }
  }

  /** No description is listed iff the title contains none of the patterns. */
  lemma HitsEmpty(ps: seq<(string, string)>, title: string)
    ensures Hits(ps, title) == [] <==> forall k :: 0 <= k < |ps| ==> !Contains(title, ps[k].0)
  {
    FilterEmpty(ps, PatternIn(title));
    assert forall k :: 0 <= k < |ps| ==> (PatternIn(title)(ps[k]) <==> Contains(title, ps[k].0));
  }

  /** The shop is said to impersonate an official one iff its name says 旗舰, 官方 or 专营. */
  function ShopType(shop: string): (r: string)
    ensures r == Impersonating <==> Contains(shop, "旗舰") || Contains(shop, "官方") || Contains(shop, "专营")
    ensures r == Impersonating || r == Personal
  {
    if Contains(shop, "旗舰") || Contains(shop, "官方") || Contains(shop, "专营") then Impersonating else Personal
  }

  const NoPrice := "异常低价"

  /** The price shown: `¥` and the rounded price, or "异常低价" when there is no non-zero price. */
  function PriceText(price: Option<real>, fmt0: real -> string): (r: string)
    ensures price.None? || price.value == 0.0 <==> r == NoPrice
  {
    if price.Some? && price.value != 0.0 then
      assert ("¥" + fmt0(price.value))[0] != NoPrice[0];
      "¥" + fmt0(price.value)
    else NoPrice
  }

  const Opening := "该商品涉嫌盗版侵权，具体如下：\n"

  const Closing := "已截图取证，请平台核实下架。"

  const ShopLead := "3.店铺资质存疑："

  function PricePoint(original: real, price: Option<real>, fmt0: real -> string): string
  {
    "1.价格异常：售价显著低于正版定价(¥" + fmt0(original) + " vs " + PriceText(price, fmt0) + ")，明显不符合正规渠道价格\n"
  }

  function DistributionPoint(title: Option<string>): string
  {
    "2.分发方式违规：" + KeywordEvidence(PiracyKeywords(title)) + "\n"
  }

  /** The quoted shop name and what kind of shop it is said to be. */
  function ShopVerdict(shop: string): string
  {
    "\"" + shop + "\"为" + ShopType(shop)
  }

  function ShopTail(keyword: string): string
  {
    "，无\"" + keyword + "\"正版授权\n"
  }

  function ShopPoint(keyword: string, shop: string): string
  {
    ShopLead + ShopVerdict(shop) + ShopTail(keyword)
  }

  /** `generate_report_text`: opening line, the three points in order, closing line. No length limit is applied. */
  function GenerateReportText(keyword: string, shop: string, price: Option<real>, title: Option<string>,
                              original: real, fmt0: real -> string): (r: string)
    ensures StartsWith(r, Opening + PricePoint(original, price, fmt0))
    ensures EndsWith(r, ShopPoint(keyword, shop) + Closing)
  {
    var a := Opening + PricePoint(original, price, fmt0);
    var b := DistributionPoint(title);
    var c := ShopPoint(keyword, shop) + Closing;
    Affixes(a, b, c);
    a + b + c
  }

  /** The text carries the distribution point. */
  lemma ReportTextDistribution(keyword: string, shop: string, price: Option<real>, title: Option<string>,
                               original: real, fmt0: real -> string)
    ensures Contains(GenerateReportText(keyword, shop, price, title, original, fmt0), DistributionPoint(title))
  {
    ContainsPart(Opening + PricePoint(original, price, fmt0), DistributionPoint(title), ShopPoint(keyword, shop) + Closing);
  }

  /** The text carries the shop's quoted name and type. */
  lemma ReportTextShop(keyword: string, shop: string, price: Option<real>, title: Option<string>,
                       original: real, fmt0: real -> string)
    ensures Contains(GenerateReportText(keyword, shop, price, title, original, fmt0), ShopVerdict(shop))
  {
    var q := ShopVerdict(shop);
    ContainsPart(ShopLead, q, ShopTail(keyword));
    ContainsLeft(ShopPoint(keyword, shop), Closing, q);
    ContainsRight(Opening + PricePoint(original, price, fmt0) + DistributionPoint(title), ShopPoint(keyword, shop) + Closing, q);
  }
}
