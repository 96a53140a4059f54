/**
 * The detection engine (anti_piracy_system/piracy_detector.py): an observed listing is
 * matched to a genuine catalog record (by name, then by keywords of the title, then by
 * catalog keywords in the OCR text); then a shop check, a price-ratio check and a
 * weighted content-similarity check are fused into a verdict and a confidence.
 * Numbers inside reason texts are rendered by the `Formats` the caller supplies
 * (Python's float formatting is not modelled).
 */
module PiracyDetector {
  import opened Wrappers
  import opened Text
  import opened Seqs
  import opened ProductDatabase

  /** A listing seen on a shopping platform. */
  datatype ProductInfo = ProductInfo(
    title: string,
    shopName: string,
    price: real,
    description: Option<string>,
    ocrText: Option<string>,
    imageAnalysis: Option<string>,
    url: Option<string>,
    platform: string)

  const DefaultPlatform := "未知平台"

  /** The verdict on one listing. */
  datatype DetectionResult = DetectionResult(
    isPiracy: bool,
    confidence: real,
    reasons: seq<string>,
    matchedProduct: Option<GenuineProduct>,
    shopCheck: bool,
    priceCheck: bool,
    contentCheck: bool,
    priceRatio: Option<real>,
    detectedAt: string)
  {
    /** `to_dict()`: the matched record is reduced to its id and name. */
    function ToDict(): (d: DetectionDict)
      ensures d.matchedProductName.Some? <==> matchedProduct.Some?
      ensures matchedProduct.Some? ==>
                d.matchedProductName == Some(matchedProduct.value.productName)
                && d.matchedProductId == Some(matchedProduct.value.productId)
      ensures d.reasons == reasons && d.confidence == confidence && d.isPiracy == isPiracy
    {
      DetectionDict(isPiracy, confidence, reasons,
                    if matchedProduct.Some? then Some(matchedProduct.value.productId) else None,
                    if matchedProduct.Some? then Some(matchedProduct.value.productName) else None,
                    shopCheck, priceCheck, contentCheck, priceRatio, detectedAt)
    }
  }

  /** The dictionary form of a verdict, as the report ledger stores it. */
  datatype DetectionDict = DetectionDict(
    isPiracy: bool,
    confidence: real,
    reasons: seq<string>,
    matchedProductId: Option<string>,
    matchedProductName: Option<string>,
    shopCheck: bool,
    priceCheck: bool,
    contentCheck: bool,
    priceRatio: Option<real>,
    detectedAt: string)

  /** The detector's thresholds. */
  datatype Config = Config(priceThreshold: real, similarityThreshold: real)

  /** The defaults (also the values of `DETECTOR_CONFIG`). */
  const Defaults := Config(0.7, 0.6)

  /** Renderers for numbers inside reason texts: `{x}` of a float and `{x:.0%}`. */
  datatype Formats = Formats(num: real -> string, pct: real -> string)

  datatype Check = Check(passed: bool, reason: string)

  datatype PriceCheck = PriceCheck(passed: bool, reason: string, ratio: real)

  const NoMatchReason := "未能匹配到对应的正版商品信息,无法判断"

  // ---------------------------------------------------------------- text similarity

  /** The characters `re.sub(r'[^\w\s]', '', ...)` keeps. */
  predicate Kept(c: char)
  {
    IsWordChar(c) || IsSpace(c)
  }

  /** Lower-cased text with punctuation removed. */
  function Clean(s: string): string
  {
    Filter(Lower(s), Kept)
  }

  function InText(t: string): char -> bool
  {
    c => c in t
  }

  /** `sum(1 for c in a if c in b)` */
  function CommonChars(a: string, b: string): nat
  {
    |Filter(a, InText(b))|
  }

  /** `_calculate_text_similarity`: shared characters over the longer cleaned length. */
  function TextSimilarity(t1: string, t2: string): (r: real)
    ensures 0.0 <= r <= 1.0
    ensures t1 == "" || t2 == "" ==> r == 0.0
    ensures Clean(t1) == "" && Clean(t2) == "" ==> r == 0.0
  {
    if t1 == "" || t2 == "" then 0.0
    else
      var c1 := Clean(t1);
      var c2 := Clean(t2);
      var common := CommonChars(c1, c2);
      var maxLen := if |c1| >= |c2| then |c1| else |c2|;
      if maxLen == 0 then 0.0 else Ratio(common, maxLen)
  }

  /** `a / b` for counts with `a <= b`. */
  function Ratio(a: nat, b: nat): (r: real)
    requires 0 < b && a <= b
    ensures 0.0 <= r <= 1.0
    ensures r == 1.0 <==> a == b
    ensures r * (b as real) == a as real
  {
    var x, y := a as real, b as real;
    var r := x / y;
    assert r * y == x;
    assert r < 0.0 ==> r * y < 0.0;
    assert r > 1.0 ==> r * y > y;
    assert r == 1.0 ==> x == y;
    r
  }

  /** A text with something left after cleaning is fully similar to itself. */
  lemma SimilarityOfSame(t: string)
    requires Clean(t) != ""
    ensures TextSimilarity(t, t) == 1.0
  {
    var c := Clean(t);
    forall i | 0 <= i < |c|
      ensures InText(c)(c[i])
    {
    }
    FilterAll(c, InText(c));
  }

  // ---------------------------------------------------------------- keywords

  /** `re.sub(r'[^\w\s]', ' ', ...)` on one character. */
  function Blank(c: char): char
  {
    if Kept(c) then c else ' '
  }

  const StopWords: set<string> := {"的", "了", "和", "是", "在", "有", "与", "及", "等", "为"}

  predicate IsKeyword(w: string)
  {
    |w| > 1 && w !in StopWords
  }

  /** `_extract_keywords`: tokens of the punctuation-blanked text longer than 1 and not stop words, in order. */
  function ExtractKeywords(text: string): (kws: seq<string>)
    ensures forall i :: 0 <= i < |kws| ==> |kws[i]| > 1 && kws[i] !in StopWords
  {
    Filter(Words(MapSeq(text, Blank)), IsKeyword)
  }

  /** A token is a keyword iff it is one of the text's tokens and passes the length and stop-word filter. */
  lemma ExtractKeywordsExactly(text: string)
    ensures forall w :: w in ExtractKeywords(text) <==> w in Words(MapSeq(text, Blank)) && IsKeyword(w)
    ensures forall w :: w in ExtractKeywords(text) ==> IsWord(w)
  {
    FilterMembers(Words(MapSeq(text, Blank)), IsKeyword);
  }

  // ---------------------------------------------------------------- the three checks

  /** `_check_shop_name`: the catalog's official-shop test for the matched record's id. */
  function CheckShopName(cat: Catalog, shop: string, gp: GenuineProduct): (c: Check)
    requires cat.Valid()
    ensures c.passed == cat.IsOfficialShop(shop, Some(gp.productId))
    ensures c.passed ==> StartsWith(c.reason, Tick)
    ensures !c.passed ==> StartsWith(c.reason, Cross)
  {
    if cat.IsOfficialShop(shop, Some(gp.productId)) then
      Check(true, Tick + " 店铺名称匹配官方店铺: '" + shop + "'")
    else
      Check(false, Cross + " 店铺名称'" + shop + "'不在官方授权列表中(官方店铺: " + Join(gp.officialShops, ", ") + ")")
  }

  /**
   * `_check_price`: an original price that is not positive skips the check (it passes with
   * ratio 0); otherwise the ratio is current / original and it passes iff the ratio reaches
   * the threshold, i.e. iff the current price is at least threshold times the original.
   */
  function CheckPrice(current: real, original: real, cfg: Config, fmt: Formats): (c: PriceCheck)
    ensures original <= 0.0 ==> c.passed && c.ratio == 0.0
    ensures original > 0.0 ==> c.ratio * original == current
    ensures original > 0.0 ==> (c.passed <==> current >= cfg.priceThreshold * original)
    ensures !c.passed ==> StartsWith(c.reason, Cross)
  {
    if original <= 0.0 then
      PriceCheck(true, Warn + " 原价信息无效,跳过价格检查", 0.0)
    else
      var ratio := current / original;
      PriceRatioFacts(current, original, cfg.priceThreshold);
      if ratio >= cfg.priceThreshold then
        PriceCheck(true, Tick + " 价格正常: ¥" + fmt.num(current) + " (原价¥" + fmt.num(original) + "的" + fmt.pct(ratio) + ")", ratio)
      else
        PriceCheck(false, Cross + " 价格异常: ¥" + fmt.num(current) + " 仅为原价¥" + fmt.num(original) + "的"
                          + fmt.pct(ratio) + ",低于" + fmt.pct(cfg.priceThreshold) + "阈值", ratio)
  }

  lemma PriceRatioFacts(current: real, original: real, threshold: real)
    requires original > 0.0
    ensures (current / original) * original == current
    ensures current / original >= threshold <==> current >= threshold * original
  {
    var r := current / original;
    assert r * original == current;
    if r >= threshold {
      assert r * original >= threshold * original;
    } else {
      assert r * original < threshold * original;
    }
  }

  /** A listing priced at exactly the threshold share of the original passes. */
  lemma PriceAtThresholdPasses(original: real, cfg: Config, fmt: Formats)
    requires original > 0.0
    ensures CheckPrice(cfg.priceThreshold * original, original, cfg, fmt).passed
  {
  }

  /** `f"{title} {description or ''} {ocr_text or ''}"` */
  function CombinedText(info: ProductInfo): string
  {
    info.title + " " + OrEmpty(info.description) + " " + OrEmpty(info.ocrText)
  }

  function InCombined(text: string): string -> bool
  {
    k => Contains(text, k)
  }

  /** The share of the record's keywords that occur in the text; 0 when it has none. */
  function KeywordRatio(kws: seq<string>, text: string): (r: real)
    ensures 0.0 <= r <= 1.0
    ensures kws == [] ==> r == 0.0
    ensures r == 1.0 <==> kws != [] && forall i :: 0 <= i < |kws| ==> Contains(text, kws[i])
  {
    if kws == [] then 0.0
    else
      var hits := Filter(kws, InCombined(text));
      KeywordRatioFull(kws, text);
      Ratio(|hits|, |kws|)
  }

  lemma KeywordRatioFull(kws: seq<string>, text: string)
    ensures |Filter(kws, InCombined(text))| == |kws| <==> forall i :: 0 <= i < |kws| ==> Contains(text, kws[i])
  {
    if forall i :: 0 <= i < |kws| ==> Contains(text, kws[i]) {
      FilterAll(kws, InCombined(text));
    } else {
      var i :| 0 <= i < |kws| && !Contains(text, kws[i]);
      FilterMembers(kws, InCombined(text));
      if |Filter(kws, InCombined(text))| == |kws| {
        FilterFull(kws, InCombined(text));
      }
    }
  }

  /** A filter that keeps as many elements as there are keeps every element. */
  lemma {:induction false} FilterFull<T>(s: seq<T>, f: T -> bool)
    requires |Filter(s, f)| == |s|
    ensures forall i :: 0 <= i < |s| ==> f(s[i])
    decreases |s|
  {
    if s != [] && f(s[0]) {
      FilterFull(s[1..], f);
      assert forall i :: 1 <= i < |s| ==> s[i] == s[1..][i - 1];
    }
  }

  /** Description similarity counts only when both sides have a (non-empty) description. */
  function DescriptionSimilarity(info: ProductInfo, gp: GenuineProduct): (r: real)
    ensures 0.0 <= r <= 1.0
    ensures !Truthy(info.description) || !Truthy(gp.description) ==> r == 0.0
  {
    if Truthy(info.description) && Truthy(gp.description) then
      TextSimilarity(info.description.value, gp.description.value)
    else 0.0
  }

  /** The weighted content score. */
  function ContentScore(title: real, description: real, keywords: real): (r: real)
    requires 0.0 <= title <= 1.0 && 0.0 <= description <= 1.0 && 0.0 <= keywords <= 1.0
    ensures 0.0 <= r <= 1.0
    ensures r == 1.0 <==> title == 1.0 && description == 1.0 && keywords == 1.0
  {
    title * 0.5 + description * 0.2 + keywords * 0.3
  }

  /** `_check_content`: the content score against the similarity threshold. */
  function ContentCheck(info: ProductInfo, gp: GenuineProduct, cfg: Config, fmt: Formats): (c: Check)
  {
    var title := TextSimilarity(info.title, gp.productName);
    var description := DescriptionSimilarity(info, gp);
    var kw := KeywordRatio(gp.keywords, CombinedText(info));
    var overall := ContentScore(title, description, kw);
    if overall >= cfg.similarityThreshold then
      Check(true, Tick + " 内容匹配度高: " + fmt.pct(overall) + " (标题:" + fmt.pct(title) + ", 关键词:" + fmt.pct(kw) + ")")
    else
      Check(false, Warn + " 内容匹配度较低: " + fmt.pct(overall))
  }

  /** A threshold above 1 can never be met; one at or below 0 always is. */
  lemma ContentThresholdExtremes(info: ProductInfo, gp: GenuineProduct, cfg: Config, fmt: Formats)
    ensures cfg.similarityThreshold > 1.0 ==> !ContentCheck(info, gp, cfg, fmt).passed
    ensures cfg.similarityThreshold <= 0.0 ==> ContentCheck(info, gp, cfg, fmt).passed
  {
  }

  /** `_check_content`, counting the keyword hits in a loop as `_check_content` does. */
  method CheckContent(info: ProductInfo, gp: GenuineProduct, cfg: Config, fmt: Formats) returns (c: Check)
    ensures c == ContentCheck(info, gp, cfg, fmt)
  {
    var title := TextSimilarity(info.title, gp.productName);
    var description := 0.0;
    if Truthy(info.description) && Truthy(gp.description) {
      description := TextSimilarity(info.description.value, gp.description.value);
    }
    var count := 0;
    var combined := CombinedText(info);
    if gp.keywords != [] {
      var i := 0;
      while i < |gp.keywords|
        invariant 0 <= i <= |gp.keywords|
        invariant count == |Filter(gp.keywords[..i], InCombined(combined))|
      {
        FilterSnoc(gp.keywords, i, InCombined(combined));
        if Contains(combined, gp.keywords[i]) {
          count := count + 1;
        }
        i := i + 1;
      }
      assert gp.keywords[..i] == gp.keywords;
    }
    var kw := if gp.keywords != [] then Ratio(count, |gp.keywords|) else 0.0;
    var overall := ContentScore(title, description, kw);
    if overall >= cfg.similarityThreshold {
      c := Check(true, Tick + " 内容匹配度高: " + fmt.pct(overall) + " (标题:" + fmt.pct(title) + ", 关键词:" + fmt.pct(kw) + ")");
    } else {
      c := Check(false, Warn + " 内容匹配度较低: " + fmt.pct(overall));
    }
  }

  // ---------------------------------------------------------------- matching

  /** The record has keywords and one of them occurs in the OCR text (case-sensitive). */
  predicate OcrHit(ocr: string, p: GenuineProduct)
  {
    p.keywords != [] && exists i | 0 <= i < |p.keywords| :: Contains(ocr, p.keywords[i])
  }

  function OcrFilter(ocr: string): GenuineProduct -> bool
  {
    p => OcrHit(ocr, p)
  }

  /** The records keyword search offers for the title (none when the title yields no keywords). */
  function TitleKeywordMatches(cat: Catalog, title: string): seq<GenuineProduct>
    requires cat.Valid()
  {
    var kws := ExtractKeywords(title);
    if kws != [] then cat.KeywordMatches(kws) else []
  }

  /** The records whose keywords the OCR text mentions (none without OCR text). */
  function OcrMatches(cat: Catalog, ocr: Option<string>): seq<GenuineProduct>
    requires cat.Valid()
  {
    if Truthy(ocr) then Filter(cat.Values(), OcrFilter(ocr.value)) else []
  }

  /** `_match_genuine_product`: name search, then title keywords, then OCR; the first non-empty result's head. */
  function MatchSpec(cat: Catalog, info: ProductInfo): (r: Option<GenuineProduct>)
    requires cat.Valid()
    ensures r.Some? ==> r.value in cat.Values()
  {
    FilterMembers(cat.Values(), NameFilter(info.title));
    FilterMembers(cat.Values(), KeywordFilter(ExtractKeywords(info.title)));
    FilterMembers(cat.Values(), OcrFilter(OrEmpty(info.ocrText)));
    var byName := cat.NameMatches(info.title);
    if byName != [] then Some(byName[0])
    else
      var byKeywords := TitleKeywordMatches(cat, info.title);
      if byKeywords != [] then Some(byKeywords[0])
      else First(OcrMatches(cat, info.ocrText))
  }

  /** Name search wins whenever some record's name contains the title: the first such record is the match. */
  lemma MatchPrefersName(cat: Catalog, info: ProductInfo, k: nat)
    requires cat.Valid() && k < |cat.Values()|
    requires NameHit(info.title, cat.Values()[k]) && forall j :: 0 <= j < k ==> !NameHit(info.title, cat.Values()[j])
    ensures MatchSpec(cat, info) == Some(cat.Values()[k])
  {
    FilterHead(cat.Values(), NameFilter(info.title), k);
  }

  /** Without a name hit, the first record matching a title keyword is the match. */
  lemma MatchThenKeywords(cat: Catalog, info: ProductInfo, k: nat)
    requires cat.Valid() && k < |cat.Values()|
    requires forall j :: 0 <= j < |cat.Values()| ==> !NameHit(info.title, cat.Values()[j])
    requires var kws := ExtractKeywords(info.title);
             KeywordHit(kws, cat.Values()[k]) && forall j :: 0 <= j < k ==> !KeywordHit(kws, cat.Values()[j])
    ensures MatchSpec(cat, info) == Some(cat.Values()[k])
  {
    FilterEmpty(cat.Values(), NameFilter(info.title));
    var kws := ExtractKeywords(info.title);
    FilterHead(cat.Values(), KeywordFilter(kws), k);
  }

  /** No match at all iff neither the name, nor the title keywords, nor the OCR text finds a record. */
  lemma MatchNone(cat: Catalog, info: ProductInfo)
    requires cat.Valid()
    ensures MatchSpec(cat, info).None? <==>
              (forall j :: 0 <= j < |cat.Values()| ==> !NameHit(info.title, cat.Values()[j]))
              && (forall j :: 0 <= j < |cat.Values()| ==> !KeywordHit(ExtractKeywords(info.title), cat.Values()[j]))
              && (Truthy(info.ocrText) ==> forall j :: 0 <= j < |cat.Values()| ==> !OcrHit(info.ocrText.value, cat.Values()[j]))
  {
    FilterEmpty(cat.Values(), NameFilter(info.title));
    FilterEmpty(cat.Values(), KeywordFilter(ExtractKeywords(info.title)));
    if Truthy(info.ocrText) {
      FilterEmpty(cat.Values(), OcrFilter(info.ocrText.value));
    }
  }

  /** An empty title is contained in every name, so it matches the first record of a non-empty catalog. */
  lemma EmptyTitleMatchesFirst(cat: Catalog, info: ProductInfo)
    requires cat.Valid() && |cat.Values()| > 0 && info.title == ""
    ensures MatchSpec(cat, info) == Some(cat.Values()[0])
  {
    ContainsEmpty(Lower(cat.Values()[0].productName));
    MatchPrefersName(cat, info, 0);
  }

  /** `_match_genuine_product` against the database, with the OCR scan stopping at the first hit. */
  method MatchGenuineProduct(db: ProductDatabase, info: ProductInfo) returns (r: Option<GenuineProduct>)
    requires db.Valid()
    ensures r == MatchSpec(db.Table(), info)
  {
    var results := db.SearchByName(info.title);
    if |results| > 0 {
      return Some(results[0]);
    }
    var kws := ExtractKeywords(info.title);
    if kws != [] {
      results := db.SearchByKeywords(kws);
      if |results| > 0 {
        return Some(results[0]);
      }
    }
    if Truthy(info.ocrText) {
      var all := db.GetAllProducts();
      r := OcrSearch(all, info.ocrText.value);
      return;
    }
    return None;
  }

  /** The OCR stage's scan: the first record with keywords one of which the text contains. */
  method OcrSearch(all: seq<GenuineProduct>, ocr: string) returns (r: Option<GenuineProduct>)
    ensures r == First(Filter(all, OcrFilter(ocr)))
  {
    var i := 0;
    while i < |all|
      invariant 0 <= i <= |all|
      invariant forall j :: 0 <= j < i ==> !OcrHit(ocr, all[j])
    {
      var p := all[i];
      if p.keywords != [] {
        if exists k | 0 <= k < |p.keywords| :: Contains(ocr, p.keywords[k]) {
          FilterHead(all, OcrFilter(ocr), i);
          return Some(p);
        }
      }
      i := i + 1;
    }
    FilterEmpty(all, OcrFilter(ocr));
    return None;
  }

  // ---------------------------------------------------------------- the verdict

  /**
   * Fusing the three checks for a matched record. A passing shop check short-circuits to
   * "genuine" with confidence 0.9; otherwise suspicion adds 0.4 for the shop, 0.4 for the
   * price and 0.2 for the content, and the listing is pirated iff the price check failed.
   */
  function Fuse(gp: GenuineProduct, shop: Check, price: PriceCheck, content: Check, now: string): (r: DetectionResult)
    ensures r.matchedProduct == Some(gp) && r.shopCheck == shop.passed
    ensures r.priceCheck == price.passed && r.contentCheck == content.passed && r.priceRatio == Some(price.ratio)
    ensures shop.passed ==> !r.isPiracy && r.confidence == 0.9 && r.reasons == [shop.reason]
    ensures !shop.passed ==> r.confidence == 0.4 + (if price.passed then 0.0 else 0.4) + (if content.passed then 0.2 else 0.0)
    ensures !shop.passed ==> r.reasons == [shop.reason] + (if price.passed then [] else [price.reason])
                                           + (if content.passed then [content.reason] else [])
    ensures !shop.passed ==> (r.isPiracy <==> !price.passed)
    ensures !shop.passed ==> r.confidence in {0.4, 0.6, 0.8, 1.0}
    ensures 0.0 <= r.confidence <= 1.0
    ensures r.isPiracy ==> r.confidence >= 0.8
  {
    if shop.passed then
      DetectionResult(false, 0.9, [shop.reason], Some(gp), true, price.passed, content.passed, Some(price.ratio), now)
    else
      var reasons := [shop.reason] + (if !price.passed then [price.reason] else []) + (if content.passed then [content.reason] else []);
      var confidence := 0.4 + (if !price.passed then 0.4 else 0.0) + (if content.passed then 0.2 else 0.0);
      var isPiracy := (!shop.passed && !price.passed && content.passed) || confidence >= 0.7;
      DetectionResult(isPiracy, confidence, reasons, Some(gp), false, price.passed, content.passed, Some(price.ratio), now)
  }

  /** `detect`: no match gives an undecided, non-pirated verdict with one reason; otherwise the fused checks. */
  function Verdict(cat: Catalog, cfg: Config, fmt: Formats, info: ProductInfo, now: string): (r: DetectionResult)
    requires cat.Valid()
    ensures r.matchedProduct == MatchSpec(cat, info)
    ensures r.matchedProduct.None? ==> !r.isPiracy && r.confidence == 0.0 && r.reasons == [NoMatchReason]
                                       && r.priceRatio.None? && !r.shopCheck && !r.priceCheck && !r.contentCheck
    ensures r.isPiracy ==> r.matchedProduct.Some? && !r.shopCheck && !r.priceCheck
    ensures r.matchedProduct.Some? && !r.shopCheck ==> (r.isPiracy <==> !r.priceCheck)
    ensures r.detectedAt == now
  {
    match MatchSpec(cat, info)
    case None =>
      DetectionResult(false, 0.0, [NoMatchReason], None, false, false, false, None, now)
    case Some(gp) =>
      Fuse(gp, CheckShopName(cat, info.shopName, gp), CheckPrice(info.price, gp.originalPrice, cfg, fmt),
           ContentCheck(info, gp, cfg, fmt), now)
  }

  /** `detect`, with the checks fused step by step as `detect` does. */
  method Detect(db: ProductDatabase, cfg: Config, fmt: Formats, info: ProductInfo, now: string) returns (r: DetectionResult)
    requires db.Valid()
    ensures r == Verdict(db.Table(), cfg, fmt, info, now)
  {
    var matched := MatchGenuineProduct(db, info);
    if matched.None? {
      return DetectionResult(false, 0.0, [NoMatchReason], None, false, false, false, None, now);
    }
    var gp := matched.value;
    var shop := CheckShopName(db.Table(), info.shopName, gp);
    var price := CheckPrice(info.price, gp.originalPrice, cfg, fmt);
    var content := CheckContent(info, gp, cfg, fmt);
    r := FuseSteps(gp, shop, price, content, now);
  }

  /** The second half of `detect`: the reasons appended and the confidence summed check by check. */
  method FuseSteps(gp: GenuineProduct, shop: Check, price: PriceCheck, content: Check, now: string) returns (r: DetectionResult)
    ensures r == Fuse(gp, shop, price, content, now)
  {
    var reasons: seq<string> := [];
    var confidence := 0.0;
    if shop.passed {
      reasons := reasons + [shop.reason];
      return DetectionResult(false, 0.9, reasons, Some(gp), true, price.passed, content.passed, Some(price.ratio), now);
    }
    reasons := reasons + [shop.reason];
    confidence := confidence + 0.4;
    if !price.passed {
      reasons := reasons + [price.reason];
      confidence := confidence + 0.4;
    }
    if content.passed {
      reasons := reasons + [content.reason];
      confidence := confidence + 0.2;
    }
    var isPiracy := (!shop.passed && !price.passed && content.passed) || confidence >= 0.7;
    r := DetectionResult(isPiracy, confidence, reasons, Some(gp), shop.passed, price.passed, content.passed, Some(price.ratio), now);
  }
}
