/**
 * The patrol agent (anti_piracy_system/anti_piracy_agent.py): it launches the platform's
 * app through the LLM phone agent, then opens the listings one by one, reads each page's
 * fields from the model's answer, runs the detector, files and submits a report for every
 * pirated listing (or only counts it in test mode) and keeps the session's counters.
 * The phone agent is an oracle: whether a task raises, and the parsed answer to the
 * extraction task, are functions of the tasks sent before.
 */
module AntiPiracyAgent {
  import opened Wrappers
  import opened Text
  import opened Seqs
  import ProductDatabase
  import PiracyDetector
  import ReportManager
  import PhoneAgent

  /** The tasks the patrol sends to the phone agent (each `get_task_prompt` key with its arguments). */
  datatype Task =
    | LaunchAndSearch(platform: string, keyword: string)
    | SwitchToProductsTab
    | EnterDetail(position: nat)
    | ExtractInfo
    | ReportTask(reason: string)
    | BackToList
    | ScrollDown

  /** `SUPPORTED_PLATFORMS[key]["name"]`; `None` stands for the constructor's `ValueError`. */
  function PlatformName(key: string): (name: Option<string>)
    ensures name.Some? <==> key in {"xiaohongshu", "xianyu", "taobao"}
  {
    if key == "xiaohongshu" then Some("小红书")
    else if key == "xianyu" then Some("闲鱼")
    else if key == "taobao" then Some("淘宝")
    else None
  }

  // ---------------------------------------------------------------- the price field

  /** The index of the first ASCII digit, `|s|` when there is none. */
  function DigitStart(s: string): (k: nat)
    ensures k <= |s|
    ensures forall j :: 0 <= j < k ==> !IsDigit(s[j])
    ensures k < |s| ==> IsDigit(s[k])
    decreases |s|
  {
    if s == [] || IsDigit(s[0]) then 0 else 1 + DigitStart(s[1..])
  }

  /** The length of the leading run of digits. */
  function DigitRun(s: string): (n: nat)
    ensures n <= |s| && (n == |s| || !IsDigit(s[n]))
    ensures forall i :: 0 <= i < n ==> IsDigit(s[i])
    decreases |s|
  {
    if s == [] || !IsDigit(s[0]) then 0 else 1 + DigitRun(s[1..])
  }

  /** A match of `\d+\.?\d*`: its digits before the dot and after it. */
  datatype Decimal = Decimal(whole: string, fraction: string)

  /**
   * `re.findall(r'\d+\.?\d*', s)[0]`: the leftmost match starts at the first digit, takes
   * every digit that follows, then a dot and the digits after it if there is a dot.
   */
  function FirstNumber(s: string): (r: Option<Decimal>)
    ensures r.None? <==> forall i :: 0 <= i < |s| ==> !IsDigit(s[i])
    ensures r.Some? ==> r.value.whole != "" && AllDigits(r.value.whole) && AllDigits(r.value.fraction)
    ensures r.Some? ==> var k := DigitStart(s);
                        var w := |r.value.whole|;
                        k + w <= |s| && s[k..k + w] == r.value.whole && (k + w == |s| || !IsDigit(s[k + w]))
  {
    var k := DigitStart(s);
    if k == |s| then None
    else
      var w := DigitRun(s[k..]);
      assert s[k..][..w] == s[k..k + w];
      var rest := s[k + w..];
      var f := if rest != [] && rest[0] == '.' then rest[1..][..DigitRun(rest[1..])] else "";
      Some(Decimal(s[k..k + w], f))
  }

  /** `float(match)` */
  function DecimalValue(d: Decimal): (v: real)
    requires AllDigits(d.whole) && AllDigits(d.fraction)
    ensures v >= 0.0
  {
    DigitsValue(d.whole) as real + DigitsValue(d.fraction) as real / Pow10(|d.fraction|) as real
  }

  /** `str(price_val).replace('¥', '').replace('元', '').strip()` */
  function PriceText(v: string): string
  {
    Strip(ReplaceAll(ReplaceAll(v, "¥", ""), "元", ""))
  }

  /** The price of the page: 0.0 unless the price field is truthy and its `str()` holds a number (the `IndexError` keeps 0.0). */
  function PriceOf(priceVal: Value): (p: real)
    ensures p >= 0.0
    ensures !IsTruthy(priceVal) ==> p == 0.0
  {
    if !IsTruthy(priceVal) then 0.0 else NumberIn(PriceText(Shown(priceVal)))
  }

  /** The value of the text's first number, 0.0 when it has none. */
  function NumberIn(t: string): (p: real)
    ensures p >= 0.0
    ensures NoDigit(t) ==> p == 0.0
  {
    match FirstNumber(t)
    case None => 0.0
    case Some(d) => DecimalValue(d)
  }

  predicate NoDigit(s: string)
  {
    forall i :: 0 <= i < |s| ==> !IsDigit(s[i])
  }

  /** Two strings with the same digits either both have a digit or neither has. */
  lemma SameDigits(s: string, t: string)
    requires forall x :: IsDigit(x) ==> (x in s <==> x in t)
    ensures NoDigit(s) <==> NoDigit(t)
  {
    if !NoDigit(s) {
      var i :| 0 <= i < |s| && IsDigit(s[i]);
      assert s[i] in t;
    }
    if !NoDigit(t) {
      var i :| 0 <= i < |t| && IsDigit(t[i]);
      assert t[i] in s;
    }
  }

  /** Removing the currency marks and the surrounding blanks keeps exactly the digits there were. */
  lemma PriceTextDigits(v: string)
    ensures NoDigit(PriceText(v)) <==> NoDigit(v)
  {
    var a := ReplaceAll(v, "¥", "");
    var b := ReplaceAll(a, "元", "");
    forall x | IsDigit(x)
      ensures x in Strip(b) <==> x in v
    {
      DeleteCharKeeps(v, '¥', x);
      DeleteCharKeeps(a, '元', x);
      StripKeeps(b, x);
    }
    SameDigits(Strip(b), v);
  }

  /** A truthy price field with no digit at all leaves the price at 0.0. */
  lemma PriceWithoutDigits(v: string)
    requires v != "" && NoDigit(v)
    ensures PriceOf(Str(v)) == 0.0
  {
    PriceTextDigits(v);
  }

  /** The marks around a run of digits are removed and nothing else. */
  lemma PriceTextOfDigits(s: string)
    requires s != "" && AllDigits(s)
    ensures PriceText("¥" + s + "元") == s
  {
    DropYen(s);
    DropYuan(s);
    StripTrimmed(s);
  }

  lemma DropYen(s: string)
    requires AllDigits(s)
    ensures ReplaceAll("¥" + s + "元", "¥", "") == s + "元"
  {
    ContainsChar(s, '¥');
    ContainsChar("元", '¥');
    ReplaceCharAppend("¥", s + "元", '¥', "");
    assert "¥" + s + "元" == "¥" + (s + "元");
    ReplaceCharAppend(s, "元", '¥', "");
    ReplaceAbsent(s, "¥", "");
    ReplaceAbsent("元", "¥", "");
  }

  lemma DropYuan(s: string)
    requires AllDigits(s)
    ensures ReplaceAll(s + "元", "元", "") == s
  {
    ContainsChar(s, '元');
    ReplaceCharAppend(s, "元", '元', "");
    ReplaceAbsent(s, "元", "");
  }

  /** A run of digits is one whole number. */
  lemma FirstNumberOfDigits(s: string)
    requires s != "" && AllDigits(s)
    ensures NumberIn(s) == DigitsValue(s) as real
  {
    WholeMatch(s);
  }

  lemma WholeMatch(s: string)
    requires s != "" && AllDigits(s)
    ensures FirstNumber(s) == Some(Decimal(s, ""))
  {
    DigitRunAll(s);
    assert DigitStart(s) == 0;
    assert s[0..] == s && s[0..|s|] == s;
  }

  lemma {:induction false} DigitRunAll(s: string)
    requires AllDigits(s)
    ensures DigitRun(s) == |s|
    decreases |s|
  {
    if s != [] {
      DigitRunAll(s[1..]);
    }
  }

  /** `¥<digits>元` reads as the value of the digits. */
  lemma PriceOfDigits(s: string)
    requires s != "" && AllDigits(s)
    ensures PriceOf(Str("¥" + s + "元")) == DigitsValue(s) as real
  {
    PriceTextOfDigits(s);
    FirstNumberOfDigits(s);
  }

  /** `¥<n>元` reads as `n`. */
  lemma PriceOfWhole(n: nat)
    ensures PriceOf(Str("¥" + NatToString(n) + "元")) == n as real
  {
    PriceOfDigits(NatToString(n));
    DigitsOfNat(n);
  }

  /** Of several numbers the first counts: `<n>` followed by a character that is neither digit nor dot. */
  lemma FirstNumberWins(n: nat, c: char, rest: string)
    requires !IsDigit(c) && c != '.'
    ensures FirstNumber(NatToString(n) + [c] + rest) == Some(Decimal(NatToString(n), ""))
  {
    var s := NatToString(n);
    var t := s + [c] + rest;
    assert DigitStart(t) == 0;
    assert t[..|s|] == s && t[|s|] == c;
    assert DigitRun(t) == |s| by {
      DigitRunPrefix(t, |s|);
    }
  }

  lemma {:induction false} DigitRunPrefix(t: string, n: nat)
    requires n < |t| && !IsDigit(t[n]) && forall i :: 0 <= i < n ==> IsDigit(t[i])
    ensures DigitRun(t) == n
    decreases n
  {
    if n > 0 {
      DigitRunPrefix(t[1..], n - 1);
    }
  }

  // ---------------------------------------------------------------- the other fields

  /** `str()` of a number or a container is never empty. */
  type Printed = t: string | t != "" witness "0"

  /** A value of the model's parsed JSON answer, as far as Python's truth test and `str()` see it. */
  datatype Value =
    | Null                              // JSON `null`, and what `dict.get` gives for a missing key
    | Flag(b: bool)
    | Number(x: real, text: Printed)      // `text` is `str()` of the number
    | Str(s: string)
    | Composite(size: nat, text: Printed) // a list or an object: its length and its `str()`

  /** Python's truth test: `None`, `False`, zero, `""` and empty containers are false. */
  predicate IsTruthy(v: Value)
  {
    match v
    case Null => false
    case Flag(b) => b
    case Number(x, _) => x != 0.0
    case Str(s) => s != ""
    case Composite(n, _) => n > 0
  }

  /** `str(v)`: a true value never shows as the empty text. */
  function Shown(v: Value): (t: string)
    ensures IsTruthy(v) ==> t != ""
    ensures v.Str? ==> t == v.s
  {
    match v
    case Null => "None"
    case Flag(b) => if b then "True" else "False"
    case Number(_, text) => text
    case Str(s) => s
    case Composite(_, text) => text
  }

  /** The model's answer parsed into a dictionary; a key may be present with a `null` value. */
  type Fields = map<string, Value>

  /** `f.get(key)` */
  function Get(f: Fields, key: string): (v: Value)
    ensures key !in f ==> v == Null
  {
    if key in f then f[key] else Null
  }

  /** `f.get(k1) or f.get(k2) or …`: the first truthy value, else the last key's value. */
  function OrChain(f: Fields, keys: seq<string>): (r: Value)
    requires keys != []
    ensures IsTruthy(r) <==> exists i :: 0 <= i < |keys| && IsTruthy(Get(f, keys[i]))
    ensures IsTruthy(r) ==> exists i :: 0 <= i < |keys| && r == Get(f, keys[i])
                                        && forall j :: 0 <= j < i ==> !IsTruthy(Get(f, keys[j]))
    ensures !IsTruthy(r) ==> r == Get(f, keys[|keys| - 1])
    decreases |keys|
  {
    if |keys| == 1 then Get(f, keys[0])
    else if IsTruthy(Get(f, keys[0])) then Get(f, keys[0])
    else
      var r := OrChain(f, keys[1..]);
      assert forall i :: 1 <= i < |keys| ==> keys[i] == keys[1..][i - 1];
      if IsTruthy(r) then
        var i :| 0 <= i < |keys[1..]| && r == Get(f, keys[1..][i])
                 && forall j :: 0 <= j < i ==> !IsTruthy(Get(f, keys[1..][j]));
        assert forall j :: 0 <= j < i + 1 ==> !IsTruthy(Get(f, keys[j])) by {
          assert forall j :: 1 <= j < i + 1 ==> keys[j] == keys[1..][j - 1];
        }
        r
      else r
  }

  /** The first truthy key of the chain decides its value. */
  lemma OrChainFirst(f: Fields, keys: seq<string>, i: nat)
    requires i < |keys| && IsTruthy(Get(f, keys[i]))
    requires forall j :: 0 <= j < i ==> !IsTruthy(Get(f, keys[j]))
    ensures OrChain(f, keys) == Get(f, keys[i])
  {
    var r := OrChain(f, keys);
    var k :| 0 <= k < |keys| && r == Get(f, keys[k]) && forall j :: 0 <= j < k ==> !IsTruthy(Get(f, keys[j]));
    assert !(k < i) && !(i < k);
  }

  lemma OrChainDecides(f: Fields, keys: seq<string>)
    requires keys != []
    ensures forall i :: 0 <= i < |keys| && IsTruthy(Get(f, keys[i])) && (forall j :: 0 <= j < i ==> !IsTruthy(Get(f, keys[j])))
                        ==> OrChain(f, keys) == Get(f, keys[i])
  {
    forall i | 0 <= i < |keys| && IsTruthy(Get(f, keys[i])) && (forall j :: 0 <= j < i ==> !IsTruthy(Get(f, keys[j])))
      ensures OrChain(f, keys) == Get(f, keys[i])
    {
      OrChainFirst(f, keys, i);
    }
  }

  /**
   * The text of a `description` or `ocr_text` value: none when it is false; otherwise its `str()`
   * text, which for a value that is not a text differs from the object `ProductInfo` keeps.
   */
  function TextOf(v: Value): (t: Option<string>)
    ensures t.Some? <==> IsTruthy(v)
    ensures t.Some? ==> t.value == Shown(v) && t.value != ""
  {
    if IsTruthy(v) then Some(Shown(v)) else None
  }

  const TitleKeys: seq<string> := ["title", "商品标题", "product_title"]
  const ShopKeys: seq<string> := ["shop_name", "店铺名称", "卖家昵称", "卖家名称", "商家名称", "seller_name", "store_name"]
  const PriceKeys: seq<string> := ["price", "价格", "商品价格", "售价"]
  const DescriptionKeys: seq<string> := ["description", "商品描述"]
  const OcrKeys: seq<string> := ["ocr_text", "all_text"]

  const UnknownTitle := "未识别商品_"
  const UnknownShop := "未知店铺"

  /** `str(f.get(k1) or … or fallback)`: the first true value's text, or the fallback when no key has one. */
  function FieldOr(f: Fields, keys: seq<string>, fallback: string): (t: string)
    requires keys != [] && fallback != ""
    ensures t != ""
    ensures (forall i :: 0 <= i < |keys| ==> !IsTruthy(Get(f, keys[i]))) ==> t == fallback
    ensures forall i :: (0 <= i < |keys| && IsTruthy(Get(f, keys[i]))
                         && forall j :: 0 <= j < i ==> !IsTruthy(Get(f, keys[j])))
                        ==> t == Shown(Get(f, keys[i]))
  {
    OrChainDecides(f, keys);
    var v := OrChain(f, keys);
    if IsTruthy(v) then Shown(v) else fallback
  }

  /** The listing read from a non-empty answer, with the title and shop fallbacks. */
  function InfoFromFields(f: Fields, index: nat, platform: string): (info: ProductInfo)
    ensures info.platform == platform && info.price >= 0.0 && info.url.None? && info.imageAnalysis.None?
    ensures info.title != "" && info.shopName != ""
    ensures (forall i :: 0 <= i < |TitleKeys| ==> !IsTruthy(Get(f, TitleKeys[i]))) ==> info.title == UnknownTitle + NatToString(index)
    ensures (forall i :: 0 <= i < |ShopKeys| ==> !IsTruthy(Get(f, ShopKeys[i]))) ==> info.shopName == UnknownShop
    ensures forall i :: (0 <= i < |TitleKeys| && IsTruthy(Get(f, TitleKeys[i]))
                         && forall j :: 0 <= j < i ==> !IsTruthy(Get(f, TitleKeys[j])))
                        ==> info.title == Shown(Get(f, TitleKeys[i]))
    ensures forall i :: (0 <= i < |ShopKeys| && IsTruthy(Get(f, ShopKeys[i]))
                         && forall j :: 0 <= j < i ==> !IsTruthy(Get(f, ShopKeys[j])))
                        ==> info.shopName == Shown(Get(f, ShopKeys[i]))
    ensures info.price == PriceOf(OrChain(f, PriceKeys))
    ensures info.description == TextOf(OrChain(f, DescriptionKeys)) && info.ocrText == TextOf(OrChain(f, OcrKeys))
  {
    PiracyDetector.ProductInfo(
      FieldOr(f, TitleKeys, UnknownTitle + NatToString(index)),
      FieldOr(f, ShopKeys, UnknownShop),
      PriceOf(OrChain(f, PriceKeys)),
      TextOf(OrChain(f, DescriptionKeys)),
      TextOf(OrChain(f, OcrKeys)),
      None, None, platform)
  }

  type ProductInfo = PiracyDetector.ProductInfo

  /** The listing recorded when the extraction task raises or its answer is not a non-empty dictionary. */
  function FallbackInfo(index: nat, platform: string): ProductInfo
  {
    PiracyDetector.ProductInfo("商品_" + NatToString(index) + "(AI提取失败)", "未知", 0.0, None, None, None, None, platform)
  }

  // ---------------------------------------------------------------- the patrol, as a function of the call history

  datatype ExtractRun = ExtractRun(history: seq<Task>, info: Option<ProductInfo>)

  /**
   * `_extract_product_info(index)` from call history `h`: the listing is skipped only when
   * entering its page raises; a raising or unusable extraction gives the fallback listing.
   */
  function ExtractSpec(raises: (seq<Task>, Task) -> bool, respond: seq<Task> -> Option<Fields>,
                       h: seq<Task>, index: nat, platform: string): (r: ExtractRun)
    ensures r.info.None? <==> raises(h, EnterDetail(index + 1))
    ensures r.info.None? ==> r.history == h + [EnterDetail(index + 1)]
    ensures r.info.Some? ==> r.history == h + [EnterDetail(index + 1), ExtractInfo] && r.info.value.platform == platform
  {
    var h1 := h + [EnterDetail(index + 1)];
    if raises(h, EnterDetail(index + 1)) then ExtractRun(h1, None)
    else
      var h2 := h1 + [ExtractInfo];
      if raises(h1, ExtractInfo) then ExtractRun(h2, Some(FallbackInfo(index, platform)))
      else
        match respond(h1)
        case Some(f) => ExtractRun(h2, Some(if f != map[] then InfoFromFields(f, index, platform) else FallbackInfo(index, platform)))
        case None => ExtractRun(h2, Some(FallbackInfo(index, platform)))
  }

  /**
   * A usable answer is any non-empty dictionary, even one whose values are all `null`: its
   * listing is read from the fields, so a title or shop that no key supplies with a true
   * value falls back to 未识别商品_<index> or 未知店铺 rather than to the AI-failure listing.
   */
  lemma ExtractFallbacks(raises: (seq<Task>, Task) -> bool, respond: seq<Task> -> Option<Fields>,
                         h: seq<Task>, index: nat, platform: string)
    requires !raises(h, EnterDetail(index + 1)) && !raises(h + [EnterDetail(index + 1)], ExtractInfo)
    requires var a := respond(h + [EnterDetail(index + 1)]); a.Some? && a.value != map[]
    ensures var f := respond(h + [EnterDetail(index + 1)]).value;
            var r := ExtractSpec(raises, respond, h, index, platform);
            r.info == Some(InfoFromFields(f, index, platform))
            && ((forall i :: 0 <= i < |TitleKeys| ==> !IsTruthy(Get(f, TitleKeys[i]))) ==> r.info.value.title == UnknownTitle + NatToString(index))
            && ((forall i :: 0 <= i < |ShopKeys| ==> !IsTruthy(Get(f, ShopKeys[i]))) ==> r.info.value.shopName == UnknownShop)
  {
  }

  /** An answer whose every value is `null` is an unrecognised listing of an unknown shop at 0.0. */
  lemma NullAnswer(f: Fields, index: nat, platform: string)
    requires forall k :: k in f ==> f[k] == Null
    ensures var info := InfoFromFields(f, index, platform);
            info.title == UnknownTitle + NatToString(index) && info.shopName == UnknownShop && info.price == 0.0
  {
    assert forall k :: !IsTruthy(Get(f, k));
    assert forall i :: 0 <= i < |TitleKeys| ==> !IsTruthy(Get(f, TitleKeys[i]));
    assert forall i :: 0 <= i < |ShopKeys| ==> !IsTruthy(Get(f, ShopKeys[i]));
    assert !IsTruthy(OrChain(f, PriceKeys));
  }

  /** `{"title": null, "shop_name": null, "price": null}`, a non-empty dictionary, is read as an unrecognised listing. */
  lemma AllNullAnswer(index: nat, platform: string)
    ensures var f := map["title" := Null, "shop_name" := Null, "price" := Null];
            f != map[] && var info := InfoFromFields(f, index, platform);
            info.title == UnknownTitle + NatToString(index) && info.shopName == UnknownShop && info.price == 0.0
  {
    var f: Fields := map["title" := Null, "shop_name" := Null, "price" := Null];
    assert "title" in f;
    NullAnswer(f, index, platform);
  }

  /** A zero price is false to Python, so `price or 价格 or …` moves on to the next key. */
  lemma FalsyNumberSkipped(v: Value)
    requires IsTruthy(v)
    ensures OrChain(map["price" := Number(0.0, "0"), "价格" := v], PriceKeys) == v
  {
    OrChainFirst(map["price" := Number(0.0, "0"), "价格" := v], PriceKeys, 1);
  }

  /** `{"price": 0, "价格": "¥59元"}` is priced 59.0. */
  lemma ZeroPriceThenText()
    ensures var f := map["price" := Number(0.0, "0"), "价格" := Str("¥" + NatToString(59) + "元")];
            InfoFromFields(f, 0, "").price == 59.0
  {
    PriceOfWhole(59);
    FalsyNumberSkipped(Str("¥" + NatToString(59) + "元"));
  }

  /**
   * The readings of `datetime.now()` while listing `i` is handled: the verdict's time, the
   * report id's stamp, the record's creation time and the screenshot's stamp.
   */
  datatype Stamps = Stamps(detectedAt: string, reportStamp: string, createdAt: string, shotStamp: string)

  /**
   * What the patrol runs on: the agent oracle (which tasks raise, with what message, and
   * what the extraction answers), the catalog, the detector settings, the clock, the
   * screenshot directory and the mode.
   */
  datatype Env = Env(
    raises: (seq<Task>, Task) -> bool,
    errorOf: (seq<Task>, Task) -> string,
    respond: seq<Task> -> Option<Fields>,
    cat: ProductDatabase.Catalog,
    cfg: PiracyDetector.Config,
    fmt: PiracyDetector.Formats,
    clock: nat -> Stamps,
    screenshotDir: string,
    platformKey: string,
    platformName: string,
    testMode: bool)

  /** One entry of `results`. */
  datatype Checked = Checked(info: ProductInfo, result: PiracyDetector.DetectionResult)

  /** `current_session` without its start time. */
  datatype Session = Session(checked: nat, piracy: nat, reported: nat, results: seq<Checked>)

  const Fresh := Session(0, 0, 0, [])

  /** `detection_result.to_dict()` as the ledger reads it: all keys, with the matched record reduced to its name. */
  function Detection(r: PiracyDetector.DetectionResult): ReportManager.DetectionInfo
  {
    ReportManager.FullDetection(r.confidence, r.reasons, if r.matchedProduct.Some? then Some(r.matchedProduct.value.productName) else None)
  }

  /** The reason the ledger generates for a verdict, which the report task carries. */
  function ReasonFor(fmt: PiracyDetector.Formats, r: PiracyDetector.DetectionResult): string
  {
    ReportManager.ReasonText(fmt.pct, Some(Detection(r)))
  }

  // ---------------------------------------------------------------- the report, as a function of the ledger

  const Submitted := "submitted"
  const Failed := "failed"
  const SubmittedNote := "举报已通过应用内举报功能提交"
  const FailedLead := "举报提交失败: "

  /** `_save_screenshot`'s path `<report id>_<stamp>.png` in the screenshot directory (the capture itself is a TODO). */
  function ScreenshotPath(directory: string, reportId: string, stamp: string): (p: string)
    ensures EndsWith(p, ".png")
  {
    var name := reportId + "_" + stamp + ".png";
    assert name[|name| - 4..] == ".png";
    PathJoin(directory, name)
  }

  /** The record `create_report` files for a verdict: `pending`, no evidence yet, no notes. */
  function Filed(fmt: PiracyDetector.Formats, info: ProductInfo, r: PiracyDetector.DetectionResult, id: string, createdAt: string): ReportManager.ReportRecord
  {
    ReportManager.ReportRecord(id, info.platform, info.title, info.shopName, info.price, info.url, Some(Detection(r)),
                               ReasonFor(fmt, r), ReportManager.Pending, [], createdAt, None)
  }

  /** The record after `add_screenshot` and `update_status`: either `submitted` with its note or `failed` with the error. */
  function Concluded(filed: ReportManager.ReportRecord, path: string, ok: bool, error: string): ReportManager.ReportRecord
  {
    filed.(evidenceScreenshots := [path], reportStatus := if ok then Submitted else Failed,
           notes := Some(if ok then SubmittedNote else FailedLead + error))
  }

  /** The report task `_report_piracy` sends for a verdict. */
  function ReportFor(env: Env, r: PiracyDetector.DetectionResult): Task
  {
    ReportTask(ReasonFor(env.fmt, r))
  }

  /** `_report_piracy` from ledger `l` and call history `h`: the one record it files, as it ends. */
  function Reported(env: Env, l: ReportManager.Ledger, h: seq<Task>, info: ProductInfo,
                    r: PiracyDetector.DetectionResult, t: Stamps): ReportManager.Ledger
  {
    var id := ReportManager.RecId(t.reportStamp, |l.reports|);
    var task := ReportFor(env, r);
    var record := Concluded(Filed(env.fmt, info, r, id, t.createdAt), ScreenshotPath(env.screenshotDir, id, t.shotStamp),
                            !env.raises(h, task), env.errorOf(h, task));
    ReportManager.Ledger(if id in l.reports then l.order else l.order + [id], l.reports[id := record])
  }

  /**
   * A report keeps the ledger well formed and its evidence free of repeats, and the record
   * it files, under the next id, ends `submitted` exactly when the report task does not
   * raise, `failed` with the error otherwise, with its screenshot as the one evidence item.
   */
  lemma ReportedRecord(env: Env, l: ReportManager.Ledger, h: seq<Task>, info: ProductInfo,
                       r: PiracyDetector.DetectionResult, t: Stamps)
    requires l.Valid()
    ensures var l2 := Reported(env, l, h, info, r, t);
            var id := ReportManager.RecId(t.reportStamp, |l.reports|);
            var ok := !env.raises(h, ReportFor(env, r));
            l2.Valid() && id in l2.reports && l2.reports.Keys == l.reports.Keys + {id}
            && (forall k :: k in l.reports && k != id ==> l2.reports[k] == l.reports[k])
            && l2.reports[id].reportStatus == (if ok then Submitted else Failed)
            && l2.reports[id].notes == Some(if ok then SubmittedNote else FailedLead + env.errorOf(h, ReportFor(env, r)))
            && l2.reports[id].reportReason == ReasonFor(env.fmt, r)
            && l2.reports[id].evidenceScreenshots == [ScreenshotPath(env.screenshotDir, id, t.shotStamp)]
            && (l.EvidenceDistinct() ==> l2.EvidenceDistinct())
  {
    var id := ReportManager.RecId(t.reportStamp, |l.reports|);
    var task := ReportFor(env, r);
    var record := Concluded(Filed(env.fmt, info, r, id, t.createdAt), ScreenshotPath(env.screenshotDir, id, t.shotStamp),
                            !env.raises(h, task), env.errorOf(h, task));
    PutRecord(l, id, record);
    ConcludedFields(Filed(env.fmt, info, r, id, t.createdAt), ScreenshotPath(env.screenshotDir, id, t.shotStamp),
                    !env.raises(h, task), env.errorOf(h, task));
  }

  lemma ConcludedFields(filed: ReportManager.ReportRecord, path: string, ok: bool, error: string)
    ensures var c := Concluded(filed, path, ok, error);
            c.reportStatus == (if ok then Submitted else Failed)
            && c.notes == Some(if ok then SubmittedNote else FailedLead + error)
            && c.reportReason == filed.reportReason && c.evidenceScreenshots == [path]
  {
  }

  /** Putting a record with one evidence item under an id keeps a ledger well formed and free of repeated evidence. */
  lemma PutRecord(l: ReportManager.Ledger, id: string, rec: ReportManager.ReportRecord)
    requires l.Valid() && |rec.evidenceScreenshots| == 1
    ensures var l2 := ReportManager.Ledger(if id in l.reports then l.order else l.order + [id], l.reports[id := rec]);
            l2.Valid() && l2.reports.Keys == l.reports.Keys + {id} && l2.reports[id] == rec
            && (forall k :: k in l.reports && k != id ==> l2.reports[k] == l.reports[k])
            && (l.EvidenceDistinct() ==> l2.EvidenceDistinct())
  {
    if id !in l.reports {
      assert id !in l.order;
    }
  }

  // ---------------------------------------------------------------- the patrol, as a function of the call history

  datatype ItemRun = ItemRun(history: seq<Task>, session: Session, ledger: ReportManager.Ledger)

  /** The counters and the ledger after the verdict: a pirated listing is reported (in test mode, only counted). */
  function Verdicted(env: Env, h: seq<Task>, s: Session, l: ReportManager.Ledger, info: ProductInfo,
                     r: PiracyDetector.DetectionResult, t: Stamps): ItemRun
  {
    if !r.isPiracy then ItemRun(h, s, l)
    else if env.testMode then ItemRun(h, s.(piracy := s.piracy + 1, reported := s.reported + 1), l)
    else
      var task := ReportFor(env, r);
      ItemRun(h + [task], s.(piracy := s.piracy + 1, reported := s.reported + if env.raises(h, task) then 0 else 1),
              Reported(env, l, h, info, r, t))
  }

  /** The back-to-list task, and the scroll after every fifth listing. */
  function Leave(h: seq<Task>, i: nat): seq<Task>
  {
    var h1 := h + [BackToList];
    if (i + 1) % 5 == 0 then h1 + [ScrollDown] else h1
  }

  /** One turn of `start_patrol`'s loop for listing `i`. */
  function ItemSpec(env: Env, h: seq<Task>, s: Session, l: ReportManager.Ledger, i: nat): ItemRun
    requires env.cat.Valid()
  {
    var x := ExtractSpec(env.raises, env.respond, h, i, env.platformName);
    if x.info.None? then ItemRun(x.history, s, l)
    else
      var r := PiracyDetector.Verdict(env.cat, env.cfg, env.fmt, x.info.value, env.clock(i).detectedAt);
      Examined(env, x.history, s, l, x.info.value, r, i)
  }

  /** The rest of the turn for an extracted listing and its verdict: the counters, the report, and the way back. */
  function Examined(env: Env, h: seq<Task>, s: Session, l: ReportManager.Ledger, info: ProductInfo,
                    r: PiracyDetector.DetectionResult, i: nat): ItemRun
  {
    var v := Verdicted(env, h, s.(checked := s.checked + 1, results := s.results + [Checked(info, r)]), l, info, r, env.clock(i));
    ItemRun(Leave(v.history, i), v.session, v.ledger)
  }

  /** Listings `i` to `n - 1`. */
  function PatrolSpec(env: Env, h: seq<Task>, s: Session, l: ReportManager.Ledger, i: nat, n: nat): ItemRun
    requires env.cat.Valid()
    decreases n - i
  {
    if i >= n then ItemRun(h, s, l)
    else
      var r := ItemSpec(env, h, s, l, i);
      PatrolSpec(env, r.history, r.session, r.ledger, i + 1, n)
  }

  /** `_launch_and_search`: on Xiaohongshu a successful search is followed by switching to the 商品 tab. */
  function LaunchSpec(env: Env, h: seq<Task>, keyword: string): seq<Task>
  {
    var t := LaunchAndSearch(env.platformName, keyword);
    if !env.raises(h, t) && env.platformKey == "xiaohongshu" then h + [t, SwitchToProductsTab] else h + [t]
  }

  /** `range(max_items)` */
  function Count(maxItems: int): nat
  {
    if maxItems < 0 then 0 else maxItems
  }

  /** `start_patrol` from call history `h` and ledger `l`, with a fresh session; the patrol goes on when the search fails. */
  function StartSpec(env: Env, h: seq<Task>, l: ReportManager.Ledger, keyword: string, maxItems: int): ItemRun
    requires env.cat.Valid()
  {
    PatrolSpec(env, LaunchSpec(env, h, keyword), Fresh, l, 0, Count(maxItems))
  }

  // ---------------------------------------------------------------- what the session counts

  predicate IsPirated(c: Checked)
  {
    c.result.isPiracy
  }

  function Pirated(): Checked -> bool
  {
    c => IsPirated(c)
  }

  /**
   * The session's bookkeeping after `i` turns: one result per checked listing,
   * `piracy_count` counts the pirated results, and reported ≤ piracy ≤ checked ≤ i;
   * in test mode every pirated listing counts as reported.
   */
  predicate Accounted(env: Env, s: Session, i: nat)
  {
    s.reported <= s.piracy <= s.checked <= i && |s.results| == s.checked
    && s.piracy == |Filter(s.results, Pirated())|
    && (env.testMode ==> s.reported == s.piracy)
  }

  /** The rest of a turn keeps the bookkeeping, whatever the verdict. */
  lemma ExaminedAccounts(env: Env, h: seq<Task>, s: Session, l: ReportManager.Ledger, info: ProductInfo,
                         r: PiracyDetector.DetectionResult, i: nat)
    requires Accounted(env, s, i)
    ensures Accounted(env, Examined(env, h, s, l, info, r, i).session, i + 1)
  {
    FilterAppend(s.results, [Checked(info, r)], Pirated());
  }

  /** One turn keeps the bookkeeping. */
  lemma ItemAccounts(env: Env, h: seq<Task>, s: Session, l: ReportManager.Ledger, i: nat)
    requires env.cat.Valid() && Accounted(env, s, i)
    ensures Accounted(env, ItemSpec(env, h, s, l, i).session, i + 1)
  {
    var x := ExtractSpec(env.raises, env.respond, h, i, env.platformName);
    if x.info.Some? {
      var r := PiracyDetector.Verdict(env.cat, env.cfg, env.fmt, x.info.value, env.clock(i).detectedAt);
      ExaminedAccounts(env, x.history, s, l, x.info.value, r, i);
    }
  }

  /** The whole patrol keeps the bookkeeping. */
  lemma {:induction false} PatrolAccounts(env: Env, h: seq<Task>, s: Session, l: ReportManager.Ledger, i: nat, n: nat)
    requires env.cat.Valid() && i <= n && Accounted(env, s, i)
    ensures Accounted(env, PatrolSpec(env, h, s, l, i, n).session, n)
    decreases n - i
  {
    if i < n {
      ItemAccounts(env, h, s, l, i);
      var r := ItemSpec(env, h, s, l, i);
      PatrolAccounts(env, r.history, r.session, r.ledger, i + 1, n);
    }
  }

  /** The ledger a turn leaves: well formed, evidence still free of repeats, and untouched in test mode. */
  ghost predicate LedgerKept(env: Env, before: ReportManager.Ledger, after: ReportManager.Ledger)
  {
    (before.Valid() ==> after.Valid())
    && (before.Valid() && before.EvidenceDistinct() ==> after.EvidenceDistinct())
    && (env.testMode ==> after == before)
  }

  /** The rest of a turn keeps the ledger well formed and files nothing in test mode. */
  lemma ExaminedKeepsLedger(env: Env, h: seq<Task>, s: Session, l: ReportManager.Ledger, info: ProductInfo,
                            r: PiracyDetector.DetectionResult, i: nat)
    ensures LedgerKept(env, l, Examined(env, h, s, l, info, r, i).ledger)
  {
    if l.Valid() {
      ReportedRecord(env, l, h, info, r, env.clock(i));
    }
  }

  /** One turn keeps the ledger well formed and files nothing in test mode. */
  lemma ItemKeepsLedger(env: Env, h: seq<Task>, s: Session, l: ReportManager.Ledger, i: nat)
    requires env.cat.Valid()
    ensures LedgerKept(env, l, ItemSpec(env, h, s, l, i).ledger)
  {
    var x := ExtractSpec(env.raises, env.respond, h, i, env.platformName);
    if x.info.Some? {
      var r := PiracyDetector.Verdict(env.cat, env.cfg, env.fmt, x.info.value, env.clock(i).detectedAt);
      ExaminedKeepsLedger(env, x.history, s, l, x.info.value, r, i);
    }
  }

  /** The whole patrol keeps the ledger well formed and files nothing in test mode. */
  lemma {:induction false} PatrolKeepsLedger(env: Env, h: seq<Task>, s: Session, l: ReportManager.Ledger, i: nat, n: nat)
    requires env.cat.Valid()
    ensures LedgerKept(env, l, PatrolSpec(env, h, s, l, i, n).ledger)
    decreases n - i
  {
    if i < n {
      ItemKeepsLedger(env, h, s, l, i);
      var r := ItemSpec(env, h, s, l, i);
      PatrolKeepsLedger(env, r.history, r.session, r.ledger, i + 1, n);
    }
  }

  /** A listing whose page cannot be opened changes nothing but the call history, and nothing else is sent for it. */
  lemma SkippedItem(env: Env, h: seq<Task>, s: Session, l: ReportManager.Ledger, i: nat)
    requires env.cat.Valid() && env.raises(h, EnterDetail(i + 1))
    ensures ItemSpec(env, h, s, l, i) == ItemRun(h + [EnterDetail(i + 1)], s, l)
  {
  }

  /** The tasks the rest of a turn sends: the report when pirated outside test mode, then the way back. */
  lemma ExaminedSends(env: Env, h: seq<Task>, s: Session, l: ReportManager.Ledger, info: ProductInfo,
                      r: PiracyDetector.DetectionResult, i: nat)
    ensures var run := Examined(env, h, s, l, info, r, i);
            var sent := if r.isPiracy && !env.testMode then [ReportFor(env, r)] else [];
            run.session.checked == s.checked + 1 && run.session.results == s.results + [Checked(info, r)]
            && run.history == h + sent + [BackToList] + (if (i + 1) % 5 == 0 then [ScrollDown] else [])
  {
  }

  /**
   * A listing that opens is checked: its result is recorded last, a report task is sent
   * iff it is pirated outside test mode, and the turn ends with the way back to the list,
   * followed by a scroll exactly when `(i + 1) % 5 == 0`.
   */
  lemma CheckedItem(env: Env, h: seq<Task>, s: Session, l: ReportManager.Ledger, i: nat)
    requires env.cat.Valid() && !env.raises(h, EnterDetail(i + 1))
    ensures var info := ExtractSpec(env.raises, env.respond, h, i, env.platformName).info.value;
            var r := PiracyDetector.Verdict(env.cat, env.cfg, env.fmt, info, env.clock(i).detectedAt);
            var run := ItemSpec(env, h, s, l, i);
            var h2 := h + [EnterDetail(i + 1), ExtractInfo];
            var sent := if r.isPiracy && !env.testMode then [ReportFor(env, r)] else [];
            run.session.checked == s.checked + 1 && run.session.results == s.results + [Checked(info, r)]
            && run.history == h2 + sent + [BackToList] + (if (i + 1) % 5 == 0 then [ScrollDown] else [])
  {
    var x := ExtractSpec(env.raises, env.respond, h, i, env.platformName);
    assert x.info.Some? && x.history == h + [EnterDetail(i + 1), ExtractInfo];
    var r := PiracyDetector.Verdict(env.cat, env.cfg, env.fmt, x.info.value, env.clock(i).detectedAt);
    ExaminedSends(env, x.history, s, l, x.info.value, r, i);
  }

  // ---------------------------------------------------------------- the agent

  lemma PutTwice<K, V>(m: map<K, V>, k: K, a: V, b: V)
    ensures m[k := a][k := b] == m[k := b]
  {
  }

  class Agent {
    const platformKey: string
    const platformName: string
    const testMode: bool
    const phone: PhoneAgent.Agent<Task>
    /** The parsed answer to the extraction task sent after a given call history. */
    const respond: seq<Task> -> Option<Fields>
    /** `str(e)` of the exception a raising task throws. */
    const errorOf: (seq<Task>, Task) -> string
    /** The clock readings while listing `i` is handled. */
    const clock: nat -> Stamps
    const db: ProductDatabase.ProductDatabase
    const cfg: PiracyDetector.Config
    const fmt: PiracyDetector.Formats
    const ledger: ReportManager.ReportManager
    const screenshotDir: string
    var session: Session

    ghost predicate Valid()
      reads this, db, ledger
    {
      db.Valid() && ledger.Valid()
    }

    function EnvOf(): Env
      reads db
    {
      Env(phone.raises, errorOf, respond, db.Table(), cfg, fmt, clock, screenshotDir, platformKey, platformName, testMode)
    }

    /** `__init__` for a supported platform: a fresh session and the default detector thresholds. */
    constructor(platformKey: string, testMode: bool, phone: PhoneAgent.Agent<Task>,
                respond: seq<Task> -> Option<Fields>, errorOf: (seq<Task>, Task) -> string, clock: nat -> Stamps,
                db: ProductDatabase.ProductDatabase, fmt: PiracyDetector.Formats, ledger: ReportManager.ReportManager,
                screenshotDir: string)
      requires PlatformName(platformKey).Some?
      ensures this.platformKey == platformKey && Some(platformName) == PlatformName(platformKey) && this.testMode == testMode
      ensures this.phone == phone && this.respond == respond && this.errorOf == errorOf && this.clock == clock
      ensures this.db == db && this.fmt == fmt && this.ledger == ledger && this.screenshotDir == screenshotDir
      ensures cfg == PiracyDetector.Defaults && session == Fresh
    {
      this.platformKey := platformKey;
      this.platformName := PlatformName(platformKey).value;
      this.testMode := testMode;
      this.phone := phone;
      this.respond := respond;
      this.errorOf := errorOf;
      this.clock := clock;
      this.db := db;
      this.cfg := PiracyDetector.Defaults;
      this.fmt := fmt;
      this.ledger := ledger;
      this.screenshotDir := screenshotDir;
      session := Fresh;
    }

    /** `_launch_and_search`; a raising switch to the 商品 tab is ignored. */
    method LaunchAndSearchFor(keyword: string) returns (ok: bool)
      modifies phone
      ensures phone.calls == LaunchSpec(EnvOf(), old(phone.calls), keyword)
      ensures ok == !phone.raises(old(phone.calls), LaunchAndSearch(platformName, keyword))
    {
      var raised := phone.Run(LaunchAndSearch(platformName, keyword));
      if raised {
        return false;
      }
      if platformKey == "xiaohongshu" {
        var _ := phone.Run(SwitchToProductsTab);
      }
      ok := true;
    }

    /** `_extract_product_info` */
    method ExtractProductInfo(index: nat) returns (info: Option<ProductInfo>)
      modifies phone
      ensures ExtractRun(phone.calls, info) == ExtractSpec(phone.raises, respond, old(phone.calls), index, platformName)
    {
      var entered := phone.Run(EnterDetail(index + 1));
      if entered {
        return None;
      }
      var h1 := phone.calls;
      var raised := phone.Run(ExtractInfo);
      if raised {
        return Some(FallbackInfo(index, platformName));
      }
      var parsed := respond(h1);
      if parsed.Some? && parsed.value != map[] {
        info := Some(InfoFromFields(parsed.value, index, platformName));
      } else {
        info := Some(FallbackInfo(index, platformName));
      }
    }

    /**
     * `_report_piracy`: the record is filed `pending` with its generated reason, the
     * screenshot path is added as evidence, the report task carrying that reason is sent,
     * and the record ends `submitted` or, when the task raises, `failed` with the error.
     */
    method ReportPiracy(info: ProductInfo, r: PiracyDetector.DetectionResult, t: Stamps) returns (ok: bool)
      requires ledger.Valid()
      modifies phone, ledger
      ensures ledger.Valid()
      ensures phone.calls == old(phone.calls) + [ReportFor(EnvOf(), r)]
      ensures ok == !phone.raises(old(phone.calls), ReportFor(EnvOf(), r))
      ensures ledger.Table() == Reported(EnvOf(), old(ledger.Table()), old(phone.calls), info, r, t)
    {
      ghost var table := ledger.Table();
      var report := FileReport(info, r, t);
      ghost var created := ledger.reports;
      var path := ScreenshotPath(screenshotDir, report.reportId, t.shotStamp);
      var h := phone.calls;
      var task := ReportTask(report.reportReason);
      var raised := phone.Run(task);
      ok := !raised;
      var status := if ok then Submitted else Failed;
      var note := if ok then SubmittedNote else FailedLead + errorOf(h, task);
      var _ := ledger.UpdateStatus(report.reportId, status, Some(note));
      ghost var record := Concluded(report, path, ok, errorOf(h, task));
      assert ledger.reports == created[report.reportId := record];
      PutTwice(table.reports, report.reportId, created[report.reportId], record);
    }

    /** `create_report` and `add_screenshot`: the pending record with its one screenshot. */
    method FileReport(info: ProductInfo, r: PiracyDetector.DetectionResult, t: Stamps)
      returns (report: ReportManager.ReportRecord)
      requires ledger.Valid()
      modifies ledger
      ensures ledger.Valid()
      ensures report == Filed(fmt, info, r, ReportManager.RecId(t.reportStamp, |old(ledger.reports)|), t.createdAt)
      ensures ledger.reports == old(ledger.reports)[report.reportId := report.(evidenceScreenshots :=
                [ScreenshotPath(screenshotDir, report.reportId, t.shotStamp)])]
      ensures ledger.order == if report.reportId in old(ledger.reports) then old(ledger.order) else old(ledger.order) + [report.reportId]
    {
      ghost var before := ledger.reports;
      report := ledger.CreateReport(info.platform, info.title, info.shopName, info.price, Some(Detection(r)),
                                    info.url, t.reportStamp, t.createdAt, fmt.pct);
      var path := ScreenshotPath(screenshotDir, report.reportId, t.shotStamp);
      var _ := ledger.AddScreenshot(report.reportId, path);
      assert report.evidenceScreenshots + [path] == [path];
      PutTwice(before, report.reportId, report, report.(evidenceScreenshots := [path]));
    }

    /** The verdict's consequences: the piracy count, and the report or, in test mode, the count alone. */
    method Judge(info: ProductInfo, r: PiracyDetector.DetectionResult, t: Stamps)
      requires ledger.Valid()
      modifies this, phone, ledger
      ensures ledger.Valid()
      ensures ItemRun(phone.calls, session, ledger.Table()) == Verdicted(EnvOf(), old(phone.calls), old(session), old(ledger.Table()), info, r, t)
    {
      if r.isPiracy {
        session := session.(piracy := session.piracy + 1);
        if !testMode {
          var ok := ReportPiracy(info, r, t);
          if ok {
            session := session.(reported := session.reported + 1);
          }
        } else {
          session := session.(reported := session.reported + 1);
        }
      }
    }

    /** One turn of `start_patrol`'s loop, for listing `i`. */
    method PatrolItem(i: nat)
      requires Valid()
      modifies this, phone, ledger
      ensures Valid()
      ensures ItemRun(phone.calls, session, ledger.Table()) == ItemSpec(EnvOf(), old(phone.calls), old(session), old(ledger.Table()), i)
    {
      var x := ExtractProductInfo(i);
      if x.Some? {
        var r := PiracyDetector.Detect(db, cfg, fmt, x.value, clock(i).detectedAt);
        Examine(x.value, r, i);
      }
    }

    /** The turn after a listing was extracted and judged. */
    method Examine(info: ProductInfo, r: PiracyDetector.DetectionResult, i: nat)
      requires ledger.Valid()
      modifies this, phone, ledger
      ensures ledger.Valid()
      ensures ItemRun(phone.calls, session, ledger.Table()) == Examined(EnvOf(), old(phone.calls), old(session), old(ledger.Table()), info, r, i)
    {
      ghost var env := EnvOf();
      ghost var goal := Examined(env, phone.calls, session, ledger.Table(), info, r, i);
      ghost var v := Verdicted(env, phone.calls, session.(checked := session.checked + 1, results := session.results + [Checked(info, r)]),
                               ledger.Table(), info, r, clock(i));
      session := session.(checked := session.checked + 1, results := session.results + [Checked(info, r)]);
      Judge(info, r, clock(i));
      assert ItemRun(phone.calls, session, ledger.Table()) == v;
      var _ := phone.Run(BackToList);
      if (i + 1) % 5 == 0 {
        var _ := phone.Run(ScrollDown);
      }
      assert phone.calls == Leave(v.history, i);
      assert goal == ItemRun(Leave(v.history, i), v.session, v.ledger);
    }

    /**
     * `start_patrol`: a fresh session, the search, then `max_items` turns; the session it
     * returns keeps the bookkeeping, and in test mode the ledger is left as it was.
     */
    method StartPatrol(keyword: string, maxItems: int) returns (s: Session)
      requires Valid()
      modifies this, phone, ledger
      ensures Valid() && s == session
      ensures ItemRun(phone.calls, s, ledger.Table()) == StartSpec(EnvOf(), old(phone.calls), old(ledger.Table()), keyword, maxItems)
      ensures Accounted(EnvOf(), s, Count(maxItems))
      ensures LedgerKept(EnvOf(), old(ledger.Table()), ledger.Table())
    {
      session := Fresh;
      var _ := LaunchAndSearchFor(keyword);
      ghost var env := EnvOf();
      ghost var h0 := phone.calls;
      ghost var l0 := ledger.Table();
      var n := if maxItems < 0 then 0 else maxItems;
      var i := 0;
      while i < n
        invariant 0 <= i <= n && Valid() && env == EnvOf()
        invariant PatrolSpec(env, h0, Fresh, l0, 0, n) == PatrolSpec(env, phone.calls, session, ledger.Table(), i, n)
        invariant Accounted(env, session, i)
        invariant LedgerKept(env, l0, ledger.Table())
      {
        ghost var h := phone.calls;
        ghost var s0 := session;
        ghost var l := ledger.Table();
        PatrolItem(i);
        ItemAccounts(env, h, s0, l, i);
        ItemKeepsLedger(env, h, s0, l, i);
        i := i + 1;
      }
      s := session;
    }
  }

  /** `__init__`: an unsupported platform raises `ValueError`, modelled as no agent. */
  method NewAgent(platformKey: string, testMode: bool, phone: PhoneAgent.Agent<Task>,
                  respond: seq<Task> -> Option<Fields>, errorOf: (seq<Task>, Task) -> string, clock: nat -> Stamps,
                  db: ProductDatabase.ProductDatabase, fmt: PiracyDetector.Formats, ledger: ReportManager.ReportManager,
                  screenshotDir: string) returns (a: Option<Agent>)
    ensures a.None? <==> PlatformName(platformKey).None?
    ensures a.Some? ==> a.value.platformKey == platformKey && a.value.session == Fresh && a.value.db == db
                        && a.value.ledger == ledger && a.value.phone == phone && a.value.testMode == testMode
  {
    if PlatformName(platformKey).None? {
      return None;
    }
    var agent := new Agent(platformKey, testMode, phone, respond, errorOf, clock, db, fmt, ledger, screenshotDir);
    return Some(agent);
  }
}
