/**
 * `ProductExtractor.extract_from_xml` (anti_piracy_system/test/test_detection.py) over
 * the `text` attributes of a UI dump, in document order: the highest "¥" price, the shop
 * name by keyword rules with a fallback rule, and the first long title-like text.
 */
module ProductExtractor {
  import opened Wrappers
  import opened Text
  import opened Seqs

  /** What `extract_from_xml` returns. */
  datatype ExtractedInfo = ExtractedInfo(title: Option<string>, price: Option<real>, shopName: Option<string>)

  const Nothing := ExtractedInfo(None, None, None)

  // ---------------------------------------------------------------- numbers

  predicate NumberChar(c: char)
  {
    IsDigit(c) || c == '.'
  }

  /** The length of the leading run of digits and dots. */
  function RunLength(s: string): (n: nat)
    ensures n <= |s| && (n == |s| || !NumberChar(s[n]))
    ensures forall i :: 0 <= i < n ==> NumberChar(s[i])
    decreases |s|
  {
    if s == [] || !NumberChar(s[0]) then 0 else 1 + RunLength(s[1..])
  }

  /** The index of the first digit or dot, `|s|` when there is none. */
  function NumberStart(s: string): (k: nat)
    ensures k <= |s|
    ensures forall j :: 0 <= j < k ==> !NumberChar(s[j])
    ensures k < |s| ==> NumberChar(s[k])
    decreases |s|
  {
    if s == [] || NumberChar(s[0]) then 0 else 1 + NumberStart(s[1..])
  }

  /**
   * `re.search(r'[\d.]+', text)`: the first maximal run of digits and dots, found at the
   * first digit or dot of the text.
   */
  function NumberRun(text: string): (r: Option<string>)
    ensures r.None? <==> forall i :: 0 <= i < |text| ==> !NumberChar(text[i])
    ensures r.Some? ==> r.value != "" && forall i :: 0 <= i < |r.value| ==> NumberChar(r.value[i])
    ensures r.Some? ==>
              var k := NumberStart(text);
              k + |r.value| <= |text| && text[k..k + |r.value|] == r.value
              && (k + |r.value| == |text| || !NumberChar(text[k + |r.value|]))
  {
    var k := NumberStart(text);
    if k == |text| then None
    else
      var n := RunLength(text[k..]);
      assert text[k..][..n] == text[k..k + n];
      Some(text[k..k + n])
  }

  /** The number of occurrences of `c` in `s`. */
  function Occurrences(s: string, c: char): nat
  {
    multiset(s)[c]
  }

  /** Splitting on a character gives one part more than it occurs. */
  lemma {:induction false} SplitCount(s: string, sep: char)
    ensures |SplitOn(s, sep)| == Occurrences(s, sep) + 1
    decreases |s|
  {
    if |s| > 0 {
      SplitCount(s[1..], sep);
      assert s == [s[0]] + s[1..];
      assert multiset(s) == multiset([s[0]]) + multiset(s[1..]);
    }
  }

  /** The parts of a run split on its dots are digit strings. */
  lemma {:induction false} SplitOnParts(run: string)
    requires forall i :: 0 <= i < |run| ==> NumberChar(run[i])
    ensures forall k :: 0 <= k < |SplitOn(run, '.')| ==> AllDigits(SplitOn(run, '.')[k])
    decreases |run|
  {
    if |run| > 0 {
      SplitOnParts(run[1..]);
      var rest := SplitOn(run[1..], '.');
      if run[0] != '.' {
        var p := [run[0]] + rest[0];
        assert forall i :: 1 <= i < |p| ==> p[i] == rest[0][i - 1];
      }
    }
  }

  /** A non-empty run with at most one dot that is not the dot alone holds a digit. */
  lemma RunHasDigit(run: string)
    requires run != "" && run != "." && Occurrences(run, '.') <= 1
    requires forall i :: 0 <= i < |run| ==> NumberChar(run[i])
    ensures exists i :: 0 <= i < |run| && IsDigit(run[i])
  {
    if !IsDigit(run[0]) {
      assert run[0] == '.';
      assert |run| >= 2;
      assert run == [run[0], run[1]] + run[2..];
      assert multiset(run) == multiset([run[0], run[1]]) + multiset(run[2..]);
      assert IsDigit(run[1]);
    }
  }

  /**
   * `float(run)` for a non-empty run of digits and dots: it parses iff the run has at most
   * one dot and at least one digit, and then stands for its integer part plus its fraction.
   */
  function ParseDecimal(run: string): (r: Option<real>)
    requires run != "" && forall i :: 0 <= i < |run| ==> NumberChar(run[i])
    ensures r.Some? ==> r.value >= 0.0
    ensures r.Some? <==> Occurrences(run, '.') <= 1 && exists i :: 0 <= i < |run| && IsDigit(run[i])
  {
    var parts := SplitOn(run, '.');
    SplitCount(run, '.');
    SplitOnParts(run);
    if |parts| > 2 || run == "." then
      None
    else
      RunHasDigit(run);
      if |parts| == 1 then Some(DigitsValue(parts[0]) as real)
      else Some(DigitsValue(parts[0]) as real + DigitsValue(parts[1]) as real / Pow10(|parts[1]|) as real)
  }

  /** `str(n)` is a run that parses back to `n`. */
  lemma ParseNatToString(n: nat)
    ensures forall i :: 0 <= i < |NatToString(n)| ==> NumberChar(NatToString(n)[i])
    ensures ParseDecimal(NatToString(n)) == Some(n as real)
  {
    var s := NatToString(n);
    NoDotSplit(s);
    DigitsOfNat(n);
  }

  lemma {:induction false} NoDotSplit(s: string)
    requires AllDigits(s)
    ensures SplitOn(s, '.') == [s]
    decreases |s|
  {
    if |s| > 0 {
      NoDotSplit(s[1..]);
      assert [s[0]] + s[1..] == s;
    }
  }

  /** The price a text offers: when the text contains "¥", its first number, if that parses. */
  function PriceIn(text: string): Option<real>
  {
    if !Contains(text, "¥") then None
    else
      match NumberRun(text)
      case None => None
      case Some(run) => ParseDecimal(run)
  }

  /** The price loop's step: keep the larger of the price so far and the text's price. */
  function MaxStep(acc: Option<real>, text: string): Option<real>
  {
    match PriceIn(text)
    case None => acc
    case Some(p) => if acc.None? || p > acc.value then Some(p) else acc
  }

  /** The extracted price: the largest price any text offers, none when no text offers one. */
  function MaxPrice(texts: seq<string>): (r: Option<real>)
    ensures r.Some? ==> exists i | 0 <= i < |texts| :: PriceIn(texts[i]) == r
    ensures forall i :: 0 <= i < |texts| && PriceIn(texts[i]).Some? ==> r.Some? && PriceIn(texts[i]).value <= r.value
    ensures r.None? <==> forall i :: 0 <= i < |texts| ==> PriceIn(texts[i]).None?
    decreases |texts|
  {
    if texts == [] then None
    else
      var init := texts[..|texts| - 1];
      var acc := MaxPrice(init);
      assert forall i :: 0 <= i < |init| ==> init[i] == texts[i];
      MaxStep(acc, texts[|texts| - 1])
  }

  // ---------------------------------------------------------------- shop name and title

  const ShopExclude: seq<string> := ["店铺内", "进店", "商品评价", "店铺推荐", "评价", "详情", "推荐"]

  const ShopKeywords: seq<string> := ["旗舰店", "专营店", "官方店", "的店", "店铺"]

  const SkipKeywords: seq<string> :=
    ["评价", "销量", "发货", "包邮", "优惠", "店铺", "客服", "购物车", "加入", "立即", "搜索", "商品", "详情", "推荐", "粉丝", "已售"]

  predicate ContainsSome(text: string, kws: seq<string>)
  {
    exists k | 0 <= k < |kws| :: Contains(text, kws[k])
  }

  /** The first shop rule: not excluded, a shop keyword, and 4 to 24 characters. */
  predicate ShopRule(t: string)
  {
    !ContainsSome(t, ShopExclude) && ContainsSome(t, ShopKeywords) && 3 < |t| < 25
  }

  /** The fallback rule: not excluded, "教育", and 5 to 19 characters. */
  predicate FallbackShopRule(t: string)
  {
    !ContainsSome(t, ShopExclude) && Contains(t, "教育") && 4 < |t| < 20
  }

  /** A title: longer than 15 characters and free of the skip keywords. */
  predicate TitleRule(t: string)
  {
    |t| > 15 && !ContainsSome(t, SkipKeywords)
  }

  predicate NonBlank(t: string)
  {
    Strip(t) != ""
  }

  function ShopName(texts: seq<string>): (r: Option<string>)
    ensures r.Some? ==> r.value in texts && (ShopRule(r.value) || FallbackShopRule(r.value))
  {
    FilterMembers(texts, ShopRule);
    FilterMembers(texts, FallbackShopRule);
    var byRule := First(Filter(texts, ShopRule));
    if byRule.Some? then byRule else First(Filter(texts, FallbackShopRule))
  }

  /** `extract_from_xml` on the text attributes (all of them: blank ones are dropped first). */
  function Extract(texts: seq<string>): (info: ExtractedInfo)
    ensures texts == [] ==> info == Nothing
    ensures info.title.Some? ==> info.title.value in texts && TitleRule(info.title.value)
    ensures info.shopName.Some? ==> info.shopName.value in texts
  {
    var all := Filter(texts, NonBlank);
    FilterMembers(texts, NonBlank);
    FilterMembers(all, TitleRule);
    ExtractedInfo(First(Filter(all, TitleRule)), MaxPrice(all), ShopName(all))
  }

  /** The shop is the first text passing the first rule; only when none does, the first passing the fallback. */
  lemma ShopNameFirst(texts: seq<string>, k: nat)
    requires k < |texts| && ShopRule(texts[k]) && forall j :: 0 <= j < k ==> !ShopRule(texts[j])
    ensures ShopName(texts) == Some(texts[k])
  {
    FilterHead(texts, ShopRule, k);
  }

  lemma ShopNameFallback(texts: seq<string>, k: nat)
    requires forall j :: 0 <= j < |texts| ==> !ShopRule(texts[j])
    requires k < |texts| && FallbackShopRule(texts[k]) && forall j :: 0 <= j < k ==> !FallbackShopRule(texts[j])
    ensures ShopName(texts) == Some(texts[k])
  {
    FilterEmpty(texts, ShopRule);
    FilterHead(texts, FallbackShopRule, k);
  }

  /** The price loop of `extract_from_xml`. */
  method ScanPrice(all: seq<string>) returns (price: Option<real>)
    ensures price == MaxPrice(all)
  {
    price := None;
    var i := 0;
    while i < |all|
      invariant 0 <= i <= |all|
      invariant price == MaxPrice(all[..i])
    {
      assert all[..i + 1][..i] == all[..i];
      price := MaxStep(price, all[i]);
      i := i + 1;
    }
    assert all[..i] == all;
  }

  /** The two shop-name loops of `extract_from_xml`: each stops at its first hit. */
  method ScanShop(all: seq<string>) returns (shop: Option<string>)
    ensures shop == ShopName(all)
  {
    shop := None;
    var i := 0;
    while i < |all|
      invariant 0 <= i <= |all|
      invariant forall j :: 0 <= j < i ==> !ShopRule(all[j])
    {
      if ShopRule(all[i]) {
        FilterHead(all, ShopRule, i);
        return Some(all[i]);
      }
      i := i + 1;
    }
    FilterEmpty(all, ShopRule);
    i := 0;
    while i < |all|
      invariant 0 <= i <= |all|
      invariant forall j :: 0 <= j < i ==> !FallbackShopRule(all[j])
    {
      if FallbackShopRule(all[i]) {
        FilterHead(all, FallbackShopRule, i);
        return Some(all[i]);
      }
      i := i + 1;
    }
    FilterEmpty(all, FallbackShopRule);
  }

  /** The title loop of `extract_from_xml`: the first title-like text is kept. */
  method ScanTitle(all: seq<string>) returns (title: Option<string>)
    ensures title == First(Filter(all, TitleRule))
  {
    title := None;
    var i := 0;
    while i < |all|
      invariant 0 <= i <= |all|
      invariant title == First(Filter(all[..i], TitleRule))
    {
      FilterSnoc(all, i, TitleRule);
      if title.None? && TitleRule(all[i]) {
        title := Some(all[i]);
      }
      i := i + 1;
    }
    assert all[..i] == all;
  }

  /** `extract_from_xml` on the text attributes of a dump. */
  method ExtractFromXml(texts: seq<string>) returns (info: ExtractedInfo)
    ensures info == Extract(texts)
  {
    if texts == [] {
      return Nothing;
    }
    var all := Filter(texts, NonBlank);
    var price := ScanPrice(all);
    var shop := ScanShop(all);
    var title := ScanTitle(all);
    info := ExtractedInfo(title, price, shop);
  }
}
