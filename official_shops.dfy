/**
 * Official-shop recognition and the evidence table of the detection script
 * (anti_piracy_system/test/test_detection.py): the hard-coded list of official shops,
 * the fallback rule on "官方" plus a brand part, folder-name sanitising, and the
 * per-shop table of screenshots and product facts that ends up in `report.json`.
 * Creating folders and writing the file are not modelled.
 */
module OfficialShops {
  import opened Wrappers
  import opened Text

  const Listed: seq<string> := ["方圆众合教育", "众合教育旗舰店", "众合法考官方", "众合教育官方店"]

  const KeyParts: seq<string> := ["众合", "法考", "教育"]

  /** Some listed name is part of the shop name, or the shop name is part of it. */
  function MatchesListed(shop: string, names: seq<string>): (b: bool)
    ensures b <==> exists i | 0 <= i < |names| :: Contains(shop, names[i]) || Contains(names[i], shop)
    decreases |names|
  {
    if names == [] then false
    else
      var rest := MatchesListed(shop, names[1..]);
      assert forall i :: 1 <= i < |names| ==> names[i] == names[1..][i - 1];
      Contains(shop, names[0]) || Contains(names[0], shop) || rest
  }

  /** Some part occurs in the shop name. */
  function ContainsAny(shop: string, parts: seq<string>): (b: bool)
    ensures b <==> exists i | 0 <= i < |parts| :: Contains(shop, parts[i])
    decreases |parts|
  {
    if parts == [] then false
    else
      var rest := ContainsAny(shop, parts[1..]);
      assert forall i :: 1 <= i < |parts| ==> parts[i] == parts[1..][i - 1];
      Contains(shop, parts[0]) || rest
  }

  /**
   * `is_official_shop` (its keyword argument is not used): a non-empty name that overlaps
   * a listed official shop, or that says "官方" and names a brand part.
   */
  function IsOfficialShop(shop: string): (b: bool)
    ensures shop == "" ==> !b
    ensures b <==> shop != "" && (MatchesListed(shop, Listed) || (Contains(shop, "官方") && ContainsAny(shop, KeyParts)))
  {
    if shop == "" then false
    else if MatchesListed(shop, Listed) then true
    else Contains(shop, "官方") && ContainsAny(shop, KeyParts)
  }

  /** Every listed shop, and every non-empty part of one, counts as official. */
  lemma ListedPartsAreOfficial(i: nat, shop: string)
    requires i < |Listed| && shop != "" && Contains(Listed[i], shop)
    ensures IsOfficialShop(shop)
  {
  }

  lemma ListedAreOfficial(i: nat)
    requires i < |Listed|
    ensures IsOfficialShop(Listed[i])
  {
    ContainsSelf(Listed[i]);
    ListedPartsAreOfficial(i, Listed[i]);
  }

  /** A shop calling itself official under a brand part counts, whatever else its name says. */
  lemma SelfDeclaredOfficial(a: string, b: string)
    ensures IsOfficialShop(a + "众合" + b + "官方")
  {
    var s := a + "众合" + b + "官方";
    ContainsSelf("众合");
    ContainsInfix(a, "众合", b + "官方", "众合");
    assert a + "众合" + (b + "官方") == s;
    ContainsSelf("官方");
    ContainsInfix(a + "众合" + b, "官方", "", "官方");
    assert a + "众合" + b + "官方" + "" == s;
  }

  /** The characters `re.sub(r'[\\/:*?"<>|]', '_', ...)` replaces. */
  predicate Unsafe(c: char)
  {
    c == '\\' || c == '/' || c == ':' || c == '*' || c == '?' || c == '"' || c == '<' || c == '>' || c == '|'
  }

  /** Folder-name sanitising: each unsafe character becomes `_`, all others stay. */
  function Sanitize(name: string): (r: string)
    ensures |r| == |name|
    ensures forall i :: 0 <= i < |r| ==> !Unsafe(r[i])
    ensures forall i :: 0 <= i < |r| ==> r[i] == if Unsafe(name[i]) then '_' else name[i]
  {
    seq(|name|, i requires 0 <= i < |name| => if Unsafe(name[i]) then '_' else name[i])
  }

  /** Sanitising a sanitised name changes nothing. */
  lemma SanitizeIdempotent(name: string)
    ensures Sanitize(Sanitize(name)) == Sanitize(name)
  {
  }

  /** `os.path.basename`: what follows the last `/`. */
  function Basename(path: string): (r: string)
    ensures '/' !in r
  {
    var parts := SplitOn(path, '/');
    parts[|parts| - 1]
  }

  /** The product facts kept for a shop (the `info` dictionary's `title` and `price`). */
  datatype ShopInfo = ShopInfo(title: Option<string>, price: Option<real>)

  /** One shop's entry: its two screenshot paths, if saved, and its facts, if saved. */
  datatype ShopEvidence = ShopEvidence(product: Option<string>, shop: Option<string>, info: Option<ShopInfo>)

  const NoEvidence := ShopEvidence(None, None, None)

  /** One shop in `report.json`. */
  datatype ShopReport = ShopReport(shopName: string, folder: string, title: Option<string>, price: Option<real>,
                                   productFile: string, shopFile: string)

  datatype EvidenceReport = EvidenceReport(keyword: string, timestamp: string, totalShops: nat, shops: seq<ShopReport>)

  function ShopReportOf(name: string, e: ShopEvidence): (r: ShopReport)
    ensures r.shopName == name && r.folder == Sanitize(name)
    ensures e.info.None? ==> r.title.None? && r.price.None?
  {
    ShopReport(name, Sanitize(name),
               if e.info.Some? then e.info.value.title else None,
               if e.info.Some? then e.info.value.price else None,
               Basename(e.product.GetOr("")), Basename(e.shop.GetOr("")))
  }

  /** The shop table as a value: the shops in first-seen order and their entries. */
  datatype Table = Table(order: seq<string>, shops: map<string, ShopEvidence>)

  /** Every shop is listed once, and exactly the listed shops have an entry. */
  ghost predicate Sound(t: Table)
  {
    (forall i, j :: 0 <= i < j < |t.order| ==> t.order[i] != t.order[j])
    && (forall s :: s in t.shops <==> s in t.order)
  }

  /** A shop's entry, empty before its first use. */
  function Entry(t: Table, shop: string): ShopEvidence
  {
    if shop in t.shops then t.shops[shop] else NoEvidence
  }

  /** The table with `shop`'s entry set to `e`, the shop listed at the end on first use. */
  function Put(t: Table, shop: string, e: ShopEvidence): Table
  {
    Table(if shop in t.shops then t.order else t.order + [shop], t.shops[shop := e])
  }

  /** `get_shop_dir`: the shop's folder under the evidence folder (the folder is not created). */
  function ShopDir(evidenceDir: string, shop: string): (r: string)
    ensures EndsWith(r, Sanitize(shop))
  {
    PathJoin(evidenceDir, Sanitize(shop))
  }

  const ProductShotName := "1_商品介绍.png"
  const ShopShotName := "2_店铺信息.png"

  /** Where a shop's product screenshot is filed. */
  function ProductShotPath(evidenceDir: string, shop: string): string
  {
    PathJoin(ShopDir(evidenceDir, shop), ProductShotName)
  }

  /** Where a shop's shop screenshot is filed. */
  function ShopShotPath(evidenceDir: string, shop: string): string
  {
    PathJoin(ShopDir(evidenceDir, shop), ShopShotName)
  }

  /**
   * What saving one product's evidence does to the table: the product screenshot's path if
   * that screenshot exists, then the shop screenshot's path if it exists, then the facts,
   * which are always saved and so always list the shop.
   */
  function ProductEvidence(t: Table, evidenceDir: string, shop: string, productShot: bool, shopShot: bool,
                           info: ShopInfo): Table
  {
    var t1 := if productShot then Put(t, shop, Entry(t, shop).(product := Some(ProductShotPath(evidenceDir, shop)))) else t;
    var t2 := if shopShot then Put(t1, shop, Entry(t1, shop).(shop := Some(ShopShotPath(evidenceDir, shop)))) else t1;
    Put(t2, shop, Entry(t2, shop).(info := Some(info)))
  }

  /**
   * Saving one product's evidence lists its shop once, sets the shop's facts, sets each
   * screenshot path whose screenshot exists and keeps the old one otherwise, and leaves
   * every other shop as it was.
   */
  lemma ProductEvidenceFacts(t: Table, evidenceDir: string, shop: string, productShot: bool, shopShot: bool, info: ShopInfo)
    ensures var r := ProductEvidence(t, evidenceDir, shop, productShot, shopShot, info);
            && r.order == (if shop in t.shops then t.order else t.order + [shop])
            && shop in r.shops && r.shops[shop].info == Some(info)
            && r.shops[shop].product ==
                 (if productShot then Some(ProductShotPath(evidenceDir, shop)) else Entry(t, shop).product)
            && r.shops[shop].shop ==
                 (if shopShot then Some(ShopShotPath(evidenceDir, shop)) else Entry(t, shop).shop)
            && r.shops.Keys == t.shops.Keys + {shop}
            && (forall s :: s != shop ==> (s in r.shops <==> s in t.shops))
            && (forall s :: s in t.shops && s != shop ==> r.shops[s] == t.shops[s])
  {
  }

  /** Saving one product's evidence keeps the table sound. */
  lemma ProductEvidenceSound(t: Table, evidenceDir: string, shop: string, productShot: bool, shopShot: bool, info: ShopInfo)
    requires Sound(t)
    ensures Sound(ProductEvidence(t, evidenceDir, shop, productShot, shopShot, info))
  {
    var r := ProductEvidence(t, evidenceDir, shop, productShot, shopShot, info);
    ProductEvidenceFacts(t, evidenceDir, shop, productShot, shopShot, info);
    if shop !in t.shops {
      assert shop !in t.order;
      forall i, j | 0 <= i < j < |r.order|
        ensures r.order[i] != r.order[j]
      {
        if j == |t.order| {
          assert r.order[i] == t.order[i];
        }
      }
    }
  }

  class EvidenceManager {
    const keyword: string
    const timestamp: string
    const evidenceDir: string
    var order: seq<string>
    var shops: map<string, ShopEvidence>

    /** The shop table this manager holds. */
    function State(): Table
      reads this
    {
      Table(order, shops)
    }

    ghost predicate Valid()
      reads this
    {
      Sound(State())
    }

    /**
     * A new, empty table for a run started at `timestamp`; its folder is
     * `<timestamp>_<keyword>` under `baseDir` (the folder is not created).
     */
    constructor(keyword: string, timestamp: string, baseDir: string)
      ensures Valid() && order == [] && shops == map[]
      ensures this.keyword == keyword && this.timestamp == timestamp
      ensures evidenceDir == PathJoin(baseDir, FolderName())
    {
      this.keyword := keyword;
      this.timestamp := timestamp;
      evidenceDir := PathJoin(baseDir, timestamp + "_" + Sanitize(keyword));
      order := [];
      shops := map[];
    }

    /** The evidence folder's name: timestamp and sanitised keyword. */
    function FolderName(): (r: string)
      ensures StartsWith(r, timestamp + "_")
    {
      timestamp + "_" + Sanitize(keyword)
    }

    /** The entry for a shop, created empty on first use. */
    function EntryOf(shop: string): ShopEvidence
      reads this
    {
      Entry(State(), shop)
    }

    method Touch(shop: string)
      requires Valid()
      modifies this
      ensures Valid() && shop in shops
      ensures shops == old(shops)[shop := old(EntryOf(shop))]
      ensures order == if shop in old(shops) then old(order) else old(order) + [shop]
    {
      if shop !in shops {
        shops := shops[shop := NoEvidence];
        order := order + [shop];
      }
    }

    /** `save_product_screenshot` */
    method SaveProductScreenshot(shop: string, path: string)
      requires Valid()
      modifies this
      ensures Valid()
      ensures shops == old(shops)[shop := old(EntryOf(shop)).(product := Some(path))]
      ensures State() == Put(old(State()), shop, old(EntryOf(shop)).(product := Some(path)))
      ensures order == if shop in old(shops) then old(order) else old(order) + [shop]
    {
      Touch(shop);
      shops := shops[shop := shops[shop].(product := Some(path))];
    }

    /** `save_shop_screenshot` */
    method SaveShopScreenshot(shop: string, path: string)
      requires Valid()
      modifies this
      ensures Valid()
      ensures shops == old(shops)[shop := old(EntryOf(shop)).(shop := Some(path))]
      ensures State() == Put(old(State()), shop, old(EntryOf(shop)).(shop := Some(path)))
      ensures order == if shop in old(shops) then old(order) else old(order) + [shop]
    {
      Touch(shop);
      shops := shops[shop := shops[shop].(shop := Some(path))];
    }

    /** `save_shop_info` */
    method SaveShopInfo(shop: string, info: ShopInfo)
      requires Valid()
      modifies this
      ensures Valid()
      ensures shops == old(shops)[shop := old(EntryOf(shop)).(info := Some(info))]
      ensures State() == Put(old(State()), shop, old(EntryOf(shop)).(info := Some(info)))
      ensures order == if shop in old(shops) then old(order) else old(order) + [shop]
    {
      Touch(shop);
      shops := shops[shop := shops[shop].(info := Some(info))];
    }

    /** The contents `save_report` writes: one entry per shop, in the order shops were first seen. */
    method SaveReport() returns (r: EvidenceReport)
      requires forall k :: 0 <= k < |order| ==> order[k] in shops
      ensures r.keyword == keyword && r.timestamp == timestamp && r.totalShops == |shops|
      ensures |r.shops| == |order|
      ensures forall i :: 0 <= i < |order| ==> r.shops[i] == ShopReportOf(order[i], shops[order[i]])
    {
      var listed, table := order, shops;
      var entries: seq<ShopReport> := [];
      var i := 0;
      while i < |listed|
        invariant 0 <= i <= |listed|
        invariant |entries| == i
        invariant forall j :: 0 <= j < i ==> entries[j] == ShopReportOf(listed[j], table[listed[j]])
      {
        entries := entries + [ShopReportOf(listed[i], table[listed[i]])];
        i := i + 1;
      }
      r := EvidenceReport(keyword, timestamp, |shops|, entries);
    }
  }
}
