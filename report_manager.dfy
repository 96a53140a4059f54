/**
 * The report ledger (anti_piracy_system/report_manager.py): a dictionary of report
 * records keyed by report id, kept in insertion order. Records are created `pending`,
 * collect evidence screenshots without duplicates, and have their status and notes
 * updated; the ledger is filtered by platform or status and counted.
 * Loading and saving the JSON file are not modelled: the constructor takes the loaded table.
 */
module ReportManager {
  import opened Wrappers
  import opened Text
  import opened Seqs

  /**
   * The keys of a detection dictionary: the ten `to_dict()` writes, by name, and any other
   * key a caller's dictionary may hold.
   */
  datatype DetectionKey =
    | IsPiracyKey | ConfidenceKey | ReasonsKey | MatchedProductIdKey | MatchedProductNameKey
    | ShopCheckKey | PriceCheckKey | ContentCheckKey | PriceRatioKey | DetectedAtKey
    | OtherKey(name: string)

  /**
   * The detection dictionary a report is filed with: the keys it holds and the values of
   * the three keys the ledger reads (a key outside `keys` reads as its `.get` default).
   */
  datatype DetectionInfo = DetectionInfo(
    keys: set<DetectionKey>,
    confidence: real,
    reasons: seq<string>,
    matchedProductName: Option<string>)

  /** The keys `to_dict()` writes. */
  const DictKeys: set<DetectionKey> := {IsPiracyKey, ConfidenceKey, ReasonsKey, MatchedProductIdKey, MatchedProductNameKey,
                                        ShopCheckKey, PriceCheckKey, ContentCheckKey, PriceRatioKey, DetectedAtKey}

  /** A detection dictionary holding all the keys `to_dict()` writes. */
  function FullDetection(confidence: real, reasons: seq<string>, matchedProductName: Option<string>): (d: DetectionInfo)
    ensures d.keys != {} && ReasonsKey in d.keys && ConfidenceKey in d.keys && MatchedProductNameKey in d.keys
  {
    DetectionInfo(DictKeys, confidence, reasons, matchedProductName)
  }

  /** Python truthiness of an optional dictionary: present and non-empty. */
  predicate Present(d: Option<DetectionInfo>)
  {
    d.Some? && d.value.keys != {}
  }

  /** `detection_result.get('reasons', [])` */
  function ReasonsOf(d: DetectionInfo): seq<string>
  {
    if ReasonsKey in d.keys then d.reasons else []
  }

  /** `detection_result.get('confidence', 0.0)` */
  function ConfidenceOf(d: DetectionInfo): real
  {
    if ConfidenceKey in d.keys then d.confidence else 0.0
  }

  /** `detection_result.get('matched_product_name')` */
  function MatchedNameOf(d: DetectionInfo): Option<string>
  {
    if MatchedProductNameKey in d.keys then d.matchedProductName else None
  }

  datatype ReportRecord = ReportRecord(
    reportId: string,
    platform: string,
    targetTitle: string,
    targetShop: string,
    targetPrice: real,
    targetUrl: Option<string>,
    detectionResult: Option<DetectionInfo>,
    reportReason: string,
    reportStatus: string,
    evidenceScreenshots: seq<string>,
    reportedAt: string,
    notes: Option<string>)

  const Pending := "pending"
  const DefaultReason := "疑似盗版内容"

  // ---------------------------------------------------------------- the report reason

  function Header(pct: real -> string, confidence: real): string
  {
    "根据系统检测(置信度" + pct(confidence) + "),该商品疑似盗版,具体依据如下:\n"
  }

  /** `f"{i}. {reason}\n"` */
  function NumberedLine(i: nat, reason: string): string
  {
    NatToString(i) + ". " + reason + "\n"
  }

  /** The lines `enumerate(reasons, k)` produces. */
  function NumberedLines(reasons: seq<string>, k: nat): string
    decreases |reasons|
  {
    if reasons == [] then "" else NumberedLine(k, reasons[0]) + NumberedLines(reasons[1..], k + 1)
  }

  function ProductLine(name: string): string
  {
    "\n该商品疑似盗版自正版商品: " + name
  }

  /**
   * `_generate_report_reason`: the fixed sentence without a (non-empty) detection; otherwise
   * the header, the numbered reasons, and the matched-product line when a name is present.
   */
  function ReasonText(pct: real -> string, d: Option<DetectionInfo>): string
  {
    if !Present(d) then DefaultReason
    else
      var dv := d.value;
      var body := Header(pct, ConfidenceOf(dv)) + NumberedLines(ReasonsOf(dv), 1);
      var name := MatchedNameOf(dv);
      if Truthy(name) then body + ProductLine(name.value) else body
  }

  /** The reason opens with the confidence header and ends with the matched product's line when there is a name. */
  lemma ReasonTextShape(pct: real -> string, d: Option<DetectionInfo>)
    ensures !Present(d) ==> ReasonText(pct, d) == DefaultReason
    ensures Present(d) ==> StartsWith(ReasonText(pct, d), Header(pct, ConfidenceOf(d.value)))
    ensures Present(d) && Truthy(MatchedNameOf(d.value)) ==>
              EndsWith(ReasonText(pct, d), ProductLine(MatchedNameOf(d.value).value))
    ensures Present(d) && !Truthy(MatchedNameOf(d.value)) ==>
              ReasonText(pct, d) == Header(pct, ConfidenceOf(d.value)) + NumberedLines(ReasonsOf(d.value), 1)
  {
    if Present(d) {
      var h := Header(pct, ConfidenceOf(d.value));
      var r := ReasonText(pct, d);
      assert r == h + (r[|h|..]);
      var name := MatchedNameOf(d.value);
      assert Truthy(name) ==> r[|r| - |ProductLine(name.value)|..] == ProductLine(name.value);
    }
  }

  /** Appending a reason adds its line, numbered after the earlier ones. */
  lemma {:induction false} NumberedLinesSnoc(reasons: seq<string>, k: nat, i: nat)
    requires i < |reasons|
    ensures NumberedLines(reasons[..i + 1], k) == NumberedLines(reasons[..i], k) + NumberedLine(k + i, reasons[i])
    decreases i
  {
    if i > 0 {
      assert reasons[..i + 1][1..] == reasons[1..][..i];
      assert reasons[..i][1..] == reasons[1..][..i - 1];
      NumberedLinesSnoc(reasons[1..], k + 1, i - 1);
    }
  }

  /** The lines of a split list are the lines of its parts, the second part numbered on. */
  lemma {:induction false} NumberedLinesSplit(reasons: seq<string>, k: nat, i: nat)
    requires i <= |reasons|
    ensures NumberedLines(reasons, k) == NumberedLines(reasons[..i], k) + NumberedLines(reasons[i..], k + i)
    decreases i
  {
    if i > 0 {
      assert reasons[..i][1..] == reasons[1..][..i - 1];
      assert reasons[i..] == reasons[1..][i - 1..];
      NumberedLinesSplit(reasons[1..], k + 1, i - 1);
    }
  }

  /** Every reason of a detection appears in the report text, numbered by its 1-based position. */
  lemma ReasonTextNumbersEveryReason(pct: real -> string, d: DetectionInfo, i: nat)
    requires ReasonsKey in d.keys && i < |d.reasons|
    ensures Contains(ReasonText(pct, Some(d)), NumberedLine(i + 1, d.reasons[i]))
  {
    var rs := d.reasons;
    var line := NumberedLine(i + 1, rs[i]);
    var pre := NumberedLines(rs[..i], 1);
    var post := NumberedLines(rs[i + 1..], i + 2);
    NumberedLinesSplit(rs, 1, i);
    assert rs[i..] == [rs[i]] + rs[i + 1..];
    assert NumberedLines(rs, 1) == pre + line + post;
    ContainsSelf(line);
    ContainsInfix(pre, line, post, line);
    var name := MatchedNameOf(d);
    var extra := if Truthy(name) then ProductLine(name.value) else "";
    ContainsInfix(Header(pct, ConfidenceOf(d)), NumberedLines(rs, 1), extra, line);
    assert ReasonText(pct, Some(d)) == Header(pct, ConfidenceOf(d)) + NumberedLines(rs, 1) + extra;
  }

  // ---------------------------------------------------------------- the ledger

  function RecId(stamp: string, n: nat): string
  {
    "report_" + stamp + "_" + NatToString(n)
  }

  function PlatformOf(r: ReportRecord): string { r.platform }

  function StatusOf(r: ReportRecord): string { r.reportStatus }

  function WithPlatform(p: string): ReportRecord -> bool
  {
    (r: ReportRecord) => r.platform == p
  }

  function WithStatus(s: string): ReportRecord -> bool
  {
    (r: ReportRecord) => r.reportStatus == s
  }

  datatype Statistics = Statistics(totalReports: nat, byPlatform: seq<Entry>, byStatus: seq<Entry>)

  /** The ledger's contents: the dictionary and the order its keys were inserted in. */
  datatype Ledger = Ledger(order: seq<string>, reports: map<string, ReportRecord>)
  {
    ghost predicate Valid()
    {
      Distinct(order) && (forall id :: id in reports <==> id in order)
    }

    /** No record lists the same screenshot twice. */
    ghost predicate EvidenceDistinct()
    {
      forall id :: id in reports ==> Distinct(reports[id].evidenceScreenshots)
    }

    /** `self.reports.values()`, in insertion order. */
    function Values(): (vs: seq<ReportRecord>)
      requires Valid()
      ensures |vs| == |order|
      ensures forall i :: 0 <= i < |order| ==> vs[i] == reports[order[i]]
    {
      seq(|order|, i requires 0 <= i < |order| => reports[order[i]])
    }

    function ByPlatform(platform: string): seq<ReportRecord>
      requires Valid()
    {
      Filter(Values(), WithPlatform(platform))
    }

    function ByStatus(status: string): seq<ReportRecord>
      requires Valid()
    {
      Filter(Values(), WithStatus(status))
    }

    function Summary(): Statistics
      requires Valid()
    {
      Statistics(|reports|, TallyOf(MapSeq(Values(), PlatformOf)), TallyOf(MapSeq(Values(), StatusOf)))
    }
  }

  /** The records filed for a platform are exactly the ledger's records with that platform. */
  lemma ByPlatformExactly(l: Ledger, platform: string)
    requires l.Valid()
    ensures forall r :: r in l.ByPlatform(platform) <==> r in l.Values() && r.platform == platform
  {
    FilterMembers(l.Values(), WithPlatform(platform));
  }

  /** The records with a status are exactly the ledger's records in that status. */
  lemma ByStatusExactly(l: Ledger, status: string)
    requires l.Valid()
    ensures forall r :: r in l.ByStatus(status) <==> r in l.Values() && r.reportStatus == status
  {
    FilterMembers(l.Values(), WithStatus(status));
  }

  /** `total_reports` is the table size, and both distributions add up to it. */
  lemma StatisticsAddUp(l: Ledger)
    requires l.Valid()
    ensures l.Summary().totalReports == |l.Values()|
    ensures Total(l.Summary().byPlatform) == l.Summary().totalReports
    ensures Total(l.Summary().byStatus) == l.Summary().totalReports
  {
    LedgerSize(l);
    TallyTotal(MapSeq(l.Values(), PlatformOf));
    TallyTotal(MapSeq(l.Values(), StatusOf));
  }

  /** The status distribution gives each status the number of records in it. */
  lemma StatisticsCountStatus(l: Ledger, status: string)
    requires l.Valid()
    ensures CountOf(l.Summary().byStatus, status) == multiset(MapSeq(l.Values(), StatusOf))[status]
    ensures KeysDistinct(l.Summary().byStatus)
  {
    TallyCounts(MapSeq(l.Values(), StatusOf), status);
  }

  lemma LedgerSize(l: Ledger)
    requires l.Valid()
    ensures |l.reports| == |l.order|
  {
    DistinctCard(l.order);
    assert l.reports.Keys == set x | x in l.order;
  }

  class ReportManager {
    var order: seq<string>
    var reports: map<string, ReportRecord>

    function Table(): Ledger
      reads this
    {
      Ledger(order, reports)
    }

    ghost predicate Valid()
      reads this
    {
      Table().Valid()
    }

    /** The ledger as `load()` left it. */
    constructor(loaded: Ledger)
      requires loaded.Valid()
      ensures Valid() && Table() == loaded
    {
      order := loaded.order;
      reports := loaded.reports;
    }

    /** `_generate_report_reason`, concatenating the numbered lines in a loop. */
    static method GenerateReportReason(pct: real -> string, d: Option<DetectionInfo>) returns (text: string)
      ensures text == ReasonText(pct, d)
    {
      if !Present(d) {
        return DefaultReason;
      }
      var reasons := ReasonsOf(d.value);
      text := Header(pct, ConfidenceOf(d.value));
      ghost var h := text;
      var i := 0;
      while i < |reasons|
        invariant 0 <= i <= |reasons|
        invariant text == h + NumberedLines(reasons[..i], 1)
      {
        NumberedLinesSnoc(reasons, 1, i);
        text := text + NumberedLine(i + 1, reasons[i]);
        i := i + 1;
      }
      assert reasons[..i] == reasons;
      var name := MatchedNameOf(d.value);
      if Truthy(name) {
        text := text + ProductLine(name.value);
      }
    }

    /**
     * `create_report`: files a `pending` record with no evidence under
     * `report_<stamp>_<number of records>`; an id that is already taken is overwritten in place.
     */
    method CreateReport(platform: string, targetTitle: string, targetShop: string, targetPrice: real,
                        detection: Option<DetectionInfo>, targetUrl: Option<string>,
                        stamp: string, now: string, pct: real -> string) returns (report: ReportRecord)
      requires Valid()
      modifies this
      ensures Valid()
      ensures report.reportId == RecId(stamp, |old(reports)|)
      ensures report.reportStatus == Pending && report.evidenceScreenshots == [] && report.notes == None
      ensures report.reportReason == ReasonText(pct, detection)
      ensures report == ReportRecord(report.reportId, platform, targetTitle, targetShop, targetPrice, targetUrl,
                                     detection, report.reportReason, Pending, [], now, None)
      ensures reports == old(reports)[report.reportId := report]
      ensures order == if report.reportId in old(reports) then old(order) else old(order) + [report.reportId]
      ensures old(Table().EvidenceDistinct()) ==> Table().EvidenceDistinct()
    {
      var id := RecId(stamp, |reports|);
      var reason := GenerateReportReason(pct, detection);
      report := ReportRecord(id, platform, targetTitle, targetShop, targetPrice, targetUrl, detection,
                             reason, Pending, [], now, None);
      if id !in reports {
        order := order + [id];
      }
      reports := reports[id := report];
    }

    /**
     * `add_screenshot`: appends a path the record does not list yet; an unknown id or a
     * path already listed changes nothing and gives false.
     */
    method AddScreenshot(id: string, path: string) returns (ok: bool)
      requires Valid()
      modifies this
      ensures Valid() && order == old(order)
      ensures ok <==> id in old(reports) && path !in old(reports)[id].evidenceScreenshots
      ensures ok ==> reports == old(reports)[id := old(reports)[id].(evidenceScreenshots := old(reports)[id].evidenceScreenshots + [path])]
      ensures !ok ==> reports == old(reports)
      ensures old(Table().EvidenceDistinct()) ==> Table().EvidenceDistinct()
    {
      if id !in reports {
        return false;
      }
      var report := reports[id];
      if path !in report.evidenceScreenshots {
        reports := reports[id := report.(evidenceScreenshots := report.evidenceScreenshots + [path])];
        return true;
      }
      return false;
    }

    /**
     * `update_status`: sets any status (no transition is refused) and replaces the notes
     * only with non-empty notes; an unknown id changes nothing and gives false.
     */
    method UpdateStatus(id: string, status: string, notes: Option<string>) returns (ok: bool)
      requires Valid()
      modifies this
      ensures Valid() && order == old(order)
      ensures ok <==> id in old(reports)
      ensures ok ==> reports == old(reports)[id := old(reports)[id].(reportStatus := status,
                                                   notes := if Truthy(notes) then notes else old(reports)[id].notes)]
      ensures !ok ==> reports == old(reports)
      ensures old(Table().EvidenceDistinct()) ==> Table().EvidenceDistinct()
    {
      if id !in reports {
        return false;
      }
      var report := reports[id];
      report := report.(reportStatus := status);
      if Truthy(notes) {
        report := report.(notes := notes);
      }
      reports := reports[id := report];
      return true;
    }

    /** `get_report` */
    function GetReport(id: string): (r: Option<ReportRecord>)
      reads this
      ensures r.Some? <==> id in reports
      ensures r.Some? ==> r.value == reports[id]
    {
      if id in reports then Some(reports[id]) else None
    }

    /** `get_reports_by_platform` */
    function GetReportsByPlatform(platform: string): (rs: seq<ReportRecord>)
      reads this
      requires Valid()
      ensures forall r :: r in rs <==> r in Table().Values() && r.platform == platform
    {
      ByPlatformExactly(Table(), platform);
      Table().ByPlatform(platform)
    }

    /** `get_reports_by_status` */
    function GetReportsByStatus(status: string): (rs: seq<ReportRecord>)
      reads this
      requires Valid()
      ensures forall r :: r in rs <==> r in Table().Values() && r.reportStatus == status
    {
      ByStatusExactly(Table(), status);
      Table().ByStatus(status)
    }

    /** `get_statistics`, counting platforms and statuses in one pass. */
    method GetStatistics() returns (s: Statistics)
      requires Valid()
      ensures s == Table().Summary()
    {
      var vals := Table().Values();
      var byPlatform: seq<Entry> := [];
      var byStatus: seq<Entry> := [];
      var i := 0;
      while i < |order|
        invariant 0 <= i <= |order|
        invariant byPlatform == TallyOf(MapSeq(vals[..i], PlatformOf))
        invariant byStatus == TallyOf(MapSeq(vals[..i], StatusOf))
      {
        var r := reports[order[i]];
        MapSeqSnoc(vals, i, PlatformOf);
        MapSeqSnoc(vals, i, StatusOf);
        byPlatform := Bump(byPlatform, r.platform);
        byStatus := Bump(byStatus, r.reportStatus);
        i := i + 1;
      }
      assert vals[..i] == vals;
      s := Statistics(|reports|, byPlatform, byStatus);
    }
  }
}
