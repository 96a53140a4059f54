/**
 * The platform reporters (anti_piracy_system/reporter.py): the complaint text built from a
 * `ReportContext`, the Xiaohongshu report workflow driven step by step through the phone
 * agent (some step failures abort, others do not), the Xianyu and Taobao placeholders, and
 * the `create_reporter` factory.
 */
module Reporter {
  import opened Wrappers
  import opened Text
  import opened Seqs
  import PiracyDetector
  import PhoneAgent

  /** `ReportContext`; `screenshotPath` is the one field the workflow assigns. */
  datatype ReportContext = ReportContext(
    productTitle: string, shopName: string, price: real, platform: string,
    detectionReasons: seq<string>, confidence: real,
    matchedProductName: Option<string>, originalPrice: Option<real>,
    screenshotPath: Option<string>, reportId: Option<string>)

  // ---------------------------------------------------------------- the report reason

  const Passed := "\U{2705}"
  const Abnormal := "\U{274C}"
  const Warning := "\U{26A0}\U{FE0F}"

  /** A reason with its status emoji replaced by text tags, in the order ✅, ❌, ⚠️. */
  function Clean(reason: string): string
  {
    ReplaceAll(ReplaceAll(ReplaceAll(reason, Passed, "[通过]"), Abnormal, "[异常]"), Warning, "[警告]")
  }

  /** No ✅ or ❌ is left in a cleaned reason. */
  lemma CleanDropsMarks(reason: string)
    ensures Passed[0] !in Clean(reason) && Abnormal[0] !in Clean(reason)
  {
    var r1 := ReplaceAll(reason, Passed, "[通过]");
    var r2 := ReplaceAll(r1, Abnormal, "[异常]");
    ReplaceAllDrops(reason, Passed[0], "[通过]");
    ReplaceKeepsAbsent(r1, Abnormal, "[异常]", Passed[0]);
    ReplaceKeepsAbsent(r2, Warning, "[警告]", Passed[0]);
    ReplaceAllDrops(r1, Abnormal[0], "[异常]");
    ReplaceKeepsAbsent(r2, Warning, "[警告]", Abnormal[0]);
  }

  /** A reason without any of the three marks is kept as it is. */
  lemma CleanKeepsPlain(reason: string)
    requires !Contains(reason, Passed) && !Contains(reason, Abnormal) && !Contains(reason, Warning)
    ensures Clean(reason) == reason
  {
    ReplaceAbsent(reason, Passed, "[通过]");
    ReplaceAbsent(reason, Abnormal, "[异常]");
    ReplaceAbsent(reason, Warning, "[警告]");
  }

  function Bullet(reason: string): string
  {
    "• " + Clean(reason)
  }

  /** Python truthiness of an optional price: present and non-zero. */
  predicate PriceTruthy(p: Option<real>)
  {
    p.Some? && p.value != 0.0
  }

  const Heading := "【疑似盗版商品举报】"
  const GenuineHeading := "【正版信息】"
  const GenuinePriceLead := "正版价格：¥"

  function HeadLines(c: ReportContext, fmt: PiracyDetector.Formats): seq<string>
  {
    [Heading, "商品：" + c.productTitle, "店铺：" + c.shopName, "价格：¥" + fmt.num(c.price)]
  }

  /** The genuine-product block: only with a matched name, its price line only with a truthy original price. */
  function GenuineLines(c: ReportContext, fmt: PiracyDetector.Formats): seq<string>
  {
    if !Truthy(c.matchedProductName) then []
    else
      ["", GenuineHeading, "正版商品：" + c.matchedProductName.value]
      + (if PriceTruthy(c.originalPrice) then [GenuinePriceLead + fmt.num(c.originalPrice.value)] else [])
  }

  function BasisLines(c: ReportContext, fmt: PiracyDetector.Formats): seq<string>
  {
    ["", "【判定依据】置信度：" + fmt.pct(c.confidence)] + MapSeq(c.detectionReasons, Bullet)
  }

  /**
   * The lines of `generate_report_reason`: the heading and the 商品/店铺/价格 lines first,
   * every detection reason last, once each, in order, as a cleaned bullet.
   */
  function ReasonLines(c: ReportContext, fmt: PiracyDetector.Formats): (lines: seq<string>)
    ensures |lines| >= 6 + |c.detectionReasons| && lines[..4] == HeadLines(c, fmt)
    ensures forall k :: 0 <= k < |c.detectionReasons| ==>
              lines[|lines| - |c.detectionReasons| + k] == Bullet(c.detectionReasons[k])
  {
    var lines := HeadLines(c, fmt) + GenuineLines(c, fmt) + BasisLines(c, fmt);
    assert lines[..4] == HeadLines(c, fmt);
    lines
  }

  /** Only the genuine block's heading starts with `【正`; only its price line starts with `正版价`. */
  lemma LineShapes(c: ReportContext, fmt: PiracyDetector.Formats, k: nat)
    requires k < |ReasonLines(c, fmt)|
    ensures var lines := ReasonLines(c, fmt);
            var g := |GenuineLines(c, fmt)|;
            (lines[k] == GenuineHeading <==> g > 0 && k == 5)
            && (StartsWith(lines[k], GenuinePriceLead) <==> g == 4 && k == 7)
  {
    var h := HeadLines(c, fmt);
    var g := GenuineLines(c, fmt);
    var b := BasisLines(c, fmt);
    var lines := h + g + b;
    var line := lines[k];
    if k < 4 {
      assert line == h[k];
      HeadShapes(c, fmt, k);
    } else if k < 4 + |g| {
      assert line == g[k - 4];
      GenuineShapes(c, fmt, k - 4);
    } else {
      assert line == b[k - 4 - |g|];
      BasisShapes(c, fmt, k - 4 - |g|);
    }
  }

  lemma HeadShapes(c: ReportContext, fmt: PiracyDetector.Formats, i: nat)
    requires i < 4
    ensures var s := HeadLines(c, fmt)[i];
            s != GenuineHeading && !StartsWith(s, GenuinePriceLead)
  {
    Unmarked(HeadLines(c, fmt)[i]);
  }

  lemma BasisShapes(c: ReportContext, fmt: PiracyDetector.Formats, i: nat)
    requires i < |BasisLines(c, fmt)|
    ensures var s := BasisLines(c, fmt)[i];
            s != GenuineHeading && !StartsWith(s, GenuinePriceLead)
  {
    var b := BasisLines(c, fmt);
    if i >= 2 {
      assert b[i] == Bullet(c.detectionReasons[i - 2]);
    }
    Unmarked(b[i]);
  }

  /** Within the genuine block the heading is its second line and the price line its fourth. */
  lemma GenuineShapes(c: ReportContext, fmt: PiracyDetector.Formats, i: nat)
    requires i < |GenuineLines(c, fmt)|
    ensures var g := GenuineLines(c, fmt);
            (g[i] == GenuineHeading <==> i == 1) && (StartsWith(g[i], GenuinePriceLead) <==> i == 3)
  {
    var g := GenuineLines(c, fmt);
    if i == 0 {
      Unmarked(g[0]);
    } else if i == 1 {
      DiffersAt(GenuineHeading, GenuinePriceLead, 0);
    } else if i == 2 {
      DiffersAt(g[2], GenuineHeading, 0);
      DiffersAt(g[2], GenuinePriceLead, 2);
    } else {
      assert g[3][..|GenuinePriceLead|] == GenuinePriceLead;
      DiffersAt(g[3], GenuineHeading, 0);
    }
  }

  /** Two strings with different characters at `i` are different, and neither starts with the other. */
  lemma DiffersAt(s: string, t: string, i: nat)
    requires i < |s| && i < |t| && s[i] != t[i]
    ensures s != t && !StartsWith(s, t)
  {
    assert s[i] != t[i];
  }

  /** A line that is empty or has no `正` in its first two characters is neither marker. */
  lemma Unmarked(s: string)
    requires s == "" || (|s| >= 2 && s[0] != '正' && s[1] != '正')
    ensures s != GenuineHeading && !StartsWith(s, GenuinePriceLead)
  {
    if s != "" {
      DiffersAt(s, GenuineHeading, 1);
      DiffersAt(s, GenuinePriceLead, 0);
    }
  }

  /** The genuine block appears iff a name was matched; its price line iff the original price is also truthy. */
  lemma GenuineBlockExactly(c: ReportContext, fmt: PiracyDetector.Formats)
    ensures GenuineHeading in ReasonLines(c, fmt) <==> Truthy(c.matchedProductName)
    ensures (exists k :: 0 <= k < |ReasonLines(c, fmt)| && StartsWith(ReasonLines(c, fmt)[k], GenuinePriceLead))
            <==> Truthy(c.matchedProductName) && PriceTruthy(c.originalPrice)
  {
    var lines := ReasonLines(c, fmt);
    if GenuineHeading in lines {
      var k :| 0 <= k < |lines| && lines[k] == GenuineHeading;
      LineShapes(c, fmt, k);
    }
    if Truthy(c.matchedProductName) {
      LineShapes(c, fmt, 5);
    }
    if exists k :: 0 <= k < |lines| && StartsWith(lines[k], GenuinePriceLead) {
      var k :| 0 <= k < |lines| && StartsWith(lines[k], GenuinePriceLead);
      LineShapes(c, fmt, k);
    }
    if Truthy(c.matchedProductName) && PriceTruthy(c.originalPrice) {
      LineShapes(c, fmt, 7);
    }
  }

  function ReasonText(c: ReportContext, fmt: PiracyDetector.Formats): string
  {
    Join(ReasonLines(c, fmt), "\n")
  }

  /** `generate_report_reason`, appending the lines one by one. */
  method GenerateReportReason(c: ReportContext, fmt: PiracyDetector.Formats) returns (text: string)
    ensures text == ReasonText(c, fmt)
  {
    var lines := HeadLines(c, fmt);
    if Truthy(c.matchedProductName) {
      lines := lines + ["", GenuineHeading, "正版商品：" + c.matchedProductName.value];
      if PriceTruthy(c.originalPrice) {
        lines := lines + [GenuinePriceLead + fmt.num(c.originalPrice.value)];
      }
    }
    lines := lines + ["", "【判定依据】置信度：" + fmt.pct(c.confidence)];
    ghost var before := lines;
    assert before + MapSeq(c.detectionReasons, Bullet) == HeadLines(c, fmt) + GenuineLines(c, fmt) + BasisLines(c, fmt);
    var i := 0;
    while i < |c.detectionReasons|
      invariant 0 <= i <= |c.detectionReasons|
      invariant lines == before + MapSeq(c.detectionReasons[..i], Bullet)
    {
      MapSeqSnoc(c.detectionReasons, i, Bullet);
      lines := lines + [Bullet(c.detectionReasons[i])];
      i := i + 1;
    }
    assert c.detectionReasons[..i] == c.detectionReasons;
    text := Join(lines, "\n");
  }

  // ---------------------------------------------------------------- the workflow

  /** What is sent to the agent: a named step's fixed prompt, or the fill prompt with the reason put in. */
  datatype Prompt = StepPrompt(step: string) | FillPrompt(reason: string)

  /** The keys of `PROMPTS`. */
  const StepNames: set<string> := {"open_menu", "find_report_button", "select_report_type", "fill_report_content",
                                   "upload_evidence", "submit_report", "close_and_return"}

  /** One step of the workflow and whether its failure ends the report. */
  datatype Stage = Stage(prompt: Prompt, aborts: bool)

  /**
   * The Xiaohongshu workflow: open the menu, find the report entry, choose the type (each
   * aborting), fill in the reason (not aborting), upload the evidence when there is a
   * screenshot (not aborting), submit (aborting), close (not aborting).
   */
  function Plan(reason: string, shot: bool): (p: seq<Stage>)
    ensures forall k :: 0 <= k < |p| && p[k].prompt.StepPrompt? ==> p[k].prompt.step in StepNames
    ensures (exists k :: 0 <= k < |p| && p[k].prompt == StepPrompt("upload_evidence")) <==> shot
    ensures forall k :: 0 <= k < |p| ==>
              (p[k].aborts <==> p[k].prompt in {StepPrompt("open_menu"), StepPrompt("find_report_button"),
                                                StepPrompt("select_report_type"), StepPrompt("submit_report")})
  {
    var front := [Stage(StepPrompt("open_menu"), true), Stage(StepPrompt("find_report_button"), true),
                  Stage(StepPrompt("select_report_type"), true), Stage(FillPrompt(reason), false)];
    var back := [Stage(StepPrompt("submit_report"), true), Stage(StepPrompt("close_and_return"), false)];
    var p := front + (if shot then [Stage(StepPrompt("upload_evidence"), false)] else []) + back;
    assert shot ==> p[4].prompt == StepPrompt("upload_evidence");
    assert !shot ==> p == [front[0], front[1], front[2], front[3], back[0], back[1]];
    p
  }

  function PromptOf(s: Stage): Prompt
  {
    s.prompt
  }

  datatype AgentRun = AgentRun(calls: seq<Prompt>, ok: bool)

  /** The stages run in order from call history `h`; the first aborting stage that raises ends the run with false. */
  function RunStages(raises: (seq<Prompt>, Prompt) -> bool, h: seq<Prompt>, stages: seq<Stage>): AgentRun
    decreases |stages|
  {
    if stages == [] then AgentRun(h, true)
    else
      var h1 := h + [stages[0].prompt];
      if stages[0].aborts && raises(h, stages[0].prompt) then AgentRun(h1, false)
      else RunStages(raises, h1, stages[1..])
  }

  /** The calls made before stage `k`. */
  function Before(h: seq<Prompt>, stages: seq<Stage>, k: nat): seq<Prompt>
    requires k <= |stages|
  {
    h + MapSeq(stages[..k], PromptOf)
  }

  /** The calls before stage `k` are those before stage `k - 1` once the first stage has run. */
  lemma BeforeShift(h: seq<Prompt>, stages: seq<Stage>, k: nat)
    requires 1 <= k <= |stages|
    ensures Before(h, stages, k) == Before(h + [stages[0].prompt], stages[1..], k - 1)
  {
    var rest := stages[1..];
    assert stages[..k] == [stages[0]] + rest[..k - 1];
    assert MapSeq([stages[0]] + rest[..k - 1], PromptOf) == [stages[0].prompt] + MapSeq(rest[..k - 1], PromptOf);
  }

  /**
   * The run succeeds iff no aborting stage raises; a successful run sends every stage's
   * prompt, a failed one stops right after the stage that raised.
   */
  lemma {:induction false} RunStagesOutcome(raises: (seq<Prompt>, Prompt) -> bool, h: seq<Prompt>, stages: seq<Stage>)
    ensures RunStages(raises, h, stages).ok <==>
              forall k :: 0 <= k < |stages| && stages[k].aborts ==> !raises(Before(h, stages, k), stages[k].prompt)
    ensures RunStages(raises, h, stages).ok ==> RunStages(raises, h, stages).calls == Before(h, stages, |stages|)
    ensures !RunStages(raises, h, stages).ok ==>
              exists k :: 0 <= k < |stages| && stages[k].aborts && raises(Before(h, stages, k), stages[k].prompt)
                          && RunStages(raises, h, stages).calls == Before(h, stages, k + 1)
    decreases |stages|
  {
    if stages != [] {
      var h1 := h + [stages[0].prompt];
      var rest := stages[1..];
      assert Before(h, stages, 0) == h;
      assert Before(h, stages, 1) == h1 by {
        assert stages[..1] == [stages[0]];
      }
      forall k | 1 <= k <= |stages|
        ensures Before(h, stages, k) == Before(h1, rest, k - 1)
      {
        BeforeShift(h, stages, k);
      }
      if !(stages[0].aborts && raises(h, stages[0].prompt)) {
        RunStagesOutcome(raises, h1, rest);
        if !RunStages(raises, h1, rest).ok {
          var k :| 0 <= k < |rest| && rest[k].aborts && raises(Before(h1, rest, k), rest[k].prompt)
                   && RunStages(raises, h1, rest).calls == Before(h1, rest, k + 1);
          assert stages[k + 1] == rest[k];
          assert Before(h, stages, k + 1) == Before(h1, rest, k);
          assert Before(h, stages, k + 2) == Before(h1, rest, k + 1);
          assert RunStages(raises, h, stages) == RunStages(raises, h1, rest);
        } else {
          forall k | 0 <= k < |stages| && stages[k].aborts
            ensures !raises(Before(h, stages, k), stages[k].prompt)
          {
            if k > 0 {
              assert stages[k] == rest[k - 1];
            }
          }
        }
      }
    } else {
      assert Before(h, stages, 0) == h;
    }
  }

  const EvidenceLead := "evidence_"

  /** `evidence_<report id or "unknown">_<stamp>.png`. */
  function EvidenceFile(reportId: Option<string>, stamp: string): (f: string)
    ensures StartsWith(f, EvidenceLead) && EndsWith(f, ".png")
  {
    var body := (if Truthy(reportId) then reportId.value else "unknown") + "_" + stamp;
    Affixes(EvidenceLead, body, ".png");
    EvidenceLead + body + ".png"
  }

  /**
   * `execute_report` from call history `h`: the screenshot path is always produced (the
   * capture itself is not performed), so the upload stage is always run.
   */
  function ExecuteSpec(raises: (seq<Prompt>, Prompt) -> bool, h: seq<Prompt>, c: ReportContext,
                       fmt: PiracyDetector.Formats, directory: string, stamp: string): AgentRun
  {
    var shot := PathJoin(directory, EvidenceFile(c.reportId, stamp));
    var c1 := c.(screenshotPath := Some(shot));
    RunStages(raises, h, Plan(ReasonText(c1, fmt), true))
  }

  /** The platforms `create_reporter` knows. */
  datatype Platform = Xiaohongshu | Xianyu | Taobao

  /** `create_reporter`'s table; `None` stands for the `ValueError`. */
  function PlatformOf(name: string): (p: Option<Platform>)
    ensures p.None? <==> name !in {"xiaohongshu", "xianyu", "taobao"}
    ensures p == Some(Xiaohongshu) <==> name == "xiaohongshu"
  {
    if name == "xiaohongshu" then Some(Xiaohongshu)
    else if name == "xianyu" then Some(Xianyu)
    else if name == "taobao" then Some(Taobao)
    else None
  }

  /** A platform reporter: the agent it drives and the screenshot directory. */
  class PlatformReporter {
    const platform: Platform
    const agent: PhoneAgent.Agent<Prompt>
    const screenshotDir: string

    constructor(platform: Platform, agent: PhoneAgent.Agent<Prompt>, screenshotDir: string)
      ensures this.platform == platform && this.agent == agent && this.screenshotDir == screenshotDir
    {
      this.platform := platform;
      this.agent := agent;
      this.screenshotDir := screenshotDir;
    }

    /** `_execute_step_with_prompt`: succeeds iff the agent does not raise. */
    method ExecuteStepWithPrompt(p: Prompt) returns (ok: bool)
      modifies agent
      ensures agent.calls == old(agent.calls) + [p]
      ensures ok == !agent.raises(old(agent.calls), p)
    {
      var raised := agent.Run(p);
      ok := !raised;
    }

    /** `_execute_step`: an unknown step fails without calling the agent. */
    method ExecuteStep(step: string) returns (ok: bool)
      modifies agent
      ensures step !in StepNames ==> !ok && agent.calls == old(agent.calls)
      ensures step in StepNames ==> agent.calls == old(agent.calls) + [StepPrompt(step)]
                                    && ok == !agent.raises(old(agent.calls), StepPrompt(step))
    {
      if step !in StepNames {
        return false;
      }
      ok := ExecuteStepWithPrompt(StepPrompt(step));
    }

    /** One stage of the plan: an aborting stage reports whether the run may go on. */
    method RunStage(s: Stage) returns (goOn: bool)
      requires s.prompt.StepPrompt? ==> s.prompt.step in StepNames
      modifies agent
      ensures agent.calls == old(agent.calls) + [s.prompt]
      ensures goOn == !(s.aborts && agent.raises(old(agent.calls), s.prompt))
    {
      var ok;
      if s.prompt.StepPrompt? {
        ok := ExecuteStep(s.prompt.step);
      } else {
        ok := ExecuteStepWithPrompt(s.prompt);
      }
      goOn := ok || !s.aborts;
    }

    /**
     * `execute_report`: Xiaohongshu runs the stages, stopping at the first aborting failure;
     * Xianyu and Taobao are placeholders that fail without touching the agent. The context
     * comes back with its screenshot path set.
     */
    method ExecuteReport(c: ReportContext, fmt: PiracyDetector.Formats, stamp: string) returns (ok: bool, c': ReportContext)
      modifies agent
      ensures platform != Xiaohongshu ==> !ok && c' == c && agent.calls == old(agent.calls)
      ensures platform == Xiaohongshu ==>
                c' == c.(screenshotPath := Some(PathJoin(screenshotDir, EvidenceFile(c.reportId, stamp))))
                && var r := ExecuteSpec(agent.raises, old(agent.calls), c, fmt, screenshotDir, stamp);
                   ok == r.ok && agent.calls == r.calls
    {
      if platform != Xiaohongshu {
        return false, c;
      }
      c' := c.(screenshotPath := Some(PathJoin(screenshotDir, EvidenceFile(c.reportId, stamp))));
      var reason := GenerateReportReason(c', fmt);
      var stages := Plan(reason, c'.screenshotPath.Some?);
      ghost var h := agent.calls;
      var i := 0;
      while i < |stages|
        invariant 0 <= i <= |stages|
        invariant RunStages(agent.raises, h, stages) == RunStages(agent.raises, agent.calls, stages[i..])
      {
        var goOn := RunStage(stages[i]);
        if !goOn {
          return false, c';
        }
        i := i + 1;
      }
      ok := true;
    }
  }

  /** `create_reporter`: a reporter for a known platform, `None` (the `ValueError`) otherwise. */
  method CreateReporter(name: string, agent: PhoneAgent.Agent<Prompt>, screenshotDir: string)
    returns (r: Option<PlatformReporter>)
    ensures r.None? <==> PlatformOf(name).None?
    ensures r.Some? ==> fresh(r.value) && Some(r.value.platform) == PlatformOf(name)
                        && r.value.agent == agent && r.value.screenshotDir == screenshotDir
  {
    var p := PlatformOf(name);
    if p.None? {
      return None;
    }
    var reporter := new PlatformReporter(p.value, agent, screenshotDir);
    r := Some(reporter);
  }

  /** A Xiaohongshu report succeeds iff none of the menu, entry, type and submit steps raises; the fill and upload steps may. */
  lemma ExecuteOutcome(raises: (seq<Prompt>, Prompt) -> bool, h: seq<Prompt>, c: ReportContext,
                       fmt: PiracyDetector.Formats, directory: string, stamp: string)
    ensures var shot := PathJoin(directory, EvidenceFile(c.reportId, stamp));
            var stages := Plan(ReasonText(c.(screenshotPath := Some(shot)), fmt), true);
            (ExecuteSpec(raises, h, c, fmt, directory, stamp).ok <==>
              forall k :: 0 <= k < |stages| && stages[k].aborts ==> !raises(Before(h, stages, k), stages[k].prompt))
            && (exists k :: 0 <= k < |stages| && stages[k].prompt == StepPrompt("upload_evidence"))
  {
    var shot := PathJoin(directory, EvidenceFile(c.reportId, stamp));
    RunStagesOutcome(raises, h, Plan(ReasonText(c.(screenshotPath := Some(shot)), fmt), true));
  }
}
