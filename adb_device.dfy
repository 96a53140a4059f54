/**
 * The phone as the detection script drives it (`ADBController` in
 * anti_piracy_system/test/test_detection.py). The device is a history of the commands
 * sent to it; what `uiautomator dump` shows after a history is an uninterpreted function
 * `screenOf` of that history, already parsed into nodes. On top of it: finding and tapping
 * a node by its text, trying candidate labels in order, the verified four-tier text input,
 * and listing input fields by size.
 */
module AdbDevice {
  import opened Wrappers
  import opened Text
  import opened Seqs

  /** Python's `int(x)` on a float: truncation toward zero. */
  function Int(r: real): (i: int)
    ensures r >= 0.0 ==> 0 <= i && i as real <= r < i as real + 1.0
    ensures r < 0.0 ==> i <= 0 && i as real - 1.0 < r <= i as real
  {
    if r >= 0.0 then r.Floor else -((-r).Floor)
  }

  /** The `bounds="[x1,y1][x2,y2]"` of a node. */
  datatype Bounds = Bounds(x1: int, y1: int, x2: int, y2: int)
  {
    /** `((x1 + x2) // 2, (y1 + y2) // 2)` */
    function CenterX(): int { (x1 + x2) / 2 }

    function CenterY(): int { (y1 + y2) / 2 }

    /** `(x2 - x1) * (y2 - y1)` */
    function Area(): int { (x2 - x1) * (y2 - y1) }
  }

  /** One `<node>` of a UI dump; `leaf` says it is written self-closing (`<node .../>`). */
  datatype Node = Node(cls: string, text: string, bounds: Bounds, clickable: bool, focusable: bool, longClickable: bool, leaf: bool)

  /** A UI dump: its raw text and its nodes in document order. */
  datatype Snapshot = Snapshot(xml: string, nodes: seq<Node>)

  /** `if xml:` on what `dump_ui_xml` returned. */
  predicate Dumped(snap: Option<Snapshot>)
  {
    snap.Some? && snap.value.xml != ""
  }

  /** A command sent to the phone. */
  datatype Action =
    | Tapped(x: int, y: int)
    | Swiped(x1: int, y1: int, x2: int, y2: int, durationMs: int)
    | BackPressed
    | Broadcast(msg: string)          // the `ADB_INPUT_TEXT` broadcast of the ADB keyboard
    | ClipperSet(text: string)        // the `clipper.set` broadcast
    | Pasted                          // key event 279
    | ClipFileWritten(text: string)   // the text written to `/sdcard/clip_temp.txt`
    | ContentSetText                  // `content call ... setText` from that file
    | TextInput(text: string)         // `input text`
    | TextCleared(presses: nat)       // long-pressed delete key events

  /** The commands a step sends and whether it reports success. */
  datatype Outcome = Outcome(steps: seq<Action>, ok: bool)

  /** The whole history a flow leaves behind and whether it reports success. */
  datatype Run = Run(history: seq<Action>, ok: bool)

  // ---------------------------------------------------------------- finding by text

  function TextHas(t: string): Node -> bool
  {
    (n: Node) => Contains(n.text, t)
  }

  /** The first node whose text contains `t` (the regular expression of `find_and_click_text`). */
  function Locate(snap: Option<Snapshot>, t: string): (r: Option<Node>)
    ensures r.Some? ==> Dumped(snap) && r.value in snap.value.nodes && Contains(r.value.text, t)
    ensures r.None? <==> !Dumped(snap) || forall i :: 0 <= i < |snap.value.nodes| ==> !Contains(snap.value.nodes[i].text, t)
  {
    if !Dumped(snap) then None
    else
      FilterMembers(snap.value.nodes, TextHas(t));
      FilterEmpty(snap.value.nodes, TextHas(t));
      First(Filter(snap.value.nodes, TextHas(t)))
  }

  /** Located nodes are the first in document order. */
  lemma LocateFirst(snap: Option<Snapshot>, t: string, k: nat)
    requires Dumped(snap) && k < |snap.value.nodes| && Contains(snap.value.nodes[k].text, t)
    requires forall j :: 0 <= j < k ==> !Contains(snap.value.nodes[j].text, t)
    ensures Locate(snap, t) == Some(snap.value.nodes[k])
  {
    FilterHead(snap.value.nodes, TextHas(t), k);
  }

  /** The tap `find_and_click_text` sends: the centre of the located node, or nothing. */
  function ClickSteps(snap: Option<Snapshot>, t: string): (steps: seq<Action>)
    ensures |steps| <= 1 && (steps == [] <==> Locate(snap, t).None?)
  {
    match Locate(snap, t)
    case Some(n) => [Tapped(n.bounds.CenterX(), n.bounds.CenterY())]
    case None => []
  }

  /** The index of the first `true`. */
  function FirstTrue(bs: seq<bool>): (r: Option<nat>)
    ensures r.Some? ==> r.value < |bs| && bs[r.value] && forall j :: 0 <= j < r.value ==> !bs[j]
    ensures r.None? <==> forall j :: 0 <= j < |bs| ==> !bs[j]
    decreases |bs|
  {
    if bs == [] then None
    else if bs[0] then Some(0)
    else
      var rest := FirstTrue(bs[1..]);
      assert forall j :: 1 <= j < |bs| ==> bs[j] == bs[1..][j - 1];
      if rest.Some? then Some(rest.value + 1) else None
  }

  function Shows(snap: Option<Snapshot>): string -> bool
  {
    (t: string) => Locate(snap, t).Some?
  }

  /** The index of the first label of `labels` that the screen shows. */
  function FirstLabel(snap: Option<Snapshot>, labels: seq<string>): (r: Option<nat>)
    ensures r.Some? ==> r.value < |labels| && Locate(snap, labels[r.value]).Some?
                        && forall j :: 0 <= j < r.value ==> Locate(snap, labels[j]).None?
    ensures r.None? <==> forall j :: 0 <= j < |labels| ==> Locate(snap, labels[j]).None?
  {
    var bs := MapSeq(labels, Shows(snap));
    assert forall j :: 0 <= j < |labels| ==> (bs[j] <==> Locate(snap, labels[j]).Some?);
    FirstTrue(bs)
  }

  /** The steps of trying each label in turn: a tap on the first one shown, if any. */
  function ClickFirstSteps(snap: Option<Snapshot>, labels: seq<string>): seq<Action>
  {
    match FirstLabel(snap, labels)
    case Some(i) => ClickSteps(snap, labels[i])
    case None => []
  }

  // ---------------------------------------------------------------- verified text input

  /** The fragment looked for after typing: the text without newlines and spaces, cut to 10 characters. */
  function VerifyKey(text: string): (key: string)
    ensures |key| <= 10 && '\n' !in key && ' ' !in key
    ensures var stripped := RemoveChar(RemoveChar(text, '\n'), ' ');
            |key| <= |stripped| && key == stripped[..|key|] && (|key| == 10 || key == stripped)
  {
    Take(RemoveChar(RemoveChar(text, '\n'), ' '), 10)
  }

  /** Some character lies in U+4E00..U+9FFF. */
  predicate HasCjk(text: string)
  {
    exists i | 0 <= i < |text| :: '\U{4E00}' <= text[i] <= '\U{9FFF}'
  }

  /** The escaping before `input text`: quotes get a backslash, spaces become `%s`. */
  function Escape(text: string): (r: string)
    ensures ' ' !in r
  {
    var quoted := ReplaceAll(ReplaceAll(text, "'", "\\'"), "\"", "\\\"");
    ReplaceAllDrops(quoted, ' ', "%s");
    ReplaceAll(quoted, " ", "%s")
  }

  /** A dump shows the key. */
  predicate Verified(snap: Option<Snapshot>, key: string)
  {
    Dumped(snap) && Contains(snap.value.xml, key)
  }

  /** Tier 1: the ADB keyboard broadcast. */
  function Tier1(text: string): seq<Action>
  {
    [Broadcast(text)]
  }

  /** Tiers 1 and 2: then Clipper and a paste. */
  function Tier2(text: string): seq<Action>
  {
    Tier1(text) + [ClipperSet(text), Pasted]
  }

  /** Tiers 1 to 3: then the content-call clipboard and a paste. */
  function Tier3(text: string): seq<Action>
  {
    Tier2(text) + [ClipFileWritten(text), ContentSetText, Pasted]
  }

  /**
   * `input_text_smart` from history `h`: each tier is checked against the dump taken after
   * it, and the first verified tier ends the input; only text without CJK ideographs gets
   * the unverified fourth tier, `input text`, which reports success.
   */
  function SmartInput(screenOf: seq<Action> -> Option<Snapshot>, h: seq<Action>, text: string): (o: Outcome)
    ensures o.ok <==>
              (Verified(screenOf(h + Tier1(text)), VerifyKey(text))
               || Verified(screenOf(h + Tier2(text)), VerifyKey(text))
               || Verified(screenOf(h + Tier3(text)), VerifyKey(text))
               || !HasCjk(text))
    ensures Verified(screenOf(h + Tier1(text)), VerifyKey(text)) ==> o.steps == Tier1(text)
    ensures TextInput(Escape(text)) in o.steps <==>
              (!Verified(screenOf(h + Tier1(text)), VerifyKey(text))
              && !Verified(screenOf(h + Tier2(text)), VerifyKey(text))
              && !Verified(screenOf(h + Tier3(text)), VerifyKey(text))
              && !HasCjk(text))
    ensures !o.ok ==> o.steps == Tier3(text)
  {
    var key := VerifyKey(text);
    if Verified(screenOf(h + Tier1(text)), key) then Outcome(Tier1(text), true)
    else if Verified(screenOf(h + Tier2(text)), key) then Outcome(Tier2(text), true)
    else if Verified(screenOf(h + Tier3(text)), key) then Outcome(Tier3(text), true)
    else if !HasCjk(text) then Outcome(Tier3(text) + [TextInput(Escape(text))], true)
    else Outcome(Tier3(text), false)
  }

  // ---------------------------------------------------------------- input fields

  /** An input field `find_input_elements` reports. */
  datatype InputElement = InputElement(bounds: Bounds, centerX: int, centerY: int, area: int)

  function ElementOf(n: Node): InputElement
  {
    InputElement(n.bounds, n.bounds.CenterX(), n.bounds.CenterY(), n.bounds.Area())
  }

  /** The class names the first two patterns accept. */
  predicate InputClass(n: Node)
  {
    Contains(n.cls, "EditText") || Contains(n.cls, "Input") || Contains(n.cls, "TextField")
  }

  /**
   * The third pattern, `focusable="true"` then `clickable="true"` then the bounds, read in the dump's
   * attribute order (… clickable, enabled, focusable, focused, scrollable, long-clickable, password,
   * selected, bounds): the only `clickable="true"` after `focusable="true"` is the tail of
   * `long-clickable="true"`, so the pattern finds the focusable, long-clickable nodes.
   */
  predicate FocusLongClick(n: Node)
  {
    n.focusable && n.longClickable
  }

  /** `sort(key=area, reverse=True)` compares areas only. */
  function LargerFirst(a: InputElement, b: InputElement): bool
  {
    a.area >= b.area
  }

  lemma LargerFirstPreorder()
    ensures TotalPreorder(LargerFirst)
  {
  }

  /** The matches of the patterns in pattern order (a node matching two patterns is listed twice). */
  function InputMatches(snap: Option<Snapshot>): seq<InputElement>
  {
    if !Dumped(snap) then []
    else
      MapSeq(Filter(snap.value.nodes, InputClass), ElementOf) + MapSeq(Filter(snap.value.nodes, FocusLongClick), ElementOf)
  }

  /** The elements of a pattern's matches grow by one node at a time. */
  lemma MatchesSnoc(nodes: seq<Node>, i: nat, p: Node -> bool)
    requires i < |nodes|
    ensures MapSeq(Filter(nodes[..i + 1], p), ElementOf)
         == MapSeq(Filter(nodes[..i], p), ElementOf) + (if p(nodes[i]) then [ElementOf(nodes[i])] else [])
  {
    FilterSnoc(nodes, i, p);
    if p(nodes[i]) {
      var f := Filter(nodes[..i], p);
      MapSeqSnoc(f + [nodes[i]], |f|, ElementOf);
      assert (f + [nodes[i]])[..|f|] == f;
      assert (f + [nodes[i]])[..|f| + 1] == f + [nodes[i]];
    }
  }

  /** `find_input_elements`: the pattern matches, largest area first. */
  function InputElements(snap: Option<Snapshot>): seq<InputElement>
  {
    Sort(InputMatches(snap), LargerFirst)
  }

  /** The listed fields are ordered by decreasing area and are exactly the pattern matches. */
  lemma InputElementsOrdered(snap: Option<Snapshot>)
    ensures var r := InputElements(snap);
            (forall i, j :: 0 <= i < j < |r| ==> r[i].area >= r[j].area)
            && multiset(r) == multiset(InputMatches(snap))
  {
    LargerFirstPreorder();
    SortSorted(InputMatches(snap), LargerFirst);
    SortPermutes(InputMatches(snap), LargerFirst);
  }

  // ---------------------------------------------------------------- the device

  class Device {
    /** Every command sent so far. */
    var actions: seq<Action>
    /** The screen size `get_screen_size` reports. */
    const width: int
    const height: int
    /** What a UI dump shows after a history of commands. */
    const screenOf: seq<Action> -> Option<Snapshot>

    constructor(width: int, height: int, screenOf: seq<Action> -> Option<Snapshot>)
      ensures actions == [] && this.width == width && this.height == height && this.screenOf == screenOf
    {
      actions := [];
      this.width := width;
      this.height := height;
      this.screenOf := screenOf;
    }

    /** `dump_ui_xml` */
    function Screen(): Option<Snapshot>
      reads this
    {
      screenOf(actions)
    }

    method Tap(x: int, y: int)
      modifies this
      ensures actions == old(actions) + [Tapped(x, y)]
    {
      actions := actions + [Tapped(x, y)];
    }

    method Swipe(x1: int, y1: int, x2: int, y2: int, durationMs: int)
      modifies this
      ensures actions == old(actions) + [Swiped(x1, y1, x2, y2, durationMs)]
    {
      actions := actions + [Swiped(x1, y1, x2, y2, durationMs)];
    }

    method Back()
      modifies this
      ensures actions == old(actions) + [BackPressed]
    {
      actions := actions + [BackPressed];
    }

    /** `clear_text`: at most 20 delete presses. */
    method ClearText(count: nat)
      modifies this
      ensures actions == old(actions) + [TextCleared(if count < 20 then count else 20)]
    {
      actions := actions + [TextCleared(if count < 20 then count else 20)];
    }

    /** `swipe_left_bottom`: along the bottom panel, right to left. */
    method SwipeLeftBottom()
      modifies this
      ensures actions == old(actions) + [SwipeLeftBottomStep(width, height)]
    {
      Swipe(Int(width as real * 0.8), Int(height as real * 0.85), Int(width as real * 0.2), Int(height as real * 0.85), 500);
    }

    /** `swipe_up_list`: the product list one page on. */
    method SwipeUpList()
      modifies this
      ensures actions == old(actions) + [SwipeUpListStep(width, height)]
    {
      Swipe(width / 2, Int(height as real * 0.75), width / 2, Int(height as real * 0.35), 800);
    }

    /** `find_and_click_text`: taps the centre of the first node whose text contains `t`. */
    method FindAndClickText(t: string) returns (found: bool)
      modifies this
      ensures found == Locate(old(Screen()), t).Some?
      ensures actions == old(actions) + ClickSteps(old(Screen()), t)
    {
      var snap := Screen();
      var n := Locate(snap, t);
      if n.None? {
        return false;
      }
      Tap(n.value.bounds.CenterX(), n.value.bounds.CenterY());
      return true;
    }

    /** Tries the labels in order and stops at the first one it can tap. */
    method ClickFirst(labels: seq<string>) returns (hit: Option<nat>)
      modifies this
      ensures hit == FirstLabel(old(Screen()), labels)
      ensures actions == old(actions) + ClickFirstSteps(old(Screen()), labels)
    {
      ghost var before := actions;
      ghost var snap := Screen();
      var i := 0;
      while i < |labels|
        invariant 0 <= i <= |labels|
        invariant actions == before && Screen() == snap
        invariant forall j :: 0 <= j < i ==> Locate(snap, labels[j]).None?
      {
        var found := FindAndClickText(labels[i]);
        if found {
          FirstLabelIs(snap, labels, i);
          assert ClickFirstSteps(snap, labels) == ClickSteps(snap, labels[i]);
          return Some(i);
        }
        assert actions == before + [];
        i := i + 1;
      }
      assert FirstLabel(snap, labels).None?;
      return None;
    }

    /** `input_text_smart` */
    method InputTextSmart(text: string) returns (ok: bool)
      modifies this
      ensures var o := SmartInput(screenOf, old(actions), text);
              ok == o.ok && actions == old(actions) + o.steps
    {
      ghost var h := actions;
      var key := VerifyKey(text);
      actions := actions + [Broadcast(text)];
      if Verified(Screen(), key) {
        return true;
      }
      actions := actions + [ClipperSet(text), Pasted];
      assert actions == h + Tier2(text);
      if Verified(Screen(), key) {
        return true;
      }
      actions := actions + [ClipFileWritten(text), ContentSetText, Pasted];
      assert actions == h + Tier3(text);
      if Verified(Screen(), key) {
        return true;
      }
      if !HasCjk(text) {
        actions := actions + [TextInput(Escape(text))];
        return true;
      }
      return false;
    }

    /** `find_input_elements`, collecting the matches pattern by pattern and sorting them. */
    method FindInputElements() returns (elements: seq<InputElement>)
      ensures elements == InputElements(Screen())
    {
      var snap := Screen();
      if !Dumped(snap) {
        return [];
      }
      var nodes := snap.value.nodes;
      var first: seq<InputElement> := [];
      var second: seq<InputElement> := [];
      var i := 0;
      while i < |nodes|
        invariant 0 <= i <= |nodes|
        invariant first == MapSeq(Filter(nodes[..i], InputClass), ElementOf)
        invariant second == MapSeq(Filter(nodes[..i], FocusLongClick), ElementOf)
      {
        MatchesSnoc(nodes, i, InputClass);
        MatchesSnoc(nodes, i, FocusLongClick);
        if InputClass(nodes[i]) {
          first := first + [ElementOf(nodes[i])];
        }
        if FocusLongClick(nodes[i]) {
          second := second + [ElementOf(nodes[i])];
        }
        i := i + 1;
      }
      assert nodes[..i] == nodes;
      elements := Sort(first + second, LargerFirst);
    }
  }

  function SwipeLeftBottomStep(width: int, height: int): Action
  {
    Swiped(Int(width as real * 0.8), Int(height as real * 0.85), Int(width as real * 0.2), Int(height as real * 0.85), 500)
  }

  function SwipeUpListStep(width: int, height: int): Action
  {
    Swiped(width / 2, Int(height as real * 0.75), width / 2, Int(height as real * 0.35), 800)
  }

  lemma FirstLabelIs(snap: Option<Snapshot>, labels: seq<string>, i: nat)
    requires i < |labels| && Locate(snap, labels[i]).Some?
    requires forall j :: 0 <= j < i ==> Locate(snap, labels[j]).None?
    ensures FirstLabel(snap, labels) == Some(i)
  {
  }
}
