/** The autodetection sequence as a specification: an ordered table of probe
    stages and a function `Run` that says, for a given hardware, which board
    the sequence settles on and which hardware actions it performs. The
    hardware is an oracle `hw` from the active pin assignment to the raw ID
    that `readPanelID` returns under it. */
module Probe {
  import opened Hardware
  import opened Signatures

  /** One probe stage: the probe panel's chip-select and data/command pins,
      an optional reset pin (which the stage also pulses), the bus pins, and
      the rules its ID is classified by, in priority order. */
  datatype Stage = Stage(cs: int, dc: int, reset: Option<int>,
                         mosi: int, miso: int, sclk: int, rules: seq<Rule>)

  /** What a run of the sequence leaves behind: the board, the actions, and
      the pins of the last stage that was tried. */
  datatype Outcome = Outcome(board: Board, events: seq<Event>, pins: Pins)

  /** The three stages of `LGFX::init`, in the order it tries them. */
  const Stages: seq<Stage> := [
    Stage(5, 27, None, 19, -1, 18, [Rule(LowByteIs(ST7789_ID), TTGO_TWatch)]),
    Stage(14, 27, None, 23, 19, 18, [Rule(Answered, M5Stack)]),
    Stage(5, 23, Some(18), 15, 14, 13,
          [Rule(LowByteIs(ST7789_ID), M5StickCPlus), Rule(LowByteIs(ST7735_ID), M5StickC)])
  ]

  /** No rule of the table names `Unknown`, so `Unknown` means "no match". */
  predicate NoUnknownRule(stages: seq<Stage>)
  {
    forall k, i :: 0 <= k < |stages| && 0 <= i < |stages[k].rules| ==> stages[k].rules[i].board != Unknown
  }

  /** The pins in force while stage `s` probes; the reset pin keeps its
      previous value `rst` unless the stage sets one. */
  function StagePins(s: Stage, rst: int): Pins
  {
    Pins(s.cs, s.dc, if s.reset.Some? then s.reset.value else rst, s.mosi, s.miso, s.sclk)
  }

  /** Release the bus and, when a stage ran before, drive its data/command
      line and then its chip-select line low. */
  function Quiesce(prev: Option<Pins>): seq<Event>
  {
    match prev
    case None => [ReleaseBus]
    case Some(p) => [ReleaseBus, GpioLo(p.dc), GpioLo(p.cs)]
  }

  /** Install the probe panel, bring the bus up, pulse the reset line if
      there is one, and let the panel settle. */
  function BringUp(reset: Option<int>, p: Pins): seq<Event>
  {
    [SetPanel(DummyPanel), InitBus(p)]
    + (match reset
       case None => []
       case Some(r) => [PinModeOutput(r), GpioLo(r), Delay(1), GpioHi(r)])
    + [Delay(10)]
  }

  /** Everything one stage does up to and including its ID read. */
  function Attempt(s: Stage, prev: Option<Pins>, p: Pins, id: uint32): (e: seq<Event>)
    ensures |e| >= 5 && e[|e| - 1] == ReadPanelId(id)
  {
    Quiesce(prev) + BringUp(s.reset, p) + [ReadPanelId(id)]
  }

  /** Run the stages from index `k` on: `rst` is the probe panel's reset pin
      and `prev` the pins of the stage before `k`, if any. The first stage
      whose rules match installs its board and ends the run; when the last
      stage fails the lines are quiesced and the board stays `Unknown`. */
  function Run(stages: seq<Stage>, k: nat, rst: int, prev: Option<Pins>, hw: Pins -> uint32): Outcome
    requires k < |stages|
    decreases |stages| - k
  {
    var p := StagePins(stages[k], rst);
    var id := hw(p);
    var probe := Attempt(stages[k], prev, p, id);
    match Classify(stages[k].rules, id)
    case Some(b) => Outcome(b, probe + [SetPanel(BoardPanel(b)), InitPanel], p)
    case None =>
      if k + 1 == |stages| then Outcome(Unknown, probe + Quiesce(Some(p)), p)
      else
        var rest := Run(stages, k + 1, p.rst, Some(p), hw);
        Outcome(rest.board, probe + rest.events, rest.pins)
  }

  /** The whole detection, starting from a probe panel whose reset pin is `rst`. */
  function Detect(hw: Pins -> uint32, rst: int): Outcome
  {
    Run(Stages, 0, rst, None, hw)
  }

  /** Run when stage `k` matches: its panel is installed and the run ends. */
  lemma RunHit(stages: seq<Stage>, k: nat, rst: int, prev: Option<Pins>, hw: Pins -> uint32, b: Board)
    requires k < |stages|
    requires Classify(stages[k].rules, hw(StagePins(stages[k], rst))) == Some(b)
    ensures var p := StagePins(stages[k], rst);
      Run(stages, k, rst, prev, hw)
        == Outcome(b, Attempt(stages[k], prev, p, hw(p)) + [SetPanel(BoardPanel(b)), InitPanel], p)
  {
  }

  /** Run when stage `k` fails and another stage follows. */
  lemma RunMiss(stages: seq<Stage>, k: nat, rst: int, prev: Option<Pins>, hw: Pins -> uint32)
    requires k + 1 < |stages|
    requires Classify(stages[k].rules, hw(StagePins(stages[k], rst))) == None
    ensures var p := StagePins(stages[k], rst);
      var rest := Run(stages, k + 1, p.rst, Some(p), hw);
      Run(stages, k, rst, prev, hw) == Outcome(rest.board, Attempt(stages[k], prev, p, hw(p)) + rest.events, rest.pins)
  {
  }

  /** Run when the last stage fails. */
  lemma RunExhausted(stages: seq<Stage>, k: nat, rst: int, prev: Option<Pins>, hw: Pins -> uint32)
    requires k + 1 == |stages|
    requires Classify(stages[k].rules, hw(StagePins(stages[k], rst))) == None
    ensures var p := StagePins(stages[k], rst);
      Run(stages, k, rst, prev, hw) == Outcome(Unknown, Attempt(stages[k], prev, p, hw(p)) + Quiesce(Some(p)), p)
  {
  }

  /** The first stage of the table: cs 5, dc 27, bus 19/-1/18, no reset
      pulse, and a low byte 0x85 means TTGO T-Watch. */
  lemma StageOneIs(rst: int, id: uint32)
    ensures StagePins(Stages[0], rst) == Pins(5, 27, rst, 19, -1, 18) && Stages[0].reset == None
    ensures Classify(Stages[0].rules, id) == if LowByte(id) == ST7789_ID then Some(TTGO_TWatch) else None
  {
  }

  /** The second stage: cs 14, dc 27, bus 23/19/18, no reset pulse, and any
      ID other than 0 and all ones means M5Stack. */
  lemma StageTwoIs(rst: int, id: uint32)
    ensures StagePins(Stages[1], rst) == Pins(14, 27, rst, 23, 19, 18) && Stages[1].reset == None
    ensures Classify(Stages[1].rules, id) == if id != 0 && id != 0xFFFF_FFFF then Some(M5Stack) else None
  {
  }

  /** The third stage: cs 5, dc 23, reset 18 pulsed, bus 15/14/13; 0x85
      means M5StickCPlus and, after that test, 0x7C means M5StickC. */
  lemma StageThreeIs(rst: int, id: uint32)
    ensures StagePins(Stages[2], rst) == Pins(5, 23, 18, 15, 14, 13) && Stages[2].reset == Some(18)
    ensures Classify(Stages[2].rules, id) ==
      if LowByte(id) == ST7789_ID then Some(M5StickCPlus)
      else if LowByte(id) == ST7735_ID then Some(M5StickC)
      else None
  {
    StageThreeRules(id);
  }

  /** The IDs read, in order. */
  function Reads(events: seq<Event>): seq<uint32>
  {
    if events == [] then []
    else (if events[0].ReadPanelId? then [events[0].id] else []) + Reads(events[1..])
  }

  lemma {:induction false} ReadsAppend(a: seq<Event>, b: seq<Event>)
    ensures Reads(a + b) == Reads(a) + Reads(b)
  {
    if a == [] {
      assert a + b == b;
    } else {
      var ab := a + b;
      assert ab != [] && ab[0] == a[0];
      assert ab[1..] == a[1..] + b;
      ReadsAppend(a[1..], b);
      var h := if a[0].ReadPanelId? then [a[0].id] else [];
      assert Reads(ab) == h + (Reads(a[1..]) + Reads(b));
      assert Reads(a) == h + Reads(a[1..]);
      Regroup(h, Reads(a[1..]), Reads(b));
    }
  }

  /** A stretch of actions without an ID read contributes no IDs. */
  lemma {:induction false} ReadsNone(events: seq<Event>)
    requires forall i :: 0 <= i < |events| ==> !events[i].ReadPanelId?
    ensures Reads(events) == []
  {
    if events != [] {
      ReadsNone(events[1..]);
    }
  }

  lemma ReadsOfQuiesce(prev: Option<Pins>)
    ensures Reads(Quiesce(prev)) == []
  {
    ReadsNone(Quiesce(prev));
  }

  lemma ReadsOfBringUp(reset: Option<int>, p: Pins)
    ensures Reads(BringUp(reset, p)) == []
  {
    ReadsNone(BringUp(reset, p));
  }

  /** The IDs a run from stage `k` should read: one for each stage it
      tries, taken under that stage's pins, up to and including the first
      stage that matches or the last stage. */
  function TriedIds(stages: seq<Stage>, k: nat, rst: int, hw: Pins -> uint32): seq<uint32>
    requires k < |stages|
    decreases |stages| - k
  {
    var p := StagePins(stages[k], rst);
    if Classify(stages[k].rules, hw(p)).Some? || k + 1 == |stages| then [hw(p)]
    else [hw(p)] + TriedIds(stages, k + 1, p.rst, hw)
  }

  /** A run reads at least one ID and at most one per remaining stage. */
  lemma {:induction false} TriedIdsBounds(stages: seq<Stage>, k: nat, rst: int, hw: Pins -> uint32)
    requires k < |stages|
    ensures 1 <= |TriedIds(stages, k, rst, hw)| <= |stages| - k
    decreases |stages| - k
  {
    var p := StagePins(stages[k], rst);
    if !(Classify(stages[k].rules, hw(p)).Some? || k + 1 == |stages|) {
      TriedIdsBounds(stages, k + 1, p.rst, hw);
    }
  }

  /** Every stage that is tried reads the panel ID exactly once, under its
      own pins, and nothing else reads it: the IDs a run reads are exactly
      `TriedIds`, so at least one and at most one per remaining stage. */
  lemma {:induction false} RunReads(stages: seq<Stage>, k: nat, rst: int, prev: Option<Pins>, hw: Pins -> uint32)
    requires k < |stages|
    ensures Reads(Run(stages, k, rst, prev, hw).events) == TriedIds(stages, k, rst, hw)
    ensures 1 <= |Reads(Run(stages, k, rst, prev, hw).events)| <= |stages| - k
    decreases |stages| - k
  {
    TriedIdsBounds(stages, k, rst, hw);
    var p := StagePins(stages[k], rst);
    var id := hw(p);
    var probe := Attempt(stages[k], prev, p, id);
    ReadsOfQuiesce(prev);
    ReadsOfBringUp(stages[k].reset, p);
    ReadsAppend(Quiesce(prev), BringUp(stages[k].reset, p));
    ReadsAppend(Quiesce(prev) + BringUp(stages[k].reset, p), [ReadPanelId(id)]);
    assert Reads([ReadPanelId(id)]) == [id];
    assert Reads(probe) == [id];
    match Classify(stages[k].rules, id)
    case Some(b) =>
      var install := [SetPanel(BoardPanel(b)), InitPanel];
      assert Reads(install) == [] by { assert install[1..][1..] == []; }
      ReadsAppend(probe, install);
    case None =>
      if k + 1 == |stages| {
        ReadsOfQuiesce(Some(p));
        ReadsAppend(probe, Quiesce(Some(p)));
      } else {
        RunReads(stages, k + 1, p.rst, Some(p), hw);
        ReadsAppend(probe, Run(stages, k + 1, p.rst, Some(p), hw).events);
      }
  }

  /** The ending of a run whose stage `k` matches. */
  lemma EndsAfterHit(stages: seq<Stage>, k: nat, rst: int, prev: Option<Pins>, hw: Pins -> uint32, b: Board)
    requires k < |stages|
    requires Classify(stages[k].rules, hw(StagePins(stages[k], rst))) == Some(b)
    ensures var o := Run(stages, k, rst, prev, hw);
      o.board == b && EndsWith(o.events, [ReadPanelId(hw(o.pins)), SetPanel(BoardPanel(b)), InitPanel])
  {
    var p := StagePins(stages[k], rst);
    RunHit(stages, k, rst, prev, hw, b);
    var install := [SetPanel(BoardPanel(b)), InitPanel];
    var before := Quiesce(prev) + BringUp(stages[k].reset, p);
    Regroup(before, [ReadPanelId(hw(p))], install);
    EndsWithSuffix(before, [ReadPanelId(hw(p))] + install);
  }

  /** The ending of a run whose last stage `k` fails. */
  lemma EndsAfterExhausted(stages: seq<Stage>, k: nat, rst: int, prev: Option<Pins>, hw: Pins -> uint32)
    requires k + 1 == |stages|
    requires Classify(stages[k].rules, hw(StagePins(stages[k], rst))) == None
    ensures var o := Run(stages, k, rst, prev, hw);
      o.board == Unknown
      && EndsWith(o.events, [ReadPanelId(hw(o.pins)), ReleaseBus, GpioLo(o.pins.dc), GpioLo(o.pins.cs)])
  {
    var p := StagePins(stages[k], rst);
    RunExhausted(stages, k, rst, prev, hw);
    var before := Quiesce(prev) + BringUp(stages[k].reset, p);
    Regroup(before, [ReadPanelId(hw(p))], Quiesce(Some(p)));
    EndsWithSuffix(before, [ReadPanelId(hw(p))] + Quiesce(Some(p)));
  }

  /** A run whose stage `k` fails ends as the run from stage `k + 1` does. */
  lemma EndsAfterMiss(stages: seq<Stage>, k: nat, rst: int, prev: Option<Pins>, hw: Pins -> uint32, t: seq<Event>)
    requires k + 1 < |stages|
    requires Classify(stages[k].rules, hw(StagePins(stages[k], rst))) == None
    requires var p := StagePins(stages[k], rst);
      EndsWith(Run(stages, k + 1, p.rst, Some(p), hw).events, t)
    ensures var p := StagePins(stages[k], rst);
      var o, rest := Run(stages, k, rst, prev, hw), Run(stages, k + 1, p.rst, Some(p), hw);
      o.board == rest.board && o.pins == rest.pins && EndsWith(o.events, t)
  {
    var p := StagePins(stages[k], rst);
    RunMiss(stages, k, rst, prev, hw);
    EndsWithAppend(Attempt(stages[k], prev, p, hw(p)), Run(stages, k + 1, p.rst, Some(p), hw).events, t);
  }

  /** A run that finds a board ends with that stage's ID read, which was
      taken under the pins the run leaves set, followed by `setPanel` with
      the board's panel and `initPanel`; nothing else comes after it. */
  lemma {:induction false} RunEndsMatched(stages: seq<Stage>, k: nat, rst: int, prev: Option<Pins>, hw: Pins -> uint32)
    requires k < |stages|
    ensures var o := Run(stages, k, rst, prev, hw);
      o.board != Unknown ==>
        EndsWith(o.events, [ReadPanelId(hw(o.pins)), SetPanel(BoardPanel(o.board)), InitPanel])
    decreases |stages| - k
  {
    var p := StagePins(stages[k], rst);
    var c := Classify(stages[k].rules, hw(p));
    if c.Some? {
      EndsAfterHit(stages, k, rst, prev, hw, c.value);
    } else if k + 1 < |stages| {
      RunEndsMatched(stages, k + 1, p.rst, Some(p), hw);
      var rest := Run(stages, k + 1, p.rst, Some(p), hw);
      if rest.board != Unknown {
        EndsAfterMiss(stages, k, rst, prev, hw,
          [ReadPanelId(hw(rest.pins)), SetPanel(BoardPanel(rest.board)), InitPanel]);
      } else {
        RunMiss(stages, k, rst, prev, hw);
      }
    } else {
      RunExhausted(stages, k, rst, prev, hw);
    }
  }

  /** A run in which no stage matches leaves the board `Unknown` and ends,
      after the last ID read, by releasing the bus and driving the last
      stage's data/command line, then its chip-select line, low. */
  lemma {:induction false} RunEndsUnmatched(stages: seq<Stage>, k: nat, rst: int, prev: Option<Pins>, hw: Pins -> uint32)
    requires k < |stages| && NoUnknownRule(stages)
    ensures var o := Run(stages, k, rst, prev, hw);
      o.board == Unknown ==>
        EndsWith(o.events, [ReadPanelId(hw(o.pins)), ReleaseBus, GpioLo(o.pins.dc), GpioLo(o.pins.cs)])
    decreases |stages| - k
  {
    var p := StagePins(stages[k], rst);
    var c := Classify(stages[k].rules, hw(p));
    if c.Some? {
      assert forall i :: 0 <= i < |stages[k].rules| ==> stages[k].rules[i].board != Unknown;
      ClassifyKnown(stages[k].rules, hw(p));
      EndsAfterHit(stages, k, rst, prev, hw, c.value);
    } else if k + 1 == |stages| {
      EndsAfterExhausted(stages, k, rst, prev, hw);
    } else {
      RunEndsUnmatched(stages, k + 1, p.rst, Some(p), hw);
      var rest := Run(stages, k + 1, p.rst, Some(p), hw);
      if rest.board == Unknown {
        EndsAfterMiss(stages, k, rst, prev, hw,
          [ReadPanelId(hw(rest.pins)), ReleaseBus, GpioLo(rest.pins.dc), GpioLo(rest.pins.cs)]);
      } else {
        RunMiss(stages, k, rst, prev, hw);
      }
    }
  }

  /** The table of `LGFX::init` has no rule that names `Unknown`. */
  lemma StagesNoUnknownRule()
    ensures NoUnknownRule(Stages)
  {
  }

  /** First stage of the table, written out: cs 5, dc 27, bus 19/-1/18. */
  lemma StepOne(hw: Pins -> uint32, rst: int)
    ensures
      var p1 := Pins(5, 27, rst, 19, -1, 18);
      var id1 := hw(p1);
      var stage1 := [ReleaseBus, SetPanel(DummyPanel), InitBus(p1), Delay(10), ReadPanelId(id1)];
      var o2 := Run(Stages, 1, rst, Some(p1), hw);
      Run(Stages, 0, rst, None, hw) ==
        if id1 & 0xFF == 0x85
        then Outcome(TTGO_TWatch, stage1 + [SetPanel(BoardPanel(TTGO_TWatch)), InitPanel], p1)
        else Outcome(o2.board, stage1 + o2.events, o2.pins)
  {
    var p1 := Pins(5, 27, rst, 19, -1, 18);
    var id1 := hw(p1);
    StageOneIs(rst, id1);
    assert Attempt(Stages[0], None, p1, id1)
      == [ReleaseBus, SetPanel(DummyPanel), InitBus(p1), Delay(10), ReadPanelId(id1)] by {
      assert BringUp(None, p1) == [SetPanel(DummyPanel), InitBus(p1), Delay(10)];
    }
    if id1 & 0xFF == 0x85 {
      RunHit(Stages, 0, rst, None, hw, TTGO_TWatch);
    } else {
      RunMiss(Stages, 0, rst, None, hw);
    }
  }

  /** Second stage of the table, written out: cs 14, dc 27, bus 23/19/18. */
  lemma StepTwo(hw: Pins -> uint32, rst: int)
    ensures
      var p1 := Pins(5, 27, rst, 19, -1, 18);
      var p2 := Pins(14, 27, rst, 23, 19, 18);
      var id2 := hw(p2);
      var stage2 := [ReleaseBus, GpioLo(27), GpioLo(5),
                     SetPanel(DummyPanel), InitBus(p2), Delay(10), ReadPanelId(id2)];
      var o3 := Run(Stages, 2, rst, Some(p2), hw);
      Run(Stages, 1, rst, Some(p1), hw) ==
        if id2 != 0 && id2 != 0xFFFF_FFFF
        then Outcome(M5Stack, stage2 + [SetPanel(BoardPanel(M5Stack)), InitPanel], p2)
        else Outcome(o3.board, stage2 + o3.events, o3.pins)
  {
    var p1 := Pins(5, 27, rst, 19, -1, 18);
    var p2 := Pins(14, 27, rst, 23, 19, 18);
    var id2 := hw(p2);
    StageTwoIs(rst, id2);
    assert Attempt(Stages[1], Some(p1), p2, id2)
      == [ReleaseBus, GpioLo(27), GpioLo(5), SetPanel(DummyPanel), InitBus(p2), Delay(10), ReadPanelId(id2)] by {
      assert BringUp(None, p2) == [SetPanel(DummyPanel), InitBus(p2), Delay(10)];
    }
    if id2 != 0 && id2 != 0xFFFF_FFFF {
      RunHit(Stages, 1, rst, Some(p1), hw, M5Stack);
    } else {
      RunMiss(Stages, 1, rst, Some(p1), hw);
    }
  }

  lemma StageThreeRules(id: uint32)
    ensures Classify(Stages[2].rules, id) ==
      if id & 0xFF == 0x85 then Some(M5StickCPlus) else if id & 0xFF == 0x7C then Some(M5StickC) else None
  {
    var rules := Stages[2].rules;
    assert Classify(rules[1..], id) == if id & 0xFF == 0x7C then Some(M5StickC) else None by {
      assert rules[1..][1..] == [];
    }
  }

  /** Third stage of the table, written out: cs 5, dc 23, reset 18 pulsed,
      bus 15/14/13, then the 0x85 test before the 0x7C test. */
  lemma StepThree(hw: Pins -> uint32, rst: int)
    ensures
      var p2 := Pins(14, 27, rst, 23, 19, 18);
      var p3 := Pins(5, 23, 18, 15, 14, 13);
      var id3 := hw(p3);
      var stage3 := [ReleaseBus, GpioLo(27), GpioLo(14),
                     SetPanel(DummyPanel), InitBus(p3),
                     PinModeOutput(18), GpioLo(18), Delay(1), GpioHi(18), Delay(10),
                     ReadPanelId(id3)];
      Run(Stages, 2, rst, Some(p2), hw) ==
        if id3 & 0xFF == 0x85
        then Outcome(M5StickCPlus, stage3 + [SetPanel(BoardPanel(M5StickCPlus)), InitPanel], p3)
        else if id3 & 0xFF == 0x7C
        then Outcome(M5StickC, stage3 + [SetPanel(BoardPanel(M5StickC)), InitPanel], p3)
        else Outcome(Unknown, stage3 + [ReleaseBus, GpioLo(23), GpioLo(5)], p3)
  {
    var p2 := Pins(14, 27, rst, 23, 19, 18);
    var p3 := Pins(5, 23, 18, 15, 14, 13);
    var id3 := hw(p3);
    StageThreeIs(rst, id3);
    assert Attempt(Stages[2], Some(p2), p3, id3)
      == [ReleaseBus, GpioLo(27), GpioLo(14), SetPanel(DummyPanel), InitBus(p3),
          PinModeOutput(18), GpioLo(18), Delay(1), GpioHi(18), Delay(10), ReadPanelId(id3)] by {
      assert BringUp(Some(18), p3) == [SetPanel(DummyPanel), InitBus(p3),
        PinModeOutput(18), GpioLo(18), Delay(1), GpioHi(18), Delay(10)];
    }
    assert Quiesce(Some(p3)) == [ReleaseBus, GpioLo(23), GpioLo(5)];
    if id3 & 0xFF == 0x85 {
      RunHit(Stages, 2, rst, Some(p2), hw, M5StickCPlus);
    } else if id3 & 0xFF == 0x7C {
      RunHit(Stages, 2, rst, Some(p2), hw, M5StickC);
    } else {
      RunExhausted(Stages, 2, rst, Some(p2), hw);
    }
  }

  /** The board `LGFX::init` settles on, as a decision on the three IDs read
      under the three pin assignments: a low byte 0x85 means TWatch at the
      first stage but M5StickCPlus at the third, any ID that is neither 0 nor
      all ones means M5Stack at the second, and 0x7C means M5StickC at the
      third, after the 0x85 test. */
  lemma DetectBoard(hw: Pins -> uint32, rst: int)
    ensures
      var id1 := hw(Pins(5, 27, rst, 19, -1, 18));
      var id2 := hw(Pins(14, 27, rst, 23, 19, 18));
      var id3 := hw(Pins(5, 23, 18, 15, 14, 13));
      Detect(hw, rst).board ==
        if id1 & 0xFF == 0x85 then TTGO_TWatch
        else if id2 != 0 && id2 != 0xFFFF_FFFF then M5Stack
        else if id3 & 0xFF == 0x85 then M5StickCPlus
        else if id3 & 0xFF == 0x7C then M5StickC
        else Unknown
  {
    StepOne(hw, rst);
    StepTwo(hw, rst);
    StepThree(hw, rst);
  }

  /** The complete action sequence of `LGFX::init`, with the source's pin
      numbers written out, and the pins it leaves set: each stage after the
      first begins by releasing the bus and driving the previous stage's
      data/command line and then its chip-select line low; the matching
      stage installs its panel and nothing follows; when every stage fails,
      lines 23 and 5 are the last driven low. */
  lemma DetectTrace(hw: Pins -> uint32, rst: int)
    ensures
      var p1 := Pins(5, 27, rst, 19, -1, 18);
      var p2 := Pins(14, 27, rst, 23, 19, 18);
      var p3 := Pins(5, 23, 18, 15, 14, 13);
      var id1, id2, id3 := hw(p1), hw(p2), hw(p3);
      var stage1 := [ReleaseBus, SetPanel(DummyPanel), InitBus(p1), Delay(10), ReadPanelId(id1)];
      var stage2 := [ReleaseBus, GpioLo(27), GpioLo(5),
                     SetPanel(DummyPanel), InitBus(p2), Delay(10), ReadPanelId(id2)];
      var stage3 := [ReleaseBus, GpioLo(27), GpioLo(14),
                     SetPanel(DummyPanel), InitBus(p3),
                     PinModeOutput(18), GpioLo(18), Delay(1), GpioHi(18), Delay(10),
                     ReadPanelId(id3)];
      var o := Detect(hw, rst);
      var install := [SetPanel(BoardPanel(o.board)), InitPanel];
      if id1 & 0xFF == 0x85 then o.events == stage1 + install && o.pins == p1
      else if id2 != 0 && id2 != 0xFFFF_FFFF then o.events == stage1 + (stage2 + install) && o.pins == p2
      else if o.board == Unknown then
        o.events == stage1 + (stage2 + (stage3 + [ReleaseBus, GpioLo(23), GpioLo(5)])) && o.pins == p3
      else o.events == stage1 + (stage2 + (stage3 + install)) && o.pins == p3
  {
    StepOne(hw, rst);
    StepTwo(hw, rst);
    StepThree(hw, rst);
  }

  /** `LGFX::init` reads the panel ID at least once and at most three times. */
  lemma DetectReadsAtMostThree(hw: Pins -> uint32, rst: int)
    ensures 1 <= |Reads(Detect(hw, rst).events)| <= 3
  {
    RunReads(Stages, 0, rst, None, hw);
  }

  /** Only the third stage pulses the reset line: pin 18 is driven high
      exactly when the first two stages found nothing. */
  lemma ResetPulseOnlyAtStageThree(hw: Pins -> uint32, rst: int)
    ensures var o := Detect(hw, rst);
      GpioHi(18) in o.events <==> o.board in {Unknown, M5StickC, M5StickCPlus}
  {
    DetectBoard(hw, rst);
    DetectTrace(hw, rst);
  }
}
