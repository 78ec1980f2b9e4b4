/** The `LGFX` device object with board autodetection. Its fields are the
    ones `LGFX::init` updates in place: the detected board, the panel handed
    to the bus layer, the probe panel's pin fields and the bus pins. Every
    call into the hardware layer is appended to `trace`. */
module AutoDetect {
  import opened Hardware
  import opened Signatures
  import opened Probe

  /** The bus pins of `LGFX_Config`, which the device starts from. */
  const ConfigMosi := 23
  const ConfigMiso := 19
  const ConfigSclk := 18

  class LGFX {
    var board: Board
    var panel: Panel
    // pin fields of the probe panel (`panel_dummy`)
    var dummyCs: int
    var dummyDc: int
    var dummyRst: int
    // bus pins (`_spi_mosi`, `_spi_miso`, `_spi_sclk`)
    var spiMosi: int
    var spiMiso: int
    var spiSclk: int
    var trace: seq<Event>

    /** The pins a bus bring-up would use now. */
    function BusPins(): Pins
      reads this
    {
      Pins(dummyCs, dummyDc, dummyRst, spiMosi, spiMiso, spiSclk)
    }

    /** `getBoard`: the board the last `init` settled on. */
    function GetBoard(): (b: Board)
      reads this
      ensures b == board
    {
      board
    }

    /** A device that has detected nothing yet. The probe panel starts with
        the pins it inherits from its base panel class, `baseCs`, `baseDc`
        and `baseRst`. */
    constructor (baseCs: int, baseDc: int, baseRst: int)
      ensures GetBoard() == Unknown && panel == NoPanel && trace == []
      ensures BusPins() == Pins(baseCs, baseDc, baseRst, ConfigMosi, ConfigMiso, ConfigSclk)
    {
      board := Unknown;
      panel := NoPanel;
      dummyCs, dummyDc, dummyRst := baseCs, baseDc, baseRst;
      spiMosi, spiMiso, spiSclk := ConfigMosi, ConfigMiso, ConfigSclk;
      trace := [];
    }

    /** `releaseBus()`: records the event `Hardware.ReleaseBus`, which this
        method shares its name with. */
    method ReleaseBus()
      modifies this`trace
      ensures trace == old(trace) + Quiesce(None)
    {
      trace := trace + [Hardware.ReleaseBus];
    }

    /** `releaseBus()` followed by `gpio_lo` on the probe panel's data/command
        pin and then on its chip-select pin. */
    method QuiesceProbePins()
      modifies this`trace
      ensures trace == old(trace) + Quiesce(Some(BusPins()))
    {
      // `Hardware.ReleaseBus` is the event, not the method above
      trace := trace + [Hardware.ReleaseBus, GpioLo(dummyDc), GpioLo(dummyCs)];
    }

    /** One probe: set the probe panel's pins (and its reset pin when `reset`
        is given), hand it to `setPanel`, set the bus pins, `initBus`, pulse
        the reset line when there is one, wait, and `readPanelID`. */
    method ProbeWith(cs: int, dc: int, reset: Option<int>, mosi: int, miso: int, sclk: int,
                     hw: Pins -> uint32) returns (id: uint32)
      modifies this`dummyCs, this`dummyDc, this`dummyRst, this`spiMosi, this`spiMiso, this`spiSclk,
               this`panel, this`trace
      ensures BusPins() == Pins(cs, dc, if reset.Some? then reset.value else old(dummyRst), mosi, miso, sclk)
      ensures panel == DummyPanel
      ensures id == hw(BusPins())
      ensures trace == old(trace) + (BringUp(reset, BusPins()) + [ReadPanelId(id)])
    {
      dummyCs, dummyDc := cs, dc;
      if reset.Some? {
        dummyRst := reset.value;
      }
      panel := DummyPanel;
      var events := [SetPanel(DummyPanel)];
      spiMosi, spiMiso, spiSclk := mosi, miso, sclk;
      events := events + [InitBus(BusPins())];
      if reset.Some? {
        events := events + [PinModeOutput(dummyRst), GpioLo(dummyRst), Delay(1), GpioHi(dummyRst)];
      }
      events := events + [Delay(10)];
      id := hw(BusPins());
      trace := trace + (events + [ReadPanelId(id)]);
    }

    /** Record the detected board and `setPanel` / `initPanel` its panel. */
    method Install(b: Board)
      modifies this`board, this`panel, this`trace
      ensures board == b && panel == BoardPanel(b)
      ensures trace == old(trace) + [SetPanel(BoardPanel(b)), InitPanel]
    {
      board := b;
      panel := BoardPanel(b);
      trace := trace + [SetPanel(panel), InitPanel];
    }

    /** `LGFX::init`: probe the three pin assignments in turn, reading the
        panel ID under each with `hw`, and install the panel of the first
        stage whose ID matches. The board, the actions and the pins left set
        are those of the stage table run by `Detect`. */
    method Init(hw: Pins -> uint32)
      modifies this
      ensures var o := Detect(hw, old(dummyRst));
        && GetBoard() == o.board
        && trace == old(trace) + o.events
        && BusPins() == o.pins
        && panel == if o.board == Unknown then DummyPanel else BoardPanel(o.board)
    {
      ghost var rst0, t0 := dummyRst, trace;
      board := Unknown;

      // TTGO T-Watch wiring
      ReleaseBus();
      var id := ProbeWith(5, 27, None, 19, -1, 18, hw);
      ghost var p1, t1 := BusPins(), trace;
      StageOneIs(rst0, id);
      Regroup(t0, Quiesce(None), BringUp(None, p1) + [ReadPanelId(id)]);
      Regroup(Quiesce(None), BringUp(None, p1), [ReadPanelId(id)]);
      ghost var a1 := Attempt(Stages[0], None, p1, id);
      assert t1 == t0 + a1;
      if LowByte(id) == ST7789_ID {
        Install(TTGO_TWatch);
        RunHit(Stages, 0, rst0, None, hw, TTGO_TWatch);
        Regroup(t0, a1, [SetPanel(BoardPanel(TTGO_TWatch)), InitPanel]);
        return;
      }
      RunMiss(Stages, 0, rst0, None, hw);
      ProbeFromStageTwo(hw);
      ghost var o2 := Run(Stages, 1, rst0, Some(p1), hw);
      Regroup(t0, a1, o2.events);
    }

    /** The rest of `LGFX::init` once the first stage has failed: quiesce its
        lines, probe the M5Stack wiring, and go on to the last stage if
        nothing answers. */
    method ProbeFromStageTwo(hw: Pins -> uint32)
      requires GetBoard() == Unknown
      modifies this
      ensures var o := Run(Stages, 1, old(dummyRst), Some(old(BusPins())), hw);
        && GetBoard() == o.board
        && trace == old(trace) + o.events
        && BusPins() == o.pins
        && panel == if o.board == Unknown then DummyPanel else BoardPanel(o.board)
    {
      ghost var rst0, p1, t1 := dummyRst, BusPins(), trace;
      QuiesceProbePins();
      var id := ProbeWith(14, 27, None, 23, 19, 18, hw);
      ghost var p2, t2 := BusPins(), trace;
      StageTwoIs(rst0, id);
      Regroup(t1, Quiesce(Some(p1)), BringUp(None, p2) + [ReadPanelId(id)]);
      Regroup(Quiesce(Some(p1)), BringUp(None, p2), [ReadPanelId(id)]);
      ghost var a2 := Attempt(Stages[1], Some(p1), p2, id);
      assert t2 == t1 + a2;
      if id != 0 && id != 0xFFFF_FFFF {
        Install(M5Stack);
        RunHit(Stages, 1, rst0, Some(p1), hw, M5Stack);
        Regroup(t1, a2, [SetPanel(BoardPanel(M5Stack)), InitPanel]);
        return;
      }
      RunMiss(Stages, 1, rst0, Some(p1), hw);
      ProbeFromStageThree(hw);
      ghost var o3 := Run(Stages, 2, rst0, Some(p2), hw);
      Regroup(t1, a2, o3.events);
    }

    /** The last stage of `LGFX::init`: quiesce the previous stage's lines,
        probe the M5StickC wiring with a reset pulse on pin 18, tell the
        M5StickCPlus from the M5StickC, and quiesce the lines again if
        neither answers. */
    method ProbeFromStageThree(hw: Pins -> uint32)
      requires GetBoard() == Unknown
      modifies this
      ensures var o := Run(Stages, 2, old(dummyRst), Some(old(BusPins())), hw);
        && GetBoard() == o.board
        && trace == old(trace) + o.events
        && BusPins() == o.pins
        && panel == if o.board == Unknown then DummyPanel else BoardPanel(o.board)
    {
      ghost var rst0, p2, t2 := dummyRst, BusPins(), trace;
      QuiesceProbePins();
      var id := ProbeWith(5, 23, Some(18), 15, 14, 13, hw);
      ghost var p3, t3 := BusPins(), trace;
      StageThreeIs(rst0, id);
      Regroup(t2, Quiesce(Some(p2)), BringUp(Some(18), p3) + [ReadPanelId(id)]);
      Regroup(Quiesce(Some(p2)), BringUp(Some(18), p3), [ReadPanelId(id)]);
      ghost var a3 := Attempt(Stages[2], Some(p2), p3, id);
      assert t3 == t2 + a3;
      if LowByte(id) == ST7789_ID {
        Install(M5StickCPlus);
        RunHit(Stages, 2, rst0, Some(p2), hw, M5StickCPlus);
        Regroup(t2, a3, [SetPanel(BoardPanel(M5StickCPlus)), InitPanel]);
        return;
      }
      if LowByte(id) == ST7735_ID {
        Install(M5StickC);
        RunHit(Stages, 2, rst0, Some(p2), hw, M5StickC);
        Regroup(t2, a3, [SetPanel(BoardPanel(M5StickC)), InitPanel]);
        return;
      }
      RunExhausted(Stages, 2, rst0, Some(p2), hw);

      // nothing answered: quiesce the last stage's lines
      QuiesceProbePins();
      Regroup(t2, a3, Quiesce(Some(p3)));
    }
  }
}
