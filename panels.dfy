/** The board panels the autodetection installs: the wiring each panel class
    sets up, the M5StickC's replacement for one of its controller's init
    lists, and the M5Stack panel, which reads its panel type from a strap and
    then builds its own display-inversion commands. */
module Panels {
  import opened Hardware
  import opened Commands
  import opened Probe

  /** Wiring a panel class sets in its constructor; None where it keeps the
      value of its base class. */
  datatype Wiring = Wiring(cs: int, dc: int, rst: Option<int>, bl: Option<int>)

  /** The wiring of the panel installed for each board: every known board
      has a panel, with distinct chip-select and data/command lines. */
  function BoardWiring(b: Board): (r: Option<Wiring>)
    ensures r.None? <==> b == Unknown
    ensures r.Some? ==> r.value.cs != r.value.dc
  {
    match b
    case Unknown => None
    case M5StickC => Some(Wiring(5, 23, Some(18), None))
    case M5StickCPlus => Some(Wiring(5, 23, Some(18), None))
    case M5Stack => Some(Wiring(14, 27, Some(33), Some(32)))
    case TTGO_TWatch => Some(Wiring(5, 27, None, Some(12)))
  }

  /** The panel `LGFX::init` installs is wired like the probe stage that
      found it: the same chip-select and data/command lines, and for the two
      StickC boards, whose stage sets a reset line, the same reset line. */
  lemma InstalledPanelWiring(hw: Pins -> uint32, rst: int)
    ensures var o := Detect(hw, rst);
      o.board != Unknown ==>
        var w := BoardWiring(o.board).value;
        && w.cs == o.pins.cs && w.dc == o.pins.dc
        && (o.board == M5StickC || o.board == M5StickCPlus ==> w.rst == Some(o.pins.rst))
  {
    DetectBoard(hw, rst);
    DetectTrace(hw, rst);
  }

  /** Where `getInitCommands` takes an init list from: the controller base
      class's list of that number, or the panel's own bytes. */
  datatype InitList = BaseInitList(listno: byte) | OwnInitList(bytes: seq<byte>)

  /** The M5StickC's list 2: gamma curve 4 and nothing else. */
  const StickCGammaList: seq<byte> := [GAMMASET, 1, 0x08, END, END]

  /** `Panel_M5StickC::getInitCommands`: list 2 is replaced by a single
      gamma-set command; every other list is the ST7735S's own. */
  function StickCInitCommands(listno: byte): (r: InitList)
    ensures r.OwnInitList? <==> listno == 2
    ensures r.BaseInitList? ==> r.listno == listno
    ensures r.OwnInitList? ==> Decode(r.bytes) == Some([Command(GAMMASET, [0x08])])
  {
    if listno == 2 then
      StickCGammaListReads();
      OwnInitList(StickCGammaList)
    else BaseInitList(listno)
  }

  lemma StickCGammaListReads()
    ensures Decode(StickCGammaList) == Some([Command(GAMMASET, [0x08])])
  {
    var cmds := [Command(GAMMASET, [0x08])];
    assert Encode(cmds) == StickCGammaList by {
      assert Entries(cmds[1..]) == [];
      assert Entries(cmds) == [GAMMASET, 1, 0x08];
    }
    DecodeEncode(cmds);
  }

  /** The commands an IPS M5Stack panel sends to change inversion: the
      inversion command twice, then gamma curve 2. On an IPS panel the
      command is INVOFF when inversion is requested and INVON when it is
      not. */
  function IpsInvertCommands(inv: bool): (cmds: seq<Command>)
    ensures |cmds| == 3 && cmds[1] == cmds[0] && cmds[0].params == []
    ensures cmds[0].op == INVOFF <==> inv
    ensures cmds[0].op == INVON <==> !inv
    ensures cmds[2] == Command(GAMMASET, [0x02])
    ensures Encodable(cmds)
  {
    var op := if inv then INVOFF else INVON;
    [Command(op, []), Command(op, []), Command(GAMMASET, [0x02])]
  }

  /** The nine bytes of the IPS inversion commands as a list. */
  lemma IpsInvertBytes(inv: bool)
    ensures var op := if inv then INVOFF else INVON;
      Encode(IpsInvertCommands(inv)) == [op, 0, op, 0, GAMMASET, 1, 0x02, END, END]
  {
    var cmds := IpsInvertCommands(inv);
    var op := cmds[0].op;
    assert Entries(cmds[1..][1..][1..]) == [];
    assert Entries(cmds[1..][1..]) == [GAMMASET, 1, 0x02];
    assert Entries(cmds[1..]) == [op, 0, GAMMASET, 1, 0x02];
  }

  /** A buffer that starts with the IPS inversion bytes reads as exactly
      the IPS inversion commands, whatever follows them. */
  lemma IpsInvertBufferReads(inv: bool, bytes: seq<byte>)
    requires |bytes| >= 9 && bytes[..9] == Encode(IpsInvertCommands(inv))
    ensures Decode(bytes) == Some(IpsInvertCommands(inv))
  {
    DecodeEncode(IpsInvertCommands(inv));
    DecodeIgnoresTail(bytes[..9], bytes[9..]);
    assert bytes[..9] + bytes[9..] == bytes;
  }

  /** What `getInvertDisplayCommands` hands back: the base class's list for
      the requested state, or the caller's buffer, now filled. */
  datatype InvertList = BaseInvertList(invert: bool) | InBuffer(buf: array<byte>)

  /** `Panel_M5Stack`: an ILI9342 panel whose reset line doubles as a strap
      that tells an IPS panel from a TN one. */
  class M5StackPanel {
    /** The strap line. */
    const gpioRst: int
    var isIPS: bool
    var invert: bool
    var trace: seq<Event>

    /** A panel not yet initialised; `baseInvert` is the inversion flag it
        inherits from its base class. */
    constructor (baseInvert: bool)
      ensures gpioRst == 33 && !isIPS && invert == baseInvert && trace == []
    {
      gpioRst := 33;
      isIPS := false;
      invert := baseInvert;
      trace := [];
    }

    /** `Panel_M5Stack::init`: drive the strap line low, turn it into an
        input, wait, read it as the panel type (`strap` is the level read),
        then run the ILI9342 initialisation. */
    method Init(strap: bool)
      modifies this`isIPS, this`trace
      ensures isIPS == strap
      ensures trace == old(trace) + [GpioLo(gpioRst), PinModeInput(gpioRst), Delay(1),
                                     GpioIn(gpioRst, strap), BasePanelInit]
    {
      trace := trace + [GpioLo(gpioRst), PinModeInput(gpioRst), Delay(1)];
      trace := trace + [GpioIn(gpioRst, strap)];
      isIPS := strap;
      trace := trace + [BasePanelInit];
    }

    /** `Panel_M5Stack::getInvertDisplayCommands`. A TN panel defers to its
        base class. An IPS panel records the requested state and fills the
        first nine bytes of `buf` with its own inversion commands. */
    method GetInvertDisplayCommands(buf: array<byte>, inv: bool) returns (r: InvertList)
      requires isIPS ==> buf.Length >= 9
      modifies this`invert, buf
      ensures isIPS ==> r == InBuffer(buf) && invert == inv
      ensures isIPS ==> buf[..9] == Encode(IpsInvertCommands(inv)) && buf[9..] == old(buf[9..])
      ensures !isIPS ==> r == BaseInvertList(inv) && invert == old(invert) && buf[..] == old(buf[..])
    {
      if !isIPS {
        return BaseInvertList(inv);
      }
      invert := inv;
      var op := if inv then INVOFF else INVON;
      buf[0] := op;
      buf[2] := buf[0];
      buf[1] := 0;
      buf[3] := buf[1];
      buf[4] := GAMMASET;
      buf[5] := 1;
      buf[6] := 0x02;
      buf[7] := END;
      buf[8] := buf[7];
      assert buf[..9] == [op, 0, op, 0, GAMMASET, 1, 0x02, END, END];
      IpsInvertBytes(inv);
      r := InBuffer(buf);
    }
  }
}
