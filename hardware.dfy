/** Vocabulary shared by the autodetection model: the board identities, the
    pin assignment a probe runs under, and the hardware actions recorded in a
    trace. The bus driver, the GPIO primitives and the panel drivers are
    outside the model; each call into them becomes one `Event`. */
module Hardware {

  datatype Option<T> = None | Some(value: T)

  /** The 32-bit panel ID returned by `readPanelID`. */
  type uint32 = bv32

  /** One byte of a command list. */
  type byte = bv8

  /** `LGFX::board_t`. */
  datatype Board = Unknown | M5Stack | M5StickC | M5StickCPlus | TTGO_TWatch

  /** The panel currently handed to `setPanel`. */
  datatype Panel = NoPanel | DummyPanel | BoardPanel(board: Board)

  /** The pins that are in force when the bus is brought up: the probe
      panel's `spi_cs`, `spi_dc`, `gpio_rst` and the bus's own
      `_spi_mosi`, `_spi_miso`, `_spi_sclk` (-1 means "no pin"). */
  datatype Pins = Pins(cs: int, dc: int, rst: int, mosi: int, miso: int, sclk: int)

  /** One call into the hardware layer, in the order it happens. */
  datatype Event =
    | ReleaseBus
    | InitBus(pins: Pins)
    | SetPanel(panel: Panel)
    | InitPanel       // the device's `initPanel()`
    | BasePanelInit   // a panel's inherited controller initialisation
    | GpioLo(pin: int)
    | GpioHi(pin: int)
    | PinModeOutput(pin: int)
    | PinModeInput(pin: int)
    | GpioIn(pin: int, level: bool)
    | Delay(ms: nat)
    | ReadPanelId(id: uint32)

  /** Concatenation regroups. */
  lemma Regroup<T>(a: seq<T>, b: seq<T>, c: seq<T>)
    ensures (a + b) + c == a + (b + c)
  {
  }

  /** `s` ends with `t`. */
  ghost predicate EndsWith<T>(s: seq<T>, t: seq<T>)
  {
    |t| <= |s| && s[|s| - |t|..] == t
  }

  lemma EndsWithSuffix<T>(a: seq<T>, t: seq<T>)
    ensures EndsWith(a + t, t)
  {
    assert (a + t)[|a|..] == t;
  }

  lemma EndsWithAppend<T>(a: seq<T>, b: seq<T>, t: seq<T>)
    requires EndsWith(b, t)
    ensures EndsWith(a + b, t)
  {
    assert (a + b)[|a| + |b| - |t|..] == b[|b| - |t|..];
  }
}
