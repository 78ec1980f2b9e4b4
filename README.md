# LovyanGFX board autodetection, modelled in Dafny

LovyanGFX's autodetecting configuration (`LGFX_Config_AutoDetect.hpp`) drives
one SPI display on several ESP32 boards. `LGFX::init` cannot know in advance
which board it runs on. It tries three pin assignments in turn. Under each it
installs a probe panel, brings the bus up and reads the panel controller's ID.
The first assignment whose ID looks right decides the board (TTGO T-Watch,
M5Stack, M5StickCPlus or M5StickC). `init` then installs that board's panel
and initialises it. If no assignment answers, the board stays unknown. The
file also defines the board panel classes: their wiring, the M5StickC's
replacement for one init list, and the M5Stack panel. The M5Stack panel reads
a strap to tell an IPS panel from a TN one, and on IPS panels it builds its
own display-inversion commands.

The project has six modules:

- `Hardware` (`hardware.dfy`) holds the shared vocabulary. It defines the
  boards, the panel handed to the bus layer, the pins in force at a bus
  bring-up, and the hardware actions. Each call into the bus driver, a GPIO
  primitive or a delay becomes one `Event` in a trace.
- `Signatures` (`signatures.dfy`) classifies an ID. A stage tests its ID
  against an ordered rule list, and the first rule that matches decides the
  board. A rule tests either the low byte (`id & 0xFF`) or the presence test
  `id != 0 && id != ~0`.
- `Probe` (`probe.dfy`) is the specification of `init`. The three stages are
  a table, `Stages`. The function `Run`/`Detect` gives, for a hardware oracle
  `hw` from pins to the ID read under them, three things: the board, the full
  action sequence, and the pins left set. The lemmas about `Detect` state the
  promises of the routine:
  - the board as a decision on the three IDs;
  - the exact trace;
  - the ID is read one to three times;
  - the reset pulse happens only in stage three;
  - what a run ends with when it finds a board and when it does not.
- `AutoDetect` (`autodetect.dfy`) holds the device class `LGFX`. Its fields
  are the ones `init` updates in place:
  - the board;
  - the installed panel;
  - the probe panel's pin fields;
  - the bus pins;
  - the trace.

  `Init` is imperative, in the source's order. Its contract says that the
  new state is exactly what `Detect` prescribes from the old state.
  `GetBoard` returns the board field.
- `Commands` (`commands.dfy`) is the command-list format the panel tables
  use: entries `op, count, params…`, closed by `0xFF 0xFF`. `Decode` reads a
  list the way the driver walks it. `Encode` writes one. `Decode` undoes
  `Encode` (`DecodeEncode`). The converse does not hold, because `Decode`
  ignores whatever follows the terminator (`DecodeIgnoresTail`).
- `Panels` (`panels.dfy`) holds the board panels. It covers each panel
  class's wiring, `Panel_M5StickC::getInitCommands`, and the `Panel_M5Stack`
  class with its strap read and its in-place fill of the inversion buffer.

## Model

| member | source | states |
|---|---|---|
| `Signatures.LowByte` | src/config/LGFX_Config_AutoDetect.hpp:165 | the family test looks only at the ID's low byte, `id mod 256` |
| `Signatures.ClassifyFirstMatch` | src/config/LGFX_Config_AutoDetect.hpp:218-236 | an ordered test list finds a board exactly when some test matches, and the board is that of the first matching test, every earlier test having failed |
| `Signatures.ClassifyKnown` | src/config/LGFX_Config_AutoDetect.hpp:151 | when no test names `board_unknown`, the board is left unknown only when no test matches |
| `Signatures.FamilySignaturesDisjoint` | src/config/LGFX_Config_AutoDetect.hpp:218-236 | the 0x85 and 0x7C low-byte tests never both hold, and an ID with low byte 0x85 also passes the presence test |
| `Probe.Attempt` | src/config/LGFX_Config_AutoDetect.hpp:153-163 | each stage's actions up to its test end with the ID read |
| `Probe.StageOneIs` | src/config/LGFX_Config_AutoDetect.hpp:153-172 | stage one uses cs 5, dc 27, bus 19/-1/18, no reset pulse, and low byte 0x85 means TTGO T-Watch |
| `Probe.StageTwoIs` | src/config/LGFX_Config_AutoDetect.hpp:178-196 | stage two uses cs 14, dc 27, bus 23/19/18, no reset pulse, and any ID other than 0 and 0xFFFFFFFF means M5Stack |
| `Probe.StageThreeIs` | src/config/LGFX_Config_AutoDetect.hpp:202-236 | stage three uses cs 5, dc 23, reset 18, bus 15/14/13; 0x85 means M5StickCPlus, and otherwise 0x7C means M5StickC |
| `Probe.StagesNoUnknownRule` | src/config/LGFX_Config_AutoDetect.hpp:165-236 | no test of `init` installs `board_unknown` |
| `Probe.RunReads` | src/config/LGFX_Config_AutoDetect.hpp:163-218 | the IDs a run reads are exactly one per stage it tries, each under that stage's pins, in order, stopping at the first match (`TriedIds`); so at least one and at most one per remaining stage |
| `Probe.TriedIdsBounds` | src/config/LGFX_Config_AutoDetect.hpp:163-218 | the list of IDs a run should read holds at least one ID and at most one per remaining stage |
| `Probe.RunEndsMatched` | src/config/LGFX_Config_AutoDetect.hpp:165-236 | when a board is found, the run ends with the ID read taken under the final pins, then `setPanel` of that board's panel and `initPanel`, and nothing after |
| `Probe.RunEndsUnmatched` | src/config/LGFX_Config_AutoDetect.hpp:238-242 | when nothing is found, the run ends after its last ID read with `releaseBus`, then `gpio_lo` of the last stage's dc, then of its cs |
| `Probe.StepOne` | src/config/LGFX_Config_AutoDetect.hpp:153-172 | the first stage's actions written out; on 0x85 it installs the T-Watch panel and stops, otherwise the rest of the run follows |
| `Probe.StepTwo` | src/config/LGFX_Config_AutoDetect.hpp:174-196 | the second stage's actions written out, starting with quiescing lines 27 and 5 |
| `Probe.StepThree` | src/config/LGFX_Config_AutoDetect.hpp:198-242 | the third stage's actions written out, with the reset pulse on pin 18 before the read, and the final quiescing of lines 23 and 5 on failure |
| `Probe.DetectBoard` | src/config/LGFX_Config_AutoDetect.hpp:148-243 | the board `init` settles on, as a decision on the IDs read under the three pin assignments |
| `Probe.DetectTrace` | src/config/LGFX_Config_AutoDetect.hpp:148-243 | the complete action sequence of `init` and the pins it leaves set, for each outcome |
| `Probe.DetectReadsAtMostThree` | src/config/LGFX_Config_AutoDetect.hpp:163-218 | `init` reads the panel ID at least once and at most three times |
| `Probe.ResetPulseOnlyAtStageThree` | src/config/LGFX_Config_AutoDetect.hpp:210-213 | pin 18 is driven high exactly when stage three runs, that is when the board is M5StickCPlus, M5StickC or unknown |
| `AutoDetect.LGFX.constructor` | src/config/LGFX_Config_AutoDetect.hpp:245 | a new device has no board (`board_unknown`) and no panel, and the bus pins of `LGFX_Config` |
| `AutoDetect.LGFX.GetBoard` | src/config/LGFX_Config_AutoDetect.hpp:146 | returns the board field |
| `AutoDetect.LGFX.ReleaseBus` | src/config/LGFX_Config_AutoDetect.hpp:153 | records `releaseBus` |
| `AutoDetect.LGFX.QuiesceProbePins` | src/config/LGFX_Config_AutoDetect.hpp:174-176 | records `releaseBus`, then `gpio_lo` of the probe panel's dc, then of its cs |
| `AutoDetect.LGFX.ProbeWith` | src/config/LGFX_Config_AutoDetect.hpp:202-216 | sets the probe pins and bus pins, installs the probe panel, brings the bus up, pulses reset when given, waits and returns the ID read under exactly those pins |
| `AutoDetect.LGFX.Install` | src/config/LGFX_Config_AutoDetect.hpp:167-170 | sets the board field, installs its panel and initialises it |
| `AutoDetect.LGFX.Init` | src/config/LGFX_Config_AutoDetect.hpp:148-243 | the board, the installed panel, the pins left set and the actions appended are exactly those of `Detect` from the old reset pin |
| `AutoDetect.LGFX.ProbeFromStageTwo` | src/config/LGFX_Config_AutoDetect.hpp:174-196 | from the end of a failed first stage, the new state is that of the table run from stage two |
| `AutoDetect.LGFX.ProbeFromStageThree` | src/config/LGFX_Config_AutoDetect.hpp:198-242 | from the end of a failed second stage, the new state is that of the table run from stage three |
| `Commands.Encode` | src/config/LGFX_Config_AutoDetect.hpp:41-44 | an encoded list is closed by the pair 0xFF 0xFF |
| `Commands.DecodeEncode` | src/config/LGFX_Config_AutoDetect.hpp:41-44 | reading an encoded list back gives the commands it was made from |
| `Commands.DecodeIgnoresTail` | src/config/LGFX_Config_AutoDetect.hpp:99-107 | bytes after the terminator do not change what a list reads as |
| `Panels.BoardWiring` | src/config/LGFX_Config_AutoDetect.hpp:30-123 | the cs, dc, rst and bl each board panel's constructor sets (hpp:30-32, 55-57, 76-81, 121-123); only an unknown board has no panel, and each panel's cs and dc differ |
| `Panels.InstalledPanelWiring` | src/config/LGFX_Config_AutoDetect.hpp:25-123 | the panel `init` installs has the cs and dc lines of the probe stage that found it, and for the StickC boards the same reset line |
| `Panels.StickCInitCommands` | src/config/LGFX_Config_AutoDetect.hpp:40-47 | list 2, and only list 2, is the panel's own list, which reads as one gamma-set command with curve 0x08; every other list number goes to the ST7735S list of that number |
| `Panels.StickCGammaListReads` | src/config/LGFX_Config_AutoDetect.hpp:41-44 | the M5StickC's list 2 reads as the single command GAMMASET 0x08 |
| `Panels.IpsInvertCommands` | src/config/LGFX_Config_AutoDetect.hpp:99-106 | the IPS inversion commands are the inversion command twice, then gamma curve 2; the command is INVOFF exactly when inversion is requested |
| `Panels.IpsInvertBytes` | src/config/LGFX_Config_AutoDetect.hpp:99-106 | those commands encode to the nine bytes `op 0 op 0 GAMMASET 1 0x02 0xFF 0xFF` |
| `Panels.IpsInvertBufferReads` | src/config/LGFX_Config_AutoDetect.hpp:96-108 | a buffer starting with those nine bytes reads as exactly those commands |
| `Panels.M5StackPanel.constructor` | src/config/LGFX_Config_AutoDetect.hpp:72-83 | a new M5Stack panel is not IPS and has its strap on line 33 |
| `Panels.M5StackPanel.Init` | src/config/LGFX_Config_AutoDetect.hpp:85-91 | drives line 33 low, makes it an input, waits, reads it, records the level as `isIPS`, then runs the ILI9342 initialisation |
| `Panels.M5StackPanel.GetInvertDisplayCommands` | src/config/LGFX_Config_AutoDetect.hpp:96-109 | an IPS panel records the requested state, fills the first nine bytes of the buffer with the IPS inversion list and returns the buffer, leaving the rest of the buffer alone; a TN panel defers to its base class and changes nothing itself |

## Left out

- The bus driver (`initBus`, `releaseBus`, `readPanelID`), `setPanel` and `initPanel` are recorded as events. Their own workings are not modelled. The ID a read returns is the oracle `hw` applied to the pins in force.
- GPIO electrical behaviour, the length of delays (only their presence and order are kept) and the `ESP_LOGI` logging are not modelled.
- The base panel classes (`Panel_ST7735S`, `Panel_ST7789`, `Panel_ILI9342`), their init tables and their inversion commands are not part of this model. `StickCInitCommands` and `GetInvertDisplayCommands` return a tag that names the base-class call instead.
- Panels.M5StackPanel.GetInvertDisplayCommands: on a TN panel it states only that this override itself changes nothing. What the ILI9342 base call does with the buffer and the inversion flag is not modelled.
- The probe panel's reset pin before stage three is inherited from `Panel_ST7735S`, which is not part of this model. It is a parameter (`baseRst`, and `rst` in `Detect`). The same goes for its cs and dc.
- The device's bus pins start as those of `LGFX_Config` (23/19/18). This assumes that the `LGFX_SPI` constructor copies them, and `LGFX_SPI` is not part of this model.
- Frequencies, panel geometry, rotation, offsets, the backlight PWM channel and the 3-wire flag are not modelled. Of the panel constructors only the pin fields are kept (`BoardWiring`).
- The command-list reader's delay flag (bit 0x80 of the count byte) is not modelled. `Decode` rejects such an entry, and `Encodable` keeps counts below 0x80.
- The byte values of INVOFF (0x20), INVON (0x21) and GAMMASET (0x26) come from the MIPI DCS command set. The header that defines them is not part of this model.
- The probe panel is a function-local `static` in `init`, so every `LGFX` object shares it and a later `init`, on the same or another device, starts from the pins the previous `init` left. The model gives each device its own probe-panel pin fields, set by its constructor, so a second device starts from its own constructor arguments instead. A second `init` on the same device does start from the pins the first one left.
- `LGFX::init` is one function in the source. The model splits it at the stage boundaries into `Init`, `ProbeFromStageTwo` and `ProbeFromStageThree`, and factors out the repeated steps (`ProbeWith`, `QuiesceProbePins`, `Install`). The order of the actions is unchanged.
