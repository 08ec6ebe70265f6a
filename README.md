# Software lists, PPS-4/1 handhelds and the Alto II keyboard

This project models three pieces of the MAME emulator and proves properties
about them.

- **Software lists** (`Softlist`, `softlist.dfy`). It covers the data model of
  a software list:
  - a feature is an immutable name/value pair;
  - a software part owns its features and ROM entries and points back to its
    software entry;
  - a software entry owns its parts, its shared features and its other-info
    features;
  - the list device holds the entries.

  The list device loads its content lazily. `description()`, `valid()`,
  `errors_string()` and `get_info()` parse the list file only while the
  `parsed` flag is clear. A ghost counter `parses` shows that the file is
  parsed at most once, given that a parse always sets the flag. The getters `list_name()`, `list_type()` and
  `filter()` are plain reads of the configuration fields `listName`,
  `listType` and `filter`. No parse method can change those fields, since
  they are outside its `modifies` clause.
- **Rockwell PPS-4/1 handhelds** (`HhPps41`, `hh_pps41.dfy`). The class
  `Handheld` holds the driver's output-pin latches: `m_inp_mux`, `m_grid`,
  `m_plate`, `m_d` and `m_r`. It also holds the multiplexed input read
  `read_inputs` and each game's D/R port handlers. A handler returns what it
  would send to the display, the speaker or a CPU input line. For example,
  `matrix(grid, segments)` becomes a `Frame` and a line state becomes a
  `Line`.
- **Xerox Alto II keyboard** (`Alto2Keyboard`, `alto2_kbd.dfy`). It covers the
  four-word key matrix and the one-shot boot-key mask. The mask ANDs the
  first read of matrix word 0 after `init_kbd` and then disarms itself. The
  class `Keyboard` keeps the matrix as an `array`. The value `Kbd` and the
  function `ReadAddress` specify one read, and `Replay` specifies a sequence
  of reads.

Fixed-width integers are bit-vectors of the driver's widths. A `~` on an 8-
or 16-bit operand acts, as in C, on the value promoted to `int`, so it is
written `!(x as bv32)`.

The software-list parser is not part of this model. The list's `source`
stands for what a parse of its file yields: the description, the error text
and the accepted entries. Building the objects from it follows the header's
own description: each part carries its entry's shared features in its
feature list. The model promises which features a part holds, not their
order.

## Model

| member | source | states |
|---|---|---|
| Softlist.SupportedCode | src/emu/softlist.h:22-24 | a status's code is 0, 1 or 2: 0 exactly for YES, 2 exactly for NO |
| Softlist.SupportedFromCode | src/emu/softlist.h:22-24 | a code names a status exactly when it is at most 2 |
| Softlist.SupportedCodesRoundTrip | src/emu/softlist.h:22-24 | decoding a status's code gives the status back; every defined code is some status's code |
| Softlist.SoftwarePart.constructor | src/emu/softlist.h:118 | a part holds the entry, name, interface, features and ROM entries it is made with |
| Softlist.SoftwarePart.RomData | src/emu/softlist.h:126 | `romdata(index)`, index 0 by default, yields an entry exactly when `index` is in range, and then it is the `index`-th one |
| Softlist.SoftwareInfo.constructor | src/emu/softlist.h:156 | a new entry belongs to its list, carries its declared fields and has no parts yet |
| Softlist.SoftwareInfo.SupportedValue | src/emu/softlist.h:168 | `supported()` is the code of the entry's status |
| Softlist.SoftwareInfo.FirstPart | src/emu/softlist.h:169-170 | `first_part()` is none exactly when there are no parts, else the head of the part list |
| Softlist.NewInfo | src/emu/softlist.h:186-188 | a loaded entry has one part per declared part, each pointing back to the entry and holding exactly its own features plus the entry's shared ones |
| Softlist.SharedFeaturesInherited | src/emu/softlist.h:186-188 | every shared feature is in each part's feature list; an other-info feature that is not also shared or declared by the part is not |
| Softlist.SoftwareList.constructor | src/emu/softlist.h:202 | a new list, together with the `static_set_type` call that `MCFG_SOFTWARE_LIST_ADD` makes right after creating it (lines 47-49), has its name and type, no filter, nothing loaded and nothing parsed |
| Softlist.SoftwareList.SetType | src/emu/softlist.h:205 | sets the list name and type, leaving the load state as it was |
| Softlist.SoftwareList.SetFilter | src/emu/softlist.h:206 | sets the filter, leaving the load state as it was |
| Softlist.SoftwareList.Parse | src/emu/softlist.h:234 | from unparsed to parsed: description, errors and entries become exactly what the file yields; the parse count goes up by one |
| Softlist.SoftwareList.EnsureParsed | src/emu/softlist.h:215-218 | after the guard the list is parsed and has been parsed exactly once; if it was already parsed nothing changed |
| Softlist.SoftwareList.Description | src/emu/softlist.h:215 | returns the file's description; parses only if not yet parsed, else changes nothing |
| Softlist.SoftwareList.IsValid | src/emu/softlist.h:216 | true exactly when the loaded entry list (equally, the file's entry list) is non-empty; parses only if not yet parsed |
| Softlist.SoftwareList.ErrorsString | src/emu/softlist.h:217 | returns the parse's error text; parses only if not yet parsed |
| Softlist.SoftwareList.GetInfo | src/emu/softlist.h:218 | returns the loaded entries, one per declared entry and each built from it; parses only if not yet parsed |
| Softlist.RunGetters | src/emu/softlist.h:215-218 | any sequence of calls to the four content getters parses the file at most once (exactly once when the run is non-empty and the list was unloaded), changes nothing on a loaded list, and there is one result per `get_info()` in it, each the entries the list holds afterwards |
| HhPps41.SelectedRowsMask | src/mame/drivers/hh_pps41.cpp:93-104 | a set of bits is clear in the OR of the selected rows exactly when it is clear in every selected row's low byte |
| HhPps41.NoRowSelectedReadsNothing | src/mame/drivers/hh_pps41.cpp:93-104 | with no row below `columns` selected the OR is 0, so `read_inputs` returns 0xFF |
| HhPps41.HighMuxBitsIgnored | src/mame/drivers/hh_pps41.cpp:98-100 | two mux values that agree on bits below `columns` read the same value |
| HhPps41.Handheld.ReadInputs | src/mame/drivers/hh_pps41.cpp:93-104 | the result is the complement of the OR of the low bytes of the selected rows `i < columns`, and 0xFF for `columns <= 0` |
| HhPps41.Handheld.constructor | src/mame/drivers/hh_pps41.cpp:51-57 | latches start at mux 0, grid 0, plate 0, D 0 and R 0xFF |
| HhPps41.ResetButtonLine | src/mame/drivers/hh_pps41.cpp:106-110 | the reset line is asserted exactly when the new input value is non-zero |
| HhPps41.Handheld.FtriWriteD | src/mame/drivers/hh_pps41.cpp:158-166 | D latch takes the data; speaker level is D bit 9 |
| HhPps41.Handheld.FtriWriteR | src/mame/drivers/hh_pps41.cpp:168-173 | R latch takes the data, nothing else changes |
| HhPps41.MuxFrame | src/mame/drivers/hh_pps41.cpp:261-264 | grid is the 16-bit mux latch, with no higher bits; low eight segment bits are the complemented R latch |
| HhPps41.Handheld.MastmindWriteD | src/mame/drivers/hh_pps41.cpp:266-276 | mux takes the data, the display gets `MuxFrame`; the beeper, only when fitted, gets D bit 8 |
| HhPps41.Handheld.MastmindWriteR | src/mame/drivers/hh_pps41.cpp:278-283 | R takes the data, the display gets `MuxFrame` |
| HhPps41.Handheld.MastmindReadP | src/mame/drivers/hh_pps41.cpp:285-289 | reads the first four input rows |
| HhPps41.MemoquizInterrupts | src/mame/drivers/hh_pps41.cpp:408-414 | line 0 is asserted exactly when switch bit 0 is clear, line 1 exactly when switch bit 1 is set |
| HhPps41.MemoquizFrame | src/mame/drivers/hh_pps41.cpp:416-419 | segments 0-6 are the complemented R latch, segment 7 is mux bit 5, no higher segment is lit; grid is the mux |
| HhPps41.Handheld.MemoquizWriteD | src/mame/drivers/hh_pps41.cpp:421-429 | mux takes the data, the display gets `MemoquizFrame` |
| HhPps41.Handheld.MemoquizWriteR | src/mame/drivers/hh_pps41.cpp:431-436 | R takes the data, the display gets `MemoquizFrame` |
| HhPps41.Handheld.MemoquizReadP | src/mame/drivers/hh_pps41.cpp:438-442 | reads the first four input rows |
| HhPps41.Handheld.MwcfootbMainWriteD | src/mame/drivers/hh_pps41.cpp:553-562 | grid and mux both take the data; the sub CPU's INT0 is asserted exactly when D bit 8 is set |
| HhPps41.MainReadD | src/mame/drivers/hh_pps41.cpp:564-568 | only bit 9 can be set, and it is the sub CPU's D bit 9 |
| HhPps41.MainPlate | src/mame/drivers/hh_pps41.cpp:570-578 | plate bits 0-6 become the complemented R bits 0-6, bit 7 is cleared, bits 8-19 are kept, bits 20-31 are zero |
| HhPps41.Handheld.MwcfootbMainWriteR | src/mame/drivers/hh_pps41.cpp:570-578 | plate becomes `MainPlate` of the old plate; the speaker is 1 exactly when R bit 7 is clear |
| HhPps41.Handheld.MwcfootbMainReadP | src/mame/drivers/hh_pps41.cpp:580-584 | reads the first three input rows |
| HhPps41.SubPlateD | src/mame/drivers/hh_pps41.cpp:588-596 | plate bits 16-19 become D bits 0-3, bits 0-15 are kept, bits 20-31 are zero |
| HhPps41.Handheld.MwcfootbSubWriteD | src/mame/drivers/hh_pps41.cpp:588-596 | plate becomes `SubPlateD` of the old plate; the main CPU's INT0 is asserted exactly when D bit 9 is set |
| HhPps41.SubPlateR | src/mame/drivers/hh_pps41.cpp:598-603 | plate bits 8-15 become the complemented R byte, bits 0-7 and 16-19 are kept, bits 20-31 are zero |
| HhPps41.Handheld.MwcfootbSubWriteR | src/mame/drivers/hh_pps41.cpp:598-603 | plate becomes `SubPlateR` of the old plate |
| HhPps41.PlateWritersCommute | src/mame/drivers/hh_pps41.cpp:570-603 | the three plate writers own disjoint bits, so any two of them commute |
| HhPps41.PlateCoveredByWriters | src/mame/drivers/hh_pps41.cpp:570-603 | once all three writers have run, the plate no longer depends on its earlier value |
| HhPps41.PlayersSwitchLine | src/mame/drivers/hh_pps41.cpp:737-741 | INT0 is asserted exactly when bit 0 of the players switch is set (also Q&A, lines 888-892) |
| HhPps41.ScrabsenFrame | src/mame/drivers/hh_pps41.cpp:743-746 | grid is a value 0..3 whose two bits are mux bits 6 and 7; segments are the complemented R latch |
| HhPps41.Handheld.ScrabsenWriteD | src/mame/drivers/hh_pps41.cpp:748-757 | mux takes the data, the display gets `ScrabsenFrame`, speaker is D bit 8 |
| HhPps41.Handheld.ScrabsenWriteR | src/mame/drivers/hh_pps41.cpp:759-764 | R takes the data, the display gets `ScrabsenFrame` |
| HhPps41.Handheld.ScrabsenReadP | src/mame/drivers/hh_pps41.cpp:766-770 | reads the first five input rows |
| HhPps41.RdqaSpeakerLevel | src/mame/drivers/hh_pps41.cpp:906-907 | the level is 0..3, its bits are D bits 8 and 9 |
| HhPps41.Handheld.RdqaWriteD | src/mame/drivers/hh_pps41.cpp:899-908 | mux takes the data, the display gets `MuxFrame`, speaker gets `RdqaSpeakerLevel` |
| HhPps41.Handheld.RdqaWriteR | src/mame/drivers/hh_pps41.cpp:910-915 | R takes the data, the display gets `MuxFrame` |
| HhPps41.Handheld.RdqaReadP | src/mame/drivers/hh_pps41.cpp:917-921 | reads the first four input rows |
| Alto2Keyboard.Row | src/devices/cpu/alto2/a2kbd.cpp:19-20 | the addressed matrix word is one of the four |
| Alto2Keyboard.ReadAddress | src/devices/cpu/alto2/a2kbd.cpp:17-32 | the raw callback word is stored in the addressed row and no other; a word-0 read while the mask is armed returns `data & bootkey` and disarms the mask; any other read returns the raw word and leaves the mask |
| Alto2Keyboard.FirstRowZero | src/devices/cpu/alto2/a2kbd.cpp:24 | index of the first word-0 read: every earlier read addresses another row |
| Alto2Keyboard.AllUnmaskedWhenDisarmed | src/devices/cpu/alto2/a2kbd.cpp:24-30 | with the mask disarmed every read returns its raw word and the mask stays disarmed |
| Alto2Keyboard.BootKeyMasksAtMostOnce | src/devices/cpu/alto2/a2kbd.cpp:17-37 | over any run of reads only the first word-0 read is masked, and afterwards the mask is disarmed; without a word-0 read it is still as armed |
| Alto2Keyboard.Keyboard.ReadKbdAddress | src/devices/cpu/alto2/a2kbd.cpp:17-32 | the new matrix, mask and returned word are exactly `ReadAddress` of the old state |
| Alto2Keyboard.Keyboard.InitKbd | src/devices/cpu/alto2/a2kbd.cpp:34-37 | arms the mask with the given keys; the matrix is untouched |
| Alto2Keyboard.Keyboard.ResetKbd | src/devices/cpu/alto2/a2kbd.cpp:44-50 | all four matrix words read "no key down" (octal 177777); the mask is untouched |

## Left out

- The bodies of `parse`, `find`, `find_approx_matches`, `release`, `is_compatible`, `matches_interface`, `feature`, `find_mountable_image`, `find_part`, `has_multiple_parts`, `find_by_name`, `display_matches` and the validity checks are not part of this model. They are defined outside the header. `Parse` only installs what a parse yields, as described above.
- Softlist.SoftwareList.Parse: the body of `parse()` is not in the header. The model assumes every parse ends with `m_parsed` set; "parsed at most once" rests on that assumption. The content of the list file is the constant `source`. Opening the file (`emu_file`, `filename()`) and the XML parsing are I/O.
- Softlist.NewInfo: the promise covers which features a part holds, not their order. The header does not say where the shared features go in the list.
- Softlist.SoftwarePart.constructor: it takes the part's features and ROM entries too. The C++ constructor (line 118) takes only the entry, name and interface, and the friend parser (line 113) fills in the rest afterwards. The model builds each part complete, in one step.
- Softlist.SoftwareList.constructor: the C++ constructor (line 202) takes the machine configuration, tag, owner and clock. Name and type come from the `static_set_type` call right after it (lines 47-49), so the model's constructor takes them directly. The header does not show the initial values. That the list starts unparsed (`m_parsed` false), with no filter (`m_filter` null) and with empty content is an assumption of the model.
- Softlist.SoftwareInfo.parts: the header exposes the parts only through a const getter (line 169). In the model the field is assignable, and only `NewInfo` assigns it. A caller that reassigned it would break `SoftwareList.Valid()`; the model does not prevent this.
- Softlist.SoftwareInfo.constructor: it takes the whole declared entry. The C++ constructor takes the name, parent and support text, and the parser fills in the rest afterwards. The mapping from the support text to its code is not shown, so the model stores the status directly.
- Softlist.RomEntry: `rom_entry` is defined in `romentry.h`, which is not part of this model. Its fields here are plain values.
- The string pool (`add_string`, `const_string_pool`), the `device_t` base class, `device_start` and the `MCFG_*` configuration macros are framework plumbing.
- The `simple_list` links (`next()`) are sequences here.
- The ftri1 and mwcfootb display calls go through `bitswap`, which is not modelled. Their handlers' latch updates are modelled.
- The speaker output levels of Q&A (a `double` table) are floating point. `RdqaSpeakerLevel` gives the index into that table.
- The following are not modelled: `machine_start`/`save_item` state saving, `update_int` being called on reset and post-load, the serial link between the football CPUs, logging, and the `side_effects_disabled()` checks. The checks only guard logging.
- HhPps41.Handheld.ReadInputs: it takes a port value for every row below `columns`, up to the six ports the driver has. The driver reads only the selected rows, so the values of unselected rows are ignored (`HighMuxBitsIgnored`). `update_int` and the port reads take the port value as a parameter.
- The ioport and keyboard callbacks (`m_inputs[i]->read()`, `m_kb_read_callback`) are parameters. `Alto2Keyboard.Keyboard.ReadKbdAddress` takes the callback as a total function of the row.
- `exit_kbd` has an empty body, so it is not modelled.
- Alto2Keyboard.Keyboard.constructor: the keyboard's initial state is set outside `a2kbd.cpp`. The constructor allocates the matrix and starts the mask disarmed (`NO_KEYS`). Its contract promises only the fresh four-word matrix; the initial matrix words and mask are not part of it.
- Offsets (`offs_t`) are unbounded naturals. `offset & 3` equals `offset % 4` for them.
