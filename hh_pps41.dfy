/** Rockwell PPS-4/1 handhelds: the output-pin latches kept by the driver,
    the per-game D/R port write handlers, the multiplexed input read, and the
    values the handlers hand to the display, speaker and interrupt lines.

    Widths follow the driver: the D port and `m_inp_mux` are 16-bit, the R
    port and `m_r` 8-bit, `m_grid` and `m_plate` 32-bit. A `~` applied to an
    8- or 16-bit operand acts, as in C, on the operand promoted to a 32-bit
    int, so it is written `!(x as bv32)`. */
module HhPps41 {
  import opened Optional

  /** The state of an interrupt or reset input line of a CPU. */
  datatype Line = Clear | Asserted

  /** The two arguments of a display `matrix(grid, segments)` call. */
  datatype Frame = Frame(grid: bv32, segments: bv32)

  // ---------------------------------------------------------------------
  // Multiplexed input rows
  // ---------------------------------------------------------------------

  /** `MUX_BITS[i]` is bit `i` of the 16-bit mux latch. */
  const MUX_BITS: seq<bv16> := [
    0x0001, 0x0002, 0x0004, 0x0008, 0x0010, 0x0020, 0x0040, 0x0080,
    0x0100, 0x0200, 0x0400, 0x0800, 0x1000, 0x2000, 0x4000, 0x8000]

  /** Input row `i` is selected when bit `i` of the mux latch is set
      (`m_inp_mux >> i & 1`). */
  predicate RowSelected(mux: bv16, i: nat)
    requires i < 16
  {
    mux & MUX_BITS[i] != 0
  }

  /** An input port value as it lands in the 8-bit accumulator. */
  function Low8(x: bv32): bv8 {
    (x & 0xFF) as bv8
  }

  /** OR of the low bytes of the rows `i < n` that `mux` selects. */
  function SelectedRows(mux: bv16, ports: seq<bv32>, n: nat): (acc: bv8)
    requires n <= |ports| && n <= 16
  {
    if n == 0 then 0
    else SelectedRows(mux, ports, n - 1) | (if RowSelected(mux, n - 1) then Low8(ports[n - 1]) else 0)
  }

  /** For any set of bits `m`: none of them is set in the OR of the selected
      rows exactly when none is set in any selected row. With `m` a single
      bit: a bit of the OR is set iff some selected row has it set. */
  lemma {:induction false} SelectedRowsMask(mux: bv16, ports: seq<bv32>, n: nat, m: bv8)
    requires n <= |ports| && n <= 16
    ensures SelectedRows(mux, ports, n) & m == 0 <==>
              forall i :: 0 <= i < n && RowSelected(mux, i) ==> Low8(ports[i]) & m == 0
  {
    if n > 0 {
      SelectedRowsMask(mux, ports, n - 1, m);
      var prev := SelectedRows(mux, ports, n - 1);
      var row: bv8 := if RowSelected(mux, n - 1) then Low8(ports[n - 1]) else 0;
      OrMask(prev, row, m);
    }
  }

  lemma OrMask(x: bv8, y: bv8, m: bv8)
    ensures (x | y) & m == 0 <==> x & m == 0 && y & m == 0
  {
  }

  /** With no row `i < n` selected, nothing is read. */
  lemma {:induction false} NoRowSelectedReadsNothing(mux: bv16, ports: seq<bv32>, n: nat)
    requires n <= |ports| && n <= 16
    requires forall i :: 0 <= i < n ==> !RowSelected(mux, i)
    ensures SelectedRows(mux, ports, n) == 0
  {
    if n > 0 {
      NoRowSelectedReadsNothing(mux, ports, n - 1);
    }
  }

  /** Mux bits at or above `n` do not affect the read. */
  lemma {:induction false} HighMuxBitsIgnored(mux: bv16, mux': bv16, ports: seq<bv32>, n: nat)
    requires n <= |ports| && n <= 16
    requires forall i :: 0 <= i < n ==> (RowSelected(mux, i) <==> RowSelected(mux', i))
    ensures SelectedRows(mux, ports, n) == SelectedRows(mux', ports, n)
  {
    if n > 0 {
      HighMuxBitsIgnored(mux, mux', ports, n - 1);
    }
  }

  // ---------------------------------------------------------------------
  // Values the handlers compute for other devices
  // ---------------------------------------------------------------------

  /** Display call `matrix(m_inp_mux, ~m_r)` (Master Mind and Q&A): the grid
      is the mux latch, the low eight segment bits are the complemented R
      latch. */
  function MuxFrame(inpMux: bv16, r: bv8): (f: Frame)
    ensures f.grid & 0xFFFF == inpMux as bv32 && f.grid & 0xFFFF_0000 == 0
    ensures f.segments & 0xFF == (!r) as bv32
  {
    Frame(inpMux as bv32, !(r as bv32))
  }

  /** Memoquiz display: segments 0-6 are the complemented R latch, segment 7
      (the decimal point) is mux bit 5, and nothing above segment 7 is lit. */
  function MemoquizFrame(inpMux: bv16, r: bv8): (f: Frame)
    ensures f.grid & 0xFFFF == inpMux as bv32 && f.grid & 0xFFFF_0000 == 0
    ensures f.segments & 0xFFFF_FF00 == 0
    ensures f.segments & 0x80 != 0 <==> inpMux & 0x20 != 0
    ensures f.segments & 0x7F == ((!r) & 0x7F) as bv32
  {
    Frame(inpMux as bv32, (((inpMux as bv32) << 2) & 0x80) | (!(r as bv32) & 0x7F))
  }

  /** Scrabble Sensor display: the grid is the LED bank chosen by mux bits
      6-7 (`m_inp_mux >> 6 & 3`, a value 0..3), the segments the complemented
      R latch. */
  function ScrabsenFrame(inpMux: bv16, r: bv8): (f: Frame)
    ensures f.grid < 4
    ensures f.grid & 1 != 0 <==> inpMux & 0x40 != 0
    ensures f.grid & 2 != 0 <==> inpMux & 0x80 != 0
    ensures f.segments & 0xFF == (!r) as bv32
  {
    Frame(((inpMux >> 6) & 3) as bv32, !(r as bv32))
  }

  /** Reader's Digest Q&A speaker level: D bits 8-9 (`data >> 8 & 3`), a
      value 0..3. */
  function RdqaSpeakerLevel(data: bv16): (level: bv16)
    ensures level < 4
    ensures level & 1 != 0 <==> data & 0x100 != 0
    ensures level & 2 != 0 <==> data & 0x200 != 0
  {
    (data >> 8) & 3
  }

  /** Memoquiz interrupt lines from the digits switch port: line 0 is
      asserted when switch bit 0 is clear, line 1 when switch bit 1 is set. */
  function MemoquizInterrupts(switches: bv32): (lines: (Line, Line))
    ensures lines.0 == Asserted <==> switches & 1 == 0
    ensures lines.1 == Asserted <==> switches & 2 != 0
  {
    (if switches & 1 != 0 then Clear else Asserted,
     if switches & 2 != 0 then Asserted else Clear)
  }

  /** Scrabble Sensor and Q&A: INT0 follows bit 0 of the players switch port. */
  function PlayersSwitchLine(switches: bv32): (line: Line)
    ensures line == Asserted <==> switches & 1 != 0
  {
    if switches & 1 != 0 then Asserted else Clear
  }

  /** The RESET button wired to the MCU: the line follows the new input value. */
  function ResetButtonLine(newval: bv32): (line: Line)
    ensures line == Asserted <==> newval != 0
  {
    if newval != 0 then Asserted else Clear
  }

  // ---------------------------------------------------------------------
  // World Championship Football: the VFD plate latch, written by both CPUs
  // ---------------------------------------------------------------------

  /** Plate bits 20-31 are never driven. */
  const PLATE_UNUSED: bv32 := 0xFFF0_0000

  /** Main CPU R port: plate 0-6 from RIO1-RIO7 (active low); plate 7 is
      cleared, plate 8-19 kept. */
  function MainPlate(plate: bv32, data: bv8): (p: bv32)
    ensures p & 0x7F == ((!data) & 0x7F) as bv32
    ensures p & 0x80 == 0
    ensures p & 0xF_FF00 == plate & 0xF_FF00
    ensures p & PLATE_UNUSED == 0
  {
    (plate & 0xF_FF00) | (!(data as bv32) & 0x7F)
  }

  /** Sub CPU D port: plate 16-19 from DIO0-DIO3; plate 0-15 kept. */
  function SubPlateD(plate: bv32, data: bv16): (p: bv32)
    ensures p & 0xF_0000 == ((data & 0xF) as bv32) << 16
    ensures p & 0xFFFF == plate & 0xFFFF
    ensures p & PLATE_UNUSED == 0
  {
    (plate & 0x0_FFFF) | (((data as bv32) << 16) & 0xF_0000)
  }

  /** Sub CPU R port: plate 8-15 from RIO1-RIO8 (active low); plate 0-7 and
      16-19 kept. */
  function SubPlateR(plate: bv32, data: bv8): (p: bv32)
    ensures p & 0xFF00 == ((!data) as bv32) << 8
    ensures p & 0xF_00FF == plate & 0xF_00FF
    ensures p & PLATE_UNUSED == 0
  {
    (plate & 0xF_00FF) | ((!(data as bv32) << 8) & 0xFF00)
  }

  /** The three plate writers own disjoint bit fields: any two of them
      commute. */
  lemma PlateWritersCommute(plate: bv32, a: bv8, b: bv16, c: bv8)
    ensures SubPlateD(MainPlate(plate, a), b) == MainPlate(SubPlateD(plate, b), a)
    ensures SubPlateR(MainPlate(plate, a), c) == MainPlate(SubPlateR(plate, c), a)
    ensures SubPlateR(SubPlateD(plate, b), c) == SubPlateD(SubPlateR(plate, c), b)
  {
  }

  /** Between them the three writers drive every plate line: once each has
      written, the plate no longer depends on its earlier contents. */
  lemma PlateCoveredByWriters(plate: bv32, plate': bv32, a: bv8, b: bv16, c: bv8)
    ensures SubPlateR(SubPlateD(MainPlate(plate, a), b), c) ==
            SubPlateR(SubPlateD(MainPlate(plate', a), b), c)
  {
  }

  /** Main CPU D read: only DIO9, taken from the sub CPU's D port. */
  function MainReadD(subD: bv16): (value: bv16)
    ensures value & 0x200 == subD & 0x200
    ensures value & !0x200 == 0
  {
    subD & 0x200
  }

  // ---------------------------------------------------------------------
  // The driver state and its handlers
  // ---------------------------------------------------------------------

  /** `hh_pps41_state`: the MCU output-pin latches. Each game's handlers are
      the methods prefixed with its name. */
  class Handheld {
    var inpMux: bv16
    var grid: bv32
    var plate: bv32
    var d: bv16
    var r: bv8

    /** Only the 16 D lines reach the grid, and only 20 plate lines exist. */
    ghost predicate Valid()
      reads this
    {
      grid & 0xFFFF_0000 == 0 && plate & PLATE_UNUSED == 0
    }

    constructor ()
      ensures Valid()
      ensures inpMux == 0 && grid == 0 && plate == 0 && d == 0 && r == 0xFF
    {
      inpMux, grid, plate, d := 0, 0, 0, 0;
      r := !0;
    }

    /** `read_inputs`: OR the low bytes of the selected rows `i < columns`,
        then invert (the inputs are active low). `ports` holds the values of
        the input ports IN.0, IN.1, ... at the time of the read. */
    method ReadInputs(ports: seq<bv32>, columns: int) returns (value: bv8)
      requires columns <= |ports| <= 6
      ensures value == !SelectedRows(inpMux, ports, if columns < 0 then 0 else columns)
    {
      var ret: bv8 := 0;
      var i := 0;
      while i < columns
        invariant 0 <= i <= |ports|
        invariant i == 0 || i <= columns
        invariant ret == SelectedRows(inpMux, ports, i)
      {
        if RowSelected(inpMux, i) {
          ret := ret | Low8(ports[i]);
        }
        i := i + 1;
      }
      value := !ret;
    }

    // Fonas Tri-1 (its display goes through bitswap, not modelled)

    method FtriWriteD(data: bv16) returns (speaker: int)
      requires Valid()
      modifies this`d
      ensures Valid() && d == data
      ensures speaker == if data & 0x200 != 0 then 1 else 0
    {
      d := data;
      speaker := if data & 0x200 != 0 then 1 else 0;
    }

    method FtriWriteR(data: bv8)
      requires Valid()
      modifies this`r
      ensures Valid() && r == data
    {
      r := data;
    }

    // Invicta Master Mind / Super-Sonic Master Mind

    method MastmindWriteD(data: bv16, hasBeeper: bool) returns (frame: Frame, beeper: Option<bool>)
      requires Valid()
      modifies this`inpMux
      ensures Valid() && inpMux == data
      ensures frame == MuxFrame(inpMux, r)
      ensures beeper == if hasBeeper then Some(data & 0x100 != 0) else None
    {
      inpMux := data;
      frame := MuxFrame(inpMux, r);
      beeper := if hasBeeper then Some(data & 0x100 != 0) else None;
    }

    method MastmindWriteR(data: bv8) returns (frame: Frame)
      requires Valid()
      modifies this`r
      ensures Valid() && r == data
      ensures frame == MuxFrame(inpMux, r)
    {
      r := data;
      frame := MuxFrame(inpMux, r);
    }

    method MastmindReadP(ports: seq<bv32>) returns (value: bv8)
      requires 4 <= |ports| <= 6
      ensures value == !SelectedRows(inpMux, ports, 4)
    {
      value := ReadInputs(ports, 4);
    }

    // M.E.M. Belgium Memoquiz

    method MemoquizWriteD(data: bv16) returns (frame: Frame)
      requires Valid()
      modifies this`inpMux
      ensures Valid() && inpMux == data
      ensures frame == MemoquizFrame(inpMux, r)
    {
      inpMux := data;
      frame := MemoquizFrame(inpMux, r);
    }

    method MemoquizWriteR(data: bv8) returns (frame: Frame)
      requires Valid()
      modifies this`r
      ensures Valid() && r == data
      ensures frame == MemoquizFrame(inpMux, r)
    {
      r := data;
      frame := MemoquizFrame(inpMux, r);
    }

    method MemoquizReadP(ports: seq<bv32>) returns (value: bv8)
      requires 4 <= |ports| <= 6
      ensures value == !SelectedRows(inpMux, ports, 4)
    {
      value := ReadInputs(ports, 4);
    }

    // Mattel World Championship Football (its display goes through bitswap,
    // not modelled)

    method MwcfootbMainWriteD(data: bv16) returns (subInt0: Line)
      requires Valid()
      modifies this`grid, this`inpMux
      ensures Valid() && inpMux == data && grid == data as bv32
      ensures subInt0 == Asserted <==> data & 0x100 != 0
    {
      inpMux := data;
      grid := inpMux as bv32;
      subInt0 := if data & 0x100 != 0 then Asserted else Clear;
    }

    method MwcfootbMainWriteR(data: bv8) returns (speaker: int)
      requires Valid()
      modifies this`plate
      ensures Valid() && plate == MainPlate(old(plate), data)
      ensures speaker == if data & 0x80 == 0 then 1 else 0
    {
      plate := (plate & 0xF_FF00) | (!(data as bv32) & 0x7F);
      speaker := if !(data as bv32) & 0x80 != 0 then 1 else 0;
    }

    method MwcfootbMainReadP(ports: seq<bv32>) returns (value: bv8)
      requires 3 <= |ports| <= 6
      ensures value == !SelectedRows(inpMux, ports, 3)
    {
      value := ReadInputs(ports, 3);
    }

    method MwcfootbSubWriteD(data: bv16) returns (mainInt0: Line)
      requires Valid()
      modifies this`plate
      ensures Valid() && plate == SubPlateD(old(plate), data)
      ensures mainInt0 == Asserted <==> data & 0x200 != 0
    {
      plate := (plate & 0x0_FFFF) | (((data as bv32) << 16) & 0xF_0000);
      mainInt0 := if data & 0x200 != 0 then Asserted else Clear;
    }

    method MwcfootbSubWriteR(data: bv8)
      requires Valid()
      modifies this`plate
      ensures Valid() && plate == SubPlateR(old(plate), data)
    {
      plate := (plate & 0xF_00FF) | ((!(data as bv32) << 8) & 0xFF00);
    }

    // Selchow & Righter Scrabble Sensor

    method ScrabsenWriteD(data: bv16) returns (frame: Frame, speaker: int)
      requires Valid()
      modifies this`inpMux
      ensures Valid() && inpMux == data
      ensures frame == ScrabsenFrame(inpMux, r)
      ensures speaker == if data & 0x100 != 0 then 1 else 0
    {
      inpMux := data;
      frame := ScrabsenFrame(inpMux, r);
      speaker := if data & 0x100 != 0 then 1 else 0;
    }

    method ScrabsenWriteR(data: bv8) returns (frame: Frame)
      requires Valid()
      modifies this`r
      ensures Valid() && r == data
      ensures frame == ScrabsenFrame(inpMux, r)
    {
      r := data;
      frame := ScrabsenFrame(inpMux, r);
    }

    method ScrabsenReadP(ports: seq<bv32>) returns (value: bv8)
      requires 5 <= |ports| <= 6
      ensures value == !SelectedRows(inpMux, ports, 5)
    {
      value := ReadInputs(ports, 5);
    }

    // Selchow & Righter Reader's Digest Q&A

    method RdqaWriteD(data: bv16) returns (frame: Frame, speaker: bv16)
      requires Valid()
      modifies this`inpMux
      ensures Valid() && inpMux == data
      ensures frame == MuxFrame(inpMux, r)
      ensures speaker == RdqaSpeakerLevel(data)
    {
      inpMux := data;
      frame := MuxFrame(inpMux, r);
      speaker := RdqaSpeakerLevel(data);
    }

    method RdqaWriteR(data: bv8) returns (frame: Frame)
      requires Valid()
      modifies this`r
      ensures Valid() && r == data
      ensures frame == MuxFrame(inpMux, r)
    {
      r := data;
      frame := MuxFrame(inpMux, r);
    }

    method RdqaReadP(ports: seq<bv32>) returns (value: bv8)
      requires 4 <= |ports| <= 6
      ensures value == !SelectedRows(inpMux, ports, 4)
    {
      value := ReadInputs(ports, 4);
    }
  }
}
