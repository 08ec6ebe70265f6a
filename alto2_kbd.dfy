/** Xerox Alto II memory-mapped keyboard: the four-word key matrix and the
    one-shot boot-key mask applied to the first read of matrix word 0. */
module Alto2Keyboard {

  /** Octal 0177777: a matrix word with no key down, and the boot-key value
      that means "no boot keys pending". */
  const NO_KEYS: bv16 := 0xFFFF

  /** The matrix word an I/O offset addresses: `offset & 3`, which for an
      unsigned offset is its remainder modulo 4. */
  function Row(offset: nat): (row: nat)
    ensures row < 4
  {
    offset % 4
  }

  /** The keyboard state as a value: the last word read from each matrix row
      and the pending boot-key mask. */
  datatype Kbd = Kbd(matrix: seq<bv16>, bootkey: bv16)

  ghost predicate WellFormed(k: Kbd) {
    |k.matrix| == 4
  }

  /** One read of keyboard address `offset`, where `data` is what the key
      callback delivers for row `Row(offset)`. Gives the new state and the
      word returned to the CPU. */
  function ReadAddress(k: Kbd, offset: nat, data: bv16): (res: (Kbd, bv16))
    requires WellFormed(k)
    ensures WellFormed(res.0)
    // the matrix keeps the raw callback word, taken before any masking
    ensures res.0.matrix[Row(offset)] == data
    ensures forall j :: 0 <= j < 4 && j != Row(offset) ==> res.0.matrix[j] == k.matrix[j]
    // the boot-key mask applies to a word-0 read while it is armed, and disarms itself
    ensures Row(offset) == 0 && k.bootkey != NO_KEYS ==>
              res.1 == data & k.bootkey && res.0.bootkey == NO_KEYS
    // any other read returns the raw word and leaves the mask alone
    ensures Row(offset) != 0 || k.bootkey == NO_KEYS ==>
              res.1 == data && res.0.bootkey == k.bootkey
  {
    var row := Row(offset);
    var matrix := k.matrix[row := data];
    if row == 0 && k.bootkey != NO_KEYS then
      (Kbd(matrix, NO_KEYS), data & k.bootkey)
    else
      (Kbd(matrix, k.bootkey), data)
  }

  /** The keyboard after a sequence of accesses, each an (offset, callback word)
      pair, together with the words those accesses returned, in order. */
  function Replay(k: Kbd, accesses: seq<(nat, bv16)>): (res: (Kbd, seq<bv16>))
    requires WellFormed(k)
    ensures WellFormed(res.0) && |res.1| == |accesses|
    decreases |accesses|
  {
    if accesses == [] then (k, [])
    else
      var first := ReadAddress(k, accesses[0].0, accesses[0].1);
      var rest := Replay(first.0, accesses[1..]);
      (rest.0, [first.1] + rest.1)
  }

  /** Index of the first read in `accesses` that addresses matrix word 0, or
      `|accesses|` when there is none. */
  function FirstRowZero(accesses: seq<(nat, bv16)>): (j: nat)
    ensures j <= |accesses|
    ensures j < |accesses| ==> Row(accesses[j].0) == 0
    ensures forall i :: 0 <= i < j ==> Row(accesses[i].0) != 0
    decreases |accesses|
  {
    if accesses == [] then 0
    else if Row(accesses[0].0) == 0 then 0
    else 1 + FirstRowZero(accesses[1..])
  }

  /** The raw callback words of a sequence of reads. */
  function Words(accesses: seq<(nat, bv16)>): seq<bv16> {
    seq(|accesses|, i requires 0 <= i < |accesses| => accesses[i].1)
  }

  /** Reference for what a sequence of reads returns when `keys` are the boot
      keys pending at its start: every raw word, except that the first read
      of word 0 is ANDed with `keys`. */
  function Masked(keys: bv16, accesses: seq<(nat, bv16)>): (out: seq<bv16>)
    ensures |out| == |accesses|
  {
    var z := FirstRowZero(accesses);
    seq(|accesses|, i requires 0 <= i < |accesses| =>
      if i == z then accesses[i].1 & keys else accesses[i].1)
  }

  lemma AllOnesMask(x: bv16)
    ensures x & NO_KEYS == x
  {
  }

  lemma MaskedAtRowZero(keys: bv16, accesses: seq<(nat, bv16)>)
    requires accesses != [] && Row(accesses[0].0) == 0
    ensures Masked(keys, accesses) == [accesses[0].1 & keys] + Words(accesses[1..])
  {
    assert FirstRowZero(accesses) == 0;
  }

  lemma MaskedPastOtherRow(keys: bv16, accesses: seq<(nat, bv16)>)
    requires accesses != [] && Row(accesses[0].0) != 0
    ensures Masked(keys, accesses) == [accesses[0].1] + Masked(keys, accesses[1..])
  {
    assert FirstRowZero(accesses) == FirstRowZero(accesses[1..]) + 1;
    var whole := Masked(keys, accesses);
    var rest := Masked(keys, accesses[1..]);
    forall i | 1 <= i < |accesses|
      ensures whole[i] == rest[i - 1]
    {
      assert accesses[1..][i - 1] == accesses[i];
    }
  }

  /** With no boot keys pending, every read returns its raw callback word
      and nothing re-arms the mask. */
  lemma {:induction false} AllUnmaskedWhenDisarmed(k: Kbd, accesses: seq<(nat, bv16)>)
    requires WellFormed(k) && k.bootkey == NO_KEYS
    ensures Replay(k, accesses).0.bootkey == NO_KEYS
    ensures Replay(k, accesses).1 == Words(accesses)
    decreases |accesses|
  {
    if accesses != [] {
      var first := ReadAddress(k, accesses[0].0, accesses[0].1);
      AllUnmaskedWhenDisarmed(first.0, accesses[1..]);
      assert Words(accesses) == [accesses[0].1] + Words(accesses[1..]);
    }
  }

  /** The boot-key mask is one-shot: over any sequence of reads, the words
      returned are `Masked(k.bootkey, ...)` (only the first read of word 0 is
      masked), and once a word-0 read has happened no boot keys are pending. */
  lemma {:induction false} BootKeyMasksAtMostOnce(k: Kbd, accesses: seq<(nat, bv16)>)
    requires WellFormed(k)
    ensures Replay(k, accesses).1 == Masked(k.bootkey, accesses)
    ensures Replay(k, accesses).0.bootkey ==
              if FirstRowZero(accesses) < |accesses| then NO_KEYS else k.bootkey
    decreases |accesses|
  {
    if accesses != [] {
      var first := ReadAddress(k, accesses[0].0, accesses[0].1);
      if Row(accesses[0].0) == 0 {
        // from here on the mask is spent: the remaining reads see NO_KEYS
        AllUnmaskedWhenDisarmed(first.0, accesses[1..]);
        MaskedAtRowZero(k.bootkey, accesses);
        AllOnesMask(accesses[0].1);
      } else {
        BootKeyMasksAtMostOnce(first.0, accesses[1..]);
        MaskedPastOtherRow(k.bootkey, accesses);
      }
    }
  }

  /** The keyboard part of the Alto II CPU device: `m_kbd.matrix[4]` and
      `m_kbd.bootkey`. */
  class Keyboard {
    var matrix: array<bv16>
    var bootkey: bv16

    ghost predicate Valid()
      reads this
    {
      matrix.Length == 4
    }

    /** The state as a value. */
    ghost function State(): Kbd
      reads this, matrix
    {
      Kbd(matrix[..], bootkey)
    }

    constructor ()
      ensures Valid() && fresh(matrix)
    {
      matrix := new bv16[4];
      bootkey := NO_KEYS;
    }

    /** `kbd_ad_r`: read keyboard address `offset`; `callback` stands for the
        machine's keyboard read callback, asked for row `offset & 3`. */
    method ReadKbdAddress(offset: nat, callback: nat -> bv16) returns (data: bv16)
      requires Valid()
      modifies matrix, this`bootkey
      ensures Valid()
      ensures (State(), data) == ReadAddress(old(State()), offset, callback(Row(offset)))
    {
      data := callback(Row(offset));
      matrix[Row(offset)] := data;
      if Row(offset) == 0 && bootkey != NO_KEYS {
        data := data & bootkey;
        bootkey := NO_KEYS;
      }
    }

    /** `init_kbd`: arm the boot-key mask; the matrix is not touched. */
    method InitKbd(keys: bv16)
      requires Valid()
      modifies this`bootkey
      ensures Valid() && bootkey == keys
    {
      bootkey := keys;
    }

    /** `reset_kbd`: every matrix word reads "no key down"; the boot-key mask
        is not touched. */
    method ResetKbd()
      requires Valid()
      modifies matrix
      ensures Valid()
      ensures matrix[..] == [NO_KEYS, NO_KEYS, NO_KEYS, NO_KEYS]
    {
      matrix[0] := NO_KEYS;
      matrix[1] := NO_KEYS;
      matrix[2] := NO_KEYS;
      matrix[3] := NO_KEYS;
    }
  }
}
