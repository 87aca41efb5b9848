/** `set_digital_outputs` of the backend's `utils.py`: set one digital output
    of the robot's output word to 0 or 1 and report the affected byte. */
module DigitalOutputs {
  import opened Common
  import opened PyBits

  /** The `ValueError`s the function raises. */
  datatype OutputError =
    | OutputOutOfRange    // "Digital output must be in the range 0-7."
    | ValueNotBinary      // "Value must be 0 or 1."
    | NegativeShiftCount  // Python's own ValueError for `<<` / `>>` by a negative count

  /** The returned pair: the byte of outputs selected by `offset`, and the mask
      of the changed bit within that byte. */
  datatype OutputWindow = OutputWindow(state: int, mask: int)

  /** The new output word: bit `digitalOutput + offset` of `currentState`
      cleared, then set again when `value` is 1. */
  function UpdatedState(currentState: int, bitIndex: nat, value: int): int {
    var mask := Shl(1, bitIndex);
    var cleared := And(currentState, Not(mask));
    if value == 1 then Or(cleared, mask) else cleared
  }

  /** Only bit `bitIndex` of the word changes, and it becomes `value`. */
  lemma UpdatedStateBit(currentState: int, bitIndex: nat, value: int, j: nat)
    requires value == 0 || value == 1
    ensures Bit(UpdatedState(currentState, bitIndex, value), j)
         == if j == bitIndex then value else Bit(currentState, j)
  {
    var mask := Shl(1, bitIndex);
    var cleared := And(currentState, Not(mask));
    OneShlBit(bitIndex, j);
    NotBit(mask, j);
    AndBit(currentState, Not(mask), j);
    var b := Bit(currentState, j);
    if j == bitIndex {
      assert Bit(Not(mask), j) == 0;
      assert Bit(cleared, j) == b * 0 == 0;
    } else {
      assert Bit(Not(mask), j) == 1;
      assert Bit(cleared, j) == b * 1 == b;
    }
    if value == 1 {
      OrBit(cleared, mask, j);
      assert UpdatedState(currentState, bitIndex, value) == Or(cleared, mask);
    } else {
      assert UpdatedState(currentState, bitIndex, value) == cleared;
    }
  }

  /** `set_digital_outputs(current_state, digital_output, value, offset)`.
      `currentState` is any Python integer (the caller passes the UINT64 output word). */
  function SetDigitalOutputs(currentState: int, digitalOutput: int, value: int, offset: int := 0)
    : (r: Result<OutputWindow, OutputError>)
    // the validation comes first and in this order
    ensures (digitalOutput < 0 || digitalOutput > 7) <==> r == Failure(OutputOutOfRange)
    ensures 0 <= digitalOutput <= 7 && value != 0 && value != 1 <==> r == Failure(ValueNotBinary)
    ensures 0 <= digitalOutput <= 7 && (value == 0 || value == 1) && offset < 0
        <==> r == Failure(NegativeShiftCount)
    ensures r.Success? <==> 0 <= digitalOutput <= 7 && (value == 0 || value == 1) && offset >= 0
    // both results are bytes; the mask is `1 << digital_output`, a single bit
    ensures r.Success? ==> 0 <= r.value.state <= 0xFF && 0 <= r.value.mask <= 0xFF
    ensures r.Success? ==> r.value.mask == Shl(1, digitalOutput)
    ensures r.Success? ==> forall i: nat :: Bit(r.value.mask, i) == if i == digitalOutput then 1 else 0
    // the chosen output reads `value`, every other output of the byte is as it was
    ensures r.Success? ==> Bit(r.value.state, digitalOutput) == value
    ensures r.Success? ==> forall i: nat :: i < 8 && i != digitalOutput ==>
              Bit(r.value.state, i) == Bit(currentState, i + offset)
  {
    if digitalOutput < 0 || digitalOutput > 7 then
      Failure(OutputOutOfRange)
    else if value != 0 && value != 1 then
      Failure(ValueNotBinary)
    else if digitalOutput + offset < 0 then
      // `1 << (digital_output + offset)` with a negative count
      Failure(NegativeShiftCount)
    else
      var mask := Shl(1, digitalOutput + offset);
      var updated := UpdatedState(currentState, digitalOutput + offset, value);
      if offset < 0 then
        // `current_state >> offset` with a negative count
        Failure(NegativeShiftCount)
      else
        var window := OutputWindow(And(Shr(updated, offset), 0xFF), And(Shr(mask, offset), 0xFF));
        WindowFacts(currentState, digitalOutput, value, offset);
        Success(window)
  }

  /** The bit-level facts behind the success case of `SetDigitalOutputs`. */
  lemma WindowFacts(currentState: int, digitalOutput: nat, value: int, offset: nat)
    requires digitalOutput <= 7 && (value == 0 || value == 1)
    ensures var state := And(Shr(UpdatedState(currentState, digitalOutput + offset, value), offset), 0xFF);
            var mask := And(Shr(Shl(1, digitalOutput + offset), offset), 0xFF);
            && 0 <= state <= 0xFF && 0 <= mask <= 0xFF
            && mask == Shl(1, digitalOutput)
            && (forall i: nat :: Bit(mask, i) == if i == digitalOutput then 1 else 0)
            && (forall i: nat :: Bit(state, i) == if i < 8 then
                  (if i == digitalOutput then value else Bit(currentState, i + offset)) else 0)
  {
    var k := digitalOutput + offset;
    var updated := UpdatedState(currentState, k, value);
    var state := And(Shr(updated, offset), 0xFF);
    var mask := And(Shr(Shl(1, k), offset), 0xFF);
    AndBounded(Shr(updated, offset), 0xFF);
    AndBounded(Shr(Shl(1, k), offset), 0xFF);
    forall i: nat
      ensures Bit(state, i) == if i < 8 then
                (if i == digitalOutput then value else Bit(currentState, i + offset)) else 0
    {
      AndBit(Shr(updated, offset), 0xFF, i);
      ShrBit(updated, offset, i);
      ByteMaskBit(i);
      UpdatedStateBit(currentState, k, value, i + offset);
    }
    forall i: nat
      ensures Bit(mask, i) == Bit(Shl(1, digitalOutput), i)
      ensures Bit(mask, i) == if i == digitalOutput then 1 else 0
    {
      AndBit(Shr(Shl(1, k), offset), 0xFF, i);
      ShrBit(Shl(1, k), offset, i);
      ByteMaskBit(i);
      OneShlBit(k, i + offset);
      OneShlBit(digitalOutput, i);
    }
    BitsDetermine(mask, Shl(1, digitalOutput));
  }

  /** Writing the same output with the same value into the returned byte
      (with the default offset 0) gives the same byte and mask back. */
  lemma SetDigitalOutputsIdempotent(currentState: int, digitalOutput: int, value: int, offset: int)
    requires SetDigitalOutputs(currentState, digitalOutput, value, offset).Success?
    ensures var first := SetDigitalOutputs(currentState, digitalOutput, value, offset);
            SetDigitalOutputs(first.value.state, digitalOutput, value) == first
  {
    var first := SetDigitalOutputs(currentState, digitalOutput, value, offset).value;
    var again := SetDigitalOutputs(first.state, digitalOutput, value).value;
    WindowFacts(currentState, digitalOutput, value, offset);
    WindowFacts(first.state, digitalOutput, value, 0);
    BitsDetermine(again.state, first.state);
  }
}
