/**
 * Rotor stepping, the signal path of one key press and the message driver
 * (EnigmaMachine/core/encodingMessage.py). Letters travel as indices 0..25 between
 * the plugboard passes; positions are unbounded integers, as in Python.
 */
module EncodingMessage {
  import opened Wrappers
  import opened Alphabet
  import opened EnigmaPlugs
  import opened EnigmaRotors

  /** What `advance_rotors` looks notches up in. A dictionary is read with `.get(slot)`,
      so only its entries under the slot numbers 0 and 1 matter: a dictionary keyed by
      rotor names is `NotchMap(map[])`. A list has no `.get`. */
  datatype Notches = NotchMap(bySlot: map<int, int>) | NotchList(values: seq<int>)

  /** The positions after a stepping routine, and the exception it raised part-way, if any. */
  datatype Stepped = Stepped(positions: seq<int>, error: Option<Error>)

  /** `rotor_notches.get(slot, None) == v`: `None` equals no position. */
  predicate NotchAt(bySlot: map<int, int>, slot: int, v: int) {
    slot in bySlot && bySlot[slot] == v
  }

  predicate InRange(p: seq<int>) {
    forall k :: 0 <= k < |p| ==> 0 <= p[k] < 26
  }

  // ---------------------------------------------------------------------------------
  // advance_rotors (lines 30-46)

  /** Lines 38-46: slot 0 steps; slot 1 steps when slot 0 has landed on the notch under
      key 0; slot 2 steps when slot 1 has then landed on the notch under key 1. A list of
      notches raises `AttributeError` at line 41, after slot 0 has stepped. */
  function Advance(p: seq<int>, notches: Notches): (r: Stepped)
    requires |p| == 3
    ensures |r.positions| == 3
    ensures InRange(p) ==> InRange(r.positions)
  {
    var p0 := (p[0] + 1) % 26;
    match notches
    case NotchList(_) => Stepped([p0, p[1], p[2]], Some(AttributeError))
    case NotchMap(m) =>
      if NotchAt(m, 0, p0) then
        var p1 := (p[1] + 1) % 26;
        if NotchAt(m, 1, p1) then Stepped([p0, p1, (p[2] + 1) % 26], None)
        else Stepped([p0, p1, p[2]], None)
      else Stepped([p0, p[1], p[2]], None)
  }

  /** `advance_rotors(rotor_positions, rotor_notches)` on the three-slot position list. */
  method AdvanceRotors(positions: array<int>, notches: Notches) returns (error: Option<Error>)
    requires positions.Length == 3
    modifies positions
    ensures Stepped(positions[..], error) == Advance(old(positions[..]), notches)
  {
    positions[0] := (positions[0] + 1) % 26;
    match notches {
      case NotchList(_) =>
        return Some(AttributeError);
      case NotchMap(m) =>
        if NotchAt(m, 0, positions[0]) {
          positions[1] := (positions[1] + 1) % 26;
          if NotchAt(m, 1, positions[1]) {
            positions[2] := (positions[2] + 1) % 26;
          }
        }
        return None;
    }
  }

  /** Arithmetic for AdvanceRules: a slot that steps always changes, whatever its value was. */
  lemma StepChanges(x: int)
    ensures (x + 1) % 26 != x && 0 <= (x + 1) % 26 < 26
  {
  }

  /** The stepping rules: slot 0 always steps; slot 1 changes exactly when slot 0 has
      landed on the notch under key 0; slot 2 changes exactly when slot 1 has changed and
      landed on the notch under key 1. */
  lemma AdvanceRules(p: seq<int>, m: map<int, int>)
    requires |p| == 3
    ensures var r := Advance(p, NotchMap(m)).positions;
      && Advance(p, NotchMap(m)).error == None
      && r[0] == (p[0] + 1) % 26
      && (r[1] != p[1] <==> NotchAt(m, 0, r[0]))
      && (r[1] != p[1] ==> r[1] == (p[1] + 1) % 26)
      && (r[2] != p[2] <==> r[1] != p[1] && NotchAt(m, 1, r[1]))
      && (r[2] != p[2] ==> r[2] == (p[2] + 1) % 26)
  {
    StepChanges(p[1]);
    StepChanges(p[2]);
  }

  /** With no notch under the slot numbers 0 and 1, as for the dictionary keyed by rotor
      names, only slot 0 moves. */
  lemma AdvanceWithoutSlotKeys(p: seq<int>, m: map<int, int>)
    requires |p| == 3 && 0 !in m && 1 !in m
    ensures Advance(p, NotchMap(m)) == Stepped([(p[0] + 1) % 26, p[1], p[2]], None)
  {
  }

  /** A list of notches always raises, once slot 0 has stepped. */
  lemma AdvanceWithList(p: seq<int>, values: seq<int>)
    requires |p| == 3
    ensures Advance(p, NotchList(values)) == Stepped([(p[0] + 1) % 26, p[1], p[2]], Some(AttributeError))
  {
  }

  /** n key presses' worth of stepping with a notch dictionary; slots in 0..25 stay there. */
  function AdvanceN(p: seq<int>, m: map<int, int>, n: nat): (r: seq<int>)
    requires |p| == 3
    ensures |r| == 3
    ensures InRange(p) ==> InRange(r)
    decreases n
  {
    if n == 0 then p else AdvanceN(Advance(p, NotchMap(m)).positions, m, n - 1)
  }

  /** With no notch under the slot numbers 0 and 1, n steps move slot 0 on by n and
      leave slots 1 and 2 alone. */
  lemma {:induction false} AdvanceNWithoutSlotKeys(p: seq<int>, m: map<int, int>, n: nat)
    requires |p| == 3 && 0 <= p[0] < 26 && 0 !in m && 1 !in m
    ensures AdvanceN(p, m, n) == [(p[0] + n) % 26, p[1], p[2]]
    decreases n
  {
    if n == 0 {
      assert p == [p[0] % 26, p[1], p[2]];
    } else {
      var q := [(p[0] + 1) % 26, p[1], p[2]];
      AdvanceWithoutSlotKeys(p, m);
      AdvanceNWithoutSlotKeys(q, m, n - 1);
      ModAddOne(p[0], n - 1);
      assert AdvanceN(p, m, n) == AdvanceN(q, m, n - 1);
    }
  }

  /** Arithmetic for AdvanceNWithoutSlotKeys: one step then n more is n + 1 steps. */
  lemma ModAddOne(x: int, n: nat)
    ensures ((x + 1) % 26 + n) % 26 == (x + 1 + n) % 26
  {
    var q := (x + 1) / 26;
    assert x + 1 == 26 * q + (x + 1) % 26;
    assert (x + 1 + n) == 26 * q + ((x + 1) % 26 + n);
  }

  // ---------------------------------------------------------------------------------
  // update_rotor_positions (lines 10-28)

  /** Lines 23-27 from slot i on: the slot steps; if it then sits on its own rotor's
      notch (looked up by rotor name) the next slot, if any, also steps. A selected-rotor
      list that is too short raises `IndexError` and a name without a notch raises
      `KeyError`, both after the slot has stepped. */
  function UpdateFrom(p: seq<int>, i: nat, notches: map<string, int>, names: seq<string>): (r: Stepped)
    requires i <= |p|
    ensures |r.positions| == |p|
    decreases |p| - i
  {
    if i == |p| then Stepped(p, None)
    else
      var q := p[i := (p[i] + 1) % 26];
      if i >= |names| then Stepped(q, Some(IndexError))
      else if names[i] !in notches then Stepped(q, Some(KeyError(names[i])))
      else if q[i] == notches[names[i]] && i + 1 < |q| then
        UpdateFrom(q[i + 1 := (q[i + 1] + 1) % 26], i + 1, notches, names)
      else UpdateFrom(q, i + 1, notches, names)
  }

  /** Slots before i are left alone, slots in 0..25 stay there, and the only exceptions
      are `IndexError` and `KeyError` for one of the selected names. */
  lemma {:induction false} UpdateFromKeeps(p: seq<int>, i: nat, notches: map<string, int>, names: seq<string>)
    requires i <= |p|
    ensures var r := UpdateFrom(p, i, notches, names);
      && (forall k :: 0 <= k < i ==> r.positions[k] == p[k])
      && (InRange(p) ==> InRange(r.positions))
      && (r.error.Some? ==> r.error.value == IndexError || (r.error.value.KeyError? && r.error.value.key in names))
    decreases |p| - i
  {
    if i < |p| {
      var q := p[i := (p[i] + 1) % 26];
      if i < |names| && names[i] in notches {
        if q[i] == notches[names[i]] && i + 1 < |q| {
          UpdateFromKeeps(q[i + 1 := (q[i + 1] + 1) % 26], i + 1, notches, names);
        } else {
          UpdateFromKeeps(q, i + 1, notches, names);
        }
      }
    }
  }

  /** The names of the selected rotors, in slot order. */
  function RotorNames(rotors: seq<(string, string)>): (names: seq<string>)
    ensures |names| == |rotors|
    ensures forall k :: 0 <= k < |rotors| ==> names[k] == rotors[k].0
  {
    seq(|rotors|, k requires 0 <= k < |rotors| => rotors[k].0)
  }

  /** `update_rotor_positions(rotor_positions, rotor_notches_dict, selected_rotors)`: the
      list is changed in place and is also what the source returns. */
  method UpdateRotorPositions(positions: array<int>, notches: map<string, int>, rotors: seq<(string, string)>)
    returns (error: Option<Error>)
    modifies positions
    ensures Stepped(positions[..], error) == UpdateFrom(old(positions[..]), 0, notches, RotorNames(rotors))
  {
    var names := RotorNames(rotors);
    var i := 0;
    while i < positions.Length
      invariant 0 <= i <= positions.Length
      invariant UpdateFrom(positions[..], i, notches, names) == UpdateFrom(old(positions[..]), 0, notches, names)
    {
      ghost var before := positions[..];
      positions[i] := (positions[i] + 1) % 26;
      if i >= |rotors| {
        return Some(IndexError);
      }
      if rotors[i].0 !in notches {
        return Some(KeyError(rotors[i].0));
      }
      if positions[i] == notches[rotors[i].0] {
        if i + 1 < positions.Length {
          positions[i + 1] := (positions[i + 1] + 1) % 26;
        }
      }
      assert UpdateFrom(before, i, notches, names) == UpdateFrom(positions[..], i + 1, notches, names);
      i := i + 1;
    }
    return None;
  }

  /** What `update_rotor_positions` does to three slots when every rotor has a notch:
      each slot steps once, and once more when the slot before it has landed on that
      slot's rotor's notch; the carry out of slot 2 is dropped. */
  lemma UpdateThreeSlots(x: int, y: int, z: int, notches: map<string, int>, names: seq<string>)
    requires |names| >= 3
    requires forall k :: 0 <= k < 3 ==> names[k] in notches
    ensures var a := (x + 1) % 26;
      var b := (y + 1 + (if a == notches[names[0]] then 1 else 0)) % 26;
      var c := (z + 1 + (if b == notches[names[1]] then 1 else 0)) % 26;
      UpdateFrom([x, y, z], 0, notches, names) == Stepped([a, b, c], None)
  {
    var a := (x + 1) % 26;
    var carry0 := a == notches[names[0]];
    var b0 := if carry0 then (y + 1) % 26 else y;
    ModCarry(y, carry0);
    var b := (b0 + 1) % 26;
    var carry1 := b == notches[names[1]];
    var c0 := if carry1 then (z + 1) % 26 else z;
    ModCarry(z, carry1);
    UpdateFirstSlot(x, y, z, notches, names);
    UpdateMiddleSlot(a, b0, z, notches, names);
    UpdateLastSlot(a, b, c0, notches, names);
  }

  /** Arithmetic for UpdateThreeSlots: stepping a slot once more after an optional carry
      adds one plus the carry. */
  lemma ModCarry(x: int, carry: bool)
    ensures ((if carry then (x + 1) % 26 else x) + 1) % 26 == (x + 1 + (if carry then 1 else 0)) % 26
  {
    if carry {
      ModAddOne(x, 1);
    }
  }

  /** Loop pass 0 of lines 23-28 on a three-slot list. */
  lemma UpdateFirstSlot(x: int, y: int, z: int, notches: map<string, int>, names: seq<string>)
    requires |names| >= 3 && names[0] in notches
    ensures var a := (x + 1) % 26;
      UpdateFrom([x, y, z], 0, notches, names) == UpdateFrom([a, if a == notches[names[0]] then (y + 1) % 26 else y, z], 1, notches, names)
  {
    var a := (x + 1) % 26;
    assert [x, y, z][0 := a] == [a, y, z];
    assert [a, y, z][1 := (y + 1) % 26] == [a, (y + 1) % 26, z];
  }

  /** Loop pass 1. */
  lemma UpdateMiddleSlot(x: int, y: int, z: int, notches: map<string, int>, names: seq<string>)
    requires |names| >= 3 && names[1] in notches
    ensures var b := (y + 1) % 26;
      UpdateFrom([x, y, z], 1, notches, names) == UpdateFrom([x, b, if b == notches[names[1]] then (z + 1) % 26 else z], 2, notches, names)
  {
    var b := (y + 1) % 26;
    assert [x, y, z][1 := b] == [x, b, z];
    assert [x, b, z][2 := (z + 1) % 26] == [x, b, (z + 1) % 26];
  }

  /** Loop pass 2: the carry out of the last slot is dropped. */
  lemma UpdateLastSlot(x: int, y: int, z: int, notches: map<string, int>, names: seq<string>)
    requires |names| >= 3 && names[2] in notches
    ensures UpdateFrom([x, y, z], 2, notches, names) == Stepped([x, y, (z + 1) % 26], None)
  {
    assert [x, y, z][2 := (z + 1) % 26] == [x, y, (z + 1) % 26];
  }

  /** A first rotor without a notch raises `KeyError` once slot 0 has stepped. */
  lemma UpdateMissingFirstNotch(p: seq<int>, notches: map<string, int>, names: seq<string>)
    requires |p| == 3 && |names| >= 1 && names[0] !in notches
    ensures UpdateFrom(p, 0, notches, names)
         == Stepped([(p[0] + 1) % 26, p[1], p[2]], Some(KeyError(names[0])))
  {
    assert p[0 := (p[0] + 1) % 26] == [(p[0] + 1) % 26, p[1], p[2]];
  }

  // ---------------------------------------------------------------------------------
  // The signal path of encode_letter_with_rotor_advance (lines 67-127)

  /** Lines 84-85 (90-91, 96-97): entering a rotor at contact i when it stands at p. */
  function Forward(w: string, i: int, p: int): (j: int)
    requires IsWiring(w) && 0 <= i < 26
    ensures 0 <= j < 26
  {
    Index(w[(i + p) % 26])
  }

  /** Lines 101-103. */
  function Reflect(w: string, i: int): (j: int)
    requires IsWiring(w) && 0 <= i < 26
    ensures 0 <= j < 26
  {
    Index(w[i])
  }

  /** Lines 109-111 (115-117, 121-123): leaving a rotor backwards. The position is
      subtracted before the inverse wiring is read, not after: the result is the contact
      whose wiring holds letter (i - p) mod 26. */
  function Backward(w: string, i: int, p: int): (j: int)
    requires IsPermutation(w) && 0 <= i < 26
    ensures 0 <= j < 26
  {
    Index(Inverse(w)[(i - p) % 26])
  }

  /** Permutation wirings in slots 0, 1 and 2, the only slots the source reads. */
  predicate ThreeRotors(rotors: seq<(string, string)>) {
    && |rotors| >= 3
    && IsPermutation(rotors[0].1) && IsPermutation(rotors[1].1) && IsPermutation(rotors[2].1)
  }

  /** Three rotors and a reflector whose entries are letters. */
  predicate Wired(rotors: seq<(string, string)>, reflector: string) {
    ThreeRotors(rotors) && IsWiring(reflector)
  }

  /** Lines 82-98 from slot k on: through rotors k, ..., 2 in turn. */
  function ForwardFrom(rotors: seq<(string, string)>, i: int, p: seq<int>, k: nat): (j: int)
    requires ThreeRotors(rotors)
    requires 0 <= i < 26 && |p| == 3 && k <= 3
    ensures 0 <= j < 26
    decreases 3 - k
  {
    if k == 3 then i else ForwardFrom(rotors, Forward(rotors[k].1, i, p[k]), p, k + 1)
  }

  /** Lines 108-124 below slot k: back through rotors k - 1, ..., 0 in turn. */
  function BackwardFrom(rotors: seq<(string, string)>, i: int, p: seq<int>, k: nat): (j: int)
    requires ThreeRotors(rotors)
    requires 0 <= i < 26 && |p| == 3 && k <= 3
    ensures 0 <= j < 26
    decreases k
  {
    if k == 0 then i else BackwardFrom(rotors, Backward(rotors[k - 1].1, i, p[k - 1]), p, k - 1)
  }

  /** Lines 82-98: through rotors 0, 1 and 2. */
  function ForwardAll(rotors: seq<(string, string)>, i: int, p: seq<int>): (j: int)
    requires ThreeRotors(rotors)
    requires 0 <= i < 26 && |p| == 3
    ensures 0 <= j < 26
  {
    ForwardFrom(rotors, i, p, 0)
  }

  /** Lines 108-124: back through rotors 2, 1 and 0. */
  function BackwardAll(rotors: seq<(string, string)>, i: int, p: seq<int>): (j: int)
    requires ThreeRotors(rotors)
    requires 0 <= i < 26 && |p| == 3
    ensures 0 <= j < 26
  {
    BackwardFrom(rotors, i, p, 3)
  }

  /** The forward pass as the three rotor steps of lines 84-85, 90-91 and 96-97. */
  lemma ForwardAllSteps(rotors: seq<(string, string)>, i: int, p: seq<int>)
    requires ThreeRotors(rotors)
    requires 0 <= i < 26 && |p| == 3
    ensures ForwardAll(rotors, i, p)
      == Forward(rotors[2].1, Forward(rotors[1].1, Forward(rotors[0].1, i, p[0]), p[1]), p[2])
  {
    var f0 := Forward(rotors[0].1, i, p[0]);
    var f1 := Forward(rotors[1].1, f0, p[1]);
    var f2 := Forward(rotors[2].1, f1, p[2]);
    assert ForwardFrom(rotors, f2, p, 3) == f2;
    assert ForwardFrom(rotors, f1, p, 2) == f2;
    assert ForwardFrom(rotors, f0, p, 1) == f2;
  }

  /** The backward pass as the three rotor steps of lines 110-111, 116-117 and 122-123. */
  lemma BackwardAllSteps(rotors: seq<(string, string)>, i: int, p: seq<int>)
    requires ThreeRotors(rotors)
    requires 0 <= i < 26 && |p| == 3
    ensures BackwardAll(rotors, i, p)
      == Backward(rotors[0].1, Backward(rotors[1].1, Backward(rotors[2].1, i, p[2]), p[1]), p[0])
  {
    var b2 := Backward(rotors[2].1, i, p[2]);
    var b1 := Backward(rotors[1].1, b2, p[1]);
    var b0 := Backward(rotors[0].1, b1, p[0]);
    assert BackwardFrom(rotors, b0, p, 0) == b0;
    assert BackwardFrom(rotors, b1, p, 1) == b0;
    assert BackwardFrom(rotors, b2, p, 2) == b0;
  }

  /** Everything between the two plugboard passes. */
  function Scramble(rotors: seq<(string, string)>, reflector: string, i: int, p: seq<int>): (j: int)
    requires Wired(rotors, reflector) && 0 <= i < 26 && |p| == 3
    ensures 0 <= j < 26
  {
    BackwardAll(rotors, Reflect(reflector, ForwardAll(rotors, i, p)), p)
  }

  /** Lines 71-127: the lamp that lights for key `c` with the rotors at `p`. */
  function SignalPath(leads: seq<PlugLead>, rotors: seq<(string, string)>, reflector: string, c: char, p: seq<int>): (r: char)
    requires Wired(rotors, reflector) && IsLetter(c) && |p| == 3
    ensures IsLetter(r)
  {
    var out := Letter(Scramble(rotors, reflector, Index(Transformed(leads, c)), p));
    Transformed(leads, out)
  }

  /** Arithmetic for the forward pass: a position that is a multiple of 26 adds nothing. */
  lemma ModShift(i: int, p: int)
    requires 0 <= i < 26 && p % 26 == 0
    ensures (i + p) % 26 == i
  {
    assert p == 26 * (p / 26);
    assert i + p == 26 * (p / 26) + i;
  }

  /** Arithmetic for the backward pass: a position that is a multiple of 26 subtracts nothing. */
  lemma ModShiftBack(i: int, p: int)
    requires 0 <= i < 26 && p % 26 == 0
    ensures (i - p) % 26 == i
  {
    assert p == 26 * (p / 26);
    assert i - p == 26 * (-(p / 26)) + i;
  }

  /** Arithmetic for BackwardUndoesShiftedWiring: adding p and then subtracting it mod 26
      returns the contact. */
  lemma ModRoundTrip(j: int, p: int)
    requires 0 <= j < 26
    ensures ((j + p) % 26 - p) % 26 == j
  {
    var q := (j + p) / 26;
    assert (j + p) % 26 - p == 26 * (-q) + j;
  }

  lemma ForwardAtZero(w: string, i: int, p: int)
    requires IsWiring(w) && 0 <= i < 26 && p % 26 == 0
    ensures Forward(w, i, p) == Index(w[i])
  {
    ModShift(i, p);
  }

  lemma BackwardAtZero(w: string, i: int, p: int)
    requires IsPermutation(w) && 0 <= i < 26 && p % 26 == 0
    ensures Backward(w, i, p) == Index(Inverse(w)[i])
  {
    ModShiftBack(i, p);
  }

  /** Backward is the inverse of Forward when the rotor stands at a multiple of 26. */
  lemma BackwardUndoesForward(w: string, i: int, p: int)
    requires IsPermutation(w) && 0 <= i < 26 && p % 26 == 0
    ensures Backward(w, Forward(w, i, p), p) == i
    ensures Forward(w, Backward(w, i, p), p) == i
  {
    ForwardAtZero(w, i, p);
    BackwardAtZero(w, Index(w[i]), p);
    InverseUndoes(w, i);
    BackwardAtZero(w, i, p);
    ForwardAtZero(w, Index(Inverse(w)[i]), p);
  }

  /** What Backward does undo at any position: the wiring read at contact i (giving
      contact j) with the position added afterwards. */
  lemma BackwardUndoesShiftedWiring(w: string, i: int, j: int, p: int)
    requires IsPermutation(w) && 0 <= i < 26 && j == Index(w[i])
    ensures Backward(w, (j + p) % 26, p) == i
  {
    ModRoundTrip(j, p);
    InverseUndoes(w, i);
  }

  /** Backward leads to the position j at which the wiring holds the letter it reads. */
  lemma BackwardAt(w: string, i: int, p: int, j: int)
    requires IsPermutation(w) && 0 <= i < 26 && 0 <= j < 26 && w[j] == Letter((i - p) % 26)
    ensures Backward(w, i, p) == j
  {
    var c := Inverse(w)[(i - p) % 26];
    SamePosition(w, Index(c), j);
  }

  /** At position 0, Backward leads to the contact holding the letter it reads. */
  lemma BackwardAtZeroIs(w: string, i: int, j: int)
    requires |w| == 26 && Covers(w) && 0 <= i < 26 && 0 <= j < 26 && w[j] == Letter(i)
    ensures IsPermutation(w) && Backward(w, i, 0) == j
  {
    PermutationByCoverage(w);
    BackwardAt(w, i, 0, j);
  }

  /** Backward is not the inverse of Forward at other positions: rotor I at position 1
      sends contact 0 forward to 10 (K), and 10 backward to 25, not 0. */
  lemma BackwardIsNotInverseOffZero()
    ensures IsPermutation(WiringI)
    ensures Forward(WiringI, 0, 1) == 10
    ensures Backward(WiringI, Forward(WiringI, 0, 1), 1) == 25
  {
    assert WiringI[1] == 'K' && WiringI[25] == 'J';
    WiringICovers();
    OffZeroSteps(WiringI);
  }

  lemma OffZeroSteps(w: string)
    requires |w| == 26 && Covers(w) && w[1] == 'K' && w[25] == 'J'
    ensures IsPermutation(w) && Forward(w, 0, 1) == 10 && Backward(w, 10, 1) == 25
  {
    PermutationByCoverage(w);
    assert w[25] == Letter((10 - 1) % 26);
    BackwardAt(w, 10, 1, 25);
  }

  /** With every rotor at a multiple of 26, the scrambler undoes itself. */
  lemma ForwardBackwardAll(rotors: seq<(string, string)>, i: int, p: seq<int>)
    requires ThreeRotors(rotors)
    requires 0 <= i < 26 && |p| == 3 && (forall k :: 0 <= k < 3 ==> p[k] % 26 == 0)
    ensures BackwardAll(rotors, ForwardAll(rotors, i, p), p) == i
    ensures ForwardAll(rotors, BackwardAll(rotors, i, p), p) == i
  {
    ForwardAllSteps(rotors, i, p);
    BackwardAllSteps(rotors, ForwardAll(rotors, i, p), p);
    BackwardAllSteps(rotors, i, p);
    ForwardAllSteps(rotors, BackwardAll(rotors, i, p), p);
    var f0 := Forward(rotors[0].1, i, p[0]);
    var f1 := Forward(rotors[1].1, f0, p[1]);
    BackwardUndoesForward(rotors[0].1, i, p[0]);
    BackwardUndoesForward(rotors[1].1, f0, p[1]);
    BackwardUndoesForward(rotors[2].1, f1, p[2]);
    var b2 := Backward(rotors[2].1, i, p[2]);
    var b1 := Backward(rotors[1].1, b2, p[1]);
    BackwardUndoesForward(rotors[2].1, i, p[2]);
    BackwardUndoesForward(rotors[1].1, b2, p[1]);
    BackwardUndoesForward(rotors[0].1, b1, p[0]);
  }

  lemma ReflectTwice(w: string, i: int)
    requires IsReflector(w) && 0 <= i < 26
    ensures Reflect(w, Reflect(w, i)) == i
    ensures Reflect(w, i) != i
  {
    LetterOfIndex(w[i]);
  }

  /** At positions that are multiples of 26 the scrambler is an involution without
      fixed points. */
  lemma ScrambleInvolution(rotors: seq<(string, string)>, reflector: string, i: int, p: seq<int>)
    requires Wired(rotors, reflector) && IsReflector(reflector)
    requires 0 <= i < 26 && |p| == 3 && (forall k :: 0 <= k < 3 ==> p[k] % 26 == 0)
    ensures Scramble(rotors, reflector, Scramble(rotors, reflector, i, p), p) == i
    ensures Scramble(rotors, reflector, i, p) != i
  {
    var f := ForwardAll(rotors, i, p);
    var m := Reflect(reflector, f);
    var j := BackwardAll(rotors, m, p);
    ForwardBackwardAll(rotors, m, p);
    ReflectTwice(reflector, f);
    ForwardBackwardAll(rotors, i, p);
    assert ForwardAll(rotors, j, p) == m && m != f;
  }

  /** The two plugboard passes around a scrambler that is an involution without fixed
      points on the letter x that the first pass produces. */
  lemma PlugboardSandwich(leads: seq<PlugLead>, c: char, x: char, s: int, t: int)
    requires PairwiseDisjoint(leads) && IsLetter(c) && x == Transformed(leads, c)
    requires IsLetter(x) && 0 <= s < 26 && 0 <= t < 26
    requires s != Index(x) && Letter(t) == x
    ensures IsLetter(Letter(s)) && IsLetter(Transformed(leads, Letter(s)))
    ensures Transformed(leads, Transformed(leads, Letter(s))) == Letter(s)
    ensures Transformed(leads, Letter(t)) == c
    ensures Transformed(leads, Letter(s)) != c
  {
    TransformedInvolution(leads, Letter(s));
    TransformedInvolution(leads, c);
  }

  /** Reciprocity: with every rotor at a multiple of 26 (all at 0 in particular), an
      involutive reflector and a board of disjoint leads, pressing the lamp's letter
      lights the key's letter, and no letter lights itself. */
  lemma Reciprocal(leads: seq<PlugLead>, rotors: seq<(string, string)>, reflector: string, c: char, p: seq<int>)
    requires Wired(rotors, reflector) && IsReflector(reflector) && PairwiseDisjoint(leads)
    requires IsLetter(c) && |p| == 3 && (forall k :: 0 <= k < 3 ==> p[k] % 26 == 0)
    ensures SignalPath(leads, rotors, reflector, SignalPath(leads, rotors, reflector, c, p), p) == c
    ensures SignalPath(leads, rotors, reflector, c, p) != c
  {
    var x := Transformed(leads, c);
    var i := Index(x);
    ScrambleInvolution(rotors, reflector, i, p);
    var s := Scramble(rotors, reflector, i, p);
    LetterOfIndex(x);
    PlugboardSandwich(leads, c, x, s, Scramble(rotors, reflector, s, p));
    var out := Transformed(leads, Letter(s));
    assert SignalPath(leads, rotors, reflector, c, p) == out;
    assert Index(Transformed(leads, out)) == s;
  }

  /** The scrambler read off its intermediate contacts. */
  lemma ScrambleIs(rotors: seq<(string, string)>, reflector: string, i: int, p: seq<int>, f: int, m: int, b2: int, b1: int, b0: int)
    requires Wired(rotors, reflector) && 0 <= i < 26 && |p| == 3
    requires 0 <= f < 26 && f == ForwardAll(rotors, i, p) && m == Reflect(reflector, f)
    requires 0 <= m < 26 && b2 == Backward(rotors[2].1, m, p[2])
    requires 0 <= b2 < 26 && b1 == Backward(rotors[1].1, b2, p[1])
    requires 0 <= b1 < 26 && b0 == Backward(rotors[0].1, b1, p[0])
    ensures Scramble(rotors, reflector, i, p) == b0
  {
    BackwardAllSteps(rotors, m, p);
  }

  /** The scrambler read off its forward pass, the reflector and its backward pass. */
  lemma ScrambleOf(rotors: seq<(string, string)>, reflector: string, i: int, p: seq<int>, f: int, m: int, b: int)
    requires Wired(rotors, reflector) && 0 <= i < 26 && |p| == 3
    requires f == ForwardAll(rotors, i, p) && m == Reflect(reflector, f) && b == BackwardAll(rotors, m, p)
    ensures Scramble(rotors, reflector, i, p) == b
  {
  }

  /** Rotors I, II and III in slots 0, 1 and 2. */
  const ReferenceRotors: seq<(string, string)> := [("I", WiringI), ("II", WiringII), ("III", WiringIII)]

  lemma ReferenceWired()
    ensures Wired(ReferenceRotors, ReflectorB)
  {
    WiringIPermutes();
    WiringIIPermutes();
    WiringIIIPermutes();
    ReflectorBReflects();
  }

  /** Contact 0 leaves rotor III at contact 6. */
  lemma ReferenceForward()
    ensures Wired(ReferenceRotors, ReflectorB)
    ensures ForwardAll(ReferenceRotors, 0, [0, 0, 0]) == 6
  {
    assert WiringI[0] == 'E' && WiringII[4] == 'S' && WiringIII[18] == 'G';
    ReferenceWired();
    ForwardAtZero(WiringI, 0, 0);
    ForwardAtZero(WiringII, 4, 0);
    ForwardAtZero(WiringIII, 18, 0);
    ForwardAllSteps(ReferenceRotors, 0, [0, 0, 0]);
  }

  /** Reflector B sends contact 6 (G) to contact 11 (L). */
  lemma ReferenceReflect()
    ensures IsWiring(ReflectorB) && Reflect(ReflectorB, 6) == 11
  {
    assert ReflectorB[6] == 'L';
    ReflectorBCovers();
    PermutationByCoverage(ReflectorB);
  }

  /** Contact 11 comes back out of rotor I at contact 13. */
  lemma ReferenceBackward()
    ensures Wired(ReferenceRotors, ReflectorB)
    ensures BackwardAll(ReferenceRotors, 11, [0, 0, 0]) == 13
  {
    ReferenceWired();
    ReferenceBackwardIII();
    ReferenceBackwardII();
    ReferenceBackwardI();
    BackwardAllSteps(ReferenceRotors, 11, [0, 0, 0]);
  }

  lemma ReferenceBackwardIII()
    ensures IsPermutation(WiringIII) && Backward(WiringIII, 11, 0) == 5
  {
    assert WiringIII[5] == 'L';
    WiringIIICovers();
    BackwardAtZeroIs(WiringIII, 11, 5);
  }

  lemma ReferenceBackwardII()
    ensures IsPermutation(WiringII) && Backward(WiringII, 5, 0) == 22
  {
    assert WiringII[22] == 'F';
    WiringIICovers();
    BackwardAtZeroIs(WiringII, 5, 22);
  }

  lemma ReferenceBackwardI()
    ensures IsPermutation(WiringI) && Backward(WiringI, 22, 0) == 13
  {
    assert WiringI[13] == 'W';
    WiringICovers();
    BackwardAtZeroIs(WiringI, 22, 13);
  }

  /** Rotors I, II, III in slots 0, 1, 2, reflector B, no leads, all positions 0:
      key A lights N. */
  lemma ReferenceVector()
    ensures Wired(ReferenceRotors, ReflectorB)
    ensures SignalPath([], ReferenceRotors, ReflectorB, 'A', [0, 0, 0]) == 'N'
  {
    ReferenceReflect();
    ReferenceForward();
    ReferenceBackward();
    ScrambleOf(ReferenceRotors, ReflectorB, 0, [0, 0, 0], 6, 11, 13);
    TransformedEmpty('A');
    TransformedEmpty('N');
    SignalPathIs([], ReferenceRotors, ReflectorB, 'A', [0, 0, 0], 'A', 13, 'N');
  }

  /** Reciprocity needs every rotor at a multiple of 26: with rotor I at position 1,
      rotors II and III at 0, reflector B and no leads, key A lights D but key D
      lights T. */
  lemma ReciprocityFailsOffZero()
    ensures Wired(ReferenceRotors, ReflectorB)
    ensures SignalPath([], ReferenceRotors, ReflectorB, 'A', [1, 0, 0]) == 'D'
    ensures SignalPath([], ReferenceRotors, ReflectorB, 'D', [1, 0, 0]) == 'T'
  {
    OffZeroFromA();
    OffZeroFromD();
  }

  /** Key A at [1, 0, 0]: contacts 0, 10, 11, 21, reflected to 22, back through 17 and 6 to 3. */
  lemma OffZeroFromA()
    ensures Wired(ReferenceRotors, ReflectorB)
    ensures SignalPath([], ReferenceRotors, ReflectorB, 'A', [1, 0, 0]) == 'D'
  {
    assert Index('A') == 0 && Letter(3) == 'D';
    OffZeroReflect(21, 22);
    OffZeroForwardA();
    OffZeroBackwardA();
    OffZeroPath('A', 0, 21, 22, 3, 'D');
  }

  lemma OffZeroForwardA()
    ensures Wired(ReferenceRotors, ReflectorB) && ForwardAll(ReferenceRotors, 0, [1, 0, 0]) == 21
  {
    assert WiringI[(0 + 1) % 26] == Letter(10) && WiringII[10] == Letter(11) && WiringIII[11] == Letter(21);
    OffZeroForward(0, 10, 11, 21);
  }

  lemma OffZeroBackwardA()
    ensures Wired(ReferenceRotors, ReflectorB) && BackwardAll(ReferenceRotors, 22, [1, 0, 0]) == 3
  {
    assert WiringIII[17] == Letter(22) && WiringII[6] == Letter(17) && WiringI[3] == Letter((6 - 1) % 26);
    OffZeroBackward(22, 17, 6, 3);
  }

  /** Key D at [1, 0, 0]: contacts 3, 11, 7, 15, reflected to 8, back through 16 and 16 to 19. */
  lemma OffZeroFromD()
    ensures Wired(ReferenceRotors, ReflectorB)
    ensures SignalPath([], ReferenceRotors, ReflectorB, 'D', [1, 0, 0]) == 'T'
  {
    assert Index('D') == 3 && Letter(19) == 'T';
    OffZeroReflect(15, 8);
    OffZeroForwardD();
    OffZeroBackwardD();
    OffZeroPath('D', 3, 15, 8, 19, 'T');
  }

  lemma OffZeroForwardD()
    ensures Wired(ReferenceRotors, ReflectorB) && ForwardAll(ReferenceRotors, 3, [1, 0, 0]) == 15
  {
    assert WiringI[(3 + 1) % 26] == Letter(11) && WiringII[11] == Letter(7) && WiringIII[7] == Letter(15);
    OffZeroForward(3, 11, 7, 15);
  }

  lemma OffZeroBackwardD()
    ensures Wired(ReferenceRotors, ReflectorB) && BackwardAll(ReferenceRotors, 8, [1, 0, 0]) == 19
  {
    assert WiringIII[16] == Letter(8) && WiringII[16] == Letter(16) && WiringI[19] == Letter((16 - 1) % 26);
    OffZeroBackward(8, 16, 16, 19);
  }

  /** The lamp at [1, 0, 0] with no leads, read off the three passes. */
  lemma OffZeroPath(c: char, i: int, f: int, m: int, b: int, out: char)
    requires IsLetter(c) && i == Index(c) && IsLetter(out) && 0 <= b < 26 && Letter(b) == out
    requires Wired(ReferenceRotors, ReflectorB)
    requires f == ForwardAll(ReferenceRotors, i, [1, 0, 0]) && m == Reflect(ReflectorB, f)
    requires b == BackwardAll(ReferenceRotors, m, [1, 0, 0])
    ensures SignalPath([], ReferenceRotors, ReflectorB, c, [1, 0, 0]) == out
  {
    ScrambleOf(ReferenceRotors, ReflectorB, i, [1, 0, 0], f, m, b);
    TransformedEmpty(c);
    TransformedEmpty(out);
    SignalPathIs([], ReferenceRotors, ReflectorB, c, [1, 0, 0], c, b, out);
  }

  /** The forward pass at [1, 0, 0] from contact i, read off the letters the wirings hold. */
  lemma OffZeroForward(i: int, f0: int, f1: int, f2: int)
    requires 0 <= i < 26 && 0 <= f0 < 26 && 0 <= f1 < 26 && 0 <= f2 < 26
    requires WiringI[(i + 1) % 26] == Letter(f0) && WiringII[f0] == Letter(f1) && WiringIII[f1] == Letter(f2)
    ensures Wired(ReferenceRotors, ReflectorB)
    ensures ForwardAll(ReferenceRotors, i, [1, 0, 0]) == f2
  {
    ReferenceWired();
    ForwardAtZero(WiringII, f0, 0);
    ForwardAtZero(WiringIII, f1, 0);
    ForwardAllSteps(ReferenceRotors, i, [1, 0, 0]);
  }

  lemma OffZeroReflect(f: int, m: int)
    requires 0 <= f < 26 && 0 <= m < 26 && ReflectorB[f] == Letter(m)
    ensures IsWiring(ReflectorB) && Reflect(ReflectorB, f) == m
  {
    ReflectorBCovers();
    PermutationByCoverage(ReflectorB);
  }

  /** The backward pass at [1, 0, 0] from contact m, read off the contacts holding its letters. */
  lemma OffZeroBackward(m: int, b2: int, b1: int, b0: int)
    requires 0 <= m < 26 && 0 <= b2 < 26 && 0 <= b1 < 26 && 0 <= b0 < 26
    requires WiringIII[b2] == Letter(m) && WiringII[b1] == Letter(b2) && WiringI[b0] == Letter((b1 - 1) % 26)
    ensures Wired(ReferenceRotors, ReflectorB)
    ensures BackwardAll(ReferenceRotors, m, [1, 0, 0]) == b0
  {
    ReferenceWired();
    BackwardAtZeroIs(WiringIII, m, b2);
    BackwardAtZeroIs(WiringII, b2, b1);
    BackwardAt(WiringI, b1, 1, b0);
    BackwardAllSteps(ReferenceRotors, m, [1, 0, 0]);
  }

  // ---------------------------------------------------------------------------------
  // One key press (lines 49-135)

  /** The display string of line 74 indexes the alphabet with every position, which
      Python allows for -26..25. */
  predicate Displayable(p: seq<int>) {
    forall k :: 0 <= k < |p| ==> -26 <= p[k] < 26
  }

  /** Three positions are displayable exactly when each one is. */
  lemma DisplayableSlots(p: seq<int>)
    requires |p| == 3
    ensures Displayable(p) <==> -26 <= p[0] < 26 && -26 <= p[1] < 26 && -26 <= p[2] < 26
  {
  }

  /** The lamp (or the exception) and the positions after a key press. */
  datatype Pressed = Pressed(output: Result<char, Error>, positions: seq<int>)

  /** Lines 71-135: the output is computed from the positions on entry, and the rotors
      advance once, afterwards. */
  function KeyPress(leads: seq<PlugLead>, rotors: seq<(string, string)>, reflector: string, c: char, p: seq<int>, notches: Notches): (r: Pressed)
    requires Wired(rotors, reflector) && IsLetter(c) && |p| == 3
    ensures |r.positions| == 3
  {
    if !Displayable(p) then Pressed(Failure(IndexError), p)
    else
      var s := Advance(p, notches);
      if s.error.Some? then Pressed(Failure(s.error.value), s.positions)
      else Pressed(Success(SignalPath(leads, rotors, reflector, c, p)), s.positions)
  }

  /** The signal path read off the two plugboard passes and the scrambler. */
  lemma SignalPathIs(leads: seq<PlugLead>, rotors: seq<(string, string)>, reflector: string, c: char, p: seq<int>, x: char, s: int, out: char)
    requires Wired(rotors, reflector) && IsLetter(c) && |p| == 3
    requires x == Transformed(leads, c) && IsLetter(x)
    requires s == Scramble(rotors, reflector, Index(x), p) && out == Transformed(leads, Letter(s))
    ensures SignalPath(leads, rotors, reflector, c, p) == out
  {
  }

  /** A key press in positions the display cannot show raises and moves nothing. */
  lemma KeyPressUndisplayable(leads: seq<PlugLead>, rotors: seq<(string, string)>, reflector: string, c: char, p: seq<int>, notches: Notches)
    requires Wired(rotors, reflector) && IsLetter(c) && |p| == 3 && !Displayable(p)
    ensures KeyPress(leads, rotors, reflector, c, p, notches) == Pressed(Failure(IndexError), p)
  {
  }

  /** A key press in displayable positions, read off the signal path and the stepping. */
  lemma KeyPressIs(leads: seq<PlugLead>, rotors: seq<(string, string)>, reflector: string, c: char, p: seq<int>, notches: Notches)
    requires Wired(rotors, reflector) && IsLetter(c) && |p| == 3 && Displayable(p)
    ensures var s := Advance(p, notches);
      KeyPress(leads, rotors, reflector, c, p, notches)
      == Pressed(if s.error.Some? then Failure(s.error.value) else Success(SignalPath(leads, rotors, reflector, c, p)), s.positions)
  {
  }

  /** With no notch under the slot numbers (the name-keyed dictionary the program
      passes), a key press in displayable positions lights the signal-path letter and
      moves slot 0 only. */
  lemma KeyPressWithoutSlotKeys(leads: seq<PlugLead>, rotors: seq<(string, string)>, reflector: string, c: char, p: seq<int>, m: map<int, int>)
    requires Wired(rotors, reflector) && IsLetter(c) && |p| == 3 && Displayable(p)
    requires 0 !in m && 1 !in m
    ensures KeyPress(leads, rotors, reflector, c, p, NotchMap(m))
      == Pressed(Success(SignalPath(leads, rotors, reflector, c, p)), [(p[0] + 1) % 26, p[1], p[2]])
  {
    AdvanceWithoutSlotKeys(p, m);
  }

  /** Lines 71-127 of `encode_letter_with_rotor_advance`: the plugboard, the three rotors
      forward, the reflector, the three rotors backward and the plugboard again, all at
      the positions on entry. */
  method Lamp(board: Plugboard, rotors: seq<(string, string)>, reflector: (string, string), letter: char, positions: seq<int>)
    returns (out: char)
    requires Wired(rotors, reflector.1) && IsLetter(letter) && |positions| == 3
    ensures out == SignalPath(board.leads, rotors, reflector.1, letter, positions)
  {
    var plugboardInput := board.TransformCharacter(letter);
    var index := Index(plugboardInput);
    index := Forward(rotors[0].1, index, positions[0]);
    index := Forward(rotors[1].1, index, positions[1]);
    index := Forward(rotors[2].1, index, positions[2]);
    ghost var f := index;
    index := Reflect(reflector.1, index);
    ghost var m := index;
    index := Backward(rotors[2].1, index, positions[2]);
    ghost var b2 := index;
    index := Backward(rotors[1].1, index, positions[1]);
    ghost var b1 := index;
    index := Backward(rotors[0].1, index, positions[0]);
    ForwardAllSteps(rotors, Index(plugboardInput), positions);
    ScrambleIs(rotors, reflector.1, Index(plugboardInput), positions, f, m, b2, b1, index);
    var l := Letter(index);
    out := board.TransformCharacter(l);
    SignalPathIs(board.leads, rotors, reflector.1, letter, positions, plugboardInput, index, out);
  }

  /** `encode_letter_with_rotor_advance(plugboard, selected_rotors, selected_reflector,
      letter, rotor_positions, rotor_notches)`, without its printing: the display string
      of line 74 fails on positions outside -26..25, the lamp is computed from the
      positions on entry, and the rotors advance once, at line 133. */
  method EncodeLetterWithRotorAdvance(board: Plugboard, rotors: seq<(string, string)>, reflector: (string, string), letter: char, positions: array<int>, notches: Notches)
    returns (r: Result<char, Error>)
    requires Wired(rotors, reflector.1) && IsLetter(letter) && positions.Length == 3
    modifies positions
    ensures Pressed(r, positions[..]) == KeyPress(board.leads, rotors, reflector.1, letter, old(positions[..]), notches)
  {
    var p := positions[..];
    DisplayableSlots(p);
    if !(-26 <= positions[0] < 26 && -26 <= positions[1] < 26 && -26 <= positions[2] < 26) {
      KeyPressUndisplayable(board.leads, rotors, reflector.1, letter, p, notches);
      return Failure(IndexError);
    }
    KeyPressIs(board.leads, rotors, reflector.1, letter, p, notches);
    var finalOutput, error := LampAndAdvance(board, rotors, reflector, letter, positions, notches);
    if error.Some? {
      return Failure(error.value);
    }
    return Success(finalOutput);
  }

  /** Lines 71-135 once the display has been printed: the lamp from the positions on
      entry, then one step of the rotors. */
  method LampAndAdvance(board: Plugboard, rotors: seq<(string, string)>, reflector: (string, string), letter: char, positions: array<int>, notches: Notches)
    returns (out: char, error: Option<Error>)
    requires Wired(rotors, reflector.1) && IsLetter(letter) && positions.Length == 3
    modifies positions
    ensures out == SignalPath(board.leads, rotors, reflector.1, letter, old(positions[..]))
    ensures Stepped(positions[..], error) == Advance(old(positions[..]), notches)
  {
    out := Lamp(board, rotors, reflector, letter, positions[..]);
    error := AdvanceRotors(positions, notches);
  }

  // ---------------------------------------------------------------------------------
  // encode_message_with_rotor_advance (lines 138-192)

  /** A message encoding in progress: the text (or the exception) and the positions. */
  datatype Run = Run(output: Result<string, Error>, positions: seq<int>)

  /** `acc` written before whatever the rest of the run produces. */
  function After(acc: string, run: Run): Run {
    match run.output
    case Success(s) => Run(Success(acc + s), run.positions)
    case Failure(e) => run
  }

  lemma AfterAfter(a: string, b: string, run: Run)
    ensures After(a, After(b, run)) == After(a + b, run)
  {
    if run.output.Success? {
      assert a + (b + run.output.value) == (a + b) + run.output.value;
    }
  }

  lemma AfterNothing(run: Run)
    ensures After([], run) == run
  {
    if run.output.Success? {
      assert [] + run.output.value == run.output.value;
    }
  }

  /** Lines 155-158: the first selected rotor whose name has no notch. */
  function MissingNotch(rotors: seq<(string, string)>, notches: map<string, int>): (r: Option<string>)
    ensures r.None? <==> forall k :: 0 <= k < |rotors| ==> rotors[k].0 in notches
    ensures r.Some? ==> r.value !in notches && exists k :: 0 <= k < |rotors| && rotors[k].0 == r.value
  {
    if rotors == [] then None
    else if rotors[0].0 !in notches then Some(rotors[0].0)
    else
      var r := MissingNotch(rotors[1..], notches);
      assert r.None? ==> forall k :: 1 <= k < |rotors| ==> rotors[k].0 == rotors[1..][k - 1].0;
      r
  }

  /** Line 162: the notches of the selected rotors, as a list. */
  function NotchValues(rotors: seq<(string, string)>, notches: map<string, int>): (r: seq<int>)
    requires forall k :: 0 <= k < |rotors| ==> rotors[k].0 in notches
    ensures |r| == |rotors| && forall k :: 0 <= k < |rotors| ==> r[k] == notches[rotors[k].0]
  {
    seq(|rotors|, k requires 0 <= k < |rotors| => notches[rotors[k].0])
  }

  /** Lines 173-192 for the rest `m` of the message: a letter is encoded with
      `encode_letter_with_rotor_advance` (using `notches` for `advance_rotors`) and then
      `update_rotor_positions` runs; any other character is copied. A run that succeeds
      writes one character per character of the message. */
  function RotorAdvanceLoop(leads: seq<PlugLead>, rotors: seq<(string, string)>, reflector: string, m: string, p: seq<int>, notches: Notches, dict: map<string, int>): (r: Run)
    requires Wired(rotors, reflector) && |p| == 3
    ensures |r.positions| == 3
    ensures r.output.Success? ==> |r.output.value| == |m|
    decreases |m|
  {
    if m == [] then Run(Success([]), p)
    else if !IsLetter(m[0]) then After([m[0]], RotorAdvanceLoop(leads, rotors, reflector, m[1..], p, notches, dict))
    else
      var k := KeyPress(leads, rotors, reflector, m[0], p, notches);
      match k.output
      case Failure(e) => Run(Failure(e), k.positions)
      case Success(c) =>
        var u := UpdateFrom(k.positions, 0, dict, RotorNames(rotors));
        if u.error.Some? then Run(Failure(u.error.value), u.positions)
        else After([c], RotorAdvanceLoop(leads, rotors, reflector, m[1..], u.positions, notches, dict))
  }

  /** Lines 154-192 as a whole: a missing notch is reported first, with nothing moved. */
  function RotorAdvanceRun(leads: seq<PlugLead>, rotors: seq<(string, string)>, reflector: string, m: string, p: seq<int>, dict: map<string, int>): (r: Run)
    requires Wired(rotors, reflector) && |p| == 3
    ensures r.output.Success? ==> |r.output.value| == |m|
    ensures MissingNotch(rotors, dict).Some? ==> r == Run(Failure(KeyError(MissingNotch(rotors, dict).value)), p)
  {
    match MissingNotch(rotors, dict)
    case Some(name) => Run(Failure(KeyError(name)), p)
    case None => RotorAdvanceLoop(leads, rotors, reflector, m, p, NotchList(NotchValues(rotors, dict)), dict)
  }

  /** Lines 173-192 with the notch argument of `advance_rotors` as a parameter. */
  method EncodeLoop(board: Plugboard, rotors: seq<(string, string)>, reflector: (string, string), message: string, positions: array<int>, notches: Notches, dict: map<string, int>)
    returns (r: Result<string, Error>)
    requires Wired(rotors, reflector.1) && positions.Length == 3
    modifies positions
    ensures Run(r, positions[..]) == RotorAdvanceLoop(board.leads, rotors, reflector.1, message, old(positions[..]), notches, dict)
  {
    var encoded: string := [];
    var i := 0;
    assert message[0..] == message;
    AfterNothing(RotorAdvanceLoop(board.leads, rotors, reflector.1, message, positions[..], notches, dict));
    while i < |message|
      invariant 0 <= i <= |message|
      invariant After(encoded, RotorAdvanceLoop(board.leads, rotors, reflector.1, message[i..], positions[..], notches, dict))
             == RotorAdvanceLoop(board.leads, rotors, reflector.1, message, old(positions[..]), notches, dict)
    {
      var letter := message[i];
      assert message[i..][0] == letter && message[i..][1..] == message[i + 1..];
      if IsLetter(letter) {
        var out := EncodeLetterWithRotorAdvance(board, rotors, reflector, letter, positions, notches);
        if out.Failure? {
          return Failure(out.error);
        }
        var error := UpdateRotorPositions(positions, dict, rotors);
        if error.Some? {
          return Failure(error.value);
        }
        AfterAfter(encoded, [out.value], RotorAdvanceLoop(board.leads, rotors, reflector.1, message[i + 1..], positions[..], notches, dict));
        encoded := encoded + [out.value];
      } else {
        AfterAfter(encoded, [letter], RotorAdvanceLoop(board.leads, rotors, reflector.1, message[i + 1..], positions[..], notches, dict));
        encoded := encoded + [letter];
      }
      i := i + 1;
    }
    assert message[i..] == [];
    assert encoded + [] == encoded;
    return Success(encoded);
  }

  /** `encode_message_with_rotor_advance(plugboard, selected_rotors, selected_reflector,
      message, rotor_positions, rotor_notches_dict, ring_settings)`; the ring settings
      are not read. */
  method EncodeMessageWithRotorAdvance(board: Plugboard, rotors: seq<(string, string)>, reflector: (string, string), message: string, positions: array<int>, dict: map<string, int>, ringSettings: seq<int>)
    returns (r: Result<string, Error>)
    requires Wired(rotors, reflector.1) && positions.Length == 3
    modifies positions
    ensures Run(r, positions[..]) == RotorAdvanceRun(board.leads, rotors, reflector.1, message, old(positions[..]), dict)
  {
    var i := 0;
    while i < |rotors|
      invariant 0 <= i <= |rotors|
      invariant forall k :: 0 <= k < i ==> rotors[k].0 in dict
    {
      if rotors[i].0 !in dict {
        MissingNotchIsFirst(rotors, dict, i);
        return Failure(KeyError(rotors[i].0));
      }
      i := i + 1;
    }
    var notchList := NotchValues(rotors, dict);
    r := EncodeLoop(board, rotors, reflector, message, positions, NotchList(notchList), dict);
  }

  lemma {:induction false} MissingNotchIsFirst(rotors: seq<(string, string)>, dict: map<string, int>, i: int)
    requires 0 <= i < |rotors| && rotors[i].0 !in dict
    requires forall k :: 0 <= k < i ==> rotors[k].0 in dict
    ensures MissingNotch(rotors, dict) == Some(rotors[i].0)
  {
    if i > 0 {
      MissingNotchIsFirst(rotors[1..], dict, i - 1);
    }
  }

  predicate HasLetter(m: string) {
    exists k :: 0 <= k < |m| && IsLetter(m[k])
  }

  /** The driver as written stops at the first letter: `advance_rotors` is handed the
      list of line 162 and raises `AttributeError` (or line 74 raises `IndexError` first),
      so lines 186-188 never run. A message without letters comes back unchanged. */
  lemma {:induction false} RotorAdvanceStopsAtFirstLetter(leads: seq<PlugLead>, rotors: seq<(string, string)>, reflector: string, m: string, p: seq<int>, values: seq<int>, dict: map<string, int>)
    requires Wired(rotors, reflector) && |p| == 3
    ensures !HasLetter(m) ==> RotorAdvanceLoop(leads, rotors, reflector, m, p, NotchList(values), dict) == Run(Success(m), p)
    ensures HasLetter(m) && Displayable(p) ==>
      RotorAdvanceLoop(leads, rotors, reflector, m, p, NotchList(values), dict)
        == Run(Failure(AttributeError), [(p[0] + 1) % 26, p[1], p[2]])
    ensures HasLetter(m) && !Displayable(p) ==>
      RotorAdvanceLoop(leads, rotors, reflector, m, p, NotchList(values), dict) == Run(Failure(IndexError), p)
  {
    if m != [] && !IsLetter(m[0]) {
      RotorAdvanceStopsAtFirstLetter(leads, rotors, reflector, m[1..], p, values, dict);
      if HasLetter(m) {
        var k :| 0 <= k < |m| && IsLetter(m[k]);
        assert IsLetter(m[1..][k - 1]);
      } else {
        assert forall k :: 0 <= k < |m| - 1 ==> m[1..][k] == m[k + 1];
        assert [m[0]] + m[1..] == m;
      }
    }
  }

  /** A rotor with no notch is reported before anything is encoded, and nothing moves. */
  lemma RotorAdvanceChecksNotches(leads: seq<PlugLead>, rotors: seq<(string, string)>, reflector: string, m: string, p: seq<int>, dict: map<string, int>, k: int)
    requires Wired(rotors, reflector) && |p| == 3
    requires 0 <= k < |rotors| && rotors[k].0 !in dict
    ensures RotorAdvanceRun(leads, rotors, reflector, m, p, dict).positions == p
    ensures RotorAdvanceRun(leads, rotors, reflector, m, p, dict).output.Failure?
    ensures RotorAdvanceRun(leads, rotors, reflector, m, p, dict).output.error.KeyError?
  {
  }

  /** Were the crash absent (a notch dictionary in place of the list), each letter
      would step the rotors twice: once in `advance_rotors` and once more in
      `update_rotor_positions`. With no notch under the slot numbers, slot 0 ends up two
      further on and neither step raises. */
  lemma StepsTwiceWithoutCrash(p: seq<int>, m: map<int, int>, dict: map<string, int>, rotors: seq<(string, string)>)
    requires |p| == 3 && 0 !in m && 1 !in m
    requires |rotors| >= 3 && forall k :: 0 <= k < 3 ==> rotors[k].0 in dict
    ensures Advance(p, NotchMap(m)).error == None
    ensures var u := UpdateFrom(Advance(p, NotchMap(m)).positions, 0, dict, RotorNames(rotors));
      u.error == None && u.positions[0] == (p[0] + 2) % 26
  {
    AdvanceWithoutSlotKeys(p, m);
    SecondStep(p[0], p[1], p[2], dict, RotorNames(rotors));
  }

  /** `update_rotor_positions` right after `advance_rotors` moved slot 0: slot 0 has
      moved on by two and nothing raised. */
  lemma SecondStep(x: int, y: int, z: int, dict: map<string, int>, names: seq<string>)
    requires |names| >= 3 && forall k :: 0 <= k < 3 ==> names[k] in dict
    ensures UpdateFrom([(x + 1) % 26, y, z], 0, dict, names).error == None
    ensures UpdateFrom([(x + 1) % 26, y, z], 0, dict, names).positions[0] == (x + 2) % 26
  {
    UpdateThreeSlots((x + 1) % 26, y, z, dict, names);
    ModAddOne(x, 1);
  }
}
