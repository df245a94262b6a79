/**
 * The message driver the program runs (EnigmaMachine/ui/chooseMode.py): every
 * upper-case letter is encoded with the shared position list, which each key press
 * advances; every other character is copied. The step-log strings are not modelled.
 */
module ChooseMode {
  import opened Wrappers
  import opened Alphabet
  import opened EnigmaPlugs
  import opened EncodingMessage

  /** The program passes the notch dictionary keyed by rotor names as the notch argument
      of `advance_rotors`, whose `.get(0)` and `.get(1)` then find nothing. */
  const NameKeyed: Notches := NotchMap(map[])

  /** `encode_letter_with_steps(plugboard, selected_rotors, selected_reflector, letter,
      rotor_positions, rotor_notches_dict, ring_settings)` without its step log: one key
      press with the name-keyed dictionary. The ring settings are not read. */
  method EncodeLetterWithSteps(board: Plugboard, rotors: seq<(string, string)>, reflector: (string, string), letter: char,
                               positions: array<int>, dict: map<string, int>, ringSettings: seq<int>)
    returns (r: Result<char, Error>)
    requires Wired(rotors, reflector.1) && IsLetter(letter) && positions.Length == 3
    modifies positions
    ensures Pressed(r, positions[..]) == KeyPress(board.leads, rotors, reflector.1, letter, old(positions[..]), NameKeyed)
  {
    r := EncodeLetterWithRotorAdvance(board, rotors, reflector, letter, positions, NameKeyed);
  }

  /** Lines 30-44 for the rest `m` of the message, from positions `p`. */
  function StepsLoop(leads: seq<PlugLead>, rotors: seq<(string, string)>, reflector: string, m: string, p: seq<int>): (r: Run)
    requires Wired(rotors, reflector) && |p| == 3
    ensures |r.positions| == 3
    ensures r.output.Success? ==> |r.output.value| == |m|
    decreases |m|
  {
    if m == [] then Run(Success([]), p)
    else if !IsLetter(m[0]) then After([m[0]], StepsLoop(leads, rotors, reflector, m[1..], p))
    else
      var k := KeyPress(leads, rotors, reflector, m[0], p, NameKeyed);
      match k.output
      case Failure(e) => Run(Failure(e), k.positions)
      case Success(c) => After([c], StepsLoop(leads, rotors, reflector, m[1..], k.positions))
  }

  /** `encode_message_with_steps(plugboard, selected_rotors, selected_reflector, message,
      rotor_positions, rotor_notches_dict, ring_settings)` without the step log. The
      ring settings are not read. */
  method EncodeMessageWithSteps(board: Plugboard, rotors: seq<(string, string)>, reflector: (string, string), message: string,
                                positions: array<int>, dict: map<string, int>, ringSettings: seq<int>)
    returns (r: Result<string, Error>)
    requires Wired(rotors, reflector.1) && positions.Length == 3
    modifies positions
    ensures Run(r, positions[..]) == StepsLoop(board.leads, rotors, reflector.1, message, old(positions[..]))
  {
    var encoded: string := [];
    var i := 0;
    assert message[0..] == message;
    AfterNothing(StepsLoop(board.leads, rotors, reflector.1, message, positions[..]));
    while i < |message|
      invariant 0 <= i <= |message|
      invariant After(encoded, StepsLoop(board.leads, rotors, reflector.1, message[i..], positions[..]))
             == StepsLoop(board.leads, rotors, reflector.1, message, old(positions[..]))
    {
      var letter := message[i];
      assert message[i..][0] == letter && message[i..][1..] == message[i + 1..];
      if IsLetter(letter) {
        var out := EncodeLetterWithSteps(board, rotors, reflector, letter, positions, dict, ringSettings);
        if out.Failure? {
          return Failure(out.error);
        }
        AfterAfter(encoded, [out.value], StepsLoop(board.leads, rotors, reflector.1, message[i + 1..], positions[..]));
        encoded := encoded + [out.value];
      } else {
        AfterAfter(encoded, [letter], StepsLoop(board.leads, rotors, reflector.1, message[i + 1..], positions[..]));
        encoded := encoded + [letter];
      }
      i := i + 1;
    }
    assert message[i..] == [];
    assert encoded + [] == encoded;
    return Success(encoded);
  }

  // ---------------------------------------------------------------------------------
  // What the driver promises

  /** The number of upper-case letters in `m`: the key presses it takes. */
  function LetterCount(m: string): (n: nat)
    ensures n <= |m|
  {
    if m == [] then 0 else (if IsLetter(m[0]) then 1 else 0) + LetterCount(m[1..])
  }

  /** One key press with the name-keyed dictionary moves slot 0 only: `advance_rotors`
      steps to these positions and raises nothing. */
  function Next(p: seq<int>): (q: seq<int>)
    requires |p| == 3
    ensures Advance(p, NameKeyed) == Stepped(q, None)
  {
    AdvanceWithoutSlotKeys(p, map[]);
    [(p[0] + 1) % 26, p[1], p[2]]
  }

  /** A letter at the front in displayable positions lights its signal-path letter
      and moves slot 0 on by one. */
  lemma StepsLoopLetter(leads: seq<PlugLead>, rotors: seq<(string, string)>, reflector: string, m: string, p: seq<int>)
    requires Wired(rotors, reflector) && |p| == 3 && Displayable(p)
    requires m != [] && IsLetter(m[0])
    ensures StepsLoop(leads, rotors, reflector, m, p)
      == After([SignalPath(leads, rotors, reflector, m[0], p)], StepsLoop(leads, rotors, reflector, m[1..], Next(p)))
  {
    KeyPressWithoutSlotKeys(leads, rotors, reflector, m[0], p, map[]);
  }

  lemma NextDisplayable(p: seq<int>)
    requires |p| == 3 && Displayable(p)
    ensures Displayable(Next(p)) && 0 <= Next(p)[0] < 26
  {
  }

  /** Stepping once more after n steps is stepping n + 1 times. */
  lemma AdvanceNNext(p: seq<int>, n: nat)
    requires |p| == 3
    ensures AdvanceN(p, map[], n + 1) == AdvanceN(Next(p), map[], n)
  {
    AdvanceWithoutSlotKeys(p, map[]);
  }

  /** From displayable positions the driver never raises, writes one character per
      character of the message, and leaves the positions stepped once per letter. */
  lemma {:induction false} StepsSucceed(leads: seq<PlugLead>, rotors: seq<(string, string)>, reflector: string, m: string, p: seq<int>)
    requires Wired(rotors, reflector) && |p| == 3 && Displayable(p)
    ensures StepsLoop(leads, rotors, reflector, m, p).output.Success?
    ensures |StepsLoop(leads, rotors, reflector, m, p).output.value| == |m|
    ensures StepsLoop(leads, rotors, reflector, m, p).positions == AdvanceN(p, map[], LetterCount(m))
    decreases |m|
  {
    if m != [] {
      if IsLetter(m[0]) {
        StepsLoopLetter(leads, rotors, reflector, m, p);
        NextDisplayable(p);
        StepsSucceed(leads, rotors, reflector, m[1..], Next(p));
        AdvanceNNext(p, LetterCount(m[1..]));
      } else {
        StepsSucceed(leads, rotors, reflector, m[1..], p);
      }
    }
  }

  /** Positions a key press cannot display (outside -26..25 in some slot) raise
      `IndexError` at the first letter and are left as they were. */
  lemma {:induction false} StepsFailUndisplayable(leads: seq<PlugLead>, rotors: seq<(string, string)>, reflector: string, m: string, p: seq<int>)
    requires Wired(rotors, reflector) && |p| == 3 && !Displayable(p) && HasLetter(m)
    ensures StepsLoop(leads, rotors, reflector, m, p) == Run(Failure(IndexError), p)
    decreases |m|
  {
    if !IsLetter(m[0]) {
      assert HasLetter(m[1..]) by {
        var k :| 0 <= k < |m| && IsLetter(m[k]);
        assert m[1..][k - 1] == m[k];
      }
      StepsFailUndisplayable(leads, rotors, reflector, m[1..], p);
    }
  }

  /** Character k of the output: a letter is encoded with slot 0 moved on once for each
      letter before it, and any other character (lower case, digits, spaces) is copied. */
  lemma {:induction false} StepsOutputAt(leads: seq<PlugLead>, rotors: seq<(string, string)>, reflector: string, m: string, p: seq<int>, k: int)
    requires Wired(rotors, reflector) && |p| == 3 && Displayable(p) && 0 <= k < |m|
    ensures StepsLoop(leads, rotors, reflector, m, p).output.Success?
    ensures |StepsLoop(leads, rotors, reflector, m, p).output.value| == |m|
    ensures StepsLoop(leads, rotors, reflector, m, p).output.value[k]
         == if IsLetter(m[k]) then SignalPath(leads, rotors, reflector, m[k], AdvanceN(p, map[], LetterCount(m[..k]))) else m[k]
    decreases |m|, 1
  {
    if IsLetter(m[0]) {
      OutputAfterLetter(leads, rotors, reflector, m, p, k);
    } else {
      OutputAfterOther(leads, rotors, reflector, m, p, k);
    }
  }

  lemma {:induction false} OutputAfterLetter(leads: seq<PlugLead>, rotors: seq<(string, string)>, reflector: string, m: string, p: seq<int>, k: int)
    requires Wired(rotors, reflector) && |p| == 3 && Displayable(p) && 0 <= k < |m| && IsLetter(m[0])
    ensures StepsLoop(leads, rotors, reflector, m, p).output.Success?
    ensures |StepsLoop(leads, rotors, reflector, m, p).output.value| == |m|
    ensures StepsLoop(leads, rotors, reflector, m, p).output.value[k]
         == if IsLetter(m[k]) then SignalPath(leads, rotors, reflector, m[k], AdvanceN(p, map[], LetterCount(m[..k]))) else m[k]
    decreases |m|, 0
  {
    var rest := m[1..];
    var q := Next(p);
    StepsLoopLetter(leads, rotors, reflector, m, p);
    NextDisplayable(p);
    StepsSucceed(leads, rotors, reflector, rest, q);
    var run := StepsLoop(leads, rotors, reflector, rest, q);
    AfterAt([SignalPath(leads, rotors, reflector, m[0], p)], run, k);
    if k > 0 {
      StepsOutputAt(leads, rotors, reflector, rest, q, k - 1);
      PrefixCount(m, k);
      AdvanceNNext(p, LetterCount(rest[..k - 1]));
      assert rest[k - 1] == m[k];
    } else {
      assert m[..0] == [];
    }
  }

  lemma {:induction false} OutputAfterOther(leads: seq<PlugLead>, rotors: seq<(string, string)>, reflector: string, m: string, p: seq<int>, k: int)
    requires Wired(rotors, reflector) && |p| == 3 && Displayable(p) && 0 <= k < |m| && !IsLetter(m[0])
    ensures StepsLoop(leads, rotors, reflector, m, p).output.Success?
    ensures |StepsLoop(leads, rotors, reflector, m, p).output.value| == |m|
    ensures StepsLoop(leads, rotors, reflector, m, p).output.value[k]
         == if IsLetter(m[k]) then SignalPath(leads, rotors, reflector, m[k], AdvanceN(p, map[], LetterCount(m[..k]))) else m[k]
    decreases |m|, 0
  {
    var rest := m[1..];
    StepsSucceed(leads, rotors, reflector, rest, p);
    var run := StepsLoop(leads, rotors, reflector, rest, p);
    assert StepsLoop(leads, rotors, reflector, m, p) == After([m[0]], run);
    AfterAt([m[0]], run, k);
    if k > 0 {
      StepsOutputAt(leads, rotors, reflector, rest, p, k - 1);
      PrefixCount(m, k);
      assert rest[k - 1] == m[k];
    }
  }

  /** Character k of a run that `c` was written before. */
  lemma AfterAt(c: string, run: Run, k: int)
    requires |c| == 1 && run.output.Success? && 0 <= k <= |run.output.value|
    ensures After(c, run).output.Success? && |After(c, run).output.value| == 1 + |run.output.value|
    ensures After(c, run).output.value[k] == if k == 0 then c[0] else run.output.value[k - 1]
  {
  }

  /** Counting the letters before position k, k > 0, counts the first one and then those of the rest. */
  lemma PrefixCount(m: string, k: int)
    requires 0 < k <= |m|
    ensures LetterCount(m[..k]) == (if IsLetter(m[0]) then 1 else 0) + LetterCount(m[1..][..k - 1])
  {
    assert m[..k][0] == m[0] && m[..k][1..] == m[1..][..k - 1];
  }

  /** Consequently, from a slot 0 in 0..25 (the program starts at [0, 0, 0]) and after
      the n letters of the message, slot 0 reads (p[0] + n) mod 26 and slots 1 and 2 are
      as they were. */
  lemma StepsFinalPositions(leads: seq<PlugLead>, rotors: seq<(string, string)>, reflector: string, m: string, p: seq<int>)
    requires Wired(rotors, reflector) && |p| == 3 && Displayable(p) && 0 <= p[0] < 26
    ensures StepsLoop(leads, rotors, reflector, m, p).positions == [(p[0] + LetterCount(m)) % 26, p[1], p[2]]
  {
    StepsSucceed(leads, rotors, reflector, m, p);
    AdvanceNWithoutSlotKeys(p, map[], LetterCount(m));
  }
}
