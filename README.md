# Enigma simulator core in Dafny

This project models the cipher engine of a three-rotor Enigma simulator written in Python:

- the plugboard of plug leads;
- the rotor, reflector and notch tables, and the rules by which a typed rotor name, reflector name or ring setting is accepted;
- the two rotor-stepping routines;
- the signal path of one key press;
- the two message drivers.

Letters are the characters 'A'..'Z'. Between the two plugboard passes a letter travels as a contact index 0..25. Rotor positions are unbounded integers, as in Python. The three-slot position list that the source changes in place is an `array<int>` of length 3.

Every routine that changes the position list is a method with a `modifies` clause. Each one is proved equal to a specification function of the old positions (`Advance`, `UpdateFrom`, `KeyPress`, `RotorAdvanceLoop`, `StepsLoop`), and the lemmas state the properties of those functions.

The model keeps these quirks of the source:

- **Decoding is not the reverse of encoding.** The backward pass subtracts the rotor position before it reads the inverse wiring. Backward undoes forward at positions that are multiples of 26 (`BackwardUndoesForward`), and there, with a reflector and a board of disjoint leads, every key press is reciprocal (`Reciprocal`). Off those positions neither need hold. For example, rotor I at position 1 sends contact 0 forward to 10 and 10 backward to 25 (`BackwardIsNotInverseOffZero`). With rotor I at 1, rotors II and III at 0, reflector B and no leads, key A lights D but key D lights T (`ReciprocityFailsOffZero`).
- **The running program never carries.** It hands the notch dictionary keyed by rotor names to `advance_rotors`. That routine looks notches up under slot numbers 0 and 1, so only slot 0 ever moves.
- **The other driver crashes.** `encode_message_with_rotor_advance` passes a list of notches, which has no `.get`. It therefore raises `AttributeError` on the first letter, after slot 0 has already stepped.
- **Ring settings are never read.**
- **Invalid positions raise before anything else happens.** Positions outside -26..25 make the position display of a key press raise `IndexError` first.

The `Plugboard` is a class whose `leads` sequence is reassigned by `AddLead`. `TransformCharacter` is its early-exit loop.

Modules, in dependency order:

- `Wrappers`: `Option`, `Result` and the exceptions.
- `Alphabet`: letters, indices, permutations and their inverses, reflectors.
- `Text`: the Python string built-ins the acceptance rules use, on ASCII.
- `EnigmaPlugs`
- `EnigmaRotors`
- `EncodingMessage`
- `ChooseMode`

## Model

| member | source | states |
|---|---|---|
| EnigmaPlugs.NewPlugLead | EnigmaMachine/core/enigmaPlugs.py:12-25 | a lead is made exactly when the mapping is two alphabetic characters; otherwise ValueError; the stored letters are the upper-cased pair |
| EnigmaPlugs.NewPlugLeadIgnoresCase | EnigmaMachine/core/enigmaPlugs.py:25 | a mapping and its upper-cased form make the same lead ("ag" behaves as "AG") |
| EnigmaPlugs.Encode | EnigmaMachine/core/enigmaPlugs.py:27-42 | a lead changes an (upper-cased) character only when both it and the result are letters of the lead, and sends an ASCII letter to an upper-case letter |
| EnigmaPlugs.EncodeSwaps | EnigmaMachine/core/enigmaPlugs.py:37-42 | a lead sends its first letter to its second and back, fixes every other letter, and encoding twice gives the letter back |
| EnigmaPlugs.PlugLeadExamples | EnigmaMachine/tests/test.py:22-30 | "AG" maps A to G, G to A, D to D; "DA" maps D to A, A to D, C to C; "A", "A1", "ABC" raise ValueError and "AA" is accepted |
| EnigmaPlugs.PlugboardTestCases | EnigmaMachine/tests/test.py:52-67 | "AG" sends A to G and G to A and fixes B..F, alone and as a one-lead board |
| EnigmaPlugs.Transformed | EnigmaMachine/core/enigmaPlugs.py:62-75 | an upper-case letter stays an upper-case letter through the board |
| EnigmaPlugs.TransformedEmpty | EnigmaMachine/core/enigmaPlugs.py:71-75 | a board without leads returns every character unchanged |
| EnigmaPlugs.TransformedUnchanged | EnigmaMachine/core/enigmaPlugs.py:71-75 | when no lead changes the character the board returns it |
| EnigmaPlugs.TransformedByFirst | EnigmaMachine/core/enigmaPlugs.py:71-74 | the first lead that changes the character decides the result; later leads are ignored |
| EnigmaPlugs.TransformedWitness | EnigmaMachine/core/enigmaPlugs.py:71-74 | conversely, a changed character is the output of the first lead that changes it |
| EnigmaPlugs.TransformedInvolution | EnigmaMachine/core/enigmaPlugs.py:71-75 | on a board whose leads share no letter, transforming twice returns the letter |
| EnigmaPlugs.Plugboard.constructor | EnigmaMachine/core/enigmaPlugs.py:48-50 | a new board has no leads |
| EnigmaPlugs.Plugboard.AddLead | EnigmaMachine/core/enigmaPlugs.py:52-58 | the lead is appended after the existing leads, which keep their order |
| EnigmaPlugs.Plugboard.TransformCharacter | EnigmaMachine/core/enigmaPlugs.py:62-75 | the loop returns the board's transform of the character |
| EnigmaPlugs.AcceptsLead | EnigmaMachine/core/enigmaPlugs.py:90-94 | an entry is accepted if and only if, stripped, it is two alphabetic characters whose upper-case forms are both unused |
| EnigmaPlugs.AcceptedLead | EnigmaMachine/core/enigmaPlugs.py:90-95 | an accepted entry makes a lead of its two upper-case letters, neither already used |
| EnigmaPlugs.CollectLeads | EnigmaMachine/core/enigmaPlugs.py:83-98 | the entries typed build at most the requested number of leads |
| EnigmaPlugs.CollectLeadsDisjoint | EnigmaMachine/core/enigmaPlugs.py:93-96 | every lead built avoids the letters used before it, so no two leads share a letter |
| EnigmaPlugs.UserLeads | EnigmaMachine/core/enigmaPlugs.py:77-107 | the board built from any sequence of entries has at most ten leads, and no two of them share a letter |
| EnigmaPlugs.UserLeadsInvolution | EnigmaMachine/core/enigmaPlugs.py:77-107 | the board built from any sequence of entries has at most ten leads and is an involution on A..Z |
| EnigmaRotors.NotchTable | EnigmaMachine/core/enigmaRotors.py:10-18 | the notch table maps exactly I 17, II 5, III 22, IV 9, V 25, Beta 15, Gamma 2, all in 0..25, and names the same rotors as the wiring table |
| EnigmaRotors.NotchOf | EnigmaMachine/tests/test.py:189-201 | a notch look-up succeeds exactly for names in the table, with that notch in 0..25, and fails with KeyError of the name otherwise |
| EnigmaRotors.NotchAccess | EnigmaMachine/tests/test.py:192-201 | "I" gives 17 and "Invalid" gives KeyError |
| EnigmaRotors.WiringIPermutes | EnigmaMachine/core/enigmaRotors.py:34 | rotor I is a permutation of the alphabet (one such lemma per rotor) |
| EnigmaRotors.RotorWiringsArePermutations | EnigmaMachine/core/enigmaRotors.py:31-39 | the wiring table has exactly rotors I..V, Beta and Gamma, and each wiring is a permutation of the alphabet |
| EnigmaRotors.ReflectorBReflects | EnigmaMachine/core/enigmaRotors.py:82 | reflector B is an involution with no letter mapped to itself (one such lemma per reflector) |
| EnigmaRotors.ReflectorWiringsReflect | EnigmaMachine/core/enigmaRotors.py:80-84 | the reflector table has exactly A, B, C, and each is an involution without fixed letters |
| EnigmaRotors.RotorChoice | EnigmaMachine/core/enigmaRotors.py:48-60 | an accepted line yields a rotor name of the table paired with its own wiring |
| EnigmaRotors.NormaliseRotorChoice | EnigmaMachine/core/enigmaRotors.py:52-58 | a non-empty line without whitespace normalises to a name equal to it up to case, whichever branch applies |
| EnigmaRotors.RotorChoiceSelects | EnigmaMachine/core/enigmaRotors.py:52-58 | a line selects rotor `name` if and only if `name` is a rotor and the stripped line equals it up to case |
| EnigmaRotors.RotorChoiceIgnoresCase | EnigmaMachine/core/enigmaRotors.py:52-58 | a line that equals a rotor name up to case and surrounding whitespace selects that rotor with its wiring |
| EnigmaRotors.RotorChoiceSpellsName | EnigmaMachine/core/enigmaRotors.py:52-58 | only such a line is accepted, whichever of the two normalisations applied |
| EnigmaRotors.RotorChoiceExamples | EnigmaMachine/core/enigmaRotors.py:52-59 | "iii" selects III and "beta" selects Beta, each with its wiring |
| EnigmaRotors.CollectRotors | EnigmaMachine/core/enigmaRotors.py:45-60 | at most the requested number of rotors are selected, each a table entry with its wiring |
| EnigmaRotors.SelectedRotors | EnigmaMachine/core/enigmaRotors.py:45-60 | the lines typed select at most three rotors, each a table rotor paired with its own wiring |
| EnigmaRotors.AcceptedRotorsInOrder | EnigmaMachine/core/enigmaRotors.py:46-59 | three accepted lines are stored in the order typed, rightmost rotor first |
| EnigmaRotors.RotorSetupSelectsName | EnigmaMachine/tests/test.py:106-123 | typing a rotor's name selects that rotor with its wiring in slot 0 (and in every slot) |
| EnigmaRotors.ReflectorChoice | EnigmaMachine/core/enigmaRotors.py:89-96 | a line is accepted if and only if its stripped, upper-cased form is A, B or C; it then yields that reflector, whose wiring is a reflector |
| EnigmaRotors.RingSetting | EnigmaMachine/core/enigmaRotors.py:147-151 | a line is accepted if and only if `int()` reads it as a number in 0..25, and the setting is that number |
| EnigmaRotors.RingSettingOfDecimal | EnigmaMachine/core/enigmaRotors.py:149-151 | the decimal form of n is accepted as n when n is at most 25 and rejected otherwise |
| EnigmaRotors.RingSettingRejectsNegative | EnigmaMachine/core/enigmaRotors.py:149-151 | a minus sign followed by digits of a non-zero value is rejected |
| Text.ParseInt | EnigmaMachine/core/enigmaRotors.py:149 | `int()` accepts only a stripped line that starts with a digit or sign and ends with a digit, and reads a negative number only after a minus sign |
| Text.Strip | EnigmaMachine/core/enigmaRotors.py:49 | `str.strip()` gives a string no longer than the line, with no whitespace at either end |
| Text.StripIsTrim | EnigmaMachine/core/enigmaRotors.py:49 | what `str.strip()` keeps is a contiguous part of the line, and everything it drops before and after that part is whitespace |
| Text.Words | EnigmaMachine/core/enigmaRotors.py:56 | `str.split()` gives non-empty words without whitespace |
| Text.Capitalize | EnigmaMachine/core/enigmaRotors.py:56 | `str.capitalize()` keeps the length and every character up to case |
| Text.ParseDecimal | EnigmaMachine/core/enigmaRotors.py:149 | `int()` reads the decimal form of n back as n |
| Text.ParseMinusDigitString | EnigmaMachine/core/enigmaRotors.py:149 | `int()` reads a minus sign and digits as minus their value |
| Text.WordsOfOneWord | EnigmaMachine/core/enigmaRotors.py:56 | a non-empty string without whitespace splits into itself alone |
| Alphabet.Inverse | EnigmaMachine/core/encodingMessage.py:109 | the inverse wiring built from a permutation, read at any letter, names the position of that letter in the wiring |
| Alphabet.InverseUndoes | EnigmaMachine/core/encodingMessage.py:109 | the inverse of a permutation read at the letter found at position j gives letter j |
| Alphabet.IndexOf | EnigmaMachine/core/encodingMessage.py:109 | `mapping.index(c)` is the first position holding c |
| Alphabet.PermutationByCoverage | EnigmaMachine/core/enigmaRotors.py:31-39 | a 26-letter string in which every letter occurs is a permutation |
| Alphabet.ReflectorByPairs | EnigmaMachine/core/enigmaRotors.py:80-84 | a covering string that swaps pairs and fixes no letter is a reflector |
| EncodingMessage.Advance | EnigmaMachine/core/encodingMessage.py:38-46 | stepping keeps three slots, and slots in 0..25 stay in 0..25 |
| EncodingMessage.AdvanceRotors | EnigmaMachine/core/encodingMessage.py:30-46 | the new slots and the exception are those of one step from the old slots |
| EncodingMessage.AdvanceRules | EnigmaMachine/core/encodingMessage.py:38-46 | slot 0 becomes its successor mod 26; slot 1 changes if and only if the new slot 0 equals the notch under key 0, and then steps; slot 2 changes if and only if slot 1 has changed and equals the notch under key 1, and then steps |
| EncodingMessage.AdvanceWithoutSlotKeys | EnigmaMachine/core/encodingMessage.py:41-45 | with no notch under the keys 0 and 1 (a dictionary keyed by names) only slot 0 moves and nothing raises |
| EncodingMessage.AdvanceWithList | EnigmaMachine/core/encodingMessage.py:38-41 | a list of notches raises AttributeError after slot 0 has stepped, and slots 1 and 2 are unchanged |
| EncodingMessage.AdvanceN | EnigmaMachine/core/encodingMessage.py:38-46 | n steps keep three slots, and slots in 0..25 stay in 0..25 |
| EncodingMessage.AdvanceNWithoutSlotKeys | EnigmaMachine/core/encodingMessage.py:41-45 | n steps with such a dictionary from slot 0 in 0..25 give slot 0 = (p0 + n) mod 26 and leave slots 1 and 2 |
| EncodingMessage.UpdateRotorPositions | EnigmaMachine/core/encodingMessage.py:10-28 | the loop leaves the list (and the exception) that the left-to-right stepping rule gives from the old list |
| EncodingMessage.UpdateFrom | EnigmaMachine/core/encodingMessage.py:23-28 | the stepping rule from slot i on keeps the number of slots |
| EncodingMessage.UpdateFromKeeps | EnigmaMachine/core/encodingMessage.py:23-28 | slots before i are untouched, slots in 0..25 stay in 0..25, and the only exceptions are IndexError and KeyError of a selected rotor's name |
| EncodingMessage.UpdateThreeSlots | EnigmaMachine/core/encodingMessage.py:23-28 | on three slots every slot steps once and once more when the slot before it has landed on that rotor's notch; the carry out of slot 2 is dropped |
| EncodingMessage.UpdateMissingFirstNotch | EnigmaMachine/core/encodingMessage.py:24-25 | a first rotor without a notch raises KeyError after slot 0 has stepped |
| EncodingMessage.Forward | EnigmaMachine/core/encodingMessage.py:84-85 | a contact 0..25 enters a rotor and leaves at a contact 0..25 |
| EncodingMessage.Reflect | EnigmaMachine/core/encodingMessage.py:101-103 | the reflector sends a contact 0..25 to a contact 0..25 |
| EncodingMessage.Backward | EnigmaMachine/core/encodingMessage.py:109-111 | a contact 0..25 passes back through a rotor to a contact 0..25 |
| EncodingMessage.BackwardAt | EnigmaMachine/core/encodingMessage.py:109-111 | backward from contact i at position p lands on the contact whose wiring holds letter (i - p) mod 26 |
| EncodingMessage.ForwardAll | EnigmaMachine/core/encodingMessage.py:82-98 | the forward pass through the three rotors ends on a contact 0..25 |
| EncodingMessage.BackwardAll | EnigmaMachine/core/encodingMessage.py:108-124 | the backward pass through the three rotors ends on a contact 0..25 |
| EncodingMessage.Scramble | EnigmaMachine/core/encodingMessage.py:82-124 | the scrambler sends a contact 0..25 to a contact 0..25 |
| EncodingMessage.ForwardAllSteps | EnigmaMachine/core/encodingMessage.py:82-98 | the forward pass is rotor 0, then 1, then 2, each entered at (contact + position) mod 26 |
| EncodingMessage.BackwardAllSteps | EnigmaMachine/core/encodingMessage.py:108-124 | the backward pass is rotor 2, then 1, then 0, each reading its inverse at (contact - position) mod 26 |
| EncodingMessage.BackwardUndoesForward | EnigmaMachine/core/encodingMessage.py:84-85 | at a position that is a multiple of 26, backward and forward through a rotor undo each other in both orders |
| EncodingMessage.BackwardUndoesShiftedWiring | EnigmaMachine/core/encodingMessage.py:110-111 | what backward does undo at any position: the wiring lookup with the position added afterwards |
| EncodingMessage.BackwardIsNotInverseOffZero | EnigmaMachine/core/encodingMessage.py:110-111 | rotor I at position 1 sends contact 0 forward to 10 and 10 backward to 25, not 0 |
| EncodingMessage.ForwardBackwardAll | EnigmaMachine/core/encodingMessage.py:82-124 | with every rotor at a multiple of 26 the backward pass undoes the forward pass, in both orders |
| EncodingMessage.ReflectTwice | EnigmaMachine/core/encodingMessage.py:101-103 | reflecting twice returns the contact, and reflecting once moves it |
| EncodingMessage.ScrambleInvolution | EnigmaMachine/core/encodingMessage.py:82-124 | at such positions the scrambler is an involution without fixed points |
| EncodingMessage.SignalPath | EnigmaMachine/core/encodingMessage.py:71-127 | the lamp is an upper-case letter |
| EncodingMessage.Reciprocal | EnigmaMachine/core/encodingMessage.py:71-127 | with rotors at multiples of 26, a reflector wiring and a board of disjoint leads, encoding the lamp's letter gives back the key's letter, and no letter encodes to itself |
| EncodingMessage.ReferenceVector | EnigmaMachine/core/encodingMessage.py:71-127 | rotors I, II, III, reflector B, no leads, positions 0: key A lights N |
| EncodingMessage.ReciprocityFailsOffZero | EnigmaMachine/core/encodingMessage.py:71-127 | with rotor I at position 1 (rotors II and III at 0), reflector B and no leads, key A lights D but key D lights T, so reciprocity fails off position 0 |
| EncodingMessage.KeyPress | EnigmaMachine/core/encodingMessage.py:49-135 | a key press leaves three slots; what it does is stated by EncodeLetterWithRotorAdvance (the in-place routine equals it), KeyPressWithoutSlotKeys (the name-keyed closed form) and RotorAdvanceStopsAtFirstLetter (the list of notches) |
| EncodingMessage.KeyPressWithoutSlotKeys | EnigmaMachine/core/encodingMessage.py:71-135 | with valid positions and no notch under the slot keys a key press lights the signal-path letter of the entry positions and moves slot 0 only |
| EncodingMessage.Lamp | EnigmaMachine/core/encodingMessage.py:71-127 | the straight-line pass through board, rotors, reflector, rotors and board computes the signal path of the entry positions |
| EncodingMessage.EncodeLetterWithRotorAdvance | EnigmaMachine/core/encodingMessage.py:49-135 | the result and the new positions are those of one key press from the old positions: IndexError with positions unchanged when the display fails, otherwise the lamp of the entry positions and one advance, whose exception, if any, is the result |
| EncodingMessage.LampAndAdvance | EnigmaMachine/core/encodingMessage.py:71-133 | the lamp is the signal path of the entry positions, and the new slots and the exception are those of one step |
| EncodingMessage.MissingNotch | EnigmaMachine/core/encodingMessage.py:155-158 | no name is reported if and only if every selected rotor has a notch; a reported name is a selected rotor without one |
| EncodingMessage.RotorAdvanceLoop | EnigmaMachine/core/encodingMessage.py:173-192 | the run keeps three slots, and a run that succeeds writes one character per character of the message |
| EncodingMessage.RotorAdvanceRun | EnigmaMachine/core/encodingMessage.py:154-192 | a missing notch is reported as KeyError before anything moves; a run that succeeds is as long as the message |
| EncodingMessage.EncodeLoop | EnigmaMachine/core/encodingMessage.py:173-192 | the loop's result and final positions are those of the run function from the old positions |
| EncodingMessage.EncodeMessageWithRotorAdvance | EnigmaMachine/core/encodingMessage.py:138-192 | the driver's result and final positions are those of the whole run: the notch check first, then the loop with the list of notches |
| EncodingMessage.MissingNotchIsFirst | EnigmaMachine/core/encodingMessage.py:155-158 | the validation loop reports the first selected rotor without a notch |
| EncodingMessage.RotorAdvanceChecksNotches | EnigmaMachine/core/encodingMessage.py:155-158 | a selected rotor without a notch gives KeyError before any encoding, with positions unchanged |
| EncodingMessage.RotorAdvanceStopsAtFirstLetter | EnigmaMachine/core/encodingMessage.py:162-188 | as written the driver returns a letter-free message unchanged, and on a message with a letter raises AttributeError with slot 0 stepped once (IndexError on positions that cannot be displayed) |
| EncodingMessage.StepsTwiceWithoutCrash | EnigmaMachine/core/encodingMessage.py:133-188 | were a notch dictionary passed instead of the list, each letter would step slot 0 twice, once at line 133 and once at line 188, and neither step would raise |
| ChooseMode.EncodeLetterWithSteps | EnigmaMachine/ui/chooseMode.py:3-23 | the result and new positions are those of one key press with the name-keyed notch dictionary; the ring settings do not appear |
| ChooseMode.StepsLoop | EnigmaMachine/ui/chooseMode.py:30-46 | the run keeps three slots, and a run that succeeds, from any positions, writes one character per character of the message |
| ChooseMode.EncodeMessageWithSteps | EnigmaMachine/ui/chooseMode.py:25-46 | the encoded message and final positions are those of the run function from the old positions; the ring settings do not appear |
| ChooseMode.LetterCount | EnigmaMachine/ui/chooseMode.py:31 | a message has at most as many letters as characters |
| ChooseMode.Next | EnigmaMachine/core/encodingMessage.py:38-46 | the positions one step with the name-keyed dictionary gives, without an exception |
| ChooseMode.StepsSucceed | EnigmaMachine/ui/chooseMode.py:30-46 | from displayable positions the driver succeeds, its output is as long as the message, and the positions have stepped once per letter |
| ChooseMode.StepsFailUndisplayable | EnigmaMachine/ui/chooseMode.py:30-42 | from positions outside -26..25 a message with a letter raises IndexError and the positions are unchanged |
| ChooseMode.StepsOutputAt | EnigmaMachine/ui/chooseMode.py:30-44 | character k of the output is character k of the message when that is not in A..Z (lower case included), and otherwise its signal-path letter at the positions stepped once for each earlier letter |
| ChooseMode.StepsFinalPositions | EnigmaMachine/ui/chooseMode.py:12-19 | after a message with n letters slot 0 is (p0 + n) mod 26 and slots 1 and 2 are unchanged |

## Left out

- Every `input()` loop and retry prompt is left out: `get_user_leads`, `rotors_setup`, `reflectors_setup`, `ring_settings_setup` and `choose_mode_and_encode`. Only the acceptance rule for one typed line is modelled, plus folds over lines already typed (`CollectLeads`, `CollectRotors`), because the console is I/O.
- Every `print`, the step-log strings of the chooseMode.py drivers, and the box and list printers are left out, because they are presentation. The second component of each chooseMode.py result (the log) is therefore not returned.
- The typing-effect welcome screen (EnigmaMachine/ui/welcome.py) and the entry-point script are user interface. The entry point's only effect here is that it passes the name-keyed notch dictionary.
- The test module itself is left out: the mocking of `input` and the mock notch dictionary. Its assertions appear as lemmas.
- `str.isalpha`, `str.upper`, `str.capitalize`, `str.split`, `str.strip` and `int()` are modelled on ASCII only. `int()` is modelled for base-10 literals with optional sign, underscores between digits and surrounding ASCII whitespace. Unicode letters, digits and spaces are not modelled.
- `MAX_MESSAGE_LENGTH` is not modelled, because the source never enforces it.
- Ring-setting arithmetic is not modelled, because the source never applies it. Ring settings are a parameter that no contract mentions.
- EncodingMessage.Wired: the drivers and the key press require permutation wirings in slots 0..2 and a reflector of letters. This holds for every selection built from the tables. The IndexError or ValueError that a malformed hand-made wiring would raise is not modelled.
- EncodingMessage.StepsTwiceWithoutCrash: double stepping is stated for one letter only. As written, the driver raises on the first letter, so a whole-message statement would be about code that never runs.
- EnigmaRotors.RingSettingRejectsNegative: covers only a minus sign followed by digits without surrounding whitespace. Other negative forms are decided by `RingSetting`'s own contract.
- The `KeyError` messages are not modelled. `encode_message_with_rotor_advance` raises `KeyError` with the text "<name> not found in rotor notches dictionary.", and the dictionary look-up in `update_rotor_positions` raises `KeyError` of the name. The model raises `KeyError(name)` in both places, with the bare rotor name. The exception type and the moment it is raised are as in the source.
- Python's aliasing of the returned list in `update_rotor_positions` (it returns the same list it changed) is modelled by the method changing its array argument in place.
