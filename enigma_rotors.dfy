/**
 * The rotor and reflector tables, the notch table, and the rules by which a rotor name,
 * a reflector name and a ring setting typed by the user are accepted
 * (EnigmaMachine/core/enigmaRotors.py).
 */
module EnigmaRotors {
  import opened Wrappers
  import opened Alphabet
  import opened Text

  /** `rotor_notches_dict`: the notch position of each rotor, keyed by rotor name. */
  const RotorNotches: map<string, int> :=
    map["I" := 17, "II" := 5, "III" := 22, "IV" := 9, "V" := 25, "Beta" := 15, "Gamma" := 2]

  const WiringBeta := "LEYJVCNIXWPBQMDRTAKZGFUHOS"
  const WiringGamma := "FSOKANUERHMBTIYCWLQPZXVGJD"
  const WiringI := "EKMFLGDQVZNTOWYHXUSPAIBRCJ"
  const WiringII := "AJDKSIRUXBLHWTMCQGZNPYFVOE"
  const WiringIII := "BDFHJLCPRTXVZNYEIWGAKMUSQO"
  const WiringIV := "ESOVPZJAYQUIRHXLNFTGKDCMWB"
  const WiringV := "VZBRGITYUPSDNHLXAWMJQOFECK"

  /** The seven rotor wirings offered by `rotors_setup`. */
  const RotorWirings: map<string, string> := map[
    "Beta" := WiringBeta, "Gamma" := WiringGamma, "I" := WiringI, "II" := WiringII,
    "III" := WiringIII, "IV" := WiringIV, "V" := WiringV
  ]

  const ReflectorA := "EJMZALYXVBWFCRQUONTSPIKHGD"
  const ReflectorB := "YRUHQSLDPXNGOKMIEBFZCWVJAT"
  const ReflectorC := "FVPJIAOYEDRZXWGCTKUQSBNMHL"

  /** The three reflector wirings offered by `reflectors_setup`. */
  const ReflectorWirings: map<string, string> :=
    map["A" := ReflectorA, "B" := ReflectorB, "C" := ReflectorC]

  /** The notch table has exactly the seven rotors, with these notches, all in 0..25;
      it names the same rotors as the wiring table. */
  lemma NotchTable()
    ensures RotorNotches.Keys == {"I", "II", "III", "IV", "V", "Beta", "Gamma"}
    ensures RotorNotches["I"] == 17 && RotorNotches["II"] == 5 && RotorNotches["III"] == 22
    ensures RotorNotches["IV"] == 9 && RotorNotches["V"] == 25
    ensures RotorNotches["Beta"] == 15 && RotorNotches["Gamma"] == 2
    ensures forall name :: name in RotorNotches ==> 0 <= RotorNotches[name] < 26
    ensures RotorWirings.Keys == RotorNotches.Keys
  {
  }

  /** `rotor_notches_dict[name]`: the notch, or `KeyError` for a name not in the table. */
  function NotchOf(name: string): (r: Result<int, Error>)
    ensures r.Success? <==> name in RotorNotches
    ensures r.Success? ==> r.value == RotorNotches[name] && 0 <= r.value < 26
    ensures r.Failure? ==> r.error == KeyError(name)
  {
    if name in RotorNotches then Success(RotorNotches[name]) else Failure(KeyError(name))
  }

  /** The two look-ups of the notch-access test. */
  lemma NotchAccess()
    ensures NotchOf("I") == Success(17)
    ensures NotchOf("Invalid") == Failure(KeyError("Invalid"))
  {
  }

  // One literal per lemma: the solver checks each table entry on its own.
  lemma WiringBetaCovers()
    ensures Covers(WiringBeta)
  {
  }

  lemma WiringBetaPermutes()
    ensures IsPermutation(WiringBeta)
  {
    WiringBetaCovers();
    PermutationByCoverage(WiringBeta);
  }

  lemma WiringGammaCovers()
    ensures Covers(WiringGamma)
  {
  }

  lemma WiringGammaPermutes()
    ensures IsPermutation(WiringGamma)
  {
    WiringGammaCovers();
    PermutationByCoverage(WiringGamma);
  }

  lemma WiringICovers()
    ensures Covers(WiringI)
  {
  }

  lemma WiringIPermutes()
    ensures IsPermutation(WiringI)
  {
    WiringICovers();
    PermutationByCoverage(WiringI);
  }

  lemma WiringIICovers()
    ensures Covers(WiringII)
  {
  }

  lemma WiringIIPermutes()
    ensures IsPermutation(WiringII)
  {
    WiringIICovers();
    PermutationByCoverage(WiringII);
  }

  lemma WiringIIICovers()
    ensures Covers(WiringIII)
  {
  }

  lemma WiringIIIPermutes()
    ensures IsPermutation(WiringIII)
  {
    WiringIIICovers();
    PermutationByCoverage(WiringIII);
  }

  lemma WiringIVCovers()
    ensures Covers(WiringIV)
  {
  }

  lemma WiringIVPermutes()
    ensures IsPermutation(WiringIV)
  {
    WiringIVCovers();
    PermutationByCoverage(WiringIV);
  }

  lemma WiringVCovers()
    ensures Covers(WiringV)
  {
  }

  lemma WiringVPermutes()
    ensures IsPermutation(WiringV)
  {
    WiringVCovers();
    PermutationByCoverage(WiringV);
  }

  lemma ReflectorACovers()
    ensures Covers(ReflectorA)
  {
  }

  lemma ReflectorAMovesEvery()
    ensures forall i :: 0 <= i < 26 ==> ReflectorA[i] != Letter(i)
  {
  }

  lemma ReflectorASwapsPairs()
    ensures forall i, j :: 0 <= i < 26 && 0 <= j < 26 && ReflectorA[i] == Letter(j) ==> ReflectorA[j] == Letter(i)
  {
  }

  lemma ReflectorAReflects()
    ensures IsReflector(ReflectorA)
  {
    ReflectorACovers();
    ReflectorAMovesEvery();
    ReflectorASwapsPairs();
    ReflectorByPairs(ReflectorA);
  }

  lemma ReflectorBCovers()
    ensures Covers(ReflectorB)
  {
  }

  lemma ReflectorBMovesEvery()
    ensures forall i :: 0 <= i < 26 ==> ReflectorB[i] != Letter(i)
  {
  }

  lemma ReflectorBSwapsPairs()
    ensures forall i, j :: 0 <= i < 26 && 0 <= j < 26 && ReflectorB[i] == Letter(j) ==> ReflectorB[j] == Letter(i)
  {
  }

  lemma ReflectorBReflects()
    ensures IsReflector(ReflectorB)
  {
    ReflectorBCovers();
    ReflectorBMovesEvery();
    ReflectorBSwapsPairs();
    ReflectorByPairs(ReflectorB);
  }

  lemma ReflectorCCovers()
    ensures Covers(ReflectorC)
  {
  }

  lemma ReflectorCMovesEvery()
    ensures forall i :: 0 <= i < 26 ==> ReflectorC[i] != Letter(i)
  {
  }

  lemma ReflectorCSwapsPairs()
    ensures forall i, j :: 0 <= i < 26 && 0 <= j < 26 && ReflectorC[i] == Letter(j) ==> ReflectorC[j] == Letter(i)
  {
  }

  lemma ReflectorCReflects()
    ensures IsReflector(ReflectorC)
  {
    ReflectorCCovers();
    ReflectorCMovesEvery();
    ReflectorCSwapsPairs();
    ReflectorByPairs(ReflectorC);
  }

  /** Every rotor wiring is a permutation of the alphabet. */
  lemma RotorWiringsArePermutations()
    ensures RotorWirings.Keys == {"I", "II", "III", "IV", "V", "Beta", "Gamma"}
    ensures forall name :: name in RotorWirings ==> IsPermutation(RotorWirings[name])
  {
    forall name | name in RotorWirings
      ensures IsPermutation(RotorWirings[name])
    {
      if name == "Beta" {
        WiringBetaPermutes();
      } else if name == "Gamma" {
        WiringGammaPermutes();
      } else if name == "I" {
        WiringIPermutes();
      } else if name == "II" {
        WiringIIPermutes();
      } else if name == "III" {
        WiringIIIPermutes();
      } else if name == "IV" {
        WiringIVPermutes();
      } else {
        WiringVPermutes();
      }
    }
  }

  /** Every reflector wiring is an involution of the alphabet that moves every letter. */
  lemma ReflectorWiringsReflect()
    ensures ReflectorWirings.Keys == {"A", "B", "C"}
    ensures forall name :: name in ReflectorWirings ==> IsReflector(ReflectorWirings[name])
  {
    forall name | name in ReflectorWirings
      ensures IsReflector(ReflectorWirings[name])
    {
      if name == "A" {
        ReflectorAReflects();
      } else if name == "B" {
        ReflectorBReflects();
      } else {
        ReflectorCReflects();
      }
    }
  }

  /** Lines 51-56: the rotor name a stripped choice stands for. A choice whose
      upper-case form is a rotor name becomes that name; any other choice has each
      of its words capitalised and the words joined with single spaces. */
  function NormaliseRotorChoice(choice: string): (name: string)
    ensures choice != [] && NoSpace(choice) ==> Upper(name) == Upper(choice)
  {
    if Upper(choice) in RotorWirings then
      UpperIdempotent(choice);
      Upper(choice)
    else
      if choice != [] && NoSpace(choice) then
        WordsOfOneWord(choice);
        UpperOfCapitalize(choice);
        JoinWords(CapitalizeAll(Words(choice)))
      else JoinWords(CapitalizeAll(Words(choice)))
  }

  /** Lines 48-60, one typed line: the (name, wiring) pair the line selects, or `None`
      when the prompt is repeated. */
  function RotorChoice(entry: string): (r: Option<(string, string)>)
    ensures r.Some? ==> r.value.0 in RotorWirings && r.value.1 == RotorWirings[r.value.0]
  {
    var name := NormaliseRotorChoice(Strip(entry));
    if name in RotorWirings then Some((name, RotorWirings[name])) else None
  }

  /** The upper-case forms of the seven rotor names. */
  lemma RomanNamesUpper()
    ensures Upper("I") == "I" && Upper("II") == "II" && Upper("III") == "III"
    ensures Upper("IV") == "IV" && Upper("V") == "V"
  {
  }

  lemma WordNamesUpper()
    ensures Upper("Beta") == "BETA" && Upper("Gamma") == "GAMMA"
    ensures "BETA" !in RotorWirings && "GAMMA" !in RotorWirings
  {
  }

  lemma WordNamesCapitalized()
    ensures Capitalize("Beta") == "Beta" && Capitalize("Gamma") == "Gamma"
  {
    assert Lower("eta") == "eta";
    assert Lower("amma") == "amma";
  }

  lemma RotorNamesAreWords()
    ensures forall name :: name in RotorWirings ==> name != [] && NoSpace(name)
  {
  }

  /** A choice that, stripped and upper-cased, spells a rotor name selects that rotor:
      "iii" selects III and "beta" selects Beta. */
  lemma RotorChoiceIgnoresCase(entry: string, name: string)
    requires name in RotorWirings && Upper(Strip(entry)) == Upper(name)
    ensures RotorChoice(entry) == Some((name, RotorWirings[name]))
  {
    var s := Strip(entry);
    if name == "Beta" || name == "Gamma" {
      WordChoice(s, name);
    } else {
      RomanNamesUpper();
    }
  }

  /** Beta and Gamma, in any case, are capitalised into their names. */
  lemma WordChoice(s: string, name: string)
    requires (name == "Beta" || name == "Gamma") && Upper(s) == Upper(name)
    ensures NormaliseRotorChoice(s) == name
  {
    WordNamesUpper();
    WordNamesCapitalized();
    UpperKeepsSpaces(s);
    UpperKeepsSpaces(name);
    assert NoSpace(name) && name != [];
    WordsOfOneWord(s);
    CapitalizeOfSameUpper(s, name);
    assert NormaliseRotorChoice(s) == Capitalize(s);
  }

  /** Only a choice that spells a rotor name, up to case and surrounding whitespace, is
      accepted. */
  lemma RotorChoiceSpellsName(entry: string)
    requires RotorChoice(entry).Some?
    ensures Upper(Strip(entry)) == Upper(RotorChoice(entry).value.0)
  {
    RotorNamesAreWords();
    var s := Strip(entry);
    var name := RotorChoice(entry).value.0;
    if Upper(s) in RotorWirings {
      UpperIdempotent(s);
    } else {
      var ws := Words(s);
      var joined := JoinWords(CapitalizeAll(ws));
      assert joined == name;
      if |ws| >= 2 {
        JoinedWordsHaveSpace(CapitalizeAll(ws));
      }
      assert |ws| == 1;
      OneWordIsWhole(entry);
      assert name == Capitalize(s);
      UpperOfCapitalize(s);
    }
  }

  /** The two directions together: a line selects rotor `name` exactly when it spells it. */
  lemma RotorChoiceSelects(entry: string, name: string)
    ensures (RotorChoice(entry).Some? && RotorChoice(entry).value.0 == name)
        <==> (name in RotorWirings && Upper(Strip(entry)) == Upper(name))
  {
    if RotorChoice(entry).Some? && RotorChoice(entry).value.0 == name {
      RotorChoiceSpellsName(entry);
    }
    if name in RotorWirings && Upper(Strip(entry)) == Upper(name) {
      RotorChoiceIgnoresCase(entry, name);
    }
  }

  /** "iii" selects rotor III and "beta" selects rotor Beta. */
  lemma RotorChoiceExamples()
    ensures RotorChoice("iii") == Some(("III", WiringIII))
    ensures RotorChoice("beta") == Some(("Beta", WiringBeta))
  {
    LowerIii();
    LowerBeta();
  }

  lemma LowerIii()
    ensures RotorChoice("iii") == Some(("III", WiringIII))
  {
    StripNoSpace("iii");
    assert Upper("iii") == "III";
    RomanNamesUpper();
    RotorChoiceIgnoresCase("iii", "III");
  }

  lemma LowerBeta()
    ensures RotorChoice("beta") == Some(("Beta", WiringBeta))
  {
    StripNoSpace("beta");
    assert Upper("beta") == "BETA";
    WordNamesUpper();
    RotorChoiceIgnoresCase("beta", "Beta");
  }

  /** Lines 45-60 over the lines typed so far: the first `count` accepted choices, in
      the order typed, which is rotor 1 (the rightmost) first. */
  function CollectRotors(entries: seq<string>, count: nat): (r: seq<(string, string)>)
    ensures |r| <= count
    ensures forall k :: 0 <= k < |r| ==> r[k].0 in RotorWirings && r[k].1 == RotorWirings[r[k].0]
  {
    if count == 0 || entries == [] then []
    else
      match RotorChoice(entries[0])
      case Some(p) => [p] + CollectRotors(entries[1..], count - 1)
      case None => CollectRotors(entries[1..], count)
  }

  /** `rotors_setup` for the given typed lines: up to three accepted choices, each a
      rotor of the table with its own wiring. */
  function SelectedRotors(entries: seq<string>): (r: seq<(string, string)>)
    ensures |r| <= 3
    ensures forall k :: 0 <= k < |r| ==> r[k].0 in RotorWirings && r[k].1 == RotorWirings[r[k].0]
  {
    CollectRotors(entries, 3)
  }

  /** A rotor's own name, typed as it is, selects that rotor. */
  lemma RotorChoiceOfName(name: string)
    requires name in RotorWirings
    ensures RotorChoice(name) == Some((name, RotorWirings[name]))
  {
    RotorNamesAreWords();
    StripNoSpace(name);
    RotorChoiceIgnoresCase(name, name);
  }

  /** Three accepted lines in a row are stored in the order typed. */
  lemma AcceptedRotorsInOrder(entries: seq<string>)
    requires |entries| >= 3
    requires forall k :: 0 <= k < 3 ==> RotorChoice(entries[k]).Some?
    ensures SelectedRotors(entries)
        == [RotorChoice(entries[0]).value, RotorChoice(entries[1]).value, RotorChoice(entries[2]).value]
  {
    var e1 := entries[1..];
    var e2 := e1[1..];
    assert e1[0] == entries[1] && e2[0] == entries[2];
    assert CollectRotors(e2, 1) == [RotorChoice(entries[2]).value] + CollectRotors(e2[1..], 0);
    assert CollectRotors(e1, 2) == [RotorChoice(entries[1]).value] + CollectRotors(e2, 1);
  }

  /** The same accepted line typed again and again fills all three slots with its rotor. */
  lemma RepeatedRotorLine(entry: string)
    requires RotorChoice(entry).Some?
    ensures var p := RotorChoice(entry).value; SelectedRotors([entry, entry, entry]) == [p, p, p]
  {
    var es := [entry, entry, entry];
    assert forall k :: 0 <= k < 3 ==> es[k] == entry;
    AcceptedRotorsInOrder(es);
  }

  /** Typing a rotor's own name selects it with its wiring: the rotor set-up test. */
  lemma RotorSetupSelectsName(name: string)
    requires name in RotorWirings
    ensures var p := (name, RotorWirings[name]); SelectedRotors([name, name, name]) == [p, p, p]
  {
    RotorChoiceOfName(name);
    RepeatedRotorLine(name);
  }

  /** Lines 90-93: a typed reflector line, stripped and upper-cased, selects the
      reflector of that name, or `None` when the prompt is repeated. */
  function ReflectorChoice(entry: string): (r: Option<(string, string)>)
    ensures r.Some? <==> Upper(Strip(entry)) in {"A", "B", "C"}
    ensures r.Some? ==> r.value.0 == Upper(Strip(entry)) && r.value.1 == ReflectorWirings[r.value.0]
    ensures r.Some? ==> IsReflector(r.value.1)
  {
    var choice := Upper(Strip(entry));
    ReflectorWiringsReflect();
    if choice in ReflectorWirings then Some((choice, ReflectorWirings[choice])) else None
  }

  /** Lines 147-151: a typed ring setting is accepted when `int()` reads it as a number
      in 0..25. */
  function RingSetting(entry: string): (r: Option<int>)
    ensures r.Some? <==> ParseInt(entry).Some? && 0 <= ParseInt(entry).value <= 25
    ensures r.Some? ==> ParseInt(entry) == Some(r.value)
  {
    match ParseInt(entry)
    case Some(n) => if 0 <= n <= 25 then Some(n) else None
    case None => None
  }

  /** Every number 0..25 written in decimal is accepted as itself, and no larger one is. */
  lemma RingSettingOfDecimal(n: nat)
    ensures RingSetting(DecimalString(n)) == (if n <= 25 then Some(n) else None)
  {
    ParseDecimal(n);
  }

  /** A minus sign followed by digits of a non-zero value is rejected. */
  lemma RingSettingRejectsNegative(t: string)
    requires |t| >= 2 && t[0] == '-' && forall i :: 1 <= i < |t| ==> IsDigit(t[i])
    requires DigitsValue(t[1..]) > 0
    ensures RingSetting(t) == None
  {
    ParseMinusDigitString(t);
  }
}
