/**
 * The plugboard: plug leads that swap two letters, and a board that applies the first lead
 * that changes a character (EnigmaMachine/core/enigmaPlugs.py).
 */
module EnigmaPlugs {
  import opened Wrappers
  import opened Alphabet
  import opened Text

  /** The two letters a lead connects, `mapping[0]` and `mapping[1]`. */
  datatype Lead = Lead(first: char, second: char)

  /** A constructed `PlugLead`: its mapping is always two upper-case letters. */
  type PlugLead = l: Lead | IsLetter(l.first) && IsLetter(l.second) witness Lead('A', 'B')

  /** `PlugLead(mapping)`: exactly two letters, stored upper-cased; `ValueError` otherwise.
      Two equal letters are not rejected. */
  function NewPlugLead(mapping: string): (r: Result<PlugLead, Error>)
    ensures r.Success? <==> |mapping| == 2 && IsAlpha(mapping)
    ensures r.Failure? ==> r.error == ValueError
    ensures r.Success? ==> r.value.first == UpperChar(mapping[0]) && r.value.second == UpperChar(mapping[1])
  {
    if |mapping| != 2 || !IsAlpha(mapping) then Failure(ValueError)
    else
      assert IsAsciiLetter(mapping[0]) && IsAsciiLetter(mapping[1]);
      Success(Lead(UpperChar(mapping[0]), UpperChar(mapping[1])))
  }

  /** `PlugLead.encode`: upper-case the character, then swap it if the lead connects it.
      A lead changes only its own two letters, into its own letters, and a letter of
      either case comes out an upper-case letter. */
  function Encode(lead: PlugLead, c: char): (r: char)
    ensures r != UpperChar(c) ==> Uses(lead, UpperChar(c)) && Uses(lead, r)
    ensures IsAsciiLetter(c) ==> IsLetter(r)
  {
    var u := UpperChar(c);
    if u == lead.first then lead.second
    else if u == lead.second then lead.first
    else u
  }

  /** The lead swaps its two letters and fixes every other letter. */
  lemma EncodeSwaps(lead: PlugLead, c: char)
    requires IsLetter(c)
    ensures c == lead.first ==> Encode(lead, c) == lead.second
    ensures c == lead.second ==> Encode(lead, c) == lead.first
    ensures c != lead.first && c != lead.second ==> Encode(lead, c) == c
    ensures Encode(lead, Encode(lead, c)) == c
  {
  }

  /** A lead made from lower-case letters behaves exactly like one made from upper-case ones. */
  lemma NewPlugLeadIgnoresCase(mapping: string)
    requires |mapping| == 2 && IsAlpha(mapping)
    ensures NewPlugLead(mapping) == NewPlugLead(Upper(mapping))
  {
  }

  /** The cases pinned by the tests of `PlugLead`: "AG" and "DA". */
  lemma PlugLeadExamples()
    ensures NewPlugLead("AG").Success? && NewPlugLead("DA").Success?
    ensures var ag := NewPlugLead("AG").value;
      Encode(ag, 'A') == 'G' && Encode(ag, 'G') == 'A' && Encode(ag, 'D') == 'D'
    ensures var da := NewPlugLead("DA").value;
      Encode(da, 'D') == 'A' && Encode(da, 'A') == 'D' && Encode(da, 'C') == 'C'
    ensures NewPlugLead("A") == Failure(ValueError) && NewPlugLead("A1") == Failure(ValueError)
    ensures NewPlugLead("ABC") == Failure(ValueError) && NewPlugLead("AA").Success?
  {
  }

  /** The plugboard test: the lead "AG" sends A to G and G to A and fixes B to F, and so
      does a board holding only that lead. */
  lemma PlugboardTestCases()
    ensures NewPlugLead("AG").Success?
    ensures var ag := NewPlugLead("AG").value;
      && Encode(ag, 'A') == 'G' && Encode(ag, 'G') == 'A'
      && forall c :: 'B' <= c <= 'F' ==> Encode(ag, c) == c && Transformed([ag], c) == c
  {
  }

  /** `Plugboard.transform_character` on the board's leads: the result of the first lead
      that changes the character, or the character itself when none does. An upper-case
      letter stays an upper-case letter. */
  function Transformed(leads: seq<PlugLead>, c: char): (r: char)
    ensures IsLetter(c) ==> IsLetter(r)
  {
    if leads == [] then c
    else
      var n := Encode(leads[0], c);
      if n != c then n else Transformed(leads[1..], c)
  }

  /** A board with no leads is the identity. */
  lemma TransformedEmpty(c: char)
    ensures Transformed([], c) == c
  {
  }

  /** When no lead changes the character, the board returns it unchanged. */
  lemma {:induction false} TransformedUnchanged(leads: seq<PlugLead>, c: char)
    requires forall j :: 0 <= j < |leads| ==> Encode(leads[j], c) == c
    ensures Transformed(leads, c) == c
  {
    if leads != [] {
      assert Encode(leads[0], c) == c;
      TransformedUnchanged(leads[1..], c);
    }
  }

  /** The first lead that changes the character decides the result; later leads are ignored. */
  lemma {:induction false} TransformedByFirst(leads: seq<PlugLead>, c: char, k: int)
    requires 0 <= k < |leads|
    requires Encode(leads[k], c) != c
    requires forall j :: 0 <= j < k ==> Encode(leads[j], c) == c
    ensures Transformed(leads, c) == Encode(leads[k], c)
  {
    if k > 0 {
      assert Encode(leads[0], c) == c;
      TransformedByFirst(leads[1..], c, k - 1);
    }
  }

  /** Conversely, a changed character was changed by some lead, and by the first that changes it. */
  lemma {:induction false} TransformedWitness(leads: seq<PlugLead>, c: char)
    requires Transformed(leads, c) != c
    ensures exists k :: 0 <= k < |leads| && Encode(leads[k], c) != c && Transformed(leads, c) == Encode(leads[k], c)
                        && (forall j :: 0 <= j < k ==> Encode(leads[j], c) == c)
  {
    if Encode(leads[0], c) != c {
      assert 0 < |leads| && Encode(leads[0], c) != c && Transformed(leads, c) == Encode(leads[0], c);
    } else {
      TransformedWitness(leads[1..], c);
      var k :| 0 <= k < |leads| - 1 && Encode(leads[1..][k], c) != c && Transformed(leads[1..], c) == Encode(leads[1..][k], c)
        && (forall j :: 0 <= j < k ==> Encode(leads[1..][j], c) == c);
      assert Encode(leads[k + 1], c) != c && Transformed(leads, c) == Encode(leads[k + 1], c);
      assert forall j :: 0 <= j < k + 1 ==> Encode(leads[j], c) == c by {
        forall j | 0 <= j < k + 1 ensures Encode(leads[j], c) == c {
          if j > 0 {
            assert leads[j] == leads[1..][j - 1];
          }
        }
      }
    }
  }

  predicate Uses(lead: PlugLead, c: char) {
    c == lead.first || c == lead.second
  }

  /** No letter is used by two different leads. */
  predicate PairwiseDisjoint(leads: seq<PlugLead>) {
    forall i, j :: 0 <= i < j < |leads| ==> !Uses(leads[j], leads[i].first) && !Uses(leads[j], leads[i].second)
  }

  /** No lead uses a letter of `used`. */
  predicate Avoids(leads: seq<PlugLead>, used: set<char>) {
    forall k :: 0 <= k < |leads| ==> leads[k].first !in used && leads[k].second !in used
  }

  /** On a board whose leads share no letter, transforming twice gives back the letter. */
  lemma TransformedInvolution(leads: seq<PlugLead>, c: char)
    requires IsLetter(c) && PairwiseDisjoint(leads)
    ensures Transformed(leads, Transformed(leads, c)) == c
  {
    var d := Transformed(leads, c);
    if d == c {
      return;
    }
    TransformedWitness(leads, c);
    var k :| 0 <= k < |leads| && Encode(leads[k], c) != c && d == Encode(leads[k], c)
      && (forall j :: 0 <= j < k ==> Encode(leads[j], c) == c);
    EncodeSwaps(leads[k], c);
    assert Uses(leads[k], d);
    forall j | 0 <= j < k
      ensures Encode(leads[j], d) == d
    {
      assert !Uses(leads[k], leads[j].first) && !Uses(leads[k], leads[j].second);
    }
    TransformedByFirst(leads, d, k);
  }

  /** `Plugboard`: a mutable list of plug leads. */
  class Plugboard {
    var leads: seq<PlugLead>

    /** `Plugboard()`: a board with no leads. */
    constructor ()
      ensures leads == []
    {
      leads := [];
    }

    /** `add_lead`: append the lead after the existing ones. */
    method AddLead(lead: PlugLead)
      modifies this
      ensures leads == old(leads) + [lead]
    {
      leads := leads + [lead];
    }

    /** `transform_character`: scan the leads in order and return the first change. */
    method TransformCharacter(c: char) returns (r: char)
      ensures r == Transformed(leads, c)
    {
      var i := 0;
      while i < |leads|
        invariant 0 <= i <= |leads|
        invariant Transformed(leads, c) == Transformed(leads[i..], c)
      {
        var n := Encode(leads[i], c);
        if n != c {
          return n;
        }
        i := i + 1;
      }
      return c;
    }
  }

  /** The lead-acceptance rule of `get_user_leads`: the stripped, upper-cased entry is two
      letters, neither of them already used by an earlier lead. Letters of either case
      are accepted. */
  predicate AcceptsLead(entry: string, used: set<char>)
    ensures AcceptsLead(entry, used) <==> var t := Strip(entry);
      |t| == 2 && IsAlpha(t) && UpperChar(t[0]) !in used && UpperChar(t[1]) !in used
  {
    var t := Strip(entry);
    var s := Upper(t);
    assert |s| == 2 ==>
      (s[0] == UpperChar(t[0]) && s[1] == UpperChar(t[1]) && (IsAlpha(s) <==> IsAsciiLetter(t[0]) && IsAsciiLetter(t[1])));
    |s| == 2 && IsAlpha(s) && s[0] !in used && s[1] !in used
  }

  /** An accepted entry makes a lead of exactly its two (already upper-case) letters. */
  lemma AcceptedLead(entry: string, used: set<char>)
    requires AcceptsLead(entry, used)
    ensures var s := Upper(Strip(entry));
            && NewPlugLead(s).Success?
            && NewPlugLead(s).value == Lead(s[0], s[1])
            && s[0] !in used && s[1] !in used
  {
    var t := Strip(entry);
    var s := Upper(t);
    assert s[0] == UpperChar(t[0]) && s[1] == UpperChar(t[1]);
  }

  /** The leads `get_user_leads` builds from the entries typed in, in order: each entry is
      accepted or rejected by `AcceptsLead`, and input stops after `count` more leads. */
  function CollectLeads(entries: seq<string>, used: set<char>, count: nat): (r: seq<PlugLead>)
    ensures |r| <= count
  {
    if entries == [] || count == 0 then []
    else if AcceptsLead(entries[0], used) then
      var s := Upper(Strip(entries[0]));
      var lead := NewPlugLead(s).value;
      [lead] + CollectLeads(entries[1..], used + {s[0], s[1]}, count - 1)
    else CollectLeads(entries[1..], used, count)
  }

  /** `get_user_leads`: up to ten leads from the entries, starting with no letter used;
      no two of them share a letter. */
  function UserLeads(entries: seq<string>): (r: seq<PlugLead>)
    ensures |r| <= 10 && PairwiseDisjoint(r)
  {
    CollectLeadsDisjoint(entries, {}, 10);
    CollectLeads(entries, {}, 10)
  }

  /** Every accepted lead avoids the letters already used, and the board it builds shares
      no letter between leads. */
  lemma {:induction false} CollectLeadsDisjoint(entries: seq<string>, used: set<char>, count: nat)
    ensures PairwiseDisjoint(CollectLeads(entries, used, count))
    ensures Avoids(CollectLeads(entries, used, count), used)
  {
    if entries == [] || count == 0 {
    } else if AcceptsLead(entries[0], used) {
      var s := Upper(Strip(entries[0]));
      AcceptedLead(entries[0], used);
      var lead := NewPlugLead(s).value;
      var used' := used + {s[0], s[1]};
      var rest := CollectLeads(entries[1..], used', count - 1);
      CollectLeadsDisjoint(entries[1..], used', count - 1);
      var r := [lead] + rest;
      assert CollectLeads(entries, used, count) == r;
      LeadBeforeAvoiding(lead, rest, used, used');
    } else {
      assert CollectLeads(entries, used, count) == CollectLeads(entries[1..], used, count);
      CollectLeadsDisjoint(entries[1..], used, count);
    }
  }

  lemma LeadBeforeAvoiding(lead: PlugLead, rest: seq<PlugLead>, used: set<char>, used': set<char>)
    requires PairwiseDisjoint(rest) && Avoids(rest, used')
    requires used' == used + {lead.first, lead.second}
    requires lead.first !in used && lead.second !in used
    ensures PairwiseDisjoint([lead] + rest) && Avoids([lead] + rest, used)
  {
    var r := [lead] + rest;
    assert forall k :: 0 < k < |r| ==> r[k] == rest[k - 1];
  }

  /** A board built by `get_user_leads` is an involution on the alphabet. */
  lemma UserLeadsInvolution(entries: seq<string>, c: char)
    requires IsLetter(c)
    ensures Transformed(UserLeads(entries), Transformed(UserLeads(entries), c)) == c
  {
    TransformedInvolution(UserLeads(entries), c);
  }
}
