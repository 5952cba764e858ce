/**
 * The page script of the full demographics editor: its text helpers
 * (replace, word capitalisation, trimmed length, the policy number filter),
 * the insurance provider picker, and the subscriber checks made before the
 * form is submitted. The page itself, its layout validation and the
 * dialogs are not modelled; the user's answers to confirmations are a
 * function parameter.
 */
module DemographicsFull {
  import opened Wrappers
  import opened Text

  // ---------------------------------------------------------------------
  // replace and upperFirst
  // ---------------------------------------------------------------------

  /**
   * `replace(string, text, by)`: the first occurrence of `text` replaced by
   * `by`, and the same done again on what follows it. An empty string or
   * text leaves the string as it is.
   */
  function Replace(s: string, pat: string, b: string): string
    decreases |s|
  {
    if |s| == 0 || |pat| == 0 || IndexOf(s, pat).None? then s
    else
      var i := IndexOf(s, pat).value;
      s[..i] + b + (if i + |pat| < |s| then Replace(s[i + |pat|..], pat, b) else "")
  }

  /** Without an occurrence of the text, the string is returned as it is. */
  lemma ReplaceAbsent(s: string, t: string, b: string)
    requires !Contains(s, t)
    ensures Replace(s, t, b) == s
  {
    IndexOfSpec(s, t);
  }

  /** Replacing a text by itself changes nothing. */
  lemma {:induction false} ReplaceIdentity(s: string, t: string)
    ensures Replace(s, t, t) == s
    decreases |s|
  {
    if |s| > 0 && |t| > 0 && IndexOf(s, t).Some? {
      var i := IndexOf(s, t).value;
      IndexOfSpec(s, t);
      assert s[i..i + |t|] == t;
      if i + |t| < |s| {
        ReplaceIdentity(s[i + |t|..], t);
      }
      assert s == s[..i] + s[i..i + |t|] + s[i + |t|..];
    }
  }

  /** Every `c` replaced by `d`, the other characters kept. */
  function MapChar(s: string, c: char, d: char): (r: string)
    ensures |r| == |s|
    ensures forall k :: 0 <= k < |s| ==> r[k] == if s[k] == c then d else s[k]
  {
    seq(|s|, k requires 0 <= k < |s| => if s[k] == c then d else s[k])
  }

  /** A character that occurs nowhere before `i` is unequal to every character there. */
  lemma NoCharBefore(s: string, c: char, i: nat)
    requires i <= |s|
    requires forall j: nat :: j < i ==> !OccursAt(s, [c], j)
    ensures forall k :: 0 <= k < i ==> s[k] != c
  {
    forall k | 0 <= k < i
      ensures s[k] != c
    {
      assert !OccursAt(s, [c], k);
      assert s[k..k + 1] == [s[k]];
    }
  }

  lemma MapCharAbsent(s: string, c: char, d: char)
    requires forall k :: 0 <= k < |s| ==> s[k] != c
    ensures MapChar(s, c, d) == s
  {
  }

  lemma MapCharAt(s: string, c: char, d: char, i: nat)
    requires i < |s| && s[i] == c
    requires forall k :: 0 <= k < i ==> s[k] != c
    ensures MapChar(s, c, d) == s[..i] + [d] + MapChar(s[i + 1..], c, d)
  {
    var m := MapChar(s[i + 1..], c, d);
    assert forall k :: i < k < |s| ==> MapChar(s, c, d)[k] == m[k - i - 1];
  }

  /** For a one-character text, `replace` replaces every occurrence. */
  lemma {:induction false} ReplaceChar(s: string, c: char, d: char)
    ensures Replace(s, [c], [d]) == MapChar(s, c, d)
    decreases |s|
  {
    if |s| > 0 {
      IndexOfSpec(s, [c]);
      var o := IndexOf(s, [c]);
      if o.Some? {
        var i := o.value;
        assert s[i] == c by {
          assert s[i..i + 1] == [c];
        }
        NoCharBefore(s, c, i);
        MapCharAt(s, c, d, i);
        if i + 1 < |s| {
          ReplaceChar(s[i + 1..], c, d);
        } else {
          assert MapChar(s[i + 1..], c, d) == "";
        }
      } else {
        assert !Contains(s, [c]);
        NoCharBefore(s, c, |s|);
        MapCharAbsent(s, c, d);
      }
    }
  }

  /** A word with its first character in upper case. */
  function CapWord(w: string): (r: string)
    ensures |r| == |w|
    ensures |w| > 0 ==> r[0] == ToUpper(w[0]) && r[1..] == w[1..]
  {
    if |w| == 0 then "" else [ToUpper(w[0])] + w[1..]
  }

  /** `upperFirst(string, text)`: every occurrence of `text` given an upper-case first character. */
  function UpperFirst(s: string, t: string): string
  {
    Replace(s, t, CapWord(t))
  }

  /** With a one-letter text, every occurrence of the letter is made upper case. */
  lemma UpperFirstLetter(s: string, c: char)
    ensures UpperFirst(s, [c]) == MapChar(s, c, ToUpper(c))
  {
    assert CapWord([c]) == [ToUpper(c)];
    ReplaceChar(s, c, ToUpper(c));
  }

  // ---------------------------------------------------------------------
  // capitalizeMe
  // ---------------------------------------------------------------------

  /** The capitalised value built from the space-separated pieces: empty pieces dropped, words joined by one space. */
  function Capitalized(pieces: seq<string>): string
  {
    if |pieces| == 0 then ""
    else
      var s := Capitalized(pieces[..|pieces| - 1]);
      var w := pieces[|pieces| - 1];
      if |w| > 0 then AppendPart(s, ' ', CapWord(w)) else s
  }

  /** The words of the pieces: the non-empty ones, capitalised, in order. */
  function Words(pieces: seq<string>): (ws: seq<string>)
    ensures forall k :: 0 <= k < |ws| ==> |ws[k]| > 0
  {
    if |pieces| == 0 then []
    else
      var ws := Words(pieces[..|pieces| - 1]);
      var w := pieces[|pieces| - 1];
      if |w| > 0 then ws + [CapWord(w)] else ws
  }

  /** The capitalised value is its words joined by single spaces. */
  lemma {:induction false} CapitalizedJoin(pieces: seq<string>)
    ensures Capitalized(pieces) == Join(Words(pieces), " ")
    ensures Capitalized(pieces) == "" <==> |Words(pieces)| == 0
  {
    if |pieces| > 0 {
      var init := pieces[..|pieces| - 1];
      var w := pieces[|pieces| - 1];
      CapitalizedJoin(init);
      if |w| > 0 && |Words(init)| > 0 {
        JoinSnoc(Words(init), CapWord(w), " ");
      }
      if |w| > 0 && |Words(init)| == 0 {
        assert Words(pieces) == [CapWord(w)];
      }
    }
  }

  /** `capitalizeMe`: the value split on single spaces, each non-empty piece capitalised, rejoined with one space. */
  method CapitalizeMe(value: string) returns (r: string)
    ensures r == Capitalized(Split(value, ' '))
  {
    var a := Split(value, ' ');
    r := "";
    for i := 0 to |a|
      invariant r == Capitalized(a[..i])
    {
      assert a[..i + 1][..i] == a[..i];
      if |a[i]| > 0 {
        r := AppendPart(r, ' ', CapWord(a[i]));
      }
    }
    assert a[..|a|] == a;
  }

  /** Pieces without spaces give words without spaces. */
  lemma {:induction false} WordsNoSpace(pieces: seq<string>)
    requires forall k :: 0 <= k < |pieces| ==> ' ' !in pieces[k]
    ensures forall k :: 0 <= k < |Words(pieces)| ==> ' ' !in Words(pieces)[k]
  {
    if |pieces| > 0 {
      var init := pieces[..|pieces| - 1];
      WordsNoSpace(init);
      var w := pieces[|pieces| - 1];
      if |w| > 0 {
        assert ' ' !in CapWord(w) by {
          assert forall k :: 0 <= k < |w| ==> w[k] != ' ';
          assert ToUpper(w[0]) != ' ';
          assert forall k :: 1 <= k < |w| ==> CapWord(w)[k] == w[k];
        }
      }
    }
  }

  /** Words that are already capitalised and non-empty are kept as they are. */
  lemma {:induction false} WordsOfWords(ws: seq<string>)
    requires forall k :: 0 <= k < |ws| ==> |ws[k]| > 0 && CapWord(ws[k]) == ws[k]
    ensures Words(ws) == ws
  {
    if |ws| > 0 {
      WordsOfWords(ws[..|ws| - 1]);
      assert ws[..|ws| - 1] + [ws[|ws| - 1]] == ws;
    }
  }

  /** Capitalising a word twice is capitalising it once. */
  lemma CapWordTwice(w: string)
    ensures CapWord(CapWord(w)) == CapWord(w)
  {
    if |w| > 0 {
      assert ToUpper(ToUpper(w[0])) == ToUpper(w[0]);
    }
  }

  /** The words of a value are capitalised. */
  lemma {:induction false} WordsCapitalized(pieces: seq<string>)
    ensures forall k :: 0 <= k < |Words(pieces)| ==> CapWord(Words(pieces)[k]) == Words(pieces)[k]
  {
    if |pieces| > 0 {
      WordsCapitalized(pieces[..|pieces| - 1]);
      CapWordTwice(pieces[|pieces| - 1]);
    }
  }

  /** Capitalising a capitalised value changes nothing. */
  lemma CapitalizeIdempotent(value: string)
    ensures Capitalized(Split(Capitalized(Split(value, ' ')), ' ')) == Capitalized(Split(value, ' '))
  {
    var ws := Words(Split(value, ' '));
    var once := Capitalized(Split(value, ' '));
    CapitalizedJoin(Split(value, ' '));
    WordsNoSpace(Split(value, ' '));
    WordsCapitalized(Split(value, ' '));
    if |ws| == 0 {
      assert once == "";
      assert Split("", ' ') == [""];
      assert Capitalized([""]) == "" by {
        assert [""][..0] == [];
      }
    } else {
      SplitJoin(ws, ' ');
      assert Split(once, ' ') == ws;
      WordsOfWords(ws);
      CapitalizedJoin(ws);
    }
  }

  // ---------------------------------------------------------------------
  // trimlen and policykeyup
  // ---------------------------------------------------------------------

  /** `s[start..start + n]` is `s` without its leading and trailing spaces, and is not empty. */
  predicate TrimmedAt(s: string, start: nat, n: nat)
  {
    0 < n && start + n <= |s| && s[start] != ' ' && s[start + n - 1] != ' '
    && (forall k :: 0 <= k < start ==> s[k] == ' ')
    && (forall k :: start + n <= k < |s| ==> s[k] == ' ')
  }

  /** `trimlen`: the length of the value without its leading and trailing spaces; 0 when it is all spaces. */
  method TrimLen(s: string) returns (r: nat)
    ensures r == 0 <==> forall k :: 0 <= k < |s| ==> s[k] == ' '
    ensures r > 0 ==> exists start: nat :: TrimmedAt(s, start, r)
  {
    var i := 0;
    var j := |s| - 1;
    while i <= j && s[i] == ' '
      invariant 0 <= i <= |s| && j == |s| - 1
      invariant forall k :: 0 <= k < i ==> s[k] == ' '
    {
      i := i + 1;
    }
    while i <= j && s[j] == ' '
      invariant i - 1 <= j <= |s| - 1
      invariant forall k :: j < k < |s| ==> s[k] == ' '
    {
      j := j - 1;
    }
    if i > j {
      r := 0;
    } else {
      r := j + 1 - i;
      assert TrimmedAt(s, i, r);
    }
  }

  /** The characters a policy number may hold. */
  predicate PolicyChar(c: char)
  {
    IsDigit(c) || IsUpper(c) || c == '*' || c == '-' || c == '_' || c == '(' || c == ')' || c == '#'
  }

  /** The characters of `v` a policy number may hold, in order. */
  function PolicyFilter(v: string): (r: string)
    ensures forall k :: 0 <= k < |r| ==> PolicyChar(r[k])
    ensures |r| <= |v|
  {
    if |v| == 0 then ""
    else PolicyFilter(v[..|v| - 1]) + (if PolicyChar(v[|v| - 1]) then [v[|v| - 1]] else [])
  }

  /** `policykeyup`: the value in upper case, with only the characters of a policy number kept. */
  method PolicyKeyUp(value: string) returns (r: string)
    ensures r == PolicyFilter(Upper(value))
  {
    var v := Upper(value);
    r := "";
    for i := 0 to |v|
      invariant r == PolicyFilter(v[..i])
    {
      assert v[..i + 1][..i] == v[..i];
      if PolicyChar(v[i]) {
        r := r + [v[i]];
      }
    }
    assert v[..|v|] == v;
  }

  /** `a` is `b` with some characters left out. */
  predicate Subsequence(a: string, b: string)
    decreases |b|
  {
    |a| == 0 || (|b| > 0 && (if a[|a| - 1] == b[|b| - 1] then Subsequence(a[..|a| - 1], b[..|b| - 1])
                             else Subsequence(a, b[..|b| - 1])))
  }

  /** The filtered value keeps characters of the value, in order. */
  lemma {:induction false} PolicyFilterSubsequence(v: string)
    ensures Subsequence(PolicyFilter(v), v)
  {
    if |v| > 0 {
      var init := v[..|v| - 1];
      var f := PolicyFilter(init);
      PolicyFilterSubsequence(init);
      if PolicyChar(v[|v| - 1]) {
        assert (f + [v[|v| - 1]])[..|f|] == f;
      } else {
        assert PolicyFilter(v) == f;
        assert v[..|v| - 1] == init;
        if |f| > 0 {
          assert f[|f| - 1] != v[|v| - 1];
        }
      }
    }
  }

  /** Policy characters are not lower-case letters, so upper-casing them changes nothing. */
  lemma {:induction false} UpperOfPolicy(v: string)
    requires forall k :: 0 <= k < |v| ==> PolicyChar(v[k])
    ensures Upper(v) == v
  {
    forall k | 0 <= k < |v|
      ensures Upper(v)[k] == v[k]
    {
      assert !IsLower(v[k]);
    }
  }

  /** Filtering a value of policy characters keeps all of it. */
  lemma {:induction false} PolicyFilterKeeps(v: string)
    requires forall k :: 0 <= k < |v| ==> PolicyChar(v[k])
    ensures PolicyFilter(v) == v
  {
    if |v| > 0 {
      PolicyFilterKeeps(v[..|v| - 1]);
      assert v[..|v| - 1] + [v[|v| - 1]] == v;
    }
  }

  /** The filtered value is upper case, and filtering it again changes nothing. */
  lemma PolicyKeyUpIdempotent(value: string)
    ensures forall k :: 0 <= k < |PolicyFilter(Upper(value))| ==> !IsLower(PolicyFilter(Upper(value))[k])
    ensures PolicyFilter(Upper(PolicyFilter(Upper(value)))) == PolicyFilter(Upper(value))
  {
    var r := PolicyFilter(Upper(value));
    UpperOfPolicy(r);
    PolicyFilterKeeps(r);
  }

  // ---------------------------------------------------------------------
  // The insurance provider picker
  // ---------------------------------------------------------------------

  /** An option of the provider list: its label and the company id. */
  datatype InsOption = InsOption(text: string, value: string)

  /** The first option with value `id`. */
  function FirstWith(opts: seq<InsOption>, id: string): (r: Option<nat>)
    ensures r.Some? ==> r.value < |opts| && opts[r.value].value == id
                        && forall j :: 0 <= j < r.value ==> opts[j].value != id
    ensures r.None? ==> forall j :: 0 <= j < |opts| ==> opts[j].value != id
  {
    if |opts| == 0 then None
    else if opts[0].value == id then Some(0)
    else match FirstWith(opts[1..], id)
      case None => None
      case Some(k) => Some(k + 1)
  }

  /** The provider list of one insurance slot; selecting an option makes it the list's selected index. */
  class ProviderSelect {
    var options: seq<InsOption>
    var selectedIndex: int

    constructor (options: seq<InsOption>, selectedIndex: int)
      ensures this.options == options && this.selectedIndex == selectedIndex
    {
      this.options := options;
      this.selectedIndex := selectedIndex;
    }

    /**
     * `set_insurance`: the first option for the company is selected; when
     * there is none, one new option for it is appended and selected, and
     * no other option changes.
     */
    method SetInsurance(insId: string, insName: string)
      modifies this
      ensures FirstWith(old(options), insId).Some? ==>
        options == old(options) && selectedIndex == FirstWith(old(options), insId).value
      ensures FirstWith(old(options), insId).None? ==>
        options == old(options) + [InsOption(insName, insId)] && selectedIndex == |old(options)|
      ensures 0 <= selectedIndex < |options| && options[selectedIndex].value == insId
    {
      var i := 0;
      while i < |options|
        invariant 0 <= i <= |options|
        invariant forall j :: 0 <= j < i ==> options[j].value != insId
      {
        if options[i].value == insId {
          selectedIndex := i;
          return;
        }
        i := i + 1;
      }
      options := options + [InsOption(insName, insId)];
      selectedIndex := i;
    }
  }

  // ---------------------------------------------------------------------
  // Subscriber checks on submission
  // ---------------------------------------------------------------------

  datatype Name = Name(first: string, middle: string, last: string)

  /** An insurance slot: whether a provider is chosen, the relationship, the subscriber's name and SS number. */
  datatype Slot = Slot(hasProvider: bool, relationship: string, subscriber: Name, ss: string)

  /** The patient's name and SS number; the SS field may be missing from the layout. */
  datatype Patient = Patient(name: Name, ss: Option<string>)

  /** The confirmations asked of the user, with the slot number (from 1). */
  datatype Prompt =
    | SelfNameDiffers(slot: nat)
    | SelfSsDiffers(slot: nat)
    | OtherNameSame(slot: nat)
    | OtherSsSame(slot: nat)

  predicate DashAt(s: string, i: nat)
  {
    i < |s| && s[i] == '-'
  }

  /** Two digits, maybe a dash, four digits. */
  predicate SsTailAt(s: string, j: nat)
  {
    DigitsAt(s, j, 2) && (DigitsAt(s, j + 2, 4) || (DashAt(s, j + 2) && DigitsAt(s, j + 3, 4)))
  }

  /** An SS number starting at `i`: three digits, maybe a dash, two digits, maybe a dash, four digits. */
  predicate SsAt(s: string, i: nat)
  {
    DigitsAt(s, i, 3) && (SsTailAt(s, i + 3) || (DashAt(s, i + 3) && SsTailAt(s, i + 4)))
  }

  /** The SS pattern's test: an SS number somewhere in the string. */
  predicate SsValid(s: string)
  {
    exists i: nat :: i <= |s| && SsAt(s, i)
  }

  /** Nine digits, with or without the dashes, pass the test. */
  lemma SsValidForms(d: string)
    requires |d| == 9 && AllDigits(d)
    ensures SsValid(d)
    ensures SsValid(d[..3] + "-" + d[3..5] + "-" + d[5..])
  {
    assert d[0..3] == d[..3] && d[3..5] == d[3..5] && d[5..9] == d[5..];
    assert SsAt(d, 0);
    var e := d[..3] + "-" + d[3..5] + "-" + d[5..];
    assert e[0..3] == d[..3] && e[4..6] == d[3..5] && e[7..11] == d[5..];
    assert SsAt(e, 0);
  }

  /**
   * The confirmations for one slot with a provider: for "self", a
   * different name, and a different valid SS number; otherwise the same
   * name, and the same valid SS number.
   */
  function SlotPrompts(n: nat, s: Slot, p: Patient): seq<Prompt>
  {
    var sameName := s.subscriber == p.name;
    var sameSs := p.ss.None? || s.ss == p.ss.value;
    var ssValid := p.ss.Some? && SsValid(s.ss) && SsValid(p.ss.value);
    if !s.hasProvider then []
    else if s.relationship == "self" then
      (if !sameName then [SelfNameDiffers(n)] else []) + (if !sameSs && ssValid then [SelfSsDiffers(n)] else [])
    else
      (if sameName then [OtherNameSame(n)] else []) + (if sameSs && ssValid then [OtherSsSame(n)] else [])
  }

  /** The confirmations of the slots, slot by slot. */
  function Prompts(slots: seq<Slot>, p: Patient): seq<Prompt>
  {
    if |slots| == 0 then []
    else Prompts(slots[..|slots| - 1], p) + SlotPrompts(|slots|, slots[|slots| - 1], p)
  }

  /** The prompts of slot `n` come from that slot alone. */
  lemma {:induction false} PromptsOfSlot(slots: seq<Slot>, p: Patient, w: Prompt)
    ensures w in Prompts(slots, p) <==> 1 <= w.slot <= |slots| && w in SlotPrompts(w.slot, slots[w.slot - 1], p)
  {
    if |slots| > 0 {
      var init := slots[..|slots| - 1];
      var last := SlotPrompts(|slots|, slots[|slots| - 1], p);
      PromptsOfSlot(init, p, w);
      assert Prompts(slots, p) == Prompts(init, p) + last;
      assert forall x :: x in last ==> x.slot == |slots|;
      if 1 <= w.slot < |slots| {
        assert init[w.slot - 1] == slots[w.slot - 1];
      }
    }
  }

  /**
   * A slot with a provider asks for confirmation when the relationship is
   * "self" and the name differs, and when it is not "self" and the name
   * is the same; and only then is the name confirmation asked.
   */
  lemma NamePrompts(n: nat, s: Slot, p: Patient)
    ensures SelfNameDiffers(n) in SlotPrompts(n, s, p) <==>
      s.hasProvider && s.relationship == "self" && s.subscriber != p.name
    ensures OtherNameSame(n) in SlotPrompts(n, s, p) <==>
      s.hasProvider && s.relationship != "self" && s.subscriber == p.name
  {
  }

  predicate AllConfirmed(ws: seq<Prompt>, confirm: Prompt -> bool)
  {
    forall k :: 0 <= k < |ws| ==> confirm(ws[k])
  }

  /**
   * The insurance part of `validate`: each slot's confirmations asked in
   * order; the first one the user refuses stops the submission.
   */
  method ConfirmSlots(slots: seq<Slot>, p: Patient, confirm: Prompt -> bool) returns (ok: bool)
    ensures ok == AllConfirmed(Prompts(slots, p), confirm)
  {
    for i := 0 to |slots|
      invariant AllConfirmed(Prompts(slots[..i], p), confirm)
    {
      var ws := SlotPrompts(i + 1, slots[i], p);
      assert slots[..i + 1][..i] == slots[..i];
      assert Prompts(slots[..i + 1], p) == Prompts(slots[..i], p) + ws;
      for k := 0 to |ws|
        invariant forall j :: 0 <= j < k ==> confirm(ws[j])
      {
        if !confirm(ws[k]) {
          assert !AllConfirmed(Prompts(slots, p), confirm) by {
            PrefixPrompts(slots, p, i + 1);
            var all := Prompts(slots, p);
            var before := Prompts(slots[..i + 1], p);
            assert all[..|before|] == before;
            assert before[|Prompts(slots[..i], p)| + k] == ws[k];
            assert all[|Prompts(slots[..i], p)| + k] == ws[k];
          }
          return false;
        }
      }
    }
    assert slots[..|slots|] == slots;
    return true;
  }

  /** The prompts of the first slots come first. */
  lemma {:induction false} PrefixPrompts(slots: seq<Slot>, p: Patient, n: nat)
    requires n <= |slots|
    ensures |Prompts(slots[..n], p)| <= |Prompts(slots, p)|
    ensures Prompts(slots, p)[..|Prompts(slots[..n], p)|] == Prompts(slots[..n], p)
    decreases |slots| - n
  {
    if n < |slots| {
      PrefixPrompts(slots, p, n + 1);
      assert slots[..n + 1][..n] == slots[..n];
    } else {
      assert slots[..n] == slots;
    }
  }
}
