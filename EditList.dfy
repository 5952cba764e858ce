/**
 * The list editor's value logic: the Fee Sheet code lists kept as two
 * parallel '~'-separated strings (codes and their descriptions) with the
 * page script's delete and add operations, the ids and notes saved for
 * list items, new lists, the "default" check boxes, the duplicate check
 * of code types before submission and the saved code-type row. The
 * database and page output are not modelled.
 */
module EditList {
  import opened Wrappers
  import opened Text

  const Tilde := '~'

  // ---------------------------------------------------------------------
  // Fee Sheet code lists: deleting a code
  // ---------------------------------------------------------------------

  /** JavaScript `s.indexOf(c, from)` for one character: the first position at or after `from` holding `c`, -1 if none. */
  function CharIndexFrom(s: string, c: char, from: nat): (r: int)
    ensures r == -1 || (from <= r < |s| && s[r] == c)
    ensures r == -1 ==> forall k :: from <= k < |s| ==> s[k] != c
    ensures r >= 0 ==> forall k :: from <= k < r ==> s[k] != c
    decreases |s| - from
  {
    if from >= |s| then -1 else if s[from] == c then from else CharIndexFrom(s, c, from + 1)
  }

  /** Where the script's scan puts the start of segment `k`: one past the next '~', `k` times over. */
  function SegmentOffset(s: string, k: nat): nat
  {
    if k == 0 then 0 else CharIndexFrom(s, Tilde, SegmentOffset(s, k - 1)) + 1
  }

  /**
   * `dc_substring`: the segment starting at `i` removed with the '~' after
   * it; the last segment is removed with the '~' before it, and an only
   * segment leaves the empty string.
   */
  function DcSubstring(s: string, i: nat): string
  {
    var j := CharIndexFrom(s, Tilde, i);
    if j < 0 then (if i > 0 then Take(s, i - 1) else "")
    else s[..i] + s[j + 1..]
  }

  /** The text before segment `k` of the joined parts, its '~' included. */
  function Prefix(parts: seq<string>, k: nat): string
    requires k <= |parts|
  {
    if k == 0 then "" else Join(parts[..k], [Tilde]) + [Tilde]
  }

  predicate NoTilde(parts: seq<string>)
  {
    forall k :: 0 <= k < |parts| ==> Tilde !in parts[k]
  }

  /** Joining two non-empty lists puts one separator between their joins. */
  lemma {:induction false} JoinAppend(a: seq<string>, b: seq<string>, sep: string)
    requires |a| > 0 && |b| > 0
    ensures Join(a + b, sep) == Join(a, sep) + sep + Join(b, sep)
    decreases |a|
  {
    assert (a + b)[1..] == a[1..] + b;
    if |a| > 1 {
      JoinAppend(a[1..], b, sep);
    }
  }

  /** The joined parts are the prefix before segment `k` and the join of the rest. */
  lemma JoinAt(parts: seq<string>, k: nat)
    requires k < |parts|
    ensures Join(parts, [Tilde]) == Prefix(parts, k) + Join(parts[k..], [Tilde])
  {
    if k > 0 {
      var a, b := parts[..k], parts[k..];
      assert parts == a + b;
      JoinAppend(a, b, [Tilde]);
      assert Prefix(parts, k) == Join(a, [Tilde]) + [Tilde];
    }
  }

  /** Before the last segment, the join from segment `k` on is segment `k`, a '~' and the join of the rest. */
  lemma JoinFrom(parts: seq<string>, k: nat)
    requires k + 1 < |parts|
    ensures Join(parts[k..], [Tilde]) == parts[k] + ([Tilde] + Join(parts[k + 1..], [Tilde]))
  {
    var tail := parts[k..];
    assert tail[1..] == parts[k + 1..];
    assert Join(tail, [Tilde]) == tail[0] + [Tilde] + Join(tail[1..], [Tilde]);
  }

  /** The join of the last segment alone is that segment. */
  lemma JoinFromLast(parts: seq<string>)
    requires |parts| > 0
    ensures Join(parts[|parts| - 1..], [Tilde]) == parts[|parts| - 1]
  {
    assert parts[|parts| - 1..] == [parts[|parts| - 1]];
  }

  /** The search finds the first `c` after a run without one. */
  lemma {:induction false} CharIndexSkip(s: string, c: char, from: nat, n: nat)
    requires from + n < |s| && s[from + n] == c
    requires forall t :: from <= t < from + n ==> s[t] != c
    ensures CharIndexFrom(s, c, from) == from + n
    decreases n
  {
    if n > 0 {
      CharIndexSkip(s, c, from + 1, n - 1);
    }
  }

  /** After a prefix, a part without '~' and a '~', the search finds that '~'. */
  lemma CharIndexAfterPart(p: string, x: string, rest: string)
    requires Tilde !in x
    ensures CharIndexFrom(p + (x + ([Tilde] + rest)), Tilde, |p|) == |p| + |x|
  {
    var s := p + (x + ([Tilde] + rest));
    forall t | |p| <= t < |p| + |x|
      ensures s[t] != Tilde
    {
      assert s[t] == x[t - |p|];
    }
    CharIndexSkip(s, Tilde, |p|, |x|);
  }

  /** The prefix before segment `k + 1` is the prefix before `k`, segment `k` and a '~'. */
  lemma PrefixNext(parts: seq<string>, k: nat)
    requires k + 1 < |parts|
    ensures Prefix(parts, k + 1) == Prefix(parts, k) + parts[k] + [Tilde]
  {
    if k > 0 {
      assert parts[..k + 1] == parts[..k] + [parts[k]];
      JoinSnoc(parts[..k], parts[k], [Tilde]);
    } else {
      assert parts[..1] == [parts[0]];
    }
  }

  /** The scan reaches the start of segment `k`. */
  lemma {:induction false} OffsetOfSegment(parts: seq<string>, k: nat)
    requires NoTilde(parts) && k < |parts|
    ensures SegmentOffset(Join(parts, [Tilde]), k) == |Prefix(parts, k)|
    decreases k
  {
    if k > 0 {
      var s := Join(parts, [Tilde]);
      OffsetOfSegment(parts, k - 1);
      var p := Prefix(parts, k - 1);
      var rest := Join(parts[k..], [Tilde]);
      JoinAt(parts, k - 1);
      JoinFrom(parts, k - 1);
      assert s == p + (parts[k - 1] + ([Tilde] + rest));
      assert Tilde !in parts[k - 1];
      CharIndexAfterPart(p, parts[k - 1], rest);
      PrefixNext(parts, k - 1);
    }
  }

  /** Removing segment `k` when more segments follow: the text before it and the segments after it. */
  lemma DcSubstringRemovesMiddle(parts: seq<string>, k: nat)
    requires NoTilde(parts) && k + 1 < |parts|
    ensures DcSubstring(Join(parts, [Tilde]), |Prefix(parts, k)|) == Join(parts[..k] + parts[k + 1..], [Tilde])
  {
    var s := Join(parts, [Tilde]);
    var p := Prefix(parts, k);
    var rest := Join(parts[k + 1..], [Tilde]);
    JoinAt(parts, k);
    JoinFrom(parts, k);
    assert s == p + (parts[k] + ([Tilde] + rest));
    assert Tilde !in parts[k];
    CharIndexAfterPart(p, parts[k], rest);
    assert DcSubstring(s, |p|) == p + rest by {
      assert s[..|p|] == p && s[|p| + |parts[k]| + 1..] == rest;
    }
    if k > 0 {
      JoinAppend(parts[..k], parts[k + 1..], [Tilde]);
    } else {
      assert parts[..0] + parts[1..] == parts[1..];
    }
  }

  /** Removing the last segment: the text before it without its '~'. */
  lemma DcSubstringRemovesLast(parts: seq<string>)
    requires NoTilde(parts) && |parts| > 0
    ensures var k := |parts| - 1;
      DcSubstring(Join(parts, [Tilde]), |Prefix(parts, k)|) == Join(parts[..k], [Tilde])
  {
    var k := |parts| - 1;
    var s := Join(parts, [Tilde]);
    var p := Prefix(parts, k);
    JoinAt(parts, k);
    JoinFromLast(parts);
    assert s == p + parts[k];
    assert Tilde !in parts[k];
    assert CharIndexFrom(s, Tilde, |p|) == -1 by {
      forall t | |p| <= t < |s|
        ensures s[t] != Tilde
      {
        assert s[t] == parts[k][t - |p|];
      }
    }
  }

  /** Removing at the start of segment `k` leaves the other segments, in order. */
  lemma DcSubstringRemoves(parts: seq<string>, k: nat)
    requires NoTilde(parts) && k < |parts|
    ensures DcSubstring(Join(parts, [Tilde]), |Prefix(parts, k)|) == Join(parts[..k] + parts[k + 1..], [Tilde])
  {
    if k + 1 < |parts| {
      DcSubstringRemovesMiddle(parts, k);
    } else {
      DcSubstringRemovesLast(parts);
      assert parts[..k] + parts[k + 1..] == parts[..k];
    }
  }

  /** Segment `k` of a '~'-separated string removed, the others kept in order. */
  lemma DeleteSegment(s: string, k: nat)
    requires k < |Split(s, Tilde)|
    ensures DcSubstring(s, SegmentOffset(s, k)) == Join(Split(s, Tilde)[..k] + Split(s, Tilde)[k + 1..], [Tilde])
  {
    var parts := Split(s, Tilde);
    JoinSplit(s, Tilde);
    OffsetOfSegment(parts, k);
    DcSubstringRemoves(parts, k);
  }

  /**
   * `delete_code`: the scan to segment `seqno` of the codes and of the
   * descriptions, and that segment removed from both.
   */
  method DeleteCode(codes: string, descs: string, seqno: nat) returns (codes': string, descs': string)
    ensures codes' == DcSubstring(codes, SegmentOffset(codes, seqno))
    ensures descs' == DcSubstring(descs, SegmentOffset(descs, seqno))
    ensures seqno < |Split(codes, Tilde)| ==>
      codes' == Join(Split(codes, Tilde)[..seqno] + Split(codes, Tilde)[seqno + 1..], [Tilde])
    ensures seqno < |Split(descs, Tilde)| ==>
      descs' == Join(Split(descs, Tilde)[..seqno] + Split(descs, Tilde)[seqno + 1..], [Tilde])
  {
    var ci: nat, di: nat := 0, 0;
    for i := 0 to seqno
      invariant ci == SegmentOffset(codes, i) && di == SegmentOffset(descs, i)
    {
      ci := CharIndexFrom(codes, Tilde, ci) + 1;
      di := CharIndexFrom(descs, Tilde, di) + 1;
    }
    codes' := DcSubstring(codes, ci);
    descs' := DcSubstring(descs, di);
    if seqno < |Split(codes, Tilde)| {
      DeleteSegment(codes, seqno);
    }
    if seqno < |Split(descs, Tilde)| {
      DeleteSegment(descs, seqno);
    }
  }

  // ---------------------------------------------------------------------
  // Codes picked in the code finder
  // ---------------------------------------------------------------------

  /** The number of codes in a list: none when empty, else its '~'-separated parts. */
  function SegmentCount(s: string): nat
  {
    if s == "" then 0 else |Split(s, Tilde)|
  }

  /** Every '~' of a description replaced by a space, first occurrence first. */
  method SpaceTildes(desc: string) returns (r: string)
    ensures |r| == |desc|
    ensures forall k :: 0 <= k < |r| ==> r[k] == if desc[k] == Tilde then ' ' else desc[k]
  {
    r := desc;
    ghost var done := 0;
    var i := CharIndexFrom(r, Tilde, 0);
    while i >= 0
      invariant |r| == |desc| && 0 <= done <= |r|
      invariant forall k :: 0 <= k < |r| ==> r[k] == desc[k] || (desc[k] == Tilde && r[k] == ' ')
      invariant forall k :: 0 <= k < done ==> r[k] != Tilde
      invariant i == CharIndexFrom(r, Tilde, 0)
      invariant i >= 0 ==> done <= i
      invariant i < 0 ==> forall k :: 0 <= k < |r| ==> r[k] != Tilde
      decreases |r| - done
    {
      r := r[..i] + " " + r[i + 1..];
      done := i + 1;
      i := CharIndexFrom(r, Tilde, 0);
      if i >= 0 {
        assert r[i] == Tilde;
      }
    }
  }

  /** The description shown for a picked code: products by code and selector, other codes by type and code. */
  function FeeDescription(codetype: string, code: string, selector: string, desc: string): string
  {
    if codetype == "PROD" then code + ":" + selector + " " + desc
    else codetype + ":" + code + " " + desc
  }

  /**
   * `set_related` from the Fee Sheet editor: with a code, the code (type,
   * code and selector joined by '|') and its description are appended,
   * each after a '~' when the codes are not empty; without one, both
   * lists are cleared.
   */
  method FeeSheetRelated(codes: string, descs: string, codetype: string, code: string, selector: string,
                         codedesc: string) returns (codes': string, descs': string)
    ensures code == "" ==> codes' == "" && descs' == ""
    ensures code != "" ==>
      codes' == AppendPart(codes, Tilde, codetype + "|" + code + "|" + selector)
      && exists d :: |d| == |codedesc| && Tilde !in d &&
           descs' == (if codes != "" then descs + [Tilde] else descs) + FeeDescription(codetype, code, selector, d)
  {
    var d := SpaceTildes(codedesc);
    if code != "" {
      codes', descs' := codes, descs;
      if codes != "" {
        codes' := codes' + [Tilde];
        descs' := descs' + [Tilde];
      }
      codes' := codes' + codetype + "|" + code + "|" + selector;
      descs' := descs' + FeeDescription(codetype, code, selector, d);
    } else {
      codes', descs' := "", "";
    }
  }

  /**
   * With the same number of codes and descriptions, adding a picked code
   * whose type, code and selector have no '~' adds one segment to each,
   * at the end, and keeps the others.
   */
  lemma FeeSheetStaysParallel(codes: string, descs: string, entry: string, desc: string)
    requires SegmentCount(codes) == SegmentCount(descs)
    requires Tilde !in entry && Tilde !in desc && entry != "" && desc != ""
    ensures var descs' := (if codes != "" then descs + [Tilde] else descs) + desc;
      SegmentCount(AppendPart(codes, Tilde, entry)) == SegmentCount(descs') == SegmentCount(codes) + 1
      && Split(descs', Tilde) == (if descs == "" then [desc] else Split(descs, Tilde) + [desc])
      && Split(AppendPart(codes, Tilde, entry), Tilde) == (if codes == "" then [entry] else Split(codes, Tilde) + [entry])
  {
    assert codes == "" <==> descs == "" by {
      assert codes != "" ==> SegmentCount(codes) >= 1;
      assert descs != "" ==> SegmentCount(descs) >= 1;
    }
    assert (if codes != "" then descs + [Tilde] else descs) + desc == AppendPart(descs, Tilde, desc);
    SplitAppendPart(codes, Tilde, entry);
    SplitAppendPart(descs, Tilde, desc);
  }

  /** `set_related` for a clinical-term field: the code appended after a ';', or the field cleared. */
  function ClinicalTermRelated(s: string, codetype: string, code: string): (r: string)
    ensures code == "" ==> r == ""
    ensures code != "" ==> r == AppendPart(s, ';', codetype + ":" + code)
  {
    if code != "" then AppendPart(s, ';', codetype + ":" + code) else ""
  }

  /** Terms added one by one are kept in order, each after the ones before. */
  lemma ClinicalTermsKept(s: string, codetype: string, code: string)
    requires code != "" && ';' !in codetype + ":" + code
    ensures Split(ClinicalTermRelated(s, codetype, code), ';') ==
      (if s == "" then [codetype + ":" + code] else Split(s, ';') + [codetype + ":" + code])
  {
    SplitAppendPart(s, ';', codetype + ":" + code);
  }

  /** `set_related` for an immunization: the code picked, or "0" for none. */
  function ImmunizationRelated(code: string): (r: string)
    ensures r != ""
    ensures code != "" ==> r == code
  {
    if code != "" then code else "0"
  }

  // ---------------------------------------------------------------------
  // Saving list items
  // ---------------------------------------------------------------------

  /** The ids of layout-based forms start with "LBF" and of transaction forms with "LBT". */
  function ForceFormPrefix(listId: string, id: string): (r: string)
    ensures listId == "lbfnames" ==> Take(r, 3) == "LBF"
    ensures listId == "transactions" ==> Take(r, 3) == "LBT"
    ensures listId != "lbfnames" && listId != "transactions" ==> r == id
    ensures listId == "lbfnames" && Take(id, 3) == "LBF" ==> r == id
    ensures listId == "transactions" && Take(id, 3) == "LBT" ==> r == id
  {
    if listId == "lbfnames" && Take(id, 3) != "LBF" then "LBF" + id
    else if listId == "transactions" && Take(id, 3) != "LBT" then "LBT" + id
    else id
  }

  /** Forcing the prefix a second time changes nothing. */
  lemma ForceFormPrefixIdempotent(listId: string, id: string)
    ensures ForceFormPrefix(listId, ForceFormPrefix(listId, id)) == ForceFormPrefix(listId, id)
  {
  }

  /** An appointment status's notes: the trimmed color and time alert joined by '|'. */
  function ApptStatNotes(color: string, timeAlert: string): string
  {
    Trim(color) + "|" + Trim(timeAlert)
  }

  /** The color and time alert read back from the notes: the first two '|'-separated parts, the second empty if missing. */
  function ApptStatFields(notes: string): (string, string)
  {
    var parts := Split(notes, '|');
    (parts[0], if |parts| > 1 then parts[1] else "")
  }

  /** Saved notes read back as the trimmed color and time alert, when neither holds a '|'. */
  lemma ApptStatRoundTrip(color: string, timeAlert: string)
    requires '|' !in color && '|' !in timeAlert
    ensures ApptStatFields(ApptStatNotes(color, timeAlert)) == (Trim(color), Trim(timeAlert))
  {
    TrimChars(color, '|');
    TrimChars(timeAlert, '|');
    SplitAfterFirst(Trim(color), '|', Trim(timeAlert));
    SplitAbsent(Trim(timeAlert), '|');
  }

  /** A character a regular expression's `\w` matches. */
  predicate IsWordChar(c: char)
  {
    IsDigit(c) || IsUpper(c) || IsLower(c) || c == '_'
  }

  /** The id of a new list: every character that is not a word character replaced by '_'. */
  function NewListId(name: string): (r: string)
    ensures |r| == |name|
    ensures forall i :: 0 <= i < |r| ==> IsWordChar(r[i])
    ensures forall i :: 0 <= i < |r| ==> (IsWordChar(name[i]) ==> r[i] == name[i]) && (!IsWordChar(name[i]) ==> r[i] == '_')
  {
    seq(|name|, i requires 0 <= i < |name| => if IsWordChar(name[i]) then name[i] else '_')
  }

  /** Making an id of a list id changes nothing. */
  lemma NewListIdIdempotent(name: string)
    ensures NewListId(NewListId(name)) == NewListId(name)
  {
  }

  function Max(xs: seq<int>): (m: int)
    requires |xs| > 0
    ensures m in xs && forall i :: 0 <= i < |xs| ==> xs[i] <= m
  {
    if |xs| == 1 then xs[0]
    else var m := Max(xs[1..]); if xs[0] > m then xs[0] else m
  }

  /** A new list goes after every existing list: one past the largest position, 1 when there is none. */
  function NewListSeq(seqs: seq<int>): (r: int)
    ensures forall i :: 0 <= i < |seqs| ==> seqs[i] < r
    ensures |seqs| == 0 ==> r == 1
    ensures |seqs| > 0 ==> r - 1 in seqs
  {
    (if |seqs| == 0 then 0 else Max(seqs)) + 1
  }

  // ---------------------------------------------------------------------
  // The "default" check boxes
  // ---------------------------------------------------------------------

  /** `defClicked`: every default box but the one on line `lino` (lines from 1) is cleared. */
  method DefClicked(defaults: array<bool>, lino: int)
    modifies defaults
    ensures forall k :: 0 <= k < defaults.Length ==> defaults[k] == (old(defaults[k]) && k + 1 == lino)
    ensures forall j, k :: 0 <= j < defaults.Length && 0 <= k < defaults.Length && defaults[j] && defaults[k] ==> j == k
  {
    for i := 1 to defaults.Length + 1
      invariant forall k :: 0 <= k < i - 1 ==> defaults[k] == (old(defaults[k]) && k + 1 == lino)
      invariant forall k :: i - 1 <= k < defaults.Length ==> defaults[k] == old(defaults[k])
    {
      if i != lino {
        defaults[i - 1] := false;
      }
    }
  }

  // ---------------------------------------------------------------------
  // Code types
  // ---------------------------------------------------------------------

  /** The value of the digits at the start of `t`; none without digits. */
  function LeadingDigits(t: string): (r: Option<nat>)
  {
    var n := DigitRun(t);
    if n == 0 then None else Some(DigitsValue(t[..n]))
  }

  /** JavaScript `parseInt` in base 10: leading white space, a sign and the digits after it; none (NaN) without digits. */
  function ParseInt(s: string): (r: Option<int>)
  {
    var t := TrimLeft(s);
    if |t| > 0 && t[0] == '-' then
      (var d := LeadingDigits(t[1..]); if d.None? then None else Some(-(d.value as int)))
    else if |t| > 0 && t[0] == '+' then
      (var d := LeadingDigits(t[1..]); if d.None? then None else Some(d.value as int))
    else
      (var d := LeadingDigits(t); if d.None? then None else Some(d.value as int))
  }

  /** A digit string parses as its value. */
  lemma ParseIntDigits(s: string)
    requires |s| > 0 && AllDigits(s)
    ensures ParseInt(s) == Some(DigitsValue(s) as int)
  {
    assert IsDigit(s[0]);
    assert TrimLeft(s) == s;
    DigitRunPrefix(s);
    assert s[..|s|] == s;
    assert LeadingDigits(s) == Some(DigitsValue(s));
  }

  /** A line of the code types form, with its name and id as entered. */
  datatype CodeTypeLine = CodeTypeLine(key: string, id: string)

  /** The lines the script checks: those before the first line without a name. */
  function Checked(lines: seq<CodeTypeLine>): (r: seq<CodeTypeLine>)
    ensures |r| <= |lines| && r == lines[..|r|]
    ensures forall i :: 0 <= i < |r| ==> r[i].key != ""
    ensures |r| < |lines| ==> lines[|r|].key == ""
  {
    if |lines| == 0 || lines[0].key == "" then [] else [lines[0]] + Checked(lines[1..])
  }

  /** Two lines clash with the same name, or with ids that parse to the same number (NaN equals nothing). */
  predicate Clash(a: CodeTypeLine, b: CodeTypeLine)
  {
    a.key == b.key || SameId(a.id, b.id)
  }

  /** Two ids that parse to the same number. */
  predicate SameId(a: string, b: string)
  {
    ParseInt(a).Some? && ParseInt(a) == ParseInt(b)
  }

  /** The alert that stops a submission, with the later line of the clashing pair (lines from 1). */
  datatype SubmitAlert = DuplicatedName(line: nat) | DuplicatedId(line: nat)

  /** No two of the lines clash. */
  predicate NoClash(c: seq<CodeTypeLine>)
  {
    forall i, j :: 0 <= i < j < |c| ==> !Clash(c[i], c[j])
  }

  /** The alert names a later line of a clashing pair, by name when the names are the same. */
  predicate Reports(c: seq<CodeTypeLine>, alert: SubmitAlert)
  {
    exists i, j :: 0 <= i < j < |c| && alert.line == j + 1 &&
      (if alert.DuplicatedName? then c[i].key == c[j].key else Clash(c[i], c[j]) && c[i].key != c[j].key)
  }

  /** Every pair of lines compared in order; the first clash found is reported. */
  method FirstClash(c: seq<CodeTypeLine>) returns (r: Option<SubmitAlert>)
    ensures r.None? <==> NoClash(c)
    ensures r.Some? ==> Reports(c, r.value)
  {
    for i := 0 to |c|
      invariant forall a, b :: 0 <= a < i && a < b < |c| ==> !Clash(c[a], c[b])
    {
      for j := i + 1 to |c|
        invariant forall b :: i < b < j ==> !Clash(c[i], c[b])
      {
        if c[i].key == c[j].key {
          assert Reports(c, DuplicatedName(j + 1)) by {
            assert 0 <= i < j < |c| && c[i].key == c[j].key;
          }
          return Some(DuplicatedName(j + 1));
        }
        if SameId(c[i].id, c[j].id) {
          assert Reports(c, DuplicatedId(j + 1)) by {
            assert 0 <= i < j < |c| && Clash(c[i], c[j]) && c[i].key != c[j].key;
          }
          return Some(DuplicatedId(j + 1));
        }
      }
    }
    return None;
  }

  /**
   * `mysubmit`: for code types, the lines before the first one without a
   * name compared pairwise; a clash stops the submission with an alert.
   */
  method MySubmit(listId: string, lines: seq<CodeTypeLine>) returns (r: Option<SubmitAlert>)
    ensures r.None? <==> (listId != "code_types" || NoClash(Checked(lines)))
    ensures r.Some? ==> Reports(Checked(lines), r.value)
  {
    if listId != "code_types" {
      return None;
    }
    r := FirstClash(Checked(lines));
  }

  /** A check box's value as saved: 0 when empty or absent, 1 otherwise. */
  function Flag(v: Option<string>): (f: int)
    ensures f == 0 || f == 1
    ensures f == 1 <==> v.Some? && !PhpEmpty(v.value)
  {
    if v.None? || PhpEmpty(v.value) then 0 else 1
  }

  /** PHP `s + 0` for a trimmed form value: its leading integer, 0 when it has none. */
  function NumberValue(s: string): int
  {
    var p := ParseInt(s);
    if p.Some? then p.value else 0
  }

  /** A code type as saved: name, id and its flags. */
  datatype CodeType = CodeType(key: string, id: int, flags: seq<int>)

  /** A code-types line is saved when its trimmed name is not empty and its id is positive; its flags become 0 or 1. */
  function SaveCodeType(key: string, id: string, flags: seq<Option<string>>): (r: Option<CodeType>)
    ensures r.Some? <==> |Trim(key)| > 0 && NumberValue(Trim(id)) > 0
    ensures r.Some? ==> r.value.key == Trim(key) && r.value.id == NumberValue(Trim(id)) && |r.value.flags| == |flags|
    ensures r.Some? ==> forall i :: 0 <= i < |flags| ==> r.value.flags[i] == Flag(flags[i])
  {
    var k := Trim(key);
    var n := NumberValue(Trim(id));
    if |k| > 0 && n > 0 then Some(CodeType(k, n, seq(|flags|, i requires 0 <= i < |flags| => Flag(flags[i]))))
    else None
  }
}
