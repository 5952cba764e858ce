/**
 * Field formatters of an X12 837 claim: the X12 Basic Character Set
 * filter, date cleaning, the padded GS sender and receiver ids, the
 * subscriber relationship code, procedure keys with their modifiers, the
 * NDC drug id in 5-4-2 form, the de-duplicated diagnosis list with the
 * 1-based diagnosis pointers of a procedure, and the NPI check.
 *
 * The claim's rows (procedures, diagnoses, the X12 partner) come from
 * database queries; here they are the constructor's arguments.
 */
module Claims {
  import opened Wrappers
  import opened Text

  // ---------------------------------------------------------------------
  // X12 Basic Character Set
  // ---------------------------------------------------------------------

  /** The X12 Basic Character Set: upper-case letters, digits, `! " & ' ( ) + , - . / ; ? =` and space. */
  predicate IsX12Basic(c: char)
  {
    IsUpper(c) || IsDigit(c) || c in "!\"&'()+,-./;?= "
  }

  predicate AllX12Basic(s: string)
  {
    forall i :: 0 <= i < |s| ==> IsX12Basic(s[i])
  }

  function KeepX12Basic(s: string): (r: string)
    ensures AllX12Basic(r) && |r| <= |s|
    ensures forall x :: x in r ==> x in s
  {
    if |s| == 0 then ""
    else (if IsX12Basic(s[0]) then [s[0]] else "") + KeepX12Basic(s[1..])
  }

  /** `x12clean`: upper-case, then drop every character outside the basic set. */
  function X12Clean(s: string): (r: string)
    ensures AllX12Basic(r) && |r| <= |s|
  {
    KeepX12Basic(Upper(s))
  }

  lemma {:induction false} KeepX12BasicOfBasic(s: string)
    requires AllX12Basic(s)
    ensures KeepX12Basic(s) == s
  {
    if |s| > 0 {
      KeepX12BasicOfBasic(s[1..]);
    }
  }

  /** A string already in the basic set comes through unchanged. */
  lemma X12CleanOfBasic(s: string)
    requires AllX12Basic(s)
    ensures X12Clean(s) == s
  {
    assert Upper(s) == s;
    KeepX12BasicOfBasic(s);
  }

  /** Cleaning twice is cleaning once. */
  lemma X12CleanIdempotent(s: string)
    ensures X12Clean(X12Clean(s)) == X12Clean(s)
  {
    X12CleanOfBasic(X12Clean(s));
  }

  /** The colon is outside the basic set, so a cleaned string has none. */
  lemma X12CleanHasNoColon(s: string)
    ensures ':' !in X12Clean(s)
  {
    assert !IsX12Basic(':');
  }

  /** The filter ignores case: lower-casing the input first gives the same result. */
  lemma X12CleanIgnoresCase(s: string)
    ensures X12Clean(Lower(s)) == X12Clean(s)
  {
    assert Upper(Lower(s)) == Upper(s);
  }

  // ---------------------------------------------------------------------
  // Dates
  // ---------------------------------------------------------------------

  /** The first ten characters of a date or time stamp with the dashes removed. */
  function DateDigits(date: string): (r: string)
    ensures |r| <= 10 && '-' !in r
  {
    Remove(Take(date, 10), '-')
  }

  /** `cleanDate`: the date without dashes, or blank when it has eight zeros (an all-zero date). */
  function CleanDate(date: string): (r: string)
    ensures r == "" || (r == DateDigits(date) && Count(r, '0') != 8)
    ensures r == "" <==> DateDigits(date) == "" || Count(DateDigits(date), '0') == 8
  {
    var cleaned := DateDigits(date);
    if Count(cleaned, '0') == 8 then "" else cleaned
  }

  /** A cleaned date is cleaned already. */
  lemma CleanDateIdempotent(date: string)
    ensures CleanDate(CleanDate(date)) == CleanDate(date)
  {
    var r := CleanDate(date);
    RemoveAbsent(r, '-');
    assert DateDigits(r) == r;
  }

  /** The zero date with a time stamp, `0000-00-00 00:00:00`, becomes blank. */
  lemma CleanDateOfZeroTimestamp()
    ensures CleanDate("0000-00-00 00:00:00") == ""
  {
    assert Take("0000-00-00 00:00:00", 10) == "0000-00-00";
    assert Remove("0000-00-00", '-') == "00000000";
  }

  // ---------------------------------------------------------------------
  // Interchange ids
  // ---------------------------------------------------------------------

  function Spaces(n: nat): (r: string)
    ensures |r| == n && forall i :: 0 <= i < n ==> r[i] == ' '
  {
    if n == 0 then "" else Spaces(n - 1) + " "
  }

  /** An id padded on the right with spaces to at least 15 characters; a longer id is kept whole. */
  function PadTo15(id: string): (r: string)
    ensures |r| == if |id| < 15 then 15 else |id|
    ensures r[..|id|] == id
    ensures forall i :: |id| <= i < |r| ==> r[i] == ' '
  {
    if |id| < 15 then id + Spaces(15 - |id|) else id
  }

  /** Right-trimming a padded id gives the id back when it does not itself end in white space. */
  lemma PadTo15Trim(id: string)
    requires |id| == 0 || !IsTrimSpace(id[|id| - 1])
    ensures TrimRight(PadTo15(id)) == id
  {
    var p := PadTo15(id);
    var t := TrimRight(p);
    assert |t| == |id|;
  }

  /** The loop of `x12gssenderid` and `x12gsreceiverid`: append spaces while shorter than 15. */
  method PadId(id: string) returns (r: string)
    ensures r == PadTo15(id)
  {
    r := id;
    while |r| < 15
      invariant |id| <= |r| <= if |id| < 15 then 15 else |id|
      invariant r == id + Spaces(|r| - |id|)
      decreases 15 - |r|
    {
      r := r + " ";
    }
  }

  // ---------------------------------------------------------------------
  // Subscriber relationship
  // ---------------------------------------------------------------------

  /** `insuredRelationship`: the HIPAA code of the patient's relationship to the subscriber. */
  function InsuredRelationship(relationship: string): (r: string)
    ensures Lower(relationship) == "self" ==> r == "18"
    ensures Lower(relationship) == "spouse" ==> r == "01"
    ensures Lower(relationship) == "child" ==> r == "19"
    ensures Lower(relationship) == "other" ==> r == "G8"
    ensures Lower(relationship) !in ["self", "spouse", "child", "other"] ==> r == Lower(relationship)
  {
    var tmp := Lower(relationship);
    if tmp == "self" then "18"
    else if tmp == "spouse" then "01"
    else if tmp == "child" then "19"
    else if tmp == "other" then "G8"
    else tmp
  }

  /** The relationship is matched without regard to case. */
  lemma InsuredRelationshipIgnoresCase(relationship: string)
    ensures InsuredRelationship(Upper(relationship)) == InsuredRelationship(relationship)
  {
    var u := Upper(relationship);
    forall i | 0 <= i < |relationship|
      ensures Lower(u)[i] == Lower(relationship)[i]
    {
      assert u[i] == ToUpper(relationship[i]);
    }
    assert Lower(u) == Lower(relationship);
  }

  /** The four relationships get four different codes, none of them a relationship name. */
  lemma InsuredRelationshipCodesDistinct(a: string, b: string)
    requires Lower(a) in ["self", "spouse", "child", "other"]
    requires Lower(b) in ["self", "spouse", "child", "other"]
    requires InsuredRelationship(a) == InsuredRelationship(b)
    ensures Lower(a) == Lower(b)
  {
  }

  // ---------------------------------------------------------------------
  // Procedure keys
  // ---------------------------------------------------------------------

  predicate IsModifierSeparator(c: char) { c == ':' || c == ' ' }

  /** `preg_split("/[: ]/", s)`: the pieces between colons and spaces, empty ones included. */
  function SplitModifiers(s: string): (parts: seq<string>)
    ensures |parts| >= 1
    ensures forall k :: 0 <= k < |parts| ==> ':' !in parts[k] && ' ' !in parts[k]
  {
    if |s| == 0 then [""]
    else if IsModifierSeparator(s[0]) then [""] + SplitModifiers(s[1..])
    else var rest := SplitModifiers(s[1..]); [[s[0]] + rest[0]] + rest[1..]
  }

  function CleanEach(parts: seq<string>): (r: seq<string>)
    ensures |r| == |parts|
    ensures forall k :: 0 <= k < |r| ==> r[k] == X12Clean(parts[k]) && ':' !in r[k]
  {
    if |parts| == 0 then [] else [X12Clean(parts[0])] + CleanEach(parts[1..])
  }

  /** `cptModifier`: the modifiers split on colons and spaces, each cleaned, joined with colons. */
  function CptModifier(modifier: string): (r: string)
  {
    Join(CleanEach(SplitModifiers(Trim(modifier))), ":")
  }

  /** Splitting the joined modifiers on colons gives back the cleaned pieces, one per piece of the input. */
  lemma CptModifierParts(modifier: string)
    ensures Split(CptModifier(modifier), ':') == CleanEach(SplitModifiers(Trim(modifier)))
    ensures |Split(CptModifier(modifier), ':')| == |SplitModifiers(Trim(modifier))|
  {
    SplitJoin(CleanEach(SplitModifiers(Trim(modifier))), ':');
  }

  /** `cptKey`: the cleaned code, then `:` and the modifiers when they are not PHP-empty. */
  function CptKey(code: string, modifier: string): (r: string)
  {
    var mods := CptModifier(modifier);
    X12Clean(Trim(code)) + (if !PhpEmpty(mods) then ":" + mods else "")
  }

  /** The colon-free code, then optionally a colon and the modifiers, splits into the code and the modifiers' parts. */
  lemma KeyParts(c: string, mods: string)
    requires ':' !in c
    ensures Split(c + (if !PhpEmpty(mods) then ":" + mods else ""), ':') ==
      [c] + if !PhpEmpty(mods) then Split(mods, ':') else []
  {
    if !PhpEmpty(mods) {
      assert c + (":" + mods) == c + [':'] + mods;
      SplitAfterFirst(c, ':', mods);
    } else {
      assert c + "" == c;
      SplitAbsent(c, ':');
    }
  }

  /** A key splits on its colons into the cleaned code followed by the cleaned modifiers (when present). */
  lemma CptKeyParts(code: string, modifier: string)
    ensures Split(CptKey(code, modifier), ':') ==
      [X12Clean(Trim(code))] + if !PhpEmpty(CptModifier(modifier)) then CleanEach(SplitModifiers(Trim(modifier))) else []
  {
    var c := X12Clean(Trim(code));
    X12CleanHasNoColon(Trim(code));
    KeyParts(c, CptModifier(modifier));
    CptModifierParts(modifier);
  }

  // ---------------------------------------------------------------------
  // NDC drug id
  // ---------------------------------------------------------------------

  /** PCRE `\s` without the `u` modifier. */
  predicate IsRegexSpace(c: char)
  {
    c == ' ' || c == '\t' || c == '\n' || c == '\r' || c as int == 11 || c as int == 12
  }

  /** The length of the run of non-space characters at the start of `s`. */
  function NonSpaceRun(s: string): (n: nat)
    ensures n <= |s| && (n < |s| ==> IsRegexSpace(s[n]))
    ensures forall i :: 0 <= i < n ==> !IsRegexSpace(s[i])
  {
    if |s| == 0 || IsRegexSpace(s[0]) then 0 else 1 + NonSpaceRun(s[1..])
  }

  /** The length of the run of white space at the start of `s`. */
  function SpaceRun(s: string): (n: nat)
    ensures n <= |s| && (n < |s| ==> !IsRegexSpace(s[n]))
    ensures forall i :: 0 <= i < n ==> IsRegexSpace(s[i])
  {
    if |s| == 0 || !IsRegexSpace(s[0]) then 0 else 1 + SpaceRun(s[1..])
  }

  /**
   * The first group of `/^N4(\S+)\s+(\S\S)(.*)/`: the NDC after "N4", which
   * white space and a two-character unit code must follow.  `\S+` cannot
   * stop before the white space and `\s+` cannot stop before the unit, so
   * each run is taken whole.
   */
  function N4Match(info: string): (r: Option<string>)
    ensures r.Some? ==> |r.value| > 0 && forall i :: 0 <= i < |r.value| ==> !IsRegexSpace(r.value[i])
  {
    if |info| < 2 || info[..2] != "N4" then None
    else
      var rest := info[2..];
      var n := NonSpaceRun(rest);
      var after := rest[n..];
      var w := SpaceRun(after);
      if n == 0 || w == 0 || |after| < w + 2 || IsRegexSpace(after[w + 1]) then None
      else Some(rest[..n])
  }

  /** The three digit groups of `/^(\d+)-(\d+)-(\d+)$/`. */
  function NdcFields(ndc: string): (r: Option<(string, string, string)>)
    ensures r.Some? ==> ndc == r.value.0 + "-" + r.value.1 + "-" + r.value.2
    ensures r.Some? ==> AllDigits(r.value.0) && AllDigits(r.value.1) && AllDigits(r.value.2)
  {
    var parts := Split(ndc, '-');
    if |parts| == 3 && parts[0] != "" && parts[1] != "" && parts[2] != ""
       && AllDigits(parts[0]) && AllDigits(parts[1]) && AllDigits(parts[2])
    then
      JoinSplit(ndc, '-');
      assert Join(parts[2..], "-") == parts[2];
      assert Join(parts[1..], "-") == parts[1] + "-" + parts[2];
      assert Join(parts, "-") == parts[0] + "-" + (parts[1] + "-" + parts[2]);
      Some((parts[0], parts[1], parts[2]))
    else None
  }

  /** `sprintf('%05d%04d%02d', …)` of the three groups read as numbers. */
  function Format542(a: string, b: string, c: string): string
    requires AllDigits(a) && AllDigits(b) && AllDigits(c)
  {
    ZeroPad(NatToString(DigitsValue(a)), 5) + ZeroPad(NatToString(DigitsValue(b)), 4)
      + ZeroPad(NatToString(DigitsValue(c)), 2)
  }

  /** `cptNDCID`: the 11-digit 5-4-2 NDC, the cleaned NDC when its groups are malformed, blank without an N4 record. */
  function CptNDCID(info: string): (r: string)
    ensures N4Match(info).None? ==> r == ""
    ensures N4Match(info).Some? && NdcFields(N4Match(info).value).None? ==> r == X12Clean(N4Match(info).value)
    ensures N4Match(info).Some? && NdcFields(N4Match(info).value).Some? ==> |r| >= 11 && AllDigits(r)
  {
    match N4Match(info)
    case None => ""
    case Some(ndc) =>
      match NdcFields(ndc)
      case Some((a, b, c)) => Format542(a, b, c)
      case None => X12Clean(ndc)
  }

  /** A group of at most `width` digits fills exactly `width` characters and reads back as the same number. */
  lemma PaddedGroup(a: string, width: nat)
    requires AllDigits(a) && 1 <= width && |a| <= width
    ensures |ZeroPad(NatToString(DigitsValue(a)), width)| == width
    ensures DigitsValue(ZeroPad(NatToString(DigitsValue(a)), width)) == DigitsValue(a)
  {
    DigitsValueBound(a);
    assert Pow10(|a|) <= Pow10(width) by { Pow10Monotone(|a|, width); }
    NatToStringLength(DigitsValue(a), width);
    ZeroPadValue(DigitsValue(a), width);
  }

  lemma {:induction false} Pow10Monotone(m: nat, n: nat)
    requires m <= n
    ensures Pow10(m) <= Pow10(n)
    decreases n - m
  {
    if m < n {
      Pow10Monotone(m, n - 1);
    }
  }

  /** With groups of at most 5, 4 and 2 digits the result has 11 digits whose fields read back as the groups. */
  lemma Format542Fields(a: string, b: string, c: string)
    requires AllDigits(a) && AllDigits(b) && AllDigits(c)
    requires |a| <= 5 && |b| <= 4 && |c| <= 2
    ensures |Format542(a, b, c)| == 11
    ensures DigitsValue(Format542(a, b, c)[..5]) == DigitsValue(a)
    ensures DigitsValue(Format542(a, b, c)[5..9]) == DigitsValue(b)
    ensures DigitsValue(Format542(a, b, c)[9..]) == DigitsValue(c)
  {
    PaddedGroup(a, 5);
    PaddedGroup(b, 4);
    PaddedGroup(c, 2);
    var r := Format542(a, b, c);
    var pa, pb, pc := ZeroPad(NatToString(DigitsValue(a)), 5), ZeroPad(NatToString(DigitsValue(b)), 4),
      ZeroPad(NatToString(DigitsValue(c)), 2);
    assert r == pa + pb + pc;
    assert r[..5] == pa && r[5..9] == pb && r[9..] == pc;
  }

  /** Three digit groups joined with dashes parse back into the same groups. */
  lemma NdcFieldsOfJoin(a: string, b: string, c: string)
    requires a != "" && b != "" && c != ""
    requires AllDigits(a) && AllDigits(b) && AllDigits(c)
    ensures NdcFields(a + "-" + b + "-" + c) == Some((a, b, c))
  {
    assert '-' !in a && '-' !in b && '-' !in c;
    var parts := [a, b, c];
    assert Join(parts, "-") == a + "-" + b + "-" + c by {
      assert Join(parts[1..], "-") == b + "-" + Join(parts[2..], "-");
    }
    SplitJoin(parts, '-');
  }

  lemma {:induction false} NonSpaceRunOf(x: string, y: string)
    requires forall i :: 0 <= i < |x| ==> !IsRegexSpace(x[i])
    requires |y| > 0 && IsRegexSpace(y[0])
    ensures NonSpaceRun(x + y) == |x|
  {
    if |x| > 0 {
      assert (x + y)[1..] == x[1..] + y;
      NonSpaceRunOf(x[1..], y);
    } else {
      assert x + y == y;
    }
  }

  lemma {:induction false} SpaceRunOf(x: string, y: string)
    requires forall i :: 0 <= i < |x| ==> IsRegexSpace(x[i])
    requires |y| > 0 && !IsRegexSpace(y[0])
    ensures SpaceRun(x + y) == |x|
  {
    if |x| > 0 {
      assert (x + y)[1..] == x[1..] + y;
      SpaceRunOf(x[1..], y);
    } else {
      assert x + y == y;
    }
  }

  /** An N4 record: "N4", the NDC, white space, a two-character unit and anything after it. */
  function N4Record(ndc: string, space: string, unit: string, tail: string): string
  {
    "N4" + ndc + space + unit + tail
  }

  /** The regular expression finds the NDC of a well-formed N4 record. */
  lemma N4MatchOfRecord(ndc: string, space: string, unit: string, tail: string)
    requires |ndc| > 0 && forall i :: 0 <= i < |ndc| ==> !IsRegexSpace(ndc[i])
    requires |space| > 0 && forall i :: 0 <= i < |space| ==> IsRegexSpace(space[i])
    requires |unit| == 2 && !IsRegexSpace(unit[0]) && !IsRegexSpace(unit[1])
    ensures N4Match(N4Record(ndc, space, unit, tail)) == Some(ndc)
  {
    var info := N4Record(ndc, space, unit, tail);
    var rest := info[2..];
    assert rest == ndc + (space + unit + tail);
    NonSpaceRunOf(ndc, space + unit + tail);
    var after := rest[|ndc|..];
    assert after == space + (unit + tail);
    SpaceRunOf(space, unit + tail);
    assert after[|space| + 1] == unit[1];
    assert rest[..|ndc|] == ndc;
  }

  /** A well-formed record with groups of at most 5, 4 and 2 digits yields the 11-digit NDC of the same three numbers. */
  lemma CptNDCIDOfRecord(a: string, b: string, c: string, space: string, unit: string, tail: string)
    requires a != "" && b != "" && c != "" && AllDigits(a) && AllDigits(b) && AllDigits(c)
    requires |a| <= 5 && |b| <= 4 && |c| <= 2
    requires |space| > 0 && forall i :: 0 <= i < |space| ==> IsRegexSpace(space[i])
    requires |unit| == 2 && !IsRegexSpace(unit[0]) && !IsRegexSpace(unit[1])
    ensures var r := CptNDCID(N4Record(a + "-" + b + "-" + c, space, unit, tail));
      && |r| == 11 && AllDigits(r)
      && DigitsValue(r[..5]) == DigitsValue(a)
      && DigitsValue(r[5..9]) == DigitsValue(b)
      && DigitsValue(r[9..]) == DigitsValue(c)
  {
    var ndc := a + "-" + b + "-" + c;
    forall i | 0 <= i < |ndc|
      ensures !IsRegexSpace(ndc[i])
    {
      if i < |a| { assert ndc[i] == a[i]; }
      else if i == |a| { assert ndc[i] == '-'; }
      else if i < |a| + 1 + |b| { assert ndc[i] == b[i - |a| - 1]; }
      else if i == |a| + 1 + |b| { assert ndc[i] == '-'; }
      else { assert ndc[i] == c[i - |a| - |b| - 2]; }
    }
    N4MatchOfRecord(ndc, space, unit, tail);
    NdcFieldsOfJoin(a, b, c);
    Format542Fields(a, b, c);
  }

  // ---------------------------------------------------------------------
  // NPI
  // ---------------------------------------------------------------------

  /** `preg_match` with the unanchored pattern `[0-9]*`: some substring, the empty one included, consists of digits. */
  predicate DigitStarMatches(s: string)
  {
    exists i, j :: 0 <= i <= j <= |s| && AllDigits(s[i..j])
  }

  /** The pattern has no anchors and accepts the empty match, so it matches every string. */
  lemma DigitStarAlwaysMatches(s: string)
    ensures DigitStarMatches(s)
  {
    assert AllDigits(s[0..0]);
  }

  /** `NPIValid` as written: non-empty, ten characters, and the (always matching) digit pattern. */
  predicate NPIValidAsWritten(npi: string)
  {
    npi != "" && |npi| == 10 && DigitStarMatches(npi)
  }

  /** As written, ten letters pass as an NPI. */
  lemma NPIValidAsWrittenAcceptsLetters()
    ensures NPIValidAsWritten("ABCDEFGHIJ") && !AllDigits("ABCDEFGHIJ")
  {
    DigitStarAlwaysMatches("ABCDEFGHIJ");
    assert !IsDigit("ABCDEFGHIJ"[0]);
  }

  /** An NPI is a ten-digit number. */
  predicate NPIValid(npi: string)
  {
    |npi| == 10 && AllDigits(npi)
  }

  /** The corrected check accepts only what the written one accepts, and then exactly the all-digit strings. */
  lemma NPIValidRefinesAsWritten(npi: string)
    ensures NPIValid(npi) <==> NPIValidAsWritten(npi) && AllDigits(npi)
  {
    DigitStarAlwaysMatches(npi);
  }

  lemma {:induction false} NatToStringLongEnough(n: nat, k: nat)
    requires Pow10(k) <= n
    ensures |NatToString(n)| > k
    decreases n
  {
    if k > 0 {
      assert n >= 10;
      assert Pow10(k - 1) <= n / 10;
      NatToStringLongEnough(n / 10, k - 1);
    }
  }

  /** Every ten-digit number, written out, is a valid NPI. */
  lemma NPIValidOfTenDigitNumber(n: nat)
    requires Pow10(9) <= n < Pow10(10)
    ensures NPIValid(NatToString(n))
  {
    NatToStringLongEnough(n, 9);
    NatToStringLength(n, 10);
  }

  // ---------------------------------------------------------------------
  // Diagnoses
  // ---------------------------------------------------------------------

  /** A procedure row: its code, its modifiers, its `justify` list of diagnoses and its NDC record. */
  datatype Proc = Proc(code: string, modifier: string, justify: string, ndcInfo: string)

  /** One entry of a `justify` list: the diagnosis and, when written "type|code", its code type. */
  datatype Justification = Justification(diag: string, codeType: Option<string>)

  function StripPeriods(s: string, strip: bool): (r: string)
    ensures strip ==> '.' !in r
    ensures !strip ==> r == s
  {
    if strip then Remove(s, '.') else s
  }

  /** A non-empty `justify` entry: "type|code" when the code part is not PHP-empty, otherwise a bare code. */
  function ParseJustification(entry: string, strip: bool): (j: Justification)
    ensures strip ==> '.' !in j.diag
  {
    var codeData := Split(entry, '|');
    if |codeData| > 1 && !PhpEmpty(codeData[1]) then Justification(StripPeriods(codeData[1], strip), Some(codeData[0]))
    else Justification(StripPeriods(codeData[0], strip), None)
  }

  predicate NoPeriods(js: seq<Justification>)
  {
    forall k :: 0 <= k < |js| ==> '.' !in js[k].diag
  }

  /** The justifications of the PHP-non-empty entries, in order. */
  function JustificationsOfEntries(entries: seq<string>, strip: bool): (js: seq<Justification>)
    ensures strip ==> NoPeriods(js)
  {
    if |entries| == 0 then []
    else
      JustificationsOfEntries(entries[..|entries| - 1], strip)
      + if PhpEmpty(entries[|entries| - 1]) then [] else [ParseJustification(entries[|entries| - 1], strip)]
  }

  /** The justifications of a procedure's colon-separated `justify` list. */
  function Justifications(justify: string, strip: bool): (js: seq<Justification>)
    ensures strip ==> NoPeriods(js)
  {
    JustificationsOfEntries(Split(justify, ':'), strip)
  }

  /** The justifications of all procedures, procedure by procedure. */
  function AllJustifications(procs: seq<Proc>, strip: bool): (js: seq<Justification>)
    ensures strip ==> NoPeriods(js)
  {
    if |procs| == 0 then []
    else AllJustifications(procs[..|procs| - 1], strip) + Justifications(procs[|procs| - 1].justify, strip)
  }

  function DiagsOf(js: seq<Justification>): (ds: seq<string>)
    ensures |ds| == |js| && forall i :: 0 <= i < |js| ==> ds[i] == js[i].diag
  {
    seq(|js|, i requires 0 <= i < |js| => js[i].diag)
  }

  /** The code type of the last justification that has one, or `t` when none has. */
  function LastType(t: string, js: seq<Justification>): string
  {
    if |js| == 0 then t
    else if js[|js| - 1].codeType.Some? then js[|js| - 1].codeType.value
    else LastType(t, js[..|js| - 1])
  }

  /**
   * Without a labelled justification the code type stays `t`; otherwise it
   * is the label of a justification after which no other carries one.
   */
  lemma {:induction false} LastTypeSpec(t: string, js: seq<Justification>)
    ensures (forall i :: 0 <= i < |js| ==> js[i].codeType.None?) ==> LastType(t, js) == t
    ensures (exists i :: 0 <= i < |js| && js[i].codeType.Some?) ==>
      exists i :: 0 <= i < |js| && js[i].codeType == Some(LastType(t, js))
                  && forall k :: i < k < |js| ==> js[k].codeType.None?
    decreases |js|
  {
    if |js| > 0 && js[|js| - 1].codeType.None? {
      var init := js[..|js| - 1];
      LastTypeSpec(t, init);
      if exists i :: 0 <= i < |js| && js[i].codeType.Some? {
        var i :| 0 <= i < |js| && js[i].codeType.Some?;
        assert init[i] == js[i];
        var i' :| 0 <= i' < |init| && init[i'].codeType == Some(LastType(t, init))
                  && forall k :: i' < k < |init| ==> init[k].codeType.None?;
        assert js[i'] == init[i'];
        assert forall k :: i' < k < |js| ==> js[k].codeType.None? by {
          forall k | i' < k < |js|
            ensures js[k].codeType.None?
          {
            if k < |init| {
              assert js[k] == init[k];
            }
          }
        }
      }
      if forall i :: 0 <= i < |js| ==> js[i].codeType.None? {
        assert forall i :: 0 <= i < |init| ==> init[i].codeType.None? by {
          forall i | 0 <= i < |init|
            ensures init[i].codeType.None?
          {
            assert init[i] == js[i];
          }
        }
      }
    }
  }

  /** `$da[$d] = $d` on an ordered PHP array used as a set: a new key goes last, an old one stays where it is. */
  function AddKey(da: seq<string>, d: string): (r: seq<string>)
    ensures d in r
  {
    if d in da then da else da + [d]
  }

  function AddKeys(da: seq<string>, ds: seq<string>): seq<string>
  {
    if |ds| == 0 then da else AddKey(AddKeys(da, ds[..|ds| - 1]), ds[|ds| - 1])
  }

  predicate Distinct(xs: seq<string>)
  {
    forall i, j :: 0 <= i < j < |xs| ==> xs[i] != xs[j]
  }

  function StripAll(diags: seq<string>, strip: bool): (r: seq<string>)
    ensures |r| == |diags| && forall i :: 0 <= i < |r| ==> r[i] == StripPeriods(diags[i], strip)
  {
    seq(|diags|, i requires 0 <= i < |diags| => StripPeriods(diags[i], strip))
  }

  /** The justifying diagnoses of the claim, each once, in order of first use. */
  function JustifiedDiags(procs: seq<Proc>, strip: bool): seq<string>
  {
    AddKeys([], DiagsOf(AllJustifications(procs, strip)))
  }

  /** The diagnoses a claim lists: the justifying ones first, in order of use, then the claim's own, each once. */
  function DiagList(procs: seq<Proc>, diags: seq<string>, strip: bool): seq<string>
  {
    AddKeys(JustifiedDiags(procs, strip), StripAll(diags, strip))
  }

  lemma {:induction false} AddKeysSpec(da: seq<string>, ds: seq<string>)
    ensures Distinct(da) ==> Distinct(AddKeys(da, ds))
    ensures forall x :: x in AddKeys(da, ds) <==> x in da || x in ds
    ensures |da| <= |AddKeys(da, ds)| && AddKeys(da, ds)[..|da|] == da
  {
    if |ds| > 0 {
      AddKeysSpec(da, ds[..|ds| - 1]);
      assert ds == ds[..|ds| - 1] + [ds[|ds| - 1]];
    }
  }

  lemma {:induction false} AddKeysAppend(da: seq<string>, xs: seq<string>, ys: seq<string>)
    ensures AddKeys(da, xs + ys) == AddKeys(AddKeys(da, xs), ys)
    decreases |ys|
  {
    if |ys| == 0 {
      assert xs + ys == xs;
    } else {
      assert (xs + ys)[..|xs + ys| - 1] == xs + ys[..|ys| - 1];
      AddKeysAppend(da, xs, ys[..|ys| - 1]);
    }
  }

  lemma {:induction false} LastTypeAppend(t: string, xs: seq<Justification>, ys: seq<Justification>)
    ensures LastType(t, xs + ys) == LastType(LastType(t, xs), ys)
    decreases |ys|
  {
    if |ys| == 0 {
      assert xs + ys == xs;
    } else {
      assert (xs + ys)[..|xs + ys| - 1] == xs + ys[..|ys| - 1];
      LastTypeAppend(t, xs, ys[..|ys| - 1]);
    }
  }

  lemma DiagsOfAppend(xs: seq<Justification>, ys: seq<Justification>)
    ensures DiagsOf(xs + ys) == DiagsOf(xs) + DiagsOf(ys)
  {
  }

  /** One more procedure adds its justifying diagnoses and may set a later code type. */
  lemma AllJustificationsStep(procs: seq<Proc>, i: nat, strip: bool, t: string)
    requires i < |procs|
    ensures JustifiedDiags(procs[..i + 1], strip)
      == AddKeys(JustifiedDiags(procs[..i], strip), DiagsOf(Justifications(procs[i].justify, strip)))
    ensures LastType(t, AllJustifications(procs[..i + 1], strip))
      == LastType(LastType(t, AllJustifications(procs[..i], strip)), Justifications(procs[i].justify, strip))
  {
    assert procs[..i + 1][..i] == procs[..i];
    var before := AllJustifications(procs[..i], strip);
    var js := Justifications(procs[i].justify, strip);
    assert AllJustifications(procs[..i + 1], strip) == before + js;
    DiagsOfAppend(before, js);
    AddKeysAppend([], DiagsOf(before), DiagsOf(js));
    LastTypeAppend(t, before, js);
  }

  /** One more entry of a `justify` list adds its justification unless it is PHP-empty. */
  lemma EntriesStep(entries: seq<string>, i: nat, strip: bool)
    requires i < |entries|
    ensures JustificationsOfEntries(entries[..i + 1], strip) ==
      JustificationsOfEntries(entries[..i], strip)
      + if PhpEmpty(entries[i]) then [] else [ParseJustification(entries[i], strip)]
  {
    assert entries[..i + 1][..i] == entries[..i];
  }

  /** Adding a justification adds its diagnosis and, when it has one, makes its code type the last. */
  lemma AddJustificationStep(da: seq<string>, t: string, js: seq<Justification>, j: Justification)
    ensures AddKeys(da, DiagsOf(js + [j])) == AddKey(AddKeys(da, DiagsOf(js)), j.diag)
    ensures LastType(t, js + [j]) == if j.codeType.Some? then j.codeType.value else LastType(t, js)
  {
    assert DiagsOf(js + [j]) == DiagsOf(js) + [j.diag];
    AddKeysAppend(da, DiagsOf(js), [j.diag]);
    assert (js + [j])[..|js|] == js;
  }

  /** The diagnosis list has no repeats. */
  lemma DiagListDistinct(procs: seq<Proc>, diags: seq<string>, strip: bool)
    ensures Distinct(DiagList(procs, diags, strip))
  {
    AddKeysSpec([], DiagsOf(AllJustifications(procs, strip)));
    AddKeysSpec(JustifiedDiags(procs, strip), StripAll(diags, strip));
  }

  /** A diagnosis is listed exactly when it justifies a procedure or is one of the claim's own. */
  lemma DiagListMember(procs: seq<Proc>, diags: seq<string>, strip: bool, x: string)
    ensures x in DiagList(procs, diags, strip) <==>
      x in DiagsOf(AllJustifications(procs, strip)) || x in StripAll(diags, strip)
  {
    AddKeysSpec([], DiagsOf(AllJustifications(procs, strip)));
    AddKeysSpec(JustifiedDiags(procs, strip), StripAll(diags, strip));
  }

  /** The list begins with the justifying diagnoses, and those are exactly the diagnoses that justify a procedure. */
  lemma DiagListJustifiedFirst(procs: seq<Proc>, diags: seq<string>, strip: bool)
    ensures var first := JustifiedDiags(procs, strip);
      |first| <= |DiagList(procs, diags, strip)| && DiagList(procs, diags, strip)[..|first|] == first
      && forall x :: x in first <==> x in DiagsOf(AllJustifications(procs, strip))
  {
    AddKeysSpec([], DiagsOf(AllJustifications(procs, strip)));
    AddKeysSpec(JustifiedDiags(procs, strip), StripAll(diags, strip));
  }

  /** With periods stripped, no listed diagnosis has one. */
  lemma DiagListNoPeriods(procs: seq<Proc>, diags: seq<string>, x: string)
    requires x in DiagList(procs, diags, true)
    ensures '.' !in x
  {
    DiagListMember(procs, diags, true, x);
    var ds := DiagsOf(AllJustifications(procs, true));
    if x in ds {
      var i :| 0 <= i < |ds| && ds[i] == x;
      assert x == AllJustifications(procs, true)[i].diag;
    }
  }

  /** A procedure's diagnoses are among the justifying diagnoses of the claim. */
  lemma {:induction false} JustificationsInAll(procs: seq<Proc>, k: int, strip: bool, x: string)
    requires 0 <= k < |procs| && x in DiagsOf(Justifications(procs[k].justify, strip))
    ensures x in DiagsOf(AllJustifications(procs, strip))
  {
    var last := |procs| - 1;
    var prefix := AllJustifications(procs[..last], strip);
    var js := Justifications(procs[last].justify, strip);
    assert AllJustifications(procs, strip) == prefix + js;
    if k == last {
      var i :| 0 <= i < |js| && js[i].diag == x;
      assert (prefix + js)[|prefix| + i].diag == x;
    } else {
      assert procs[..last][k] == procs[k];
      JustificationsInAll(procs[..last], k, strip, x);
      var i :| 0 <= i < |prefix| && prefix[i].diag == x;
      assert (prefix + js)[i].diag == x;
    }
  }

  /** The 1-based positions in `da` that hold `d`. */
  function Positions(da: seq<string>, d: string): seq<nat>
  {
    if |da| == 0 then []
    else Positions(da[..|da| - 1], d) + if da[|da| - 1] == d then [|da|] else []
  }

  /** The positions of each justification's diagnosis, justification by justification. */
  function IndexList(js: seq<Justification>, da: seq<string>): seq<nat>
  {
    if |js| == 0 then []
    else IndexList(js[..|js| - 1], da) + Positions(da, js[|js| - 1].diag)
  }

  /** In a list without repeats, a present diagnosis has exactly one position. */
  lemma {:induction false} PositionsOfDistinct(da: seq<string>, d: string)
    requires Distinct(da)
    ensures d !in da ==> Positions(da, d) == []
    ensures d in da ==> |Positions(da, d)| == 1 && 1 <= Positions(da, d)[0] <= |da| && da[Positions(da, d)[0] - 1] == d
  {
    if |da| > 0 {
      var init := da[..|da| - 1];
      PositionsOfDistinct(init, d);
      if da[|da| - 1] == d {
        assert d !in init;
      } else if d in da {
        var i :| 0 <= i < |da| && da[i] == d;
        assert init[i] == d;
      }
    }
  }

  /** One pointer per justification, each the 1-based position of its diagnosis in `da`. */
  predicate PointsAt(js: seq<Justification>, da: seq<string>, dia: seq<nat>)
  {
    |dia| == |js| && forall k :: 0 <= k < |js| ==> 1 <= dia[k] <= |da| && da[dia[k] - 1] == js[k].diag
  }

  /** Each justification whose diagnosis is listed gets one pointer, and it points at that diagnosis. */
  lemma {:induction false} IndexListSpec(js: seq<Justification>, da: seq<string>)
    requires Distinct(da)
    requires forall k :: 0 <= k < |js| ==> js[k].diag in da
    ensures PointsAt(js, da, IndexList(js, da))
  {
    if |js| > 0 {
      var init := js[..|js| - 1];
      var last := js[|js| - 1];
      IndexListSpec(init, da);
      PositionsOfDistinct(da, last.diag);
      var prev := IndexList(init, da);
      var p := Positions(da, last.diag);
      assert IndexList(js, da) == prev + p;
      forall k | 0 <= k < |js|
        ensures 1 <= (prev + p)[k] <= |da| && da[(prev + p)[k] - 1] == js[k].diag
      {
        if k < |init| {
          assert (prev + p)[k] == prev[k] && js[k] == init[k];
        } else {
          assert (prev + p)[k] == p[0];
        }
      }
    }
  }

  /** Every diagnosis of a procedure is in the claim's list. */
  lemma ProcDiagsListed(procs: seq<Proc>, diags: seq<string>, k: int, js: seq<Justification>)
    requires 0 <= k < |procs| && js == Justifications(procs[k].justify, true)
    ensures forall i :: 0 <= i < |js| ==> js[i].diag in DiagList(procs, diags, true)
  {
    forall i | 0 <= i < |js|
      ensures js[i].diag in DiagList(procs, diags, true)
    {
      assert DiagsOf(js)[i] == js[i].diag;
      JustificationsInAll(procs, k, true, js[i].diag);
      DiagListMember(procs, diags, true, js[i].diag);
    }
  }

  /**
   * The pointers of a procedure: one per non-empty justification, each the
   * 1-based position of that diagnosis in the claim's diagnosis list.
   */
  lemma DiagIndexListSpec(procs: seq<Proc>, diags: seq<string>, k: int)
    requires 0 <= k < |procs|
    ensures PointsAt(Justifications(procs[k].justify, true), DiagList(procs, diags, true),
      IndexList(Justifications(procs[k].justify, true), DiagList(procs, diags, true)))
  {
    var js := Justifications(procs[k].justify, true);
    var da := DiagList(procs, diags, true);
    ProcDiagsListed(procs, diags, k, js);
    DiagListDistinct(procs, diags, true);
    IndexListSpec(js, da);
  }

  /** One more entry adds the positions of its diagnosis unless it is PHP-empty. */
  lemma IndexListStep(entries: seq<string>, i: nat, da: seq<string>)
    requires i < |entries|
    ensures IndexList(JustificationsOfEntries(entries[..i + 1], true), da) ==
      IndexList(JustificationsOfEntries(entries[..i], true), da)
      + if PhpEmpty(entries[i]) then [] else Positions(da, ParseJustification(entries[i], true).diag)
  {
    EntriesStep(entries, i, true);
    var before := JustificationsOfEntries(entries[..i], true);
    if !PhpEmpty(entries[i]) {
      var j := ParseJustification(entries[i], true);
      var xs := before + [j];
      assert xs[..|xs| - 1] == before && xs[|xs| - 1] == j;
    } else {
      assert before + [] == before;
    }
  }

  // ---------------------------------------------------------------------
  // The claim
  // ---------------------------------------------------------------------

  /** The X12 trading partner's interchange ids. */
  datatype Partner = Partner(senderId: string, receiverId: string)

  class Claim {
    const partner: Partner
    const procs: seq<Proc>
    const diags: seq<string>
    /** The diagnosis code type: ICD9 unless a justification read by `DiagArray` carries another label. */
    var diagtype: string

    constructor(partner: Partner, procs: seq<Proc>, diags: seq<string>)
      ensures this.partner == partner && this.procs == procs && this.diags == diags && diagtype == "ICD9"
    {
      this.partner := partner;
      this.procs := procs;
      this.diags := diags;
      diagtype := "ICD9";
    }

    /** `x12gssenderid`. */
    method X12GsSenderId() returns (r: string)
      ensures r == PadTo15(partner.senderId)
    {
      r := PadId(partner.senderId);
    }

    /** `x12gsreceiverid`. */
    method X12GsReceiverId() returns (r: string)
      ensures r == PadTo15(partner.receiverId)
    {
      r := PadId(partner.receiverId);
    }

    /** The procedure's `justify` list; a missing procedure has none. */
    function JustifyOf(prockey: int): string
    {
      if 0 <= prockey < |procs| then procs[prockey].justify else ""
    }

    /** The inner loop of `diagArray`: add one procedure's justifying diagnoses. */
    static method AddJustifications(justify: string, strip: bool, da: seq<string>, t: string)
      returns (da': seq<string>, t': string)
      ensures da' == AddKeys(da, DiagsOf(Justifications(justify, strip)))
      ensures t' == LastType(t, Justifications(justify, strip))
    {
      var entries := Split(justify, ':');
      da', t' := da, t;
      for i := 0 to |entries|
        invariant da' == AddKeys(da, DiagsOf(JustificationsOfEntries(entries[..i], strip)))
        invariant t' == LastType(t, JustificationsOfEntries(entries[..i], strip))
      {
        EntriesStep(entries, i, strip);
        if !PhpEmpty(entries[i]) {
          var j := ParseJustification(entries[i], strip);
          AddJustificationStep(da, t, JustificationsOfEntries(entries[..i], strip), j);
          if j.codeType.Some? {
            t' := j.codeType.value;
          }
          da' := AddKey(da', j.diag);
        } else {
          assert JustificationsOfEntries(entries[..i], strip) + [] == JustificationsOfEntries(entries[..i], strip);
        }
      }
      assert entries[..|entries|] == entries;
    }

    /** `diagArray`: the claim's diagnoses without repeats, justifying ones first; records the last code type seen. */
    method DiagArray(strip: bool) returns (da: seq<string>)
      modifies this`diagtype
      ensures da == DiagList(procs, diags, strip)
      ensures diagtype == LastType(old(diagtype), AllJustifications(procs, strip))
      ensures (forall i :: 0 <= i < |AllJustifications(procs, strip)| ==> AllJustifications(procs, strip)[i].codeType.None?) ==>
        diagtype == old(diagtype)
    {
      da := [];
      var t := diagtype;
      for i := 0 to |procs|
        invariant da == JustifiedDiags(procs[..i], strip)
        invariant t == LastType(old(diagtype), AllJustifications(procs[..i], strip))
      {
        AllJustificationsStep(procs, i, strip, old(diagtype));
        da, t := AddJustifications(procs[i].justify, strip, da, t);
      }
      assert procs[..|procs|] == procs;
      diagtype := t;
      LastTypeSpec(old(diagtype), AllJustifications(procs, strip));
      da := AddDiags(da, diags, strip);
    }

    /** The second loop of `diagArray`: add the claim's own diagnoses. */
    static method AddDiags(da: seq<string>, diags: seq<string>, strip: bool) returns (da': seq<string>)
      ensures da' == AddKeys(da, StripAll(diags, strip))
    {
      var stripped := StripAll(diags, strip);
      da' := da;
      for i := 0 to |diags|
        invariant da' == AddKeys(da, stripped[..i])
      {
        assert stripped[..i + 1][..i] == stripped[..i];
        da' := AddKey(da', StripPeriods(diags[i], strip));
      }
      assert stripped[..|diags|] == stripped;
    }

    /** The innermost loop of `diagIndexArray`: append every position of `d` in `da`. */
    static method AppendPositions(da: seq<string>, d: string, dia: seq<nat>) returns (dia': seq<nat>)
      ensures dia' == dia + Positions(da, d)
    {
      dia' := dia;
      for i := 0 to |da|
        invariant dia' == dia + Positions(da[..i], d)
      {
        assert da[..i + 1][..i] == da[..i];
        if da[i] == d {
          dia' := dia' + [i + 1];
        }
      }
      assert da[..|da|] == da;
    }

    /** The loop of `diagIndexArray` over the procedure's `justify` entries. */
    static method IndexEntries(entries: seq<string>, da: seq<string>) returns (dia: seq<nat>)
      ensures dia == IndexList(JustificationsOfEntries(entries, true), da)
    {
      dia := [];
      for i := 0 to |entries|
        invariant dia == IndexList(JustificationsOfEntries(entries[..i], true), da)
      {
        IndexListStep(entries, i, da);
        if !PhpEmpty(entries[i]) {
          var j := ParseJustification(entries[i], true);
          dia := AppendPositions(da, j.diag, dia);
        }
      }
      assert entries[..|entries|] == entries;
    }

    /** `diagIndexArray`: the 1-based positions in the diagnosis list of the procedure's justifying diagnoses. */
    method DiagIndexArray(prockey: int) returns (dia: seq<nat>)
      modifies this`diagtype
      ensures dia == IndexList(Justifications(JustifyOf(prockey), true), DiagList(procs, diags, true))
      ensures diagtype == LastType(old(diagtype), AllJustifications(procs, true))
    {
      var da := DiagArray(true);
      dia := IndexEntries(Split(JustifyOf(prockey), ':'), da);
    }
  }
}
