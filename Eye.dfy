/**
 * The eye examination form's script: the suggested CPT visit code, the
 * conversion of a prescription between plus and minus cylinder, the
 * zero padding of an axis, the chronic problem slots, the motility and
 * Amsler grid counters, and the glasses slots. The fields of the form
 * are the state; the server calls and the drawing of the form are not
 * modelled.
 */
module Eye {
  import opened Wrappers
  import opened Text

  // ---------------------------------------------------------------------
  // Suggest_visit_code
  // ---------------------------------------------------------------------

  /** The suggested visit: the CPT code, its description, and the value written to the billing field. */
  datatype Visit = Visit(code: string, desc: string, billing: string)

  /**
   * `Suggest_visit_code`: "9", then '2' for an eye visit or '9' for an
   * E&M visit, "0", '0' for a new or '1' for an established patient, and
   * the level: comprehensive ('4' for an eye visit, '3' otherwise) when
   * both the history and the examination reached detail, else '2'.
   */
  function SuggestVisitCode(group: string, newEst: string, examReached: bool, hpiReached: bool): (v: Visit)
    ensures |v.code| == 5 && v.billing == "CPT4|" + v.code + "|"
  {
    var digit2 := if group != "Eyes" then '9' else '2';
    var digit4 := if newEst == "New" then '0' else '1';
    var comprehensive := examReached && hpiReached;
    var digit5 := if comprehensive then (if group == "Eyes" then '4' else '3') else '2';
    var detailed := if comprehensive then "comprehensive" else "intermediate";
    var code := ['9', digit2, '0', digit4, digit5];
    Visit(code, newEst + " " + detailed + " " + [digit5], "CPT4|" + code + "|")
  }

  /** What a suggested code says: an eye visit, a new patient, a comprehensive level. */
  datatype VisitKind = VisitKind(eyes: bool, newPatient: bool, comprehensive: bool)

  /** Reads a visit code back; None for a code the suggestion never gives. */
  function DecodeVisitCode(code: string): (r: Option<VisitKind>)
    ensures r.Some? ==> |code| == 5 && code[0] == '9' && code[2] == '0'
  {
    if |code| != 5 || code[0] != '9' || code[2] != '0' then None
    else if code[1] != '2' && code[1] != '9' then None
    else if code[3] != '0' && code[3] != '1' then None
    else
      var eyes := code[1] == '2';
      if code[4] == '2' then Some(VisitKind(eyes, code[3] == '0', false))
      else if (eyes && code[4] == '4') || (!eyes && code[4] == '3') then Some(VisitKind(eyes, code[3] == '0', true))
      else None
  }

  /** The suggested code reads back as the kind of visit it was made for. */
  lemma VisitCodeRoundTrip(group: string, newEst: string, examReached: bool, hpiReached: bool)
    ensures DecodeVisitCode(SuggestVisitCode(group, newEst, examReached, hpiReached).code)
            == Some(VisitKind(group == "Eyes", newEst == "New", examReached && hpiReached))
  {
  }

  // ---------------------------------------------------------------------
  // reverse_cylinder
  // ---------------------------------------------------------------------

  /** A sphere field: blank, "PLANO", or a power in quarter diopters. */
  datatype Sphere = SphBlank | Plano | SphD(q: int)

  /** A cylinder field: blank, "SPH", or a power in quarter diopters. */
  datatype Cylinder = CylBlank | CylSph | CylD(q: int)

  /** One eye's prescription; the axis is None when it does not read as a number. */
  datatype EyeRx = EyeRx(sph: Sphere, cyl: Cylinder, axis: Option<int>)

  /** The number a sphere field reads as: blank and "PLANO" read as 0. */
  function SphereValue(s: Sphere): (v: int)
    ensures s.SphD? ==> v == s.q
    ensures !s.SphD? ==> v == 0
  {
    if s.SphD? then s.q else 0
  }

  /** The axis rotated by 90 degrees as written: below 90 gains 90, otherwise loses 90. */
  function AxisTransposeAsWritten(a: int): (r: int)
    ensures a < 90 ==> r == a + 90
    ensures a >= 90 ==> r == a - 90
  {
    if a < 90 then a + 90 else a - 90
  }

  /** Axis 180 turns into 90 and then into 0, which is not where it started. */
  lemma AxisTransposeAsWrittenBreaksAt180()
    ensures AxisTransposeAsWritten(180) == 90
    ensures AxisTransposeAsWritten(AxisTransposeAsWritten(180)) == 0
  {
  }

  /** The axis rotated by 90 degrees within the range 1 to 180 that axes are written in. */
  function AxisTranspose(a: int): (r: int)
    ensures 1 <= a <= 180 ==> 1 <= r <= 180 && (r - a == 90 || a - r == 90)
  {
    if a <= 90 then a + 90 else a - 90
  }

  /** Rotating twice gives the axis back, for every axis from 1 to 180. */
  lemma AxisTransposeInvolution(a: int)
    requires 1 <= a <= 180
    ensures AxisTranspose(AxisTranspose(a)) == a
  {
  }

  /** The rule that rotates the axis: the script's own, or the one that keeps axes within 1 to 180. */
  datatype AxisRule = AsWritten | WithinRange

  function Rotate(rule: AxisRule, a: int): int
  {
    match rule
    case AsWritten => AxisTransposeAsWritten(a)
    case WithinRange => AxisTranspose(a)
  }

  /**
   * One eye converted between plus and minus cylinder: the new sphere is
   * sphere plus cylinder ("PLANO" when 0), the new cylinder is the
   * cylinder negated ("SPH" when 0, blanked on the left eye when the new
   * sphere is also 0), the axis rotated by 90 degrees by `rule`. An eye
   * whose cylinder is blank or "SPH" is left as it is.
   */
  function TransposeEye(e: EyeRx, left: bool, rule: AxisRule): (r: EyeRx)
    ensures !e.cyl.CylD? ==> r == e
    ensures e.cyl.CylD? ==>
      && SphereValue(r.sph) == SphereValue(e.sph) + e.cyl.q
      && (r.cyl.CylD? <==> e.cyl.q != 0)
      && (r.cyl.CylD? ==> r.cyl.q == -e.cyl.q)
      && (r.axis.Some? <==> e.axis.Some?)
      && (e.axis.Some? && e.axis.value < 90 ==> r.axis.value == e.axis.value + 90)
      && (e.axis.Some? && e.axis.value > 90 ==> r.axis.value == e.axis.value - 90)
      && (e.axis == Some(90) ==> r.axis == if rule == AsWritten then Some(0) else Some(180))
  {
    if !e.cyl.CylD? then e
    else
      var newSph := SphereValue(e.sph) + e.cyl.q;
      var newCyl := -e.cyl.q;
      var sph := if newSph == 0 then Plano else SphD(newSph);
      var cyl := if newCyl == 0 then (if newSph == 0 && left then CylBlank else CylSph) else CylD(newCyl);
      var axis := if e.axis.Some? then Some(Rotate(rule, e.axis.value)) else None;
      EyeRx(sph, cyl, axis)
  }

  /** A sphere field as it is written back: 0 as "PLANO". */
  function Shown(s: Sphere): (r: Sphere)
    ensures SphereValue(r) == SphereValue(s)
  {
    if SphereValue(s) == 0 then Plano else SphD(SphereValue(s))
  }

  /** Converting twice gives the prescription back, with a zero or blank sphere written as "PLANO". */
  lemma TransposeEyeTwice(e: EyeRx, left: bool)
    requires e.cyl.CylD? && e.cyl.q != 0
    requires e.axis.Some? ==> 1 <= e.axis.value <= 180
    ensures TransposeEye(TransposeEye(e, left, WithinRange), left, WithinRange) == EyeRx(Shown(e.sph), e.cyl, e.axis)
  {
    if e.axis.Some? {
      AxisTransposeInvolution(e.axis.value);
    }
  }

  /**
   * `reverse_cylinder` as written: its early return also reads an
   * undeclared `lcyl`, so when the right sphere, the right cylinder and
   * the left sphere are blank the script stops there, and a left
   * cylinder alone is never converted.
   */
  function ReverseCylinderAsWritten(od: EyeRx, os: EyeRx): (r: (EyeRx, EyeRx))
    ensures !(od.sph == SphBlank && od.cyl == CylBlank && os.sph == SphBlank) ==>
      r == (TransposeEye(od, false, AsWritten), TransposeEye(os, true, AsWritten))
  {
    if od.sph == SphBlank && od.cyl == CylBlank && os.sph == SphBlank then (od, os)
    else (TransposeEye(od, false, AsWritten), TransposeEye(os, true, AsWritten))
  }

  /** As written, converting a right eye with axis 180 twice leaves it at axis 0. */
  lemma ReverseCylinderAsWrittenLosesAxis180()
    ensures var od := EyeRx(SphD(-2), CylD(-1), Some(180));
            var os := EyeRx(SphBlank, CylBlank, None);
            var once := ReverseCylinderAsWritten(od, os);
            && once.0.axis == Some(90)
            && ReverseCylinderAsWritten(once.0, once.1).0.axis == Some(0)
  {
  }

  /**
   * `reverse_cylinder` with the left cylinder in the early return and the
   * axis kept within 1 to 180: each eye with a cylinder is converted.
   */
  function ReverseCylinder(od: EyeRx, os: EyeRx): (r: (EyeRx, EyeRx))
    ensures r.0 == TransposeEye(od, false, WithinRange) && r.1 == TransposeEye(os, true, WithinRange)
    ensures od.sph == SphBlank && od.cyl == CylBlank && os.sph == SphBlank && os.cyl == CylBlank ==> r == (od, os)
  {
    (TransposeEye(od, false, WithinRange), TransposeEye(os, true, WithinRange))
  }

  /** With only a left cylinder filled in, the script as written changes nothing; the corrected one converts the left eye. */
  lemma ReverseCylinderAsWrittenSkipsLeft()
    ensures var od := EyeRx(SphBlank, CylBlank, None);
            var os := EyeRx(SphBlank, CylD(-4), Some(180));
            && ReverseCylinderAsWritten(od, os) == (od, os)
            && ReverseCylinder(od, os) == (od, EyeRx(SphD(-4), CylD(4), Some(90)))
  {
  }

  /** Converting both eyes twice gives both prescriptions back. */
  lemma ReverseCylinderTwice(od: EyeRx, os: EyeRx)
    requires od.cyl.CylD? && od.cyl.q != 0 && os.cyl.CylD? && os.cyl.q != 0
    requires od.axis.Some? ==> 1 <= od.axis.value <= 180
    requires os.axis.Some? ==> 1 <= os.axis.value <= 180
    ensures var once := ReverseCylinder(od, os);
            ReverseCylinder(once.0, once.1) == (EyeRx(Shown(od.sph), od.cyl, od.axis), EyeRx(Shown(os.sph), os.cyl, os.axis))
  {
    TransposeEyeTwice(od, false);
    TransposeEyeTwice(os, true);
  }

  // ---------------------------------------------------------------------
  // Axis padding
  // ---------------------------------------------------------------------

  /** `n` consecutive digits somewhere in `s`. */
  predicate HasDigits(s: string, n: nat)
  {
    exists i: nat :: i <= |s| && DigitsAt(s, i, n)
  }

  /**
   * The axis field when it loses focus: with a cylinder that is neither
   * blank nor "SPH", an axis without three digits in a row gets zeros in
   * front (one when it has two in a row, two when it has one digit, and a
   * digit-free axis becomes "000"); without such a cylinder it is blanked.
   */
  function PadAxis(axis: string, cyl: string): (r: string)
    ensures (cyl == "" || cyl == "SPH") ==> r == ""
    ensures !(cyl == "" || cyl == "SPH") ==> |r| >= 3 && (HasDigits(axis, 1) ==> |r| >= |axis| && r[|r| - |axis|..] == axis)
  {
    if cyl != "" && cyl != "SPH" then
      if HasDigits(axis, 3) then axis
      else if HasDigits(axis, 2) then "0" + axis
      else if HasDigits(axis, 1) then "00" + axis
      else "000"
    else ""
  }

  /** An all-digit string holds `n` digits in a row exactly when it is at least `n` long. */
  lemma HasDigitsOfDigits(s: string, n: nat)
    requires AllDigits(s)
    ensures HasDigits(s, n) <==> n <= |s|
  {
    if n <= |s| {
      assert DigitsAt(s, 0, n);
    }
  }

  /** An axis of up to three digits is padded to three digits with its value kept, and padding again changes nothing. */
  lemma PadAxisDigits(axis: string, cyl: string)
    requires AllDigits(axis) && |axis| <= 3
    requires cyl != "" && cyl != "SPH"
    ensures PadAxis(axis, cyl) == Zeros(3 - |axis|) + axis
    ensures AllDigits(PadAxis(axis, cyl)) && |PadAxis(axis, cyl)| == 3
    ensures DigitsValue(PadAxis(axis, cyl)) == DigitsValue(axis)
    ensures PadAxis(PadAxis(axis, cyl), cyl) == PadAxis(axis, cyl)
  {
    HasDigitsOfDigits(axis, 1);
    HasDigitsOfDigits(axis, 2);
    HasDigitsOfDigits(axis, 3);
    var z := Zeros(3 - |axis|);
    assert z == if |axis| == 3 then "" else if |axis| == 2 then "0" else if |axis| == 1 then "00" else "000";
    DigitsValueLeadingZeros(3 - |axis|, axis);
    assert AllDigits(z + axis);
    HasDigitsOfDigits(z + axis, 3);
  }

  // ---------------------------------------------------------------------
  // build_Chronics
  // ---------------------------------------------------------------------

  /** A chronic problem of the patient's history. */
  datatype Chronic = Chronic(title: string, diagnosis: string, comments: string)

  /** The text a chronic problem is written as. */
  function ChronicComment(c: Chronic): (r: string)
    ensures r != ""
  {
    c.title + " " + c.diagnosis + "\n" + c.comments
  }

  /** The first empty slot. */
  function FirstEmpty(slots: seq<string>): (r: Option<nat>)
    ensures r.Some? ==> r.value < |slots| && slots[r.value] == "" && forall j :: 0 <= j < r.value ==> slots[j] != ""
    ensures r.None? ==> forall j :: 0 <= j < |slots| ==> slots[j] != ""
  {
    if |slots| == 0 then None
    else if slots[0] == "" then Some(0)
    else match FirstEmpty(slots[1..])
      case None => None
      case Some(k) => Some(k + 1)
  }

  /** A comment written into the first empty slot, unless a slot already holds it. */
  function FillSlot(slots: seq<string>, comment: string): (r: seq<string>)
    ensures |r| == |slots|
  {
    if comment in slots then slots
    else match FirstEmpty(slots)
      case None => slots
      case Some(i) => slots[i := comment]
  }

  /** The comments written one after the other. */
  function FillAll(slots: seq<string>, comments: seq<string>): (r: seq<string>)
    ensures |r| == |slots|
  {
    if |comments| == 0 then slots
    else FillSlot(FillAll(slots, comments[..|comments| - 1]), comments[|comments| - 1])
  }

  /** Filling never overwrites a slot with text in it, and the comment ends up in a slot when it fits. */
  lemma FillSlotSpec(slots: seq<string>, comment: string)
    requires comment != ""
    ensures forall k :: 0 <= k < |slots| && slots[k] != "" ==> FillSlot(slots, comment)[k] == slots[k]
    ensures comment in FillSlot(slots, comment) <==> comment in slots || "" in slots
    ensures forall k :: 0 <= k < |slots| && FillSlot(slots, comment)[k] != slots[k] ==>
              slots[k] == "" && FillSlot(slots, comment)[k] == comment
  {
    if comment !in slots && FirstEmpty(slots).Some? {
      var i := FirstEmpty(slots).value;
      assert FillSlot(slots, comment)[i] == comment;
    }
  }

  /** Slots with no text written twice. */
  predicate Distinct(slots: seq<string>)
  {
    forall j, k :: 0 <= j < k < |slots| && slots[j] != "" ==> slots[j] != slots[k]
  }

  /** Filling keeps the texts of the slots distinct. */
  lemma {:induction false} FillAllDistinct(slots: seq<string>, comments: seq<string>)
    requires Distinct(slots)
    requires forall k :: 0 <= k < |comments| ==> comments[k] != ""
    ensures Distinct(FillAll(slots, comments))
    ensures forall k :: 0 <= k < |slots| && slots[k] != "" ==> FillAll(slots, comments)[k] == slots[k]
  {
    if |comments| > 0 {
      var before := FillAll(slots, comments[..|comments| - 1]);
      FillAllDistinct(slots, comments[..|comments| - 1]);
      FillSlotSpec(before, comments[|comments| - 1]);
    }
  }

  /**
   * `build_Chronics`: each chronic problem's text written into the first
   * empty slot of the three, unless one of them already holds it. Nothing
   * happens when the history has no problem list.
   */
  method BuildChronics(slots: array<string>, chronics: Option<seq<Chronic>>)
    requires slots.Length == 3
    modifies slots
    ensures chronics.None? ==> slots[..] == old(slots[..])
    ensures chronics.Some? ==> slots[..] == FillAll(old(slots[..]), seq(|chronics.value|, k requires 0 <= k < |chronics.value| => ChronicComment(chronics.value[k])))
  {
    if chronics.None? {
      return;
    }
    var items := chronics.value;
    var comments := seq(|items|, k requires 0 <= k < |items| => ChronicComment(items[k]));
    for n := 0 to |items|
      invariant slots[..] == FillAll(old(slots[..]), comments[..n])
    {
      var comment := ChronicComment(items[n]);
      assert comments[..n + 1][..n] == comments[..n];
      var hereAlready := false;
      for i := 0 to 3
        invariant hereAlready <==> comment in slots[..i]
      {
        if slots[i] == comment {
          hereAlready := true;
          break;
        }
      }
      assert hereAlready <==> comment in slots[..];
      if !hereAlready {
        ghost var before := slots[..];
        for i := 0 to 3
          invariant slots[..] == before
          invariant forall j :: 0 <= j < i ==> slots[j] != ""
        {
          if slots[i] == "" {
            slots[i] := comment;
            break;
          }
        }
      }
    }
    assert comments[..|items|] == comments;
  }

  // ---------------------------------------------------------------------
  // Motility and Amsler counters
  // ---------------------------------------------------------------------

  /** A click on a motility zone: a grade below 4 goes up by one; 4, or a value that is not a number, goes back to 0. */
  function MotilityNext(grade: Option<nat>): (r: nat)
    ensures r <= 4
    ensures grade.Some? && grade.value < 4 ==> r == grade.value + 1
    ensures (grade.None? || grade.value >= 4) ==> r == 0
  {
    if grade.Some? && grade.value < 4 then grade.value + 1 else 0
  }

  /** `n` clicks in a row. */
  function MotilityClicks(grade: nat, n: nat): (r: nat)
    decreases n
  {
    if n == 0 then grade else MotilityClicks(MotilityNext(Some(grade)), n - 1)
  }

  /** Five clicks bring a grade from 0 to 4 back to itself. */
  lemma MotilityCycle(grade: nat)
    requires grade <= 4
    ensures MotilityClicks(grade, 5) == grade
  {
  }

  /**
   * A motility zone: its grade and the five cells that show it with tick
   * marks. The grade is the field's text read as a number: an empty field
   * reads as `Some(0)` (it compares below "4" and increments from 0), and
   * text that is not a number reads as `None`.
   */
  class MotilityZone {
    var grade: Option<nat>
    const marks: array<bool>

    constructor (grade: Option<nat>)
      ensures this.grade == grade && marks.Length == 5 && fresh(marks)
    {
      this.grade := grade;
      marks := new bool[5](_ => false);
    }

    /** A click: the grade moves on, every cell is cleared, and cells 1 up to the grade get a mark. */
    method Click()
      requires marks.Length == 5
      modifies this, marks
      ensures grade == Some(MotilityNext(old(grade)))
      ensures forall k :: 0 <= k < 5 ==> (marks[k] <==> 1 <= k <= grade.value)
    {
      for index := 0 to 5
        invariant grade == old(grade)
        invariant forall k :: 0 <= k < index ==> !marks[k]
      {
        marks[index] := false;
      }
      var valued := MotilityNext(grade);
      grade := Some(valued);
      for index := 1 to valued + 1
        invariant grade == Some(valued)
        invariant forall k :: 0 <= k < 5 ==> (marks[k] <==> 1 <= k < index)
      {
        marks[index] := true;
      }
    }
  }

  /** A click on an Amsler grid, while the chart is open: the image number goes up by one, 6 wrapping to 0. */
  function AmslerClick(chartOn: bool, n: nat): (r: nat)
    ensures !chartOn ==> r == n
    ensures chartOn && n <= 5 ==> r <= 5 && (r == n + 1 || (n == 5 && r == 0))
  {
    if !chartOn then n else if n + 1 == 6 then 0 else n + 1
  }

  /** `n` clicks in a row on an open chart. */
  function AmslerClicks(grade: nat, n: nat): (r: nat)
    decreases n
  {
    if n == 0 then grade else AmslerClicks(AmslerClick(true, grade), n - 1)
  }

  /** Six clicks bring an image number from 0 to 5 back to itself. */
  lemma AmslerCycle(grade: nat)
    requires grade <= 5
    ensures AmslerClicks(grade, 6) == grade
  {
  }

  // ---------------------------------------------------------------------
  // Add_Glasses
  // ---------------------------------------------------------------------

  /** The first of glasses slots 2 to 5 whose flag is not "1"; `worn[i - 1]` is the flag of slot `i`. */
  function NextSlot(worn: seq<string>): (r: Option<nat>)
    requires |worn| == 5
    ensures r.Some? ==> 2 <= r.value <= 5 && worn[r.value - 1] != "1"
                        && forall j :: 1 <= j < r.value - 1 ==> worn[j] == "1"
    ensures r.None? ==> forall j :: 1 <= j < 5 ==> worn[j] == "1"
  {
    if worn[1] != "1" then Some(2)
    else if worn[2] != "1" then Some(3)
    else if worn[3] != "1" then Some(4)
    else if worn[4] != "1" then Some(5)
    else None
  }

  /** Filling the next slot moves the next slot on. */
  lemma NextSlotAdvances(worn: seq<string>)
    requires |worn| == 5 && NextSlot(worn).Some?
    ensures var i := NextSlot(worn).value;
            var after := NextSlot(worn[i - 1 := "1"]);
            after.None? || after.value > i
  {
  }

  /** The glasses panel: the flags of slots 1 to 5, whether each slot is shown, and whether the add button is hidden. */
  class Glasses {
    var worn: seq<string>
    var shown: seq<bool>
    var buttonHidden: bool

    predicate Valid()
      reads this
    {
      |worn| == 5 && |shown| == 5
    }

    constructor (worn: seq<string>, shown: seq<bool>, buttonHidden: bool)
      requires |worn| == 5 && |shown| == 5
      ensures Valid() && this.worn == worn && this.shown == shown && this.buttonHidden == buttonHidden
    {
      this.worn := worn;
      this.shown := shown;
      this.buttonHidden := buttonHidden;
    }

    /** `Add_Glasses`: the next slot is flagged and shown; the button is hidden once slot 5 is taken. */
    method AddGlasses()
      requires Valid()
      modifies this
      ensures Valid()
      ensures NextSlot(old(worn)).None? ==> worn == old(worn) && shown == old(shown) && buttonHidden == old(buttonHidden)
      ensures NextSlot(old(worn)).Some? ==>
        var i := NextSlot(old(worn)).value;
        && worn == old(worn)[i - 1 := "1"]
        && shown == old(shown)[i - 1 := true]
        && buttonHidden == (old(buttonHidden) || i == 5)
    {
      for i := 2 to 6
        invariant Valid() && worn == old(worn) && shown == old(shown) && buttonHidden == old(buttonHidden)
        invariant forall j :: 1 <= j < i - 1 ==> worn[j] == "1"
      {
        if worn[i - 1] != "1" {
          worn := worn[i - 1 := "1"];
          shown := shown[i - 1 := true];
          if i == 5 {
            buttonHidden := true;
          }
          return;
        }
      }
    }
  }
}
