/**
 * The FreeHealth benchmark's transaction generator: ids sharded over
 * hospitals, the per-hospital tables of the largest id known so far, the
 * choice of the next transaction from cumulative probabilities, and the
 * random strings, zip codes, dates and distinct ids the transactions are
 * built from.
 *
 * Randomness (`Generator.generateInt`) is a nondeterministic draw in the
 * requested range.  The loops that draw again until an id is new could run
 * forever; here they make at most `attempts` rounds and report `None` when
 * they run out.  Running a transaction, its statistics, the clock and the
 * calendar formatting of dates are not modelled.
 */
module FreeHealthGenerator {
  import opened Wrappers
  import opened Text

  /** Java's `/` on `int`, which truncates toward zero. */
  function JavaDiv(a: int, b: int): (q: int)
    requires b > 0
    ensures a >= 0 ==> q == a / b
    ensures a < 0 ==> q == -((-a) / b)
  {
    if a >= 0 then a / b else -((-a) / b)
  }

  /** Java's `%` on `int`: the sign follows the dividend. */
  function JavaRem(a: int, b: int): (r: int)
    requires b > 0
    ensures a >= 0 ==> r == a % b
    ensures a < 0 ==> -b < r <= 0
  {
    a - JavaDiv(a, b) * b
  }

  function Max(a: int, b: int): int { if a >= b then a else b }

  // ---------------------------------------------------------------------
  // Hospital-sharded ids
  // ---------------------------------------------------------------------

  /** `idFromHospitalID`: the `id`-th object of hospital `hospital` among `hospitals` hospitals. */
  function IdFromHospitalID(hospitals: int, hospital: int, id: int): int
  {
    id * hospitals + hospital
  }

  /** For a hospital in range, the hospital is the remainder and the per-hospital id the quotient. */
  lemma IdFromHospitalIDRecovers(hospitals: int, hospital: int, id: int)
    requires 0 <= hospital < hospitals
    ensures IdFromHospitalID(hospitals, hospital, id) % hospitals == hospital
    ensures IdFromHospitalID(hospitals, hospital, id) / hospitals == id
  {
    var n := IdFromHospitalID(hospitals, hospital, id);
    DivModUnique(n, hospitals, id, hospital);
  }

  lemma DivModUnique(n: int, d: int, q: int, r: int)
    requires d > 0 && 0 <= r < d && n == q * d + r
    ensures n / d == q && n % d == r
  {
    var q', r' := n / d, n % d;
    MulSub(q, q', d);
    if q > q' {
      MulAtLeast(q - q', d);
    } else if q < q' {
      MulSub(q', q, d);
      MulAtLeast(q' - q, d);
    }
  }

  lemma MulSub(a: int, b: int, d: int)
    ensures a * d - b * d == (a - b) * d
  {
  }

  lemma MulAtLeast(k: int, d: int)
    requires k >= 1 && d > 0
    ensures k * d >= d
  {
  }

  /** Different (hospital, id) pairs in range give different ids. */
  lemma IdFromHospitalIDInjective(hospitals: int, h1: int, i1: int, h2: int, i2: int)
    requires 0 <= h1 < hospitals && 0 <= h2 < hospitals
    requires IdFromHospitalID(hospitals, h1, i1) == IdFromHospitalID(hospitals, h2, i2)
    ensures h1 == h2 && i1 == i2
  {
    IdFromHospitalIDRecovers(hospitals, h1, i1);
    IdFromHospitalIDRecovers(hospitals, h2, i2);
  }

  // ---------------------------------------------------------------------
  // Random draws
  // ---------------------------------------------------------------------

  /** `Generator.generateInt(lo, hi)`: any value from `lo` to `hi`, both included. */
  method GenerateInt(lo: int, hi: int) returns (x: int)
    requires lo <= hi
    ensures lo <= x <= hi
  {
    x :| lo <= x <= hi;
  }

  const Digits: string := "0123456789"

  /** `ALPHANUM`: the digits first, then the upper-case and the lower-case letters. */
  const Alphanum: string := Digits + "ABCDEFGHIJKLMNOPQRSTUVWXYZabcdefghijklmnopqrstuvwxyz"

  /** The 62 characters of `ALPHANUM`, of which the first ten are the digits. */
  lemma AlphanumLayout()
    ensures |Alphanum| == 62
    ensures forall i :: 0 <= i < 10 ==> IsDigit(Alphanum[i])
  {
    assert Digits == ['0', '1', '2', '3', '4', '5', '6', '7', '8', '9'];
    assert forall i :: 0 <= i < 10 ==> Alphanum[i] == Digits[i];
  }

  /** `RandCharNum`: a digit when `numOnly`, otherwise any of the 62 letters and digits. */
  method RandCharNum(numOnly: bool) returns (c: char)
    ensures c in Alphanum
    ensures numOnly ==> IsDigit(c)
  {
    AlphanumLayout();
    var x := GenerateInt(0, if numOnly then 9 else 61);
    c := Alphanum[x];
  }

  /** `RandString`: between `min` and `max` characters from `ALPHANUM`, only digits when `numOnly`. */
  method RandString(min: int, max: int, numOnly: bool) returns (s: string)
    requires min <= max
    ensures Max(min, 0) <= |s| <= Max(max, 0)
    ensures forall i :: 0 <= i < |s| ==> s[i] in Alphanum
    ensures numOnly ==> forall i :: 0 <= i < |s| ==> IsDigit(s[i])
  {
    var len := GenerateInt(min, max);
    s := "";
    var i := 0;
    while i < len
      invariant i == |s| <= Max(len, 0)
      invariant forall j :: 0 <= j < |s| ==> s[j] in Alphanum
      invariant numOnly ==> forall j :: 0 <= j < |s| ==> IsDigit(s[j])
    {
      var c := RandCharNum(numOnly);
      s := s + [c];
      i := i + 1;
    }
  }

  /** `RandZipCode`: five random digits read as a number, so at most 99999. */
  method RandZipCode() returns (zip: int)
    ensures 0 <= zip <= 99999
  {
    var s := RandString(5, 5, true);
    zip := DigitsValue(s);
    DigitsValueBound(s);
    assert Pow10(5) == 100000;
  }

  // ---------------------------------------------------------------------
  // Dates from ids
  // ---------------------------------------------------------------------

  /** The calendar fields `IDtoDate` sets: a year from the last two decimal digits and a day of the year from the rest. */
  datatype YearDay = YearDay(year: int, dayOfYear: int)

  /** `IDtoDate`, before the calendar turns the fields into a date string. */
  function IDtoDate(id: int): (d: YearDay)
    ensures id >= 0 ==> 1918 <= d.year <= 2017 && 1 <= d.dayOfYear <= 364
  {
    YearDay(1918 + JavaRem(id, 100), JavaRem(JavaDiv(id, 100), 364) + 1)
  }

  /** Ids that differ by a multiple of 36400 give the same date. */
  lemma IDtoDatePeriodic(id: nat, k: nat)
    ensures IDtoDate(id + 36400 * k) == IDtoDate(id)
  {
    var n := id + 36400 * k;
    DivModUnique(n, 100, id / 100 + 364 * k, id % 100);
    DivModUnique(n / 100, 364, (id / 100) / 364 + k, (id / 100) % 364);
  }

  // ---------------------------------------------------------------------
  // Transaction choice
  // ---------------------------------------------------------------------

  /** The transactions in the order `runNextTransaction` tests them. */
  datatype Transaction =
    | AddDrugInteraction | GetDrugInteractions | GetPrescriptions | PrescribeDrug | RemoveDrugInteraction
    | AddEpisodeContent | CreateEncounter | GetEpisodeContent | GetEpisodes | InvalidateEpisode
    | UpdateEpisodeContent | UpdateEpisodes | CreatePatient | GetPatientData | GetPatientNames
    | LookupPatient | UpdatePatientData | GetPMH | SavePMH | CheckLogin | GetUser

  /** The `i`-th transaction of the dispatch chain. */
  function TransactionAt(i: nat): Option<Transaction>
  {
    var all := [AddDrugInteraction, GetDrugInteractions, GetPrescriptions, PrescribeDrug, RemoveDrugInteraction,
                AddEpisodeContent, CreateEncounter, GetEpisodeContent, GetEpisodes, InvalidateEpisode,
                UpdateEpisodeContent, UpdateEpisodes, CreatePatient, GetPatientData, GetPatientNames,
                LookupPatient, UpdatePatientData, GetPMH, SavePMH, CheckLogin, GetUser];
    if i < |all| then Some(all[i]) else None
  }

  function Sum(xs: seq<int>): int
  {
    if |xs| == 0 then 0 else Sum(xs[..|xs| - 1]) + xs[|xs| - 1]
  }

  /** The running total of `probs` up to and including position `j`. */
  function Cumulative(probs: seq<int>, j: nat): int
    requires j < |probs|
  {
    Sum(probs[..j + 1])
  }

  /** The first position from `i` on whose running total (starting from `acc`) exceeds the draw. */
  function ChosenFrom(probs: seq<int>, x: int, i: nat, acc: int): Option<nat>
    decreases |probs| - i
  {
    if i >= |probs| then None
    else if x < acc + probs[i] then Some(i)
    else ChosenFrom(probs, x, i + 1, acc + probs[i])
  }

  /** The transaction the draw `x` selects: the first whose cumulative probability exceeds `x`. */
  function Chosen(probs: seq<int>, x: int): Option<nat>
  {
    ChosenFrom(probs, x, 0, 0)
  }

  lemma {:induction false} ChosenFromSpec(probs: seq<int>, x: int, i: nat, acc: int)
    requires i <= |probs| && acc == Sum(probs[..i])
    ensures ChosenFrom(probs, x, i, acc).Some? ==>
      var c := ChosenFrom(probs, x, i, acc).value;
      i <= c < |probs| && x < Cumulative(probs, c) && forall j :: i <= j < c ==> x >= Cumulative(probs, j)
    ensures ChosenFrom(probs, x, i, acc).None? ==> forall j :: i <= j < |probs| ==> x >= Cumulative(probs, j)
    decreases |probs| - i
  {
    if i < |probs| {
      assert probs[..i + 1][..i] == probs[..i];
      if x >= acc + probs[i] {
        ChosenFromSpec(probs, x, i + 1, acc + probs[i]);
      }
    }
  }

  /**
   * The chosen transaction is the first whose cumulative probability
   * exceeds the draw; none is chosen when no cumulative probability does.
   */
  lemma ChosenSpec(probs: seq<int>, x: int)
    ensures Chosen(probs, x).Some? ==>
      var c := Chosen(probs, x).value;
      c < |probs| && x < Cumulative(probs, c) && forall j :: 0 <= j < c ==> x >= Cumulative(probs, j)
    ensures Chosen(probs, x).None? <==> forall j :: 0 <= j < |probs| ==> x >= Cumulative(probs, j)
  {
    ChosenFromSpec(probs, x, 0, 0);
  }

  lemma {:induction false} SumMonotone(probs: seq<int>, j: nat)
    requires j <= |probs|
    requires forall i :: 0 <= i < |probs| ==> probs[i] >= 0
    ensures Sum(probs[..j]) <= Sum(probs)
    decreases |probs| - j
  {
    if j < |probs| {
      assert probs[..j + 1][..j] == probs[..j];
      SumMonotone(probs, j + 1);
    } else {
      assert probs[..j] == probs;
    }
  }

  /** With non-negative probabilities, no transaction runs exactly when the draw reaches their total. */
  lemma ChosenNoneAtTotal(probs: seq<int>, x: int)
    requires x >= 0
    requires forall i :: 0 <= i < |probs| ==> probs[i] >= 0
    ensures Chosen(probs, x).None? <==> x >= Sum(probs)
  {
    ChosenSpec(probs, x);
    if x >= Sum(probs) {
      forall j | 0 <= j < |probs|
        ensures x >= Cumulative(probs, j)
      {
        SumMonotone(probs, j + 1);
      }
    }
    if Chosen(probs, x).None? && |probs| > 0 {
      assert probs[..|probs| - 1 + 1] == probs;
      assert x >= Cumulative(probs, |probs| - 1);
    }
  }

  // ---------------------------------------------------------------------
  // The generator
  // ---------------------------------------------------------------------

  datatype IdKind = Episode | EpisodeContent | Prescription | Patient

  /** The sizes the generator reads from its configuration. */
  datatype Config = Config(
    hospitals: int, patients: int, episodesPerPatient: int, prescriptionsPerPatient: int,
    drugs: int, users: int)

  class Generator {
    const config: Config
    /** `maxKnown*IDPerHospital`: per hospital, the largest per-hospital id known to exist. */
    var maxKnownEpisode: seq<int>
    var maxKnownEpisodeContent: seq<int>
    var maxKnownPrescription: seq<int>
    var maxKnownPatient: seq<int>
    var probIncrementer: int

    /** One entry per hospital in each table. */
    ghost predicate Valid()
      reads this
    {
      && config.hospitals > 0
      && |maxKnownEpisode| == |maxKnownEpisodeContent| == |maxKnownPrescription| == |maxKnownPatient| == config.hospitals
    }

    function MaxKnown(kind: IdKind): seq<int>
      reads this
    {
      match kind
      case Episode => maxKnownEpisode
      case EpisodeContent => maxKnownEpisodeContent
      case Prescription => maxKnownPrescription
      case Patient => maxKnownPatient
    }

    /** Every hospital starts at `(n - 1) / hospitals` for the table's object count `n`. */
    constructor(config: Config)
      requires config.hospitals > 0
      ensures Valid() && this.config == config && probIncrementer == 0
      ensures forall h :: 0 <= h < config.hospitals ==>
        && maxKnownEpisode[h] == JavaDiv(config.episodesPerPatient * config.patients - 1, config.hospitals)
        && maxKnownEpisodeContent[h] == JavaDiv(config.episodesPerPatient * config.patients - 1, config.hospitals)
        && maxKnownPrescription[h] == JavaDiv(config.prescriptionsPerPatient * config.patients - 1, config.hospitals)
        && maxKnownPatient[h] == JavaDiv(config.patients - 1, config.hospitals)
    {
      this.config := config;
      var episodes := JavaDiv(config.episodesPerPatient * config.patients - 1, config.hospitals);
      var prescriptions := JavaDiv(config.prescriptionsPerPatient * config.patients - 1, config.hospitals);
      var patients := JavaDiv(config.patients - 1, config.hospitals);
      maxKnownEpisode := seq(config.hospitals, _ => episodes);
      maxKnownEpisodeContent := seq(config.hospitals, _ => episodes);
      maxKnownPrescription := seq(config.hospitals, _ => prescriptions);
      maxKnownPatient := seq(config.hospitals, _ => patients);
      probIncrementer := 0;
    }

    /**
     * `setMaxKnown*ID`: the hospital's entry becomes the larger of the old
     * entry and `newMax`; the other hospitals and the other tables keep
     * theirs.
     */
    method SetMaxKnown(kind: IdKind, hospital: int, newMax: int)
      requires Valid() && 0 <= hospital < config.hospitals
      modifies this
      ensures Valid() && probIncrementer == old(probIncrementer)
      ensures MaxKnown(kind) == old(MaxKnown(kind))[hospital := Max(newMax, old(MaxKnown(kind))[hospital])]
      ensures forall other :: other != kind ==> MaxKnown(other) == old(MaxKnown(other))
    {
      match kind
      case Episode =>
        maxKnownEpisode := maxKnownEpisode[hospital := Max(newMax, maxKnownEpisode[hospital])];
      case EpisodeContent =>
        maxKnownEpisodeContent := maxKnownEpisodeContent[hospital := Max(newMax, maxKnownEpisodeContent[hospital])];
      case Prescription =>
        maxKnownPrescription := maxKnownPrescription[hospital := Max(newMax, maxKnownPrescription[hospital])];
      case Patient =>
        maxKnownPatient := maxKnownPatient[hospital := Max(newMax, maxKnownPatient[hospital])];
    }

    /** `resetProbComp`. */
    method ResetProbComp()
      modifies this`probIncrementer
      ensures probIncrementer == 0
    {
      probIncrementer := 0;
    }

    /** `probComp`: add a transaction's probability to the running total and return the total. */
    method ProbComp(txProb: int) returns (total: int)
      modifies this`probIncrementer
      ensures probIncrementer == old(probIncrementer) + txProb && total == probIncrementer
    {
      probIncrementer := probIncrementer + txProb;
      total := probIncrementer;
    }

    /**
     * `runNextTransaction`: draw `x` in 0..100 and pick the first
     * transaction, in dispatch order, whose cumulative probability exceeds
     * it; `probs[i]` is the configured probability of the `i`-th.
     */
    method RunNextTransaction(probs: seq<int>) returns (x: int, chosen: Option<nat>)
      modifies this`probIncrementer
      ensures 0 <= x <= 100
      ensures chosen == Chosen(probs, x)
      ensures chosen.Some? ==> chosen.value < |probs| && probIncrementer == Cumulative(probs, chosen.value)
      ensures chosen.None? ==> probIncrementer == Sum(probs)
    {
      x := GenerateInt(0, 100);
      ResetProbComp();
      var i := 0;
      while i < |probs|
        invariant 0 <= i <= |probs|
        invariant probIncrementer == Sum(probs[..i])
        invariant Chosen(probs, x) == ChosenFrom(probs, x, i, probIncrementer)
      {
        assert probs[..i + 1][..i] == probs[..i];
        var total := ProbComp(probs[i]);
        if x < total {
          return x, Some(i);
        }
        i := i + 1;
      }
      assert probs[..i] == probs;
      chosen := None;
    }

    /** `get*ID`: a random hospital, then a random per-hospital id below its largest known id. */
    method GetID(kind: IdKind) returns (id: int)
      requires Valid()
      requires forall h :: 0 <= h < config.hospitals ==> MaxKnown(kind)[h] >= 1
      ensures 0 <= id % config.hospitals < config.hospitals
      ensures 0 <= id / config.hospitals < MaxKnown(kind)[id % config.hospitals]
    {
      var hospital := GenerateInt(0, config.hospitals - 1);
      var local := GenerateInt(0, MaxKnown(kind)[hospital] - 1);
      id := IdFromHospitalID(config.hospitals, hospital, local);
      IdFromHospitalIDRecovers(config.hospitals, hospital, local);
    }

    /** `GenerateAddDrugInteraction`: redraw both drugs until they differ. */
    method GenerateAddDrugInteraction(attempts: nat) returns (r: Option<(int, int)>)
      requires config.drugs >= 1
      ensures r.Some? ==> r.value.0 != r.value.1
      ensures r.Some? ==> 0 <= r.value.0 < config.drugs && 0 <= r.value.1 < config.drugs
    {
      var drug1 := GenerateInt(0, config.drugs - 1);
      var drug2 := GenerateInt(0, config.drugs - 1);
      var left := attempts;
      while drug1 == drug2
        invariant 0 <= drug1 < config.drugs && 0 <= drug2 < config.drugs
        decreases left
      {
        if left == 0 {
          return None;
        }
        drug1 := GenerateInt(0, config.drugs - 1);
        drug2 := GenerateInt(0, config.drugs - 1);
        left := left - 1;
      }
      r := Some((drug1, drug2));
    }

    /**
     * The id loops of `GenerateUpdateEpisodes` (1 to 5 episode ids) and
     * `GenerateGetPatientNames` (5 to 15 patient ids): each id is redrawn
     * until it is not among those already taken.
     */
    method GenerateDistinctIDs(kind: IdKind, count: int, attempts: nat) returns (r: Option<seq<int>>)
      requires Valid()
      requires forall h :: 0 <= h < config.hospitals ==> MaxKnown(kind)[h] >= 1
      ensures r.Some? ==> |r.value| == Max(count, 0)
      ensures r.Some? ==> forall i, j :: 0 <= i < j < |r.value| ==> r.value[i] != r.value[j]
      ensures r.Some? ==> forall i :: 0 <= i < |r.value| ==>
        0 <= r.value[i] / config.hospitals < MaxKnown(kind)[r.value[i] % config.hospitals]
    {
      var ids: seq<int> := [];
      var left := attempts;
      var i := 0;
      while i < count
        invariant |ids| == i <= Max(count, 0)
        invariant forall a, b :: 0 <= a < b < |ids| ==> ids[a] != ids[b]
        invariant forall a :: 0 <= a < |ids| ==> 0 <= ids[a] / config.hospitals < MaxKnown(kind)[ids[a] % config.hospitals]
        decreases count - i
      {
        var id := GetID(kind);
        while id in ids
          invariant 0 <= id / config.hospitals < MaxKnown(kind)[id % config.hospitals]
          decreases left
        {
          if left == 0 {
            return None;
          }
          id := GetID(kind);
          left := left - 1;
        }
        ids := ids + [id];
        i := i + 1;
      }
      r := Some(ids);
    }

    /** `GenerateUpdateEpisodes`: 1 to 5 distinct episode ids. */
    method GenerateUpdateEpisodes(attempts: nat) returns (r: Option<seq<int>>)
      requires Valid()
      requires forall h :: 0 <= h < config.hospitals ==> maxKnownEpisode[h] >= 1
      ensures r.Some? ==> 1 <= |r.value| <= 5
      ensures r.Some? ==> forall i, j :: 0 <= i < j < |r.value| ==> r.value[i] != r.value[j]
    {
      var count := GenerateInt(1, 5);
      r := GenerateDistinctIDs(Episode, count, attempts);
    }

    /** `GenerateGetPatientNames`: 5 to 15 distinct patient ids. */
    method GenerateGetPatientNames(attempts: nat) returns (r: Option<seq<int>>)
      requires Valid()
      requires forall h :: 0 <= h < config.hospitals ==> maxKnownPatient[h] >= 1
      ensures r.Some? ==> 5 <= |r.value| <= 15
      ensures r.Some? ==> forall i, j :: 0 <= i < j < |r.value| ==> r.value[i] != r.value[j]
    {
      var count := GenerateInt(5, 15);
      r := GenerateDistinctIDs(Patient, count, attempts);
    }
  }
}
