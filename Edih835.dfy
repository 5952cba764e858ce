/**
 * The payment listing of an ASC X12N 835 remittance advice, as the OpenEMR
 * EDI history viewer builds it: a loop-state machine over the segments of
 * each transaction, the claim groups handed to the claim renderer, the
 * accounting totals checked at SE, and the CAS/SVC parsing of the claim
 * renderer. Amounts are kept as whole cents; HTML output is not modelled.
 */
module Edih835 {
  import opened Wrappers
  import opened Text
  import opened Seqs

  // ---------------------------------------------------------------------
  // Segments and elements
  // ---------------------------------------------------------------------

  /**
   * PHP `strncmp(a, b, n) === 0`: the first `n` characters agree, and when
   * either string ends within them, both end at the same point.
   */
  predicate StrncmpEqual(a: string, b: string, n: nat)
    decreases n
  {
    if n == 0 then true
    else if |a| == 0 || |b| == 0 then |a| == |b|
    else a[0] == b[0] && StrncmpEqual(a[1..], b[1..], n - 1)
  }

  /** Comparing a whole string of length `n` is a prefix test. */
  lemma {:induction false} StrncmpPrefix(a: string, b: string, n: nat)
    requires |a| == n
    ensures StrncmpEqual(a, b, n) <==> |b| >= n && b[..n] == a
    decreases n
  {
    if n > 0 && |b| > 0 {
      StrncmpPrefix(a[1..], b[1..], n - 1);
      if |b| >= n {
        assert b[..n] == [b[0]] + b[1..][..n - 1];
        assert a == [a[0]] + a[1..];
      }
    }
  }

  /** A segment identifier followed by the element delimiter (a missing delimiter concatenates as nothing). */
  function Tag(id: string, de: Option<char>): (t: string)
    ensures |t| == |id| + (if de.Some? then 1 else 0)
  {
    id + (if de.Some? then [de.value] else [])
  }

  /** The test `strncmp(ID . $de, $seg, |ID| + 1) === 0` that picks a segment's handler. */
  predicate IsSeg(seg: string, id: string, de: Option<char>)
  {
    StrncmpEqual(Tag(id, de), seg, |id| + 1)
  }

  datatype Kind = ST | BPR | TRN | CUR | REF | DTM | N1 | N3 | N4 | PER | RDM
                | LX | TS3 | TS2 | PLB | SE | CLP | SVC | CAS | Unlisted

  /** The segment identifier each handler tests for. */
  function Name(k: Kind): string
  {
    match k
    case ST => "ST" case BPR => "BPR" case TRN => "TRN" case CUR => "CUR"
    case REF => "REF" case DTM => "DTM" case N1 => "N1" case N3 => "N3"
    case N4 => "N4" case PER => "PER" case RDM => "RDM" case LX => "LX"
    case TS3 => "TS3" case TS2 => "TS2" case PLB => "PLB" case SE => "SE"
    case CLP => "CLP" case SVC => "SVC" case CAS => "CAS" case Unlisted => ""
  }

  /** The handler a segment reaches: the first test, in the listing's order, that matches. */
  function KindOf(seg: string, de: Option<char>): Kind
  {
    if IsSeg(seg, "ST", de) then ST
    else if IsSeg(seg, "BPR", de) then BPR
    else if IsSeg(seg, "TRN", de) then TRN
    else if IsSeg(seg, "CUR", de) then CUR
    else if IsSeg(seg, "REF", de) then REF
    else if IsSeg(seg, "DTM", de) then DTM
    else if IsSeg(seg, "N1", de) then N1
    else if IsSeg(seg, "N3", de) then N3
    else if IsSeg(seg, "N4", de) then N4
    else if IsSeg(seg, "PER", de) then PER
    else if IsSeg(seg, "RDM", de) then RDM
    else if IsSeg(seg, "LX", de) then LX
    else if IsSeg(seg, "TS3", de) then TS3
    else if IsSeg(seg, "TS2", de) then TS2
    else if IsSeg(seg, "PLB", de) then PLB
    else if IsSeg(seg, "SE", de) then SE
    else if IsSeg(seg, "CLP", de) then CLP
    else if IsSeg(seg, "SVC", de) then SVC
    else if IsSeg(seg, "CAS", de) then CAS
    else Unlisted
  }

  /** With a delimiter, a handler's test holds exactly when the segment starts with the identifier and the delimiter. */
  lemma IsSegStartsWith(seg: string, id: string, c: char)
    ensures IsSeg(seg, id, Some(c)) <==> |seg| >= |id| + 1 && seg[..|id| + 1] == id + [c]
  {
    StrncmpPrefix(Tag(id, Some(c)), seg, |id| + 1);
  }

  /** The elements of a segment, PHP `explode($de, $seg)`; without a delimiter `explode` fails and no element is set. */
  function Elements(seg: string, de: Option<char>): seq<string>
  {
    if de.Some? then Split(seg, de.value) else []
  }

  /** With a delimiter, the elements joined by it give back the segment, and none of them holds it. */
  lemma ElementsJoin(seg: string, c: char)
    ensures Join(Elements(seg, Some(c)), [c]) == seg
    ensures forall i :: 0 <= i < |Elements(seg, Some(c))| ==> c !in Elements(seg, Some(c))[i]
  {
    JoinSplit(seg, c);
  }

  /** Element `i`, or "" when it is not set. */
  function El(els: seq<string>, i: nat): string
  {
    if i < |els| then els[i] else ""
  }

  /** PHP `array_slice($els, n)`. */
  function Drop<T>(els: seq<T>, n: nat): (r: seq<T>)
    ensures |els| >= n ==> r == els[n..]
    ensures |els| < n ==> r == []
  {
    if |els| >= n then els[n..] else []
  }

  /** PHP `array_chunk($xs, $n)`: consecutive runs of `n`, the last one possibly shorter. */
  function ArrayChunk<T>(xs: seq<T>, n: nat): (r: seq<seq<T>>)
    requires n >= 1
    ensures forall j :: 0 <= j < |r| ==> 1 <= |r[j]| <= n
    decreases |xs|
  {
    if |xs| == 0 then []
    else if |xs| <= n then [xs]
    else [xs[..n]] + ArrayChunk(xs[n..], n)
  }

  /** The chunks laid end to end give back the sequence, and every chunk but the last is full. */
  lemma {:induction false} ArrayChunkFlatten<T>(xs: seq<T>, n: nat)
    requires n >= 1
    ensures Flatten(ArrayChunk(xs, n)) == xs
    ensures forall j :: 0 <= j < |ArrayChunk(xs, n)| - 1 ==> |ArrayChunk(xs, n)[j]| == n
    decreases |xs|
  {
    if |xs| > n {
      var rest := ArrayChunk(xs[n..], n);
      assert ArrayChunk(xs, n) == [xs[..n]] + rest;
      ArrayChunkFlatten(xs[n..], n);
      FlattenCons(xs[..n], rest);
      assert xs[..n] + xs[n..] == xs;
    } else if |xs| > 0 {
      assert ArrayChunk(xs, n) == [xs];
      assert Flatten([xs]) == Flatten([xs][..0]) + xs;
    }
  }

  // ---------------------------------------------------------------------
  // Amounts
  // ---------------------------------------------------------------------

  /** Hundredths from the first two digits after a decimal point (further digits are dropped). */
  function FractionCents(f: string): (c: nat)
    ensures c < 100
  {
    var d1 := if |f| > 0 && IsDigit(f[0]) then f[0] as int - '0' as int else 0;
    var d2 := if |f| > 1 && IsDigit(f[0]) && IsDigit(f[1]) then f[1] as int - '0' as int else 0;
    10 * d1 + d2
  }

  /** An unsigned decimal amount, in cents, read from the start of `s`. */
  function UnsignedCents(s: string): nat
  {
    var n := DigitRun(s);
    var frac := if n < |s| && s[n] == '.' then FractionCents(s[n + 1..]) else 0;
    100 * DigitsValue(s[..n]) + frac
  }

  /**
   * PHP `(float)` of an element, in cents: an optional sign, digits and a
   * decimal fraction read from the start; anything that does not start
   * like a number is 0, as are the "empty" strings that the listing
   * replaces with 0 before adding.
   */
  function Cents(v: string): (c: int)
    ensures PhpEmpty(v) ==> c == 0
  {
    if |v| > 0 && v[0] == '-' then -(UnsignedCents(v[1..]) as int)
    else if |v| > 0 && v[0] == '+' then UnsignedCents(v[1..])
    else
      assert v == "0" ==> DigitRun(v) == 1 && v[..1] == "0" && DigitsValue(v[..1]) == 0 && UnsignedCents(v) == 0;
      UnsignedCents(v)
  }

  /** An amount in cents written as X12 writes a monetary amount: a sign when negative, dollars, a point and two digits. */
  function FormatCents(c: int): (s: string)
    ensures |s| >= 4 && s[|s| - 3] == '.'
  {
    var m := if c < 0 then -c else c;
    var sign := if c < 0 then "-" else "";
    var cents := m % 100;
    sign + NatToString(m / 100) + "." + [DigitChar(cents / 10), DigitChar(cents % 10)]
  }

  /** A digit string followed by a non-digit is read as a run of exactly its length. */
  lemma {:induction false} DigitRunOfDigits(x: string, rest: string)
    requires AllDigits(x)
    requires |rest| > 0 && !IsDigit(rest[0])
    ensures DigitRun(x + rest) == |x|
    decreases |x|
  {
    if |x| > 0 {
      assert (x + rest)[1..] == x[1..] + rest;
      DigitRunOfDigits(x[1..], rest);
    } else {
      assert x + rest == rest;
    }
  }

  /** Dollars, a point and two cent digits read back as that many cents. */
  lemma UnsignedCentsOfFormat(dollars: nat, cents: nat)
    requires cents < 100
    ensures UnsignedCents(NatToString(dollars) + "." + [DigitChar(cents / 10), DigitChar(cents % 10)]) == 100 * dollars + cents
  {
    var digits := NatToString(dollars);
    var tail := "." + [DigitChar(cents / 10), DigitChar(cents % 10)];
    var u := digits + tail;
    assert u == NatToString(dollars) + "." + [DigitChar(cents / 10), DigitChar(cents % 10)];
    DigitRunOfDigits(digits, tail);
    assert u[..|digits|] == digits;
    DigitsValueOfNatToString(dollars);
    assert u[|digits|] == '.';
    assert u[|digits| + 1..] == [DigitChar(cents / 10), DigitChar(cents % 10)];
  }

  /** Reading back a formatted amount gives the amount. */
  lemma CentsOfFormat(c: int)
    ensures Cents(FormatCents(c)) == c
  {
    var m := if c < 0 then -c else c;
    var u := NatToString(m / 100) + "." + [DigitChar(m % 100 / 10), DigitChar(m % 100 % 10)];
    UnsignedCentsOfFormat(m / 100, m % 100);
    if c < 0 {
      assert FormatCents(c) == "-" + u;
      assert ("-" + u)[1..] == u;
    } else {
      assert FormatCents(c) == u;
      assert u[0] == NatToString(m / 100)[0];
    }
  }

  /** PHP `(int)` of an element: an optional sign and the leading digits. */
  function IntPart(v: string): int
  {
    if |v| > 0 && v[0] == '-' then -(DigitsValue(v[1..][..DigitRun(v[1..])]) as int)
    else if |v| > 0 && v[0] == '+' then DigitsValue(v[1..][..DigitRun(v[1..])])
    else DigitsValue(v[..DigitRun(v)])
  }

  /** A unit count element of SVC: 1 when the element is empty, its integer part otherwise. */
  function Units(v: string): (u: int)
    ensures PhpEmpty(v) ==> u == 1
  {
    if PhpEmpty(v) then 1 else IntPart(v)
  }

  /** A written number reads back as itself. */
  lemma IntPartOfNatToString(n: nat)
    ensures IntPart(NatToString(n)) == n
  {
    var s := NatToString(n);
    assert s[0] != '-' && s[0] != '+';
    DigitRunOfDigits(s, ".");
    assert (s + ".")[..|s|] == s;
    assert DigitRun(s) == |s| by {
      assert (s + ".")[..|s|] == s;
      DigitRunPrefix(s);
    }
    assert s[..|s|] == s;
    DigitsValueOfNatToString(n);
  }

  /** PHP `strcmp(a, b) > 0`: `a` comes after `b` in character order. */
  predicate StrGreater(a: string, b: string)
    decreases |a|
  {
    |a| > 0 && (|b| == 0 || a[0] > b[0] || (a[0] == b[0] && StrGreater(a[1..], b[1..])))
  }

  /** A written number other than 0 starts with a non-zero digit. */
  lemma {:induction false} NatToStringHead(n: nat)
    requires n >= 1
    ensures NatToString(n)[0] != '0'
    decreases n
  {
    if n >= 10 {
      NatToStringHead(n / 10);
    }
  }

  /** For a written count, the test `strcmp($cq, '1') > 0` holds exactly when the count exceeds 1. */
  lemma QuantityAboveOne(n: nat)
    ensures StrGreater(NatToString(n), "1") <==> n > 1
  {
    var s := NatToString(n);
    if n >= 10 {
      NatToStringHead(n);
      assert NatToString(n) == NatToString(n / 10) + [DigitChar(n % 10)];
      assert |s| >= 2;
      assert s[0] >= '1';
      if s[0] == '1' {
        assert StrGreater(s[1..], "");
      }
    } else {
      assert s == [DigitChar(n)];
      assert StrGreater(s, "1") <==> s[0] > '1';
    }
  }

  // ---------------------------------------------------------------------
  // Accounting
  // ---------------------------------------------------------------------

  /** The `$acctng` totals, in cents. */
  datatype Accounting = Accounting(pmt: int, fee: int, clmpmt: int, clmadj: int, ptrsp: int,
                                   svcptrsp: int, svcfee: int, svcpmt: int, svcadj: int, plbadj: int)

  const Zero := Accounting(0, 0, 0, 0, 0, 0, 0, 0, 0, 0)

  /** The totals and the last SVC charge and payment, which carry over to an SVC that omits them. */
  datatype Ledger = Ledger(acct: Accounting, svcFee: int, svcPmt: int)

  const Fresh := Ledger(Zero, 0, 0)

  /** The SE verdict: the charges equal the payment plus every adjustment and patient responsibility. */
  predicate Balanced(a: Accounting)
  {
    a.fee == a.pmt + a.clmadj + a.svcadj + a.svcptrsp + a.plbadj
  }

  /** How far the payment and adjustments exceed the charges; zero exactly when balanced. */
  function Imbalance(a: Accounting): (d: int)
    ensures d == 0 <==> Balanced(a)
  {
    a.pmt + a.clmadj + a.svcadj + a.svcptrsp + a.plbadj - a.fee
  }

  /**
   * The amount one CAS triplet (reason, amount, quantity) adjusts: a
   * quantity after "1" in character order multiplies it.  The quantity is
   * read to hundredths like an amount, and the product is rounded down to
   * a cent.
   */
  function CasAmount(t: seq<string>): int
  {
    var amount := Cents(El(t, 1));
    var q := El(t, 2);
    if !PhpEmpty(q) && StrGreater(q, "1") then (amount * Cents(q)) / 100 else amount
  }

  /** A quantity written with two decimals comes after "1" in character order exactly when it is at least 1. */
  lemma FormattedQuantityAboveOne(q: nat)
    ensures StrGreater(FormatCents(q), "1") <==> q >= 100
  {
    var whole := NatToString(q / 100);
    var s := FormatCents(q);
    assert s == whole + "." + [DigitChar(q % 100 / 10), DigitChar(q % 100 % 10)];
    assert s[0] == whole[0];
    if q / 100 == 0 {
      assert whole == "0";
    } else {
      NatToStringHead(q / 100);
      assert IsDigit(whole[0]);
      if s[0] == '1' {
        assert StrGreater(s[1..], "");
      }
    }
  }

  /**
   * A triplet whose amount and quantity are written with two decimals
   * adjusts the amount times the quantity, rounded down to a cent, when the
   * quantity is at least 1, and the bare amount when it is below 1.
   */
  lemma CasAmountOfQuantity(reason: string, amount: int, q: nat)
    ensures CasAmount([reason, FormatCents(amount), FormatCents(q)]) == if q >= 100 then (amount * q) / 100 else amount
  {
    var t := [reason, FormatCents(amount), FormatCents(q)];
    assert El(t, 1) == FormatCents(amount) && El(t, 2) == FormatCents(q);
    CentsOfFormat(amount);
    CentsOfFormat(q);
    FormattedQuantityAboveOne(q);
    assert |FormatCents(q)| >= 4;
  }

  function CasTotal(ts: seq<seq<string>>): int
  {
    if |ts| == 0 then 0 else CasTotal(ts[..|ts| - 1]) + CasAmount(ts[|ts| - 1])
  }

  /** The adjustment group of a CAS; an empty one counts as contractual obligation. */
  function CasGroup(els: seq<string>): string
  {
    if PhpEmpty(El(els, 1)) then "CO" else El(els, 1)
  }

  /** The amounts PLB adds: the second element of each pair taken from element 2 on. */
  function PlbTotal(pairs: seq<seq<string>>): int
  {
    if |pairs| == 0 then 0 else PlbTotal(pairs[..|pairs| - 1]) + Cents(El(pairs[|pairs| - 1], 1))
  }

  function CasTriplets(els: seq<string>): seq<seq<string>>
  {
    ArrayChunk(Drop(els, 2), 3)
  }

  function PlbPairs(els: seq<string>): seq<seq<string>>
  {
    ArrayChunk(Drop(els, 2), 2)
  }

  /** BPR starts the totals afresh with the payment amount of BPR02. */
  function PostBpr(l: Ledger, els: seq<string>): (r: Ledger)
    ensures r.acct.pmt == Cents(El(els, 2))
    ensures r.acct.fee == r.acct.clmpmt == r.acct.clmadj == r.acct.ptrsp == r.acct.svcptrsp == 0
    ensures r.acct.svcfee == r.acct.svcpmt == r.acct.svcadj == r.acct.plbadj == 0
    ensures r.svcFee == l.svcFee && r.svcPmt == l.svcPmt
  {
    l.(acct := Zero.(pmt := Cents(El(els, 2))))
  }

  /** CLP adds its charge, payment and patient responsibility (CLP03, CLP04, CLP05). */
  function PostClp(l: Ledger, els: seq<string>): Ledger
  {
    var a := l.acct;
    l.(acct := a.(fee := a.fee + Cents(El(els, 3)), clmpmt := a.clmpmt + Cents(El(els, 4)),
                  ptrsp := a.ptrsp + Cents(El(els, 5))))
  }

  /** SVC adds charge times units and payment times units; an omitted charge or payment repeats the previous SVC's. */
  function PostSvc(l: Ledger, els: seq<string>): Ledger
  {
    var fee := if |els| > 2 then Cents(els[2]) else l.svcFee;
    var pmt := if |els| > 3 then Cents(els[3]) else l.svcPmt;
    var pmtm := if |els| > 5 then Units(els[5]) else 1;
    var pmts := if |els| > 7 then Units(els[7]) else 1;
    var a := l.acct;
    Ledger(a.(svcfee := a.svcfee + fee * pmts, svcpmt := a.svcpmt + pmt * pmtm), fee, pmt)
  }

  /** CAS adds its triplets to patient responsibility for group PR, otherwise to the claim or service adjustments by loop. */
  function PostCas(l: Ledger, loop: LoopId, els: seq<string>): Ledger
  {
    var total := CasTotal(CasTriplets(els));
    var a := l.acct;
    if CasGroup(els) == "PR" then l.(acct := a.(svcptrsp := a.svcptrsp + total))
    else if loop == L2100 then l.(acct := a.(clmadj := a.clmadj + total))
    else l.(acct := a.(svcadj := a.svcadj + total))
  }

  function PostPlb(l: Ledger, els: seq<string>): Ledger
  {
    l.(acct := l.acct.(plbadj := l.acct.plbadj + PlbTotal(PlbPairs(els))))
  }

  /** The accounting effect of one segment, read in loop `loop`. */
  function Post(l: Ledger, loop: LoopId, k: Kind, els: seq<string>): (r: Ledger)
    ensures k !in {BPR, CLP, SVC, CAS, PLB} ==> r == l
  {
    match k
    case BPR => PostBpr(l, els)
    case CLP => PostClp(l, els)
    case SVC => PostSvc(l, els)
    case CAS => PostCas(l, loop, els)
    case PLB => PostPlb(l, els)
    case _ => l
  }

  /**
   * How each segment moves the balance: CLP charges take it down by CLP03,
   * CAS and PLB adjustments raise it by their totals, and SVC leaves it
   * alone, since the service totals are not part of the SE verdict.
   */
  lemma PostImbalance(l: Ledger, loop: LoopId, k: Kind, els: seq<string>)
    ensures k == BPR ==> Imbalance(Post(l, loop, k, els).acct) == Cents(El(els, 2))
    ensures k == CLP ==> Imbalance(Post(l, loop, k, els).acct) == Imbalance(l.acct) - Cents(El(els, 3))
    ensures k == CAS ==> Imbalance(Post(l, loop, k, els).acct) == Imbalance(l.acct) + CasTotal(CasTriplets(els))
    ensures k == PLB ==> Imbalance(Post(l, loop, k, els).acct) == Imbalance(l.acct) + PlbTotal(PlbPairs(els))
    ensures k == SVC ==> Imbalance(Post(l, loop, k, els).acct) == Imbalance(l.acct)
  {
  }

  /** Every CAS amount lands in exactly one of patient responsibility, claim adjustment or service adjustment. */
  lemma CasConservation(l: Ledger, loop: LoopId, els: seq<string>)
    ensures var r := PostCas(l, loop, els).acct;
      r.clmadj + r.svcadj + r.svcptrsp == l.acct.clmadj + l.acct.svcadj + l.acct.svcptrsp + CasTotal(CasTriplets(els))
    ensures var r := PostCas(l, loop, els).acct;
      r.(clmadj := 0, svcadj := 0, svcptrsp := 0) == l.acct.(clmadj := 0, svcadj := 0, svcptrsp := 0)
    ensures CasGroup(els) == "PR" ==> PostCas(l, loop, els).acct.(svcptrsp := 0) == l.acct.(svcptrsp := 0)
    ensures CasGroup(els) != "PR" && loop == L2100 ==> PostCas(l, loop, els).acct.(clmadj := 0) == l.acct.(clmadj := 0)
    ensures CasGroup(els) != "PR" && loop != L2100 ==> PostCas(l, loop, els).acct.(svcadj := 0) == l.acct.(svcadj := 0)
  {
  }

  /** The triplets of a CAS are its elements after the group code, three at a time, in order. */
  lemma CasTripletsCover(els: seq<string>)
    ensures Flatten(CasTriplets(els)) == Drop(els, 2)
    ensures forall j :: 0 <= j < |CasTriplets(els)| - 1 ==> |CasTriplets(els)[j]| == 3
  {
    ArrayChunkFlatten(Drop(els, 2), 3);
  }

  /**
   * PLB pairs start at element 2, so the amounts it adds are elements 3,
   * 5, ...: with one adjustment the reason element PLB03 is read as the
   * amount and the amount PLB04 is skipped.
   */
  lemma PlbReadsOddElements(provider: string, date: string, reason: string, amount: string)
    ensures PlbTotal(PlbPairs(["PLB", provider, date, reason, amount])) == Cents(reason)
  {
    var els := ["PLB", provider, date, reason, amount];
    assert Drop(els, 2) == [date, reason, amount];
    var xs := [date, reason, amount];
    assert xs[..2] == [date, reason] && xs[2..] == [amount];
    assert ArrayChunk(xs[2..], 2) == [[amount]];
    assert PlbPairs(els) == [[date, reason]] + [[amount]];
    var pairs := [[date, reason], [amount]];
    assert pairs[..1] == [[date, reason]];
    assert PlbTotal(pairs[..1]) == PlbTotal([]) + Cents(reason);
  }

  // ---------------------------------------------------------------------
  // Loops and claim grouping
  // ---------------------------------------------------------------------

  /** The implementation-guide loop the listing is in (`$loopid`); it starts unset. */
  datatype LoopId = NoLoop | Header | L1000A | L1000B | L2000 | L2100 | L2110 | Summary | Trailer

  /** Segments that set the loop whatever it was before. */
  predicate Moves(k: Kind)
  {
    k in {ST, BPR, LX, TS3, PLB, SE, CLP, SVC}
  }

  /** The loop after a segment of kind `k`. */
  function NextLoop(loop: LoopId, k: Kind): LoopId
  {
    match k
    case ST => Header
    case BPR => Header
    case N1 => if loop == Header then L1000A else if loop == L1000A then L1000B else loop
    case LX => L2000
    case TS3 => L2000
    case PLB => Summary
    case SE => Trailer
    case CLP => L2100
    case SVC => L2110
    case _ => loop
  }

  /**
   * Each loop is entered only through its opening segments and is left
   * only by a segment that opens another: the listing is in 2100 exactly
   * after a CLP with no loop-opening segment since, in 2110 exactly after
   * an SVC, and so on; N1 moves from the header to 1000A and then to 1000B.
   */
  lemma NextLoopEntries(loop: LoopId, k: Kind)
    ensures NextLoop(loop, k) == Header <==> k in {ST, BPR} || (loop == Header && !Moves(k) && k != N1)
    ensures NextLoop(loop, k) == L1000A <==> (k == N1 && loop == Header) || (loop == L1000A && !Moves(k) && k != N1)
    ensures NextLoop(loop, k) == L1000B <==> (k == N1 && loop == L1000A) || (loop == L1000B && !Moves(k))
    ensures NextLoop(loop, k) == L2000 <==> k in {LX, TS3} || (loop == L2000 && !Moves(k))
    ensures NextLoop(loop, k) == L2100 <==> k == CLP || (loop == L2100 && !Moves(k))
    ensures NextLoop(loop, k) == L2110 <==> k == SVC || (loop == L2110 && !Moves(k))
    ensures NextLoop(loop, k) == Summary <==> k == PLB || (loop == Summary && !Moves(k))
    ensures NextLoop(loop, k) == Trailer <==> k == SE || (loop == Trailer && !Moves(k))
    ensures NextLoop(loop, k) == NoLoop <==> loop == NoLoop && !Moves(k)
  {
  }

  predicate InClaim(loop: LoopId) { loop == L2100 || loop == L2110 }

  /** Whether a segment read in `loop` is added to the current claim group. */
  predicate Routed(loop: LoopId, k: Kind)
  {
    match k
    case REF => InClaim(loop)
    case DTM => InClaim(loop)
    case Unlisted => InClaim(loop)
    case PER => loop == L2100
    case CLP => true
    case SVC => true
    case CAS => true
    case _ => false
  }

  /** A claim group: no CLP except possibly the first segment. */
  predicate ClaimGroup(g: seq<string>, de: Option<char>)
  {
    forall i :: 0 < i < |g| ==> KindOf(g[i], de) != CLP
  }

  /** The finished groups are non-empty claim groups. */
  predicate GroupsWellFormed(groups: seq<seq<string>>, de: Option<char>)
  {
    forall j :: 0 <= j < |groups| ==> groups[j] != [] && ClaimGroup(groups[j], de)
  }

  /**
   * In the segments handed to the claim renderer, every CLP starts a group:
   * the groups are cut right before it, so the group that holds a CLP
   * starts with that CLP.
   */
  lemma {:induction false} ClpStartsGroup(groups: seq<seq<string>>, de: Option<char>, p: nat)
    requires GroupsWellFormed(groups, de) && p < |Flatten(groups)| && KindOf(Flatten(groups)[p], de) == CLP
    ensures exists j :: 0 <= j < |groups| && |Flatten(groups[..j])| == p && groups[j][0] == Flatten(groups)[p]
    decreases |groups|
  {
    var n := |groups| - 1;
    var init := groups[..n];
    var last := groups[n];
    assert groups == init + [last];
    FlattenSnoc(init, last);
    assert GroupsWellFormed(init, de) by {
      forall j | 0 <= j < |init|
        ensures init[j] != [] && ClaimGroup(init[j], de)
      {
        assert init[j] == groups[j];
      }
    }
    if p < |Flatten(init)| {
      ClpStartsGroup(init, de, p);
      var j :| 0 <= j < |init| && |Flatten(init[..j])| == p && init[j][0] == Flatten(init)[p];
      assert groups[..j] == init[..j] && groups[j] == init[j];
    } else {
      var q := p - |Flatten(init)|;
      assert Flatten(groups)[p] == last[q];
      assert ClaimGroup(last, de);
      assert q == 0;
      assert groups[..n] == init;
    }
  }

  // ---------------------------------------------------------------------
  // Whole transactions, as specification
  // ---------------------------------------------------------------------

  function LoopAfter(loop: LoopId, segs: seq<string>, de: Option<char>): LoopId
  {
    if |segs| == 0 then loop
    else NextLoop(LoopAfter(loop, segs[..|segs| - 1], de), KindOf(segs[|segs| - 1], de))
  }

  function LedgerAfter(l: Ledger, loop: LoopId, segs: seq<string>, de: Option<char>): Ledger
  {
    if |segs| == 0 then l
    else
      var init := segs[..|segs| - 1];
      var last := segs[|segs| - 1];
      Post(LedgerAfter(l, loop, init, de), LoopAfter(loop, init, de), KindOf(last, de), Elements(last, de))
  }

  /** The segments that go into claim groups, in order. */
  function RoutedSegs(loop: LoopId, segs: seq<string>, de: Option<char>): seq<string>
  {
    if |segs| == 0 then []
    else
      var init := segs[..|segs| - 1];
      var last := segs[|segs| - 1];
      RoutedSegs(loop, init, de) + (if Routed(LoopAfter(loop, init, de), KindOf(last, de)) then [last] else [])
  }

  lemma AfterStep(loop: LoopId, l: Ledger, segs: seq<string>, i: nat, de: Option<char>)
    requires i < |segs|
    ensures LoopAfter(loop, segs[..i + 1], de) == NextLoop(LoopAfter(loop, segs[..i], de), KindOf(segs[i], de))
    ensures LedgerAfter(l, loop, segs[..i + 1], de)
         == Post(LedgerAfter(l, loop, segs[..i], de), LoopAfter(loop, segs[..i], de), KindOf(segs[i], de), Elements(segs[i], de))
    ensures RoutedSegs(loop, segs[..i + 1], de)
         == RoutedSegs(loop, segs[..i], de) + (if Routed(LoopAfter(loop, segs[..i], de), KindOf(segs[i], de)) then [segs[i]] else [])
  {
    assert segs[..i + 1][..i] == segs[..i];
  }

  /** One more segment read moves the loop, the totals and the routed segments as that segment does. */
  lemma StepAfter(loop0: LoopId, ledger0: Ledger, flat0: seq<string>, segs: seq<string>, i: nat, de: Option<char>,
                  loop1: LoopId, ledger1: Ledger, flat1: seq<string>, loop2: LoopId, ledger2: Ledger, flat2: seq<string>)
    requires i < |segs|
    requires loop1 == LoopAfter(loop0, segs[..i], de) && ledger1 == LedgerAfter(ledger0, loop0, segs[..i], de)
    requires flat1 == flat0 + RoutedSegs(loop0, segs[..i], de)
    requires loop2 == NextLoop(loop1, KindOf(segs[i], de))
    requires ledger2 == Post(ledger1, loop1, KindOf(segs[i], de), Elements(segs[i], de))
    requires flat2 == flat1 + (if Routed(loop1, KindOf(segs[i], de)) then [segs[i]] else [])
    ensures loop2 == LoopAfter(loop0, segs[..i + 1], de) && ledger2 == LedgerAfter(ledger0, loop0, segs[..i + 1], de)
    ensures flat2 == flat0 + RoutedSegs(loop0, segs[..i + 1], de)
  {
    AfterStep(loop0, ledger0, segs, i, de);
  }

  /** Reading two runs of segments one after the other is reading them together. */
  lemma {:induction false} AfterAppend(loop: LoopId, l: Ledger, a: seq<string>, b: seq<string>, de: Option<char>)
    ensures LoopAfter(loop, a + b, de) == LoopAfter(LoopAfter(loop, a, de), b, de)
    ensures LedgerAfter(l, loop, a + b, de) == LedgerAfter(LedgerAfter(l, loop, a, de), LoopAfter(loop, a, de), b, de)
    decreases |b|
  {
    if |b| == 0 {
      assert a + b == a;
    } else {
      var b0 := b[..|b| - 1];
      AfterAppend(loop, l, a, b0, de);
      assert (a + b)[..|a + b| - 1] == a + b0;
      assert (a + b)[|a + b| - 1] == b[|b| - 1];
    }
  }

  /** One more transaction read continues the run of all segments read so far. */
  lemma TransactionStep(trans: seq<seq<string>>, t: nat, de: Option<char>,
                        loop1: LoopId, ledger1: Ledger, loop2: LoopId, ledger2: Ledger)
    requires t < |trans|
    requires loop1 == LoopAfter(NoLoop, Flatten(trans[..t]), de) && ledger1 == LedgerAfter(Fresh, NoLoop, Flatten(trans[..t]), de)
    requires loop2 == LoopAfter(loop1, trans[t], de) && ledger2 == LedgerAfter(ledger1, loop1, trans[t], de)
    ensures loop2 == LoopAfter(NoLoop, Flatten(trans[..t + 1]), de)
    ensures ledger2 == LedgerAfter(Fresh, NoLoop, Flatten(trans[..t + 1]), de)
  {
    FlattenPrefixStep(trans, t);
    AfterAppend(NoLoop, Fresh, Flatten(trans[..t]), trans[t], de);
  }

  lemma FlattenPrefixStep(trans: seq<seq<string>>, t: nat)
    requires t < |trans|
    ensures Flatten(trans[..t + 1]) == Flatten(trans[..t]) + trans[t]
  {
    assert trans[..t + 1] == trans[..t] + [trans[t]];
    FlattenSnoc(trans[..t], trans[t]);
  }

  /** The routed segments of a run are segments of that run, in order. */
  lemma {:induction false} RoutedSegsBound(loop: LoopId, segs: seq<string>, de: Option<char>)
    ensures |RoutedSegs(loop, segs, de)| <= |segs|
    ensures forall s :: s in RoutedSegs(loop, segs, de) ==> s in segs
    decreases |segs|
  {
    if |segs| > 0 {
      RoutedSegsBound(loop, segs[..|segs| - 1], de);
      assert forall s :: s in segs[..|segs| - 1] ==> s in segs;
    }
  }

  // ---------------------------------------------------------------------
  // The payment listing
  // ---------------------------------------------------------------------

  /** The delimiters array: element, sub-element (component) and repetition separators, each possibly missing. */
  datatype Delimiters = Delimiters(e: Option<char>, s: Option<char>, r: Option<char>)

  /** The result of a payment listing: the claim groups rendered, the totals, and the verdict at each SE. */
  datatype Listing = Listing(groups: seq<seq<string>>, ledger: Ledger, balances: seq<bool>)

  class PaymentListing {
    const de: Option<char>
    var loop: LoopId
    var ledger: Ledger
    /** The segments of the claim group being collected (`$clpsegs`). */
    var clpSegs: seq<string>
    /** The claim groups handed to the claim renderer, in order. */
    var groups: seq<seq<string>>
    var lxKey: string
    var lxKeys: set<string>
    var balances: seq<bool>

    ghost predicate GroupsOk()
      reads this`groups
    {
      GroupsWellFormed(groups, de)
    }

    ghost predicate OpenGroupOk()
      reads this`clpSegs
    {
      ClaimGroup(clpSegs, de)
    }

    ghost predicate KeysOk()
      reads this`lxKey, this`lxKeys
    {
      lxKey != "" ==> lxKey in lxKeys
    }

    /** The finished groups and the open one are claim groups, and the current LX key has been recorded. */
    ghost predicate Valid()
      reads this`groups, this`clpSegs, this`lxKey, this`lxKeys
    {
      GroupsOk() && OpenGroupOk() && KeysOk()
    }

    constructor (de: Option<char>)
      ensures this.de == de && Valid()
      ensures loop == NoLoop && ledger == Fresh && clpSegs == [] && groups == [] && balances == []
    {
      this.de := de;
      loop := NoLoop;
      ledger := Fresh;
      clpSegs := [];
      groups := [];
      lxKey := "";
      lxKeys := {};
      balances := [];
    }

    /** Hands the current group, if any, to the claim renderer. */
    method Flush()
      requires GroupsOk() && OpenGroupOk()
      modifies this`groups, this`clpSegs
      ensures GroupsOk() && clpSegs == []
      ensures groups == if old(clpSegs) == [] then old(groups) else old(groups) + [old(clpSegs)]
      ensures Flatten(groups) == old(Flatten(groups) + clpSegs)
    {
      if clpSegs != [] {
        FlattenSnoc(groups, clpSegs);
        groups := groups + [clpSegs];
      } else {
        assert Flatten(groups) + [] == Flatten(groups);
      }
      clpSegs := [];
    }

    /** CLP: the open group goes to the renderer and a new one starts with the CLP. */
    method OpenClaim(seg: string)
      requires GroupsOk() && OpenGroupOk()
      modifies this`groups, this`clpSegs
      ensures GroupsOk() && OpenGroupOk()
      ensures clpSegs == [seg] && groups == if old(clpSegs) == [] then old(groups) else old(groups) + [old(clpSegs)]
      ensures Flatten(groups) + clpSegs == old(Flatten(groups) + clpSegs) + [seg]
    {
      Flush();
      clpSegs := [seg];
    }

    /** A segment other than CLP joins the open group. */
    method Append(seg: string)
      requires OpenGroupOk() && KindOf(seg, de) != CLP
      modifies this`clpSegs
      ensures OpenGroupOk() && clpSegs == old(clpSegs) + [seg]
    {
      clpSegs := clpSegs + [seg];
    }

    /** LX: after a service line the open group of the current LX key goes to the renderer; then the new key is recorded. */
    method StartLx(seg: string, prev: LoopId)
      requires Valid()
      modifies this`groups, this`clpSegs, this`lxKey, this`lxKeys
      ensures Valid()
      ensures Flatten(groups) + clpSegs == old(Flatten(groups) + clpSegs)
      ensures prev == L2110 && old(lxKey) != "" ==> clpSegs == []
      ensures lxKey == (if PhpEmpty(El(Elements(seg, de), 1)) then "" else El(Elements(seg, de), 1))
      ensures lxKeys == old(lxKeys) + {lxKey}
    {
      if prev == L2110 && lxKey != "" && lxKey in lxKeys {
        Flush();
        assert Flatten(groups) + [] == Flatten(groups);
      }
      var e := El(Elements(seg, de), 1);
      lxKey := if PhpEmpty(e) then "" else e;
      lxKeys := lxKeys + {lxKey};
    }

    /** The grouping effect of one segment of kind `k` read in loop `prev`. */
    method Group(seg: string, k: Kind, prev: LoopId)
      requires Valid() && k == KindOf(seg, de)
      modifies this`groups, this`clpSegs, this`lxKey, this`lxKeys
      ensures Valid()
      ensures Flatten(groups) + clpSegs == old(Flatten(groups) + clpSegs) + (if Routed(prev, k) then [seg] else [])
      ensures k == CLP ==> clpSegs == [seg] && groups == if old(clpSegs) == [] then old(groups) else old(groups) + [old(clpSegs)]
      ensures k == SE ==> clpSegs == [] && groups == if old(clpSegs) == [] then old(groups) else old(groups) + [old(clpSegs)]
      ensures k != LX ==> lxKey == old(lxKey) && lxKeys == old(lxKeys)
      ensures k !in {CLP, SE, LX} ==> groups == old(groups)
    {
      if k == CLP {
        OpenClaim(seg);
      } else if k == SE {
        Flush();
        assert Flatten(groups) + [] == Flatten(groups);
      } else if k == LX {
        StartLx(seg, prev);
      } else if Routed(prev, k) {
        Append(seg);
      }
    }

    /** The accounting and loop effect of one segment of kind `k` read in loop `prev`. */
    method Account(k: Kind, prev: LoopId, els: seq<string>)
      requires prev == loop
      modifies this`ledger, this`loop, this`balances
      ensures loop == NextLoop(prev, k)
      ensures ledger == Post(old(ledger), prev, k, els)
      ensures balances == old(balances) + (if k == SE then [Balanced(old(ledger).acct)] else [])
    {
      if k == SE {
        balances := balances + [Balanced(ledger.acct)];
      }
      ledger := Post(ledger, prev, k, els);
      loop := NextLoop(prev, k);
    }

    /** One segment of a transaction, as the foreach body of the payment listing reads it. */
    method ProcessSegment(seg: string)
      requires Valid()
      modifies this
      ensures Valid()
      ensures loop == NextLoop(old(loop), KindOf(seg, de))
      ensures ledger == Post(old(ledger), old(loop), KindOf(seg, de), Elements(seg, de))
      ensures Flatten(groups) + clpSegs == old(Flatten(groups) + clpSegs) + (if Routed(old(loop), KindOf(seg, de)) then [seg] else [])
      ensures KindOf(seg, de) == CLP ==> clpSegs == [seg] && groups == if old(clpSegs) == [] then old(groups) else old(groups) + [old(clpSegs)]
      ensures balances == old(balances) + (if KindOf(seg, de) == SE then [Balanced(old(ledger).acct)] else [])
    {
      var k := KindOf(seg, de);
      var prev := loop;
      Group(seg, k, prev);
      Account(k, prev, Elements(seg, de));
    }

    /** The segments of a transaction, each in turn. */
    method ProcessSegments(trans: seq<string>)
      requires Valid()
      modifies this
      ensures Valid()
      ensures loop == LoopAfter(old(loop), trans, de)
      ensures ledger == LedgerAfter(old(ledger), old(loop), trans, de)
      ensures Flatten(groups) + clpSegs == old(Flatten(groups) + clpSegs) + RoutedSegs(old(loop), trans, de)
    {
      ghost var loop0 := loop;
      ghost var ledger0 := ledger;
      ghost var flat0 := Flatten(groups) + clpSegs;
      assert trans[..0] == [];
      for i := 0 to |trans|
        invariant Valid()
        invariant loop == LoopAfter(loop0, trans[..i], de)
        invariant ledger == LedgerAfter(ledger0, loop0, trans[..i], de)
        invariant Flatten(groups) + clpSegs == flat0 + RoutedSegs(loop0, trans[..i], de)
      {
        ghost var loop1, ledger1, flat1 := loop, ledger, Flatten(groups) + clpSegs;
        ProcessSegment(trans[i]);
        StepAfter(loop0, ledger0, flat0, trans, i, de, loop1, ledger1, flat1, loop, ledger, Flatten(groups) + clpSegs);
      }
      assert trans[..|trans|] == trans;
    }

    /** One transaction: the open claim group and the LX keys start afresh; the loop and the totals carry over. */
    method ProcessTransaction(trans: seq<string>)
      requires Valid()
      modifies this
      ensures Valid()
      ensures loop == LoopAfter(old(loop), trans, de)
      ensures ledger == LedgerAfter(old(ledger), old(loop), trans, de)
      ensures Flatten(groups) + clpSegs == old(Flatten(groups)) + RoutedSegs(old(loop), trans, de)
    {
      clpSegs := [];
      lxKey := "";
      lxKeys := {};
      assert Flatten(groups) + clpSegs == Flatten(groups);
      ProcessSegments(trans);
    }
  }

  /** The checks the payment listing makes before reading: segments and a delimiters array must be given. */
  function PaymentGuard(trans: seq<seq<string>>, delims: Delimiters): (r: Option<string>)
    ensures r.None? <==> trans != [] && delims != Delimiters(None, None, None)
    ensures trans == [] ==> r == Some("invalid segments argument")
  {
    if trans == [] then Some("invalid segments argument")
    else if delims == Delimiters(None, None, None) then Some("invalid delimiters argument")
    else None
  }

  /**
   * The payment listing of a file's transactions: the loop and the totals
   * carry from one transaction to the next, the open claim group and the
   * LX keys do not.
   */
  method PaymentHtml(trans: seq<seq<string>>, delims: Delimiters) returns (r: Result<Listing, string>)
    ensures r.Err? <==> PaymentGuard(trans, delims).Some?
    ensures r.Err? ==> r.error == PaymentGuard(trans, delims).value
    ensures r.Ok? ==> GroupsWellFormed(r.value.groups, delims.e)
    ensures r.Ok? ==> r.value.ledger == LedgerAfter(Fresh, NoLoop, Flatten(trans), delims.e)
  {
    var err := PaymentGuard(trans, delims);
    if err.Some? {
      return Err(err.value);
    }
    var p := new PaymentListing(delims.e);
    for t := 0 to |trans|
      invariant p.Valid() && p.de == delims.e
      invariant p.loop == LoopAfter(NoLoop, Flatten(trans[..t]), delims.e)
      invariant p.ledger == LedgerAfter(Fresh, NoLoop, Flatten(trans[..t]), delims.e)
    {
      ghost var loop1, ledger1 := p.loop, p.ledger;
      p.ProcessTransaction(trans[t]);
      TransactionStep(trans, t, delims.e, loop1, ledger1, p.loop, p.ledger);
    }
    assert trans[..|trans|] == trans;
    return Ok(Listing(p.groups, p.ledger, p.balances));
  }

  // ---------------------------------------------------------------------
  // The claim renderer: delimiters, CAS table, SVC composites
  // ---------------------------------------------------------------------

  /** A delimiter PHP treats as false: missing, or the character "0". */
  predicate Falsy(d: Option<char>) { d.None? || d.value == '0' }

  /** The checks of the claim and summary renderers: segments first, then both the element and the component delimiter. */
  function TransactionGuard(segs: seq<string>, delims: Delimiters): (r: Option<string>)
    ensures r.None? <==> segs != [] && !Falsy(delims.e) && !Falsy(delims.s)
    ensures segs == [] ==> r == Some("Did not get transaction segments")
    ensures segs != [] && r.Some? ==> r == Some("Did not get delimiters")
  {
    if segs == [] then Some("Did not get transaction segments")
    else if Falsy(delims.e) || Falsy(delims.s) then Some("Did not get delimiters")
    else None
  }

  /** Adjustment triplets by loop and by group code. */
  type CasTable = map<LoopId, map<string, seq<seq<string>>>>

  /** The claim renderer's loop: CLP opens 2100 and SVC 2110; nothing else moves it. */
  function RenderLoop(loop: LoopId, seg: string, de: char): LoopId
  {
    if IsSeg(seg, "CLP", Some(de)) then L2100
    else if IsSeg(seg, "SVC", Some(de)) then L2110
    else loop
  }

  /** A CAS with a group code stores its triplets under the current loop and that group. */
  function CasStore(table: CasTable, loop: LoopId, seg: string, de: char): (r: CasTable)
    ensures !IsSeg(seg, "CAS", Some(de)) || PhpEmpty(El(Split(seg, de), 1)) ==> r == table
  {
    var els := Split(seg, de);
    if IsSeg(seg, "CAS", Some(de)) && !PhpEmpty(El(els, 1)) then
      var inner := if loop in table then table[loop] else map[];
      table[loop := inner[El(els, 1) := ArrayChunk(Drop(els, 2), 3)]]
    else table
  }

  function RenderLoopAfter(segs: seq<string>, de: char): LoopId
  {
    if |segs| == 0 then NoLoop else RenderLoop(RenderLoopAfter(segs[..|segs| - 1], de), segs[|segs| - 1], de)
  }

  function CasTableAfter(segs: seq<string>, de: char): CasTable
  {
    if |segs| == 0 then map[]
    else
      var init := segs[..|segs| - 1];
      var last := segs[|segs| - 1];
      CasStore(CasTableAfter(init, de), RenderLoopAfter(init, de), last, de)
  }

  /** The triplets stored for a CAS segment read in loop `loop`. */
  predicate StoredFrom(table: CasTable, loop: LoopId, group: string, seg: string, de: char)
    requires loop in table && group in table[loop]
  {
    IsSeg(seg, "CAS", Some(de)) && El(Split(seg, de), 1) == group && !PhpEmpty(group)
    && table[loop][group] == ArrayChunk(Drop(Split(seg, de), 2), 3)
  }

  /** A store under another loop or group, or none at all, leaves an entry as it was. */
  lemma CasStoreKeeps(table: CasTable, at: LoopId, seg: string, de: char, loop: LoopId, group: string)
    requires loop in CasStore(table, at, seg, de) && group in CasStore(table, at, seg, de)[loop]
    requires !(IsSeg(seg, "CAS", Some(de)) && !PhpEmpty(El(Split(seg, de), 1)) && at == loop && El(Split(seg, de), 1) == group)
    ensures loop in table && group in table[loop]
    ensures CasStore(table, at, seg, de)[loop][group] == table[loop][group]
  {
  }

  /**
   * Every entry of the table comes from a CAS of the claim read in that
   * loop and with that group code; its triplets are that CAS's elements
   * after the group code, three at a time.
   */
  lemma {:induction false} CasTableEntries(segs: seq<string>, de: char, loop: LoopId, group: string)
    requires loop in CasTableAfter(segs, de) && group in CasTableAfter(segs, de)[loop]
    ensures exists i :: 0 <= i < |segs| && RenderLoopAfter(segs[..i], de) == loop
                        && StoredFrom(CasTableAfter(segs, de), loop, group, segs[i], de)
    decreases |segs|
  {
    var init := segs[..|segs| - 1];
    var last := segs[|segs| - 1];
    var t := CasTableAfter(init, de);
    var els := Split(last, de);
    var n := |segs| - 1;
    assert segs[..n] == init;
    if IsSeg(last, "CAS", Some(de)) && !PhpEmpty(El(els, 1)) && RenderLoopAfter(init, de) == loop && El(els, 1) == group {
      assert StoredFrom(CasTableAfter(segs, de), loop, group, segs[n], de);
    } else {
      CasStoreKeeps(t, RenderLoopAfter(init, de), last, de, loop, group);
      CasTableEntries(init, de, loop, group);
      var i :| 0 <= i < |init| && RenderLoopAfter(init[..i], de) == loop && StoredFrom(t, loop, group, init[i], de);
      assert segs[..i] == init[..i];
      assert StoredFrom(CasTableAfter(segs, de), loop, group, segs[i], de);
    }
  }

  /** The CAS table of a claim group, built segment by segment as the claim renderer does. */
  method BuildCasTable(segs: seq<string>, de: char) returns (table: CasTable)
    ensures table == CasTableAfter(segs, de)
  {
    table := map[];
    var loop := NoLoop;
    for i := 0 to |segs|
      invariant loop == RenderLoopAfter(segs[..i], de)
      invariant table == CasTableAfter(segs[..i], de)
    {
      assert segs[..i + 1][..i] == segs[..i];
      table := CasStore(table, loop, segs[i], de);
      loop := RenderLoop(loop, segs[i], de);
    }
    assert segs[..|segs|] == segs;
  }

  /**
   * The service remarks of a claim group: every remark code its LQ segments
   * carry (`$lq_ar`), and the line that shows the codes read since the last
   * SVC (`$rarc_str`).
   */
  datatype Remarks = Remarks(codes: seq<string>, line: string)

  const RemarksLabel: string := "<em>Service Remarks</em> "

  /** The remark code of an LQ segment, its second element, when it has one. */
  function LqCode(seg: string, de: char): Option<string>
  {
    var els := Split(seg, de);
    if IsSeg(seg, "LQ", Some(de)) && |els| > 2 then Some(els[2]) else None
  }

  /** The claim renderer on one segment: an SVC starts a new remarks line; an LQ with a code adds it to both the list and the line. */
  function RemarkStep(r: Remarks, seg: string, de: char): Remarks
  {
    if IsSeg(seg, "SVC", Some(de)) then r.(line := "")
    else match LqCode(seg, de)
      case None => r
      case Some(code) => Remarks(r.codes + [code], if r.line != "" then r.line + " " + code else RemarksLabel + code)
  }

  function RemarksAfter(segs: seq<string>, de: char): Remarks
  {
    if |segs| == 0 then Remarks([], "") else RemarkStep(RemarksAfter(segs[..|segs| - 1], de), segs[|segs| - 1], de)
  }

  /** The remark codes of the LQ segments, one per LQ that has a code, in segment order. */
  function LqCodes(segs: seq<string>, de: char): seq<string>
  {
    if |segs| == 0 then []
    else (match LqCode(segs[0], de) case Some(code) => [code] case None => []) + LqCodes(segs[1..], de)
  }

  /** The segments after the last SVC (all of them when there is none). */
  function SinceLastSvc(segs: seq<string>, de: char): (r: seq<string>)
    ensures |r| <= |segs| && r == segs[|segs| - |r|..]
  {
    if |segs| == 0 then []
    else if IsSeg(segs[|segs| - 1], "SVC", Some(de)) then []
    else SinceLastSvc(segs[..|segs| - 1], de) + [segs[|segs| - 1]]
  }

  /** The remarks line for some codes: empty without codes, else the label and the codes separated by spaces. */
  function RemarksLine(codes: seq<string>): string
  {
    if codes == [] then "" else RemarksLabel + Join(codes, " ")
  }

  lemma {:induction false} LqCodesSnoc(segs: seq<string>, seg: string, de: char)
    ensures LqCodes(segs + [seg], de) == LqCodes(segs, de) + LqCodes([seg], de)
    decreases |segs|
  {
    if |segs| > 0 {
      assert (segs + [seg])[1..] == segs[1..] + [seg];
      LqCodesSnoc(segs[1..], seg, de);
    } else {
      assert segs + [seg] == [seg];
    }
  }

  /**
   * Every LQ segment with a code adds exactly that code to the group's
   * remark list, in segment order, and the remarks line shows, behind its
   * label, exactly the codes of the LQ segments after the last SVC.
   */
  lemma {:induction false} RemarksSpec(segs: seq<string>, de: char)
    ensures RemarksAfter(segs, de).codes == LqCodes(segs, de)
    ensures RemarksAfter(segs, de).line == RemarksLine(LqCodes(SinceLastSvc(segs, de), de))
    decreases |segs|
  {
    if |segs| > 0 {
      var init := segs[..|segs| - 1];
      var last := segs[|segs| - 1];
      assert segs == init + [last];
      RemarksSpec(init, de);
      LqCodesSnoc(init, last, de);
      assert LqCodes([last], de) == (match LqCode(last, de) case Some(code) => [code] case None => []);
      if !IsSeg(last, "SVC", Some(de)) {
        var before := LqCodes(SinceLastSvc(init, de), de);
        assert SinceLastSvc(segs, de) == SinceLastSvc(init, de) + [last];
        LqCodesSnoc(SinceLastSvc(init, de), last, de);
        if LqCode(last, de).Some? {
          RemarksLineSnoc(before, LqCode(last, de).value);
        } else {
          assert before + [] == before;
        }
      }
    }
  }

  /** One more code extends the remarks line as the renderer does: behind a space, or behind the label on an empty line. */
  lemma RemarksLineSnoc(codes: seq<string>, code: string)
    ensures RemarksLine(codes + [code]) == if RemarksLine(codes) != "" then RemarksLine(codes) + " " + code else RemarksLabel + code
  {
    JoinAppendOne(codes, code, " ");
    if codes != [] {
      assert RemarksLine(codes) != "";
    } else {
      assert codes + [code] == [code];
    }
  }

  /** The LQ stanza of the claim renderer, run over the segments of one claim group. */
  method CollectRemarks(segs: seq<string>, de: char) returns (remarks: Remarks)
    ensures remarks == RemarksAfter(segs, de)
    ensures remarks.codes == LqCodes(segs, de)
    ensures remarks.line == RemarksLine(LqCodes(SinceLastSvc(segs, de), de))
  {
    var codes: seq<string> := [];
    var line := "";
    for i := 0 to |segs|
      invariant Remarks(codes, line) == RemarksAfter(segs[..i], de)
    {
      assert segs[..i + 1][..i] == segs[..i];
      var seg := segs[i];
      if IsSeg(seg, "SVC", Some(de)) {
        line := "";
      } else {
        var els := Split(seg, de);
        if IsSeg(seg, "LQ", Some(de)) && |els| > 2 {
          line := if line != "" then line + " " + els[2] else RemarksLabel + els[2];
          codes := codes + [els[2]];
        }
      }
    }
    assert segs[..|segs|] == segs;
    remarks := Remarks(codes, line);
    RemarksSpec(segs, de);
  }

  /** `:` and each component, PHP `$s .= ":" . $val` over the components in order. */
  function ColonEach(parts: seq<string>): string
  {
    if |parts| == 0 then "" else ColonEach(parts[..|parts| - 1]) + ":" + parts[|parts| - 1]
  }

  /**
   * SVC01 or SVC06 as displayed: a composite (the component separator
   * found after the first character) has its first component replaced by
   * its description plus `suffix`, unless that component is "0", and every
   * other component appended after a ':'; anything else is shown as is.
   */
  function SvcComposite(el: string, ds: char, describe: string -> string, suffix: string): string
  {
    if PhpEmpty(el) then ""
    else match IndexOf(el, [ds])
      case Some(p) =>
        if p > 0 then
          var parts := Split(el, ds);
          (if PhpEmpty(parts[0]) then ":" + parts[0] else describe(parts[0]) + suffix) + ColonEach(parts[1..])
        else el
      case None => el
  }

  lemma {:induction false} ColonEachJoin(head: string, parts: seq<string>)
    ensures head + ColonEach(parts) == Join([head] + parts, ":")
    decreases |parts|
  {
    if |parts| > 0 {
      var init := parts[..|parts| - 1];
      ColonEachJoin(head, init);
      JoinSnoc([head] + init, parts[|parts| - 1], ":");
      assert [head] + init + [parts[|parts| - 1]] == [head] + parts;
    } else {
      assert [head] + parts == [head];
    }
  }

  /**
   * A composite whose components and description hold no ':' reads back,
   * split on ':', as the description followed by the remaining components
   * in their order.
   */
  lemma SvcCompositeComponents(el: string, ds: char, describe: string -> string, suffix: string)
    requires ':' !in el && ds != ':'
    requires IndexOf(el, [ds]).Some? && IndexOf(el, [ds]).value > 0
    requires !PhpEmpty(Split(el, ds)[0]) && ':' !in describe(Split(el, ds)[0]) + suffix
    ensures Split(SvcComposite(el, ds, describe, suffix), ':') == [describe(Split(el, ds)[0]) + suffix] + Split(el, ds)[1..]
  {
    var parts := Split(el, ds);
    var head := describe(parts[0]) + suffix;
    assert !PhpEmpty(el) by {
      IndexOfSpec(el, [ds]);
    }
    assert SvcComposite(el, ds, describe, suffix) == head + ColonEach(parts[1..]);
    ColonEachJoin(head, parts[1..]);
    forall k | 0 <= k < |parts|
      ensures ':' !in parts[k]
    {
      JoinSplit(el, ds);
      PartNoColon(el, ds, k);
    }
    SplitJoin([head] + parts[1..], ':');
  }

  /** A component of a string without ':' has no ':'. */
  lemma {:induction false} PartNoColon(s: string, c: char, k: nat)
    requires ':' !in s && k < |Split(s, c)|
    ensures ':' !in Split(s, c)[k]
    decreases |s|
  {
    if |s| > 0 {
      var rest := Split(s[1..], c);
      assert forall x :: x in s[1..] ==> x in s;
      if s[0] == c {
        if k > 0 {
          PartNoColon(s[1..], c, k - 1);
        }
      } else if k == 0 {
        PartNoColon(s[1..], c, 0);
      } else {
        PartNoColon(s[1..], c, k);
      }
    }
  }
}
