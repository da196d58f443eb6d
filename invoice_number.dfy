/** `getNextInvoiceNumber`: proposes the next invoice number of a factory
    from the number of its most recently created invoice. */
module InvoiceNumber {
  import opened Base
  import opened Schema
  import opened Decimal
  import Store

  /** The text before the trailing digit run (the whole string when there is none). */
  function Prefix(s: string): (p: string)
    ensures |p| <= |s| && (p == [] || !IsDigit(p[|p| - 1]))
    ensures AllDigits(s[|p|..]) && forall i :: 0 <= i < |p| ==> p[i] == s[i]
  {
    s[..TrailingDigitsStart(s)]
  }

  /** The trailing digit run, when the string ends in a digit. */
  function Run(s: string): (r: Option<string>)
    ensures r.Some? ==> |r.value| >= 1 && AllDigits(r.value)
  {
    var k := TrailingDigitsStart(s);
    if k == |s| then None else Some(s[k..])
  }

  /** The counter a number carries: the value of its trailing digit run. */
  function Counter(s: string): (c: Option<nat>)
    ensures c.Some? <==> |s| > 0 && IsDigit(s[|s| - 1])
  {
    var r := Run(s);
    if r.Some? then Some(ParseDigits(r.value)) else None
  }

  /** The successor of an invoice number (lines 23-37): the trailing digit
      run is incremented and zero-padded back to its width; a number that
      does not end in a digit gets "-1" appended. */
  function NextInvoiceNo(lastNo: string): (r: string)
    ensures |r| >= 1
  {
    var run := Run(lastNo);
    if run.Some? then
      Prefix(lastNo) + PadStart(NatToDecimal(ParseDigits(run.value) + 1), |run.value|, '0')
    else
      lastNo + "-1"
  }

  /** A number whose trailing run is given: prefix, then the new digits. */
  lemma SplitOfDigitsSuffix(p: string, digits: string)
    requires |digits| >= 1 && AllDigits(digits)
    requires p == [] || !IsDigit(p[|p| - 1])
    ensures Prefix(p + digits) == p && Run(p + digits) == Some(digits)
  {
    var s := p + digits;
    assert s[|p|..] == digits;
    assert |p| == 0 || s[|p| - 1] == p[|p| - 1];
    TrailingDigitsStartUnique(s, |p|);
  }

  /** A prefix followed by `v` zero-padded to width `w` splits back into
      that prefix and a run worth `v`. */
  lemma PaddedSuffix(p: string, v: nat, w: nat)
    requires p == [] || !IsDigit(p[|p| - 1])
    ensures var digits := PadStart(NatToDecimal(v), w, '0');
      && Prefix(p + digits) == p && Run(p + digits) == Some(digits)
      && ParseDigits(digits) == v
      && |digits| == (if w <= |NatToDecimal(v)| then |NatToDecimal(v)| else w)
  {
    var digits := PadStart(NatToDecimal(v), w, '0');
    ParseZeroPadded(NatToDecimal(v), w);
    ParseNatToDecimal(v);
    SplitOfDigitsSuffix(p, digits);
  }

  /** When the last number ends in digits, the result keeps its prefix and
      carries that run's value plus one, zero-padded to the old width but
      never truncated (lines 27-33). */
  lemma {:induction false} NextOfNumbered(lastNo: string)
    requires Run(lastNo).Some?
    ensures var r := NextInvoiceNo(lastNo);
      var w := |Run(lastNo).value|;
      var v := ParseDigits(Run(lastNo).value) + 1;
      && Prefix(r) == Prefix(lastNo)
      && Run(r).Some? && ParseDigits(Run(r).value) == v
      && |Run(r).value| == (if w <= |NatToDecimal(v)| then |NatToDecimal(v)| else w)
  {
    var k := TrailingDigitsStart(lastNo);
    var p := Prefix(lastNo);
    assert p == lastNo[..k];
    assert p == [] || p[|p| - 1] == lastNo[k - 1];
    PaddedSuffix(p, ParseDigits(Run(lastNo).value) + 1, |Run(lastNo).value|);
  }

  /** When the last number does not end in a digit, "-1" is appended (line 37). */
  lemma NextOfUnnumbered(lastNo: string)
    requires Run(lastNo).None?
    ensures NextInvoiceNo(lastNo) == lastNo + "-1"
    ensures Prefix(NextInvoiceNo(lastNo)) == lastNo + "-"
    ensures Counter(NextInvoiceNo(lastNo)) == Some(1)
  {
    assert "1" == NatToDecimal(1);
    ParseNatToDecimal(1);
    SplitOfDigitsSuffix(lastNo + "-", "1");
    assert lastNo + "-" + "1" == lastNo + "-1";
  }

  lemma CounterOfRun(s: string)
    requires Run(s).Some?
    ensures Counter(s) == Some(ParseDigits(Run(s).value))
  {
  }

  /** Whatever the last number, its successor carries the counter one
      higher (starting from 1), so successive numbers never repeat a counter. */
  lemma {:induction false} NextIncrementsCounter(lastNo: string)
    ensures Counter(NextInvoiceNo(lastNo)) ==
      Some(if Counter(lastNo).Some? then Counter(lastNo).value + 1 else 1)
  {
    if Run(lastNo).Some? {
      var v := ParseDigits(Run(lastNo).value);
      var r := NextInvoiceNo(lastNo);
      NextOfNumbered(lastNo);
      assert Counter(lastNo) == Some(v);
      assert Run(r).Some? && ParseDigits(Run(r).value) == v + 1;
      CounterOfRun(r);
    } else {
      NextOfUnnumbered(lastNo);
    }
  }

  /** The latest invoice of a factory by `createdAt` (lines 14-17); among
      several with the same greatest `createdAt` the first in table order. */
  function LastInvoice(invs: seq<Invoice>, factoryId: Id): (r: Option<Invoice>)
    ensures r.None? <==> forall i :: 0 <= i < |invs| ==> invs[i].factoryId != factoryId
    ensures r.Some? ==> r.value in invs && r.value.factoryId == factoryId
    ensures r.Some? ==> forall i :: 0 <= i < |invs| && invs[i].factoryId == factoryId ==>
      invs[i].createdAt <= r.value.createdAt
  {
    if invs == [] then None
    else
      var rest := LastInvoice(invs[..|invs| - 1], factoryId);
      var x := invs[|invs| - 1];
      assert invs == invs[..|invs| - 1] + [x];
      if x.factoryId != factoryId then rest
      else if rest.Some? && rest.value.createdAt >= x.createdAt then rest
      else Some(x)
  }

  datatype NumberResult = NextNumber(nextInvoiceNo: string) | NumberError(error: string)

  /** `getNextInvoiceNumber(factoryId)` over the invoices table. */
  function GetNextInvoiceNumber(db: Store.Database, session: Option<UserId>, factoryId: Id): (r: NumberResult)
    reads db
    ensures session.None? <==> r == NumberError("Unauthorized")
    ensures session.Some? ==> r.NextNumber?
    ensures session.Some? && LastInvoice(db.invoices, factoryId).None? ==> r == NextNumber("001")
    ensures session.Some? && LastInvoice(db.invoices, factoryId).Some? ==>
      r == NextNumber(NextInvoiceNo(LastInvoice(db.invoices, factoryId).value.invoiceNo))
  {
    if session.None? then NumberError("Unauthorized")
    else
      var last := LastInvoice(db.invoices, factoryId);
      if last.None? then NextNumber("001") else NextNumber(NextInvoiceNo(last.value.invoiceNo))
  }

  /** The proposal depends on the factory's invoices only: neither the
      caller's identity nor other factories' invoices change it (the query
      does not filter by user). */
  lemma ProposalIgnoresCaller(db: Store.Database, u1: UserId, u2: UserId, factoryId: Id)
    ensures GetNextInvoiceNumber(db, Some(u1), factoryId) == GetNextInvoiceNumber(db, Some(u2), factoryId)
  {
  }

  /** Invoices of other factories play no part in choosing the last one. */
  lemma {:induction false} LastInvoiceOfOwnRows(invs: seq<Invoice>, factoryId: Id)
    ensures LastInvoice(invs, factoryId) ==
      LastInvoice(Filter(invs, (inv: Invoice) => inv.factoryId == factoryId), factoryId)
  {
    var p := (inv: Invoice) => inv.factoryId == factoryId;
    if invs != [] {
      var front := invs[..|invs| - 1];
      var x := invs[|invs| - 1];
      assert invs == front + [x];
      FilterConcat(front, [x], p);
      assert Filter([x], p) == if p(x) then [x] else [] by {
        assert [x][1..] == [];
      }
      LastInvoiceOfOwnRows(front, factoryId);
      var f := Filter(invs, p);
      if p(x) {
        assert f[..|f| - 1] == Filter(front, p);
      } else {
        assert f == Filter(front, p);
      }
    }
  }

  /** The zero padding keeps the width: "A-007" is followed by "A-008". */
  lemma PaddedExample()
    ensures NextInvoiceNo("A-007") == "A-008"
  {
    assert "A-007" == "A-" + "007";
    SplitOfDigitsSuffix("A-", "007");
    assert ParseDigits("007") == 7 by {
      assert "007"[..2] == "00" && "00"[..1] == "0" && "0"[..0] == "";
    }
    assert NatToDecimal(8) == "8";
    assert PadStart("8", 3, '0') == "008";
    assert NextInvoiceNo("A-007") == "A-" + PadStart(NatToDecimal(7 + 1), 3, '0');
  }

  lemma NinesParse()
    ensures AllDigits("999") && ParseDigits("999") == 999
  {
    assert "999"[..2] == "99" && "99"[..1] == "9" && "9"[..0] == "";
  }

  lemma ThousandSpelled()
    ensures NatToDecimal(1000) == "1000"
  {
    assert NatToDecimal(1) == "1";
    assert NatToDecimal(10) == NatToDecimal(1) + "0" == "10";
    assert NatToDecimal(100) == NatToDecimal(10) + "0" == "100";
    assert NatToDecimal(1000) == NatToDecimal(100) + "0";
  }

  /** A run of nines grows by one digit: "999" is followed by "1000". */
  lemma WideningExample()
    ensures NextInvoiceNo("999") == "1000"
  {
    assert "999" == "" + "999";
    SplitOfDigitsSuffix("", "999");
    NinesParse();
    ThousandSpelled();
    assert PadStart("1000", 3, '0') == "1000";
    assert NextInvoiceNo("999") == Prefix("999") + PadStart(NatToDecimal(999 + 1), 3, '0');
  }

  /** A number without trailing digits gets a counter of its own: "ABC" is followed by "ABC-1". */
  lemma UnnumberedExample()
    ensures NextInvoiceNo("ABC") == "ABC-1"
  {
    assert Run("ABC").None?;
    NextOfUnnumbered("ABC");
  }
}
