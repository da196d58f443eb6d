/** The invoice form's state and its pure transitions: the initial state
    (new or edited invoice), the invoice-number prefill, `calculateTotal`,
    the item-list edits `handleItemChange`, `addItem` and `removeItem`, and
    the choice `handleSubmit` makes. React replaces state rather than
    mutating it, so each transition is a function from old state to new. */
module InvoiceForm {
  import opened Base
  import opened Schema
  import opened InvoiceActions
  import InvoiceNumber
  import Store

  /** The `id` a form line carries: a stored item's UUID, or a number (the
      row index for a stored item without id, 1 for the first blank line,
      `Date.now()` for an added line). */
  datatype LineKey = Stored(id: string) | Local(n: int)

  datatype FormLine = FormLine(key: LineKey, name: string, quantity: real, rate: real, amount: real)

  /** The customer fields are text inputs: always strings, possibly empty. */
  datatype CustomerFields = CustomerFields(name: string, address: string, mobile: string, gstin: string)

  datatype FormState = FormState(
    invoiceNo: string, date: CalendarDate, customer: CustomerFields,
    items: seq<FormLine>, gstEnabled: bool, gstRate: real)

  /** The `initialData` of the edit page: the stored invoice with its items. */
  datatype InitialData = InitialData(invoice: Invoice, items: seq<InvoiceItem>)

  function OrEmpty(o: Option<string>): string {
    if o.Some? then o.value else ""
  }

  const BlankLine := FormLine(Local(1), "", 1.0, 0.0, 0.0)

  /** Lines 47: stored items become form lines keyed by their id (or their
      index when the id is empty); a new invoice starts with one blank line. */
  function InitialItems(initial: Option<InitialData>): seq<FormLine> {
    if initial.None? then [BlankLine]
    else
      var items := initial.value.items;
      seq(|items|, i requires 0 <= i < |items| =>
        FormLine(if items[i].id != "" then Stored(items[i].id) else Local(i),
                 items[i].name, items[i].quantity, items[i].rate, items[i].amount))
  }

  /** Lines 27-50: the state the form starts in; `today` is the clock's date. */
  function InitialState(initial: Option<InitialData>, today: CalendarDate): (s: FormState)
    ensures s.gstEnabled ==> s.gstRate > 0.0
    ensures |s.items| == if initial.None? then 1 else |initial.value.items|
  {
    if initial.None? then
      FormState("", today, CustomerFields("", "", "", ""), InitialItems(initial), false, 18.0)
    else
      var inv := initial.value.invoice;
      FormState(inv.invoiceNo, inv.date,
                CustomerFields(inv.customerName, OrEmpty(inv.customerAddress),
                               OrEmpty(inv.customerMobile), OrEmpty(inv.customerGstin)),
                InitialItems(initial), inv.gstRate > 0.0,
                if inv.gstRate != 0.0 then inv.gstRate else 18.0)
  }

  /** The item data a list of form lines submits. */
  function SubmittedLines(items: seq<FormLine>): seq<LineData> {
    seq(|items|, i requires 0 <= i < |items| =>
      LineData(items[i].name, items[i].quantity, items[i].rate, items[i].amount))
  }

  /** A new invoice starts blank with one line and GST off at 18%; an edited
      invoice shows its stored number, customer and items (the submitted
      data of the lines are the stored items' data), with GST on exactly
      when its stored rate is positive. */
  lemma InitialStateShape(initial: Option<InitialData>, today: CalendarDate)
    ensures var s := InitialState(initial, today);
      && (initial.None? ==>
            s.invoiceNo == "" && s.date == today && s.items == [BlankLine] && !s.gstEnabled && s.gstRate == 18.0)
      && (initial.Some? ==>
            && s.invoiceNo == initial.value.invoice.invoiceNo
            && s.date == initial.value.invoice.date
            && s.customer == CustomerFields(initial.value.invoice.customerName,
                                            OrEmpty(initial.value.invoice.customerAddress),
                                            OrEmpty(initial.value.invoice.customerMobile),
                                            OrEmpty(initial.value.invoice.customerGstin))
            && SubmittedLines(s.items) == LinesOf(initial.value.items)
            && (s.gstEnabled <==> initial.value.invoice.gstRate > 0.0)
            && (initial.value.invoice.gstRate != 0.0 ==> s.gstRate == initial.value.invoice.gstRate)
            && (initial.value.invoice.gstRate == 0.0 ==> s.gstRate == 18.0))
  {
  }

  /** Line 31: the effect asks for a number only when the form has none
      and is not editing a stored invoice. */
  predicate PrefillRequested(s: FormState, hasInitial: bool) {
    s.invoiceNo == "" && !hasInitial
  }

  /** Lines 32-35: the reply's callback sets the number whenever the reply
      carries a non-empty one, whatever the form holds by then. */
  function ApplyReply(s: FormState, response: InvoiceNumber.NumberResult): (r: FormState)
    ensures r == s.(invoiceNo := r.invoiceNo)
    ensures response.NextNumber? && response.nextInvoiceNo != "" ==> r.invoiceNo == response.nextInvoiceNo
    ensures !(response.NextNumber? && response.nextInvoiceNo != "") ==> r == s
  {
    if response.NextNumber? && response.nextInvoiceNo != "" then
      s.(invoiceNo := response.nextInvoiceNo)
    else s
  }

  /** Lines 30-38 when nothing is typed while the request runs: a form
      without a number takes the proposal; a number present when the
      effect starts, or an edited invoice, is kept. */
  function Prefill(s: FormState, hasInitial: bool, response: InvoiceNumber.NumberResult): (r: FormState)
    ensures r == s.(invoiceNo := r.invoiceNo)
    ensures s.invoiceNo != "" || hasInitial ==> r == s
    ensures r.invoiceNo != "" <==> s.invoiceNo != "" || (!hasInitial && response.NextNumber? && response.nextInvoiceNo != "")
  {
    if PrefillRequested(s, hasInitial) then ApplyReply(s, response) else s
  }

  /** The callback does not test the state again: a number typed after the
      request began is replaced by the proposal when it arrives. */
  lemma ReplyOverwritesTypedNumber(s: FormState, hasInitial: bool, typed: string,
                                   response: InvoiceNumber.NumberResult)
    requires PrefillRequested(s, hasInitial)
    requires response.NextNumber? && response.nextInvoiceNo != ""
    ensures ApplyReply(s.(invoiceNo := typed), response) == s.(invoiceNo := response.nextInvoiceNo)
    ensures typed != response.nextInvoiceNo ==>
      ApplyReply(s.(invoiceNo := typed), response).invoiceNo != typed
  {
  }

  /** For a signed-in user the prefill always yields a non-empty number. */
  lemma PrefillGivesNumber(db: Store.Database, uid: UserId, factoryId: Id, today: CalendarDate)
    ensures var s := Prefill(InitialState(None, today), false,
                             InvoiceNumber.GetNextInvoiceNumber(db, Some(uid), factoryId));
      s.invoiceNo != "" && s.invoiceNo == InvoiceNumber.GetNextInvoiceNumber(db, Some(uid), factoryId).nextInvoiceNo
  {
  }

  // ---------------------------------------------------------------------
  // calculateTotal

  /** Σ quantity * rate over the lines (line 53); the stored `amount` plays no part. */
  function SubTotal(items: seq<FormLine>): real {
    if items == [] then 0.0 else SubTotal(items[..|items| - 1]) + items[|items| - 1].quantity * items[|items| - 1].rate
  }

  function SumAmounts(items: seq<FormLine>): real {
    if items == [] then 0.0 else SumAmounts(items[..|items| - 1]) + items[|items| - 1].amount
  }

  datatype Totals = Totals(subTotal: real, gstAmount: real, totalAmount: real)

  /** `calculateTotal()` (lines 52-57). */
  function CalculateTotal(items: seq<FormLine>, gstEnabled: bool, gstRate: real): (t: Totals)
    ensures t.subTotal == SubTotal(items)
    ensures !gstEnabled ==> t.gstAmount == 0.0 && t.totalAmount == t.subTotal
    ensures gstEnabled ==> t.gstAmount * 100.0 == t.subTotal * gstRate
    ensures t.totalAmount == t.subTotal + t.gstAmount
  {
    var subTotal := SubTotal(items);
    var gstAmount := if gstEnabled then (subTotal * gstRate) / 100.0 else 0.0;
    Totals(subTotal, gstAmount, subTotal + gstAmount)
  }

  /** Two lines of 2 × 50 and 1 × 100 at 18% GST total 200 + 36 = 236. */
  lemma CalculateTotalExample()
    ensures CalculateTotal([FormLine(Local(1), "a", 2.0, 50.0, 100.0), FormLine(Local(2), "b", 1.0, 100.0, 100.0)],
                           true, 18.0) == Totals(200.0, 36.0, 236.0)
  {
    var items := [FormLine(Local(1), "a", 2.0, 50.0, 100.0), FormLine(Local(2), "b", 1.0, 100.0, 100.0)];
    assert items[..1][..0] == [];
    assert SubTotal(items[..1]) == 100.0;
  }

  /** Every line's amount is its quantity times its rate. */
  predicate AmountsConsistent(items: seq<FormLine>) {
    forall i :: 0 <= i < |items| ==> items[i].amount == items[i].quantity * items[i].rate
  }

  /** When amounts are consistent the subtotal is also the sum of the amounts. */
  lemma {:induction false} SubTotalIsSumOfAmounts(items: seq<FormLine>)
    requires AmountsConsistent(items)
    ensures SubTotal(items) == SumAmounts(items)
  {
    if items != [] {
      SubTotalIsSumOfAmounts(items[..|items| - 1]);
    }
  }

  lemma {:induction false} SubTotalConcat(a: seq<FormLine>, b: seq<FormLine>)
    ensures SubTotal(a + b) == SubTotal(a) + SubTotal(b)
    decreases |b|
  {
    if b == [] {
      assert a + b == a;
    } else {
      assert (a + b)[..|a + b| - 1] == a + b[..|b| - 1];
      SubTotalConcat(a, b[..|b| - 1]);
    }
  }

  // ---------------------------------------------------------------------
  // Item-list transitions

  /** The field a `handleItemChange` call sets, with its new value. */
  datatype Edit = SetName(name: string) | SetQuantity(quantity: real) | SetRate(rate: real)

  /** Lines 63-67: the field is set; amount is recomputed only for a
      quantity or rate change. */
  function ApplyEdit(line: FormLine, e: Edit): FormLine {
    match e
    case SetName(n) => line.(name := n)
    case SetQuantity(q) => line.(quantity := q, amount := q * line.rate)
    case SetRate(r) => line.(rate := r, amount := line.quantity * r)
  }

  /** `handleItemChange(id, field, value)` (lines 61-72). */
  function HandleItemChange(items: seq<FormLine>, key: LineKey, e: Edit): (r: seq<FormLine>)
    ensures Keys(r) == Keys(items)
    ensures forall i :: 0 <= i < |items| && items[i].key != key ==> r[i] == items[i]
  {
    seq(|items|, i requires 0 <= i < |items| => if items[i].key == key then ApplyEdit(items[i], e) else items[i])
  }

  /** An edit keeps the list's length, order and keys, leaves lines with
      other keys as they were, and changes only the edited field of the
      matching lines (and their amount, for quantity and rate). */
  lemma HandleItemChangeEffect(items: seq<FormLine>, key: LineKey, e: Edit, i: nat)
    requires i < |items|
    ensures var r := HandleItemChange(items, key, e);
      && |r| == |items| && r[i].key == items[i].key
      && (items[i].key != key ==> r[i] == items[i])
      && (items[i].key == key ==> match e
            case SetName(n) => r[i] == items[i].(name := n)
            case SetQuantity(q) => r[i].quantity == q && r[i].rate == items[i].rate && r[i].name == items[i].name
                                   && r[i].amount == q * items[i].rate
            case SetRate(x) => r[i].rate == x && r[i].quantity == items[i].quantity && r[i].name == items[i].name
                               && r[i].amount == items[i].quantity * x)
  {
  }

  /** Editing keeps amounts consistent with quantity and rate. */
  lemma HandleItemChangeKeepsAmounts(items: seq<FormLine>, key: LineKey, e: Edit)
    requires AmountsConsistent(items)
    ensures AmountsConsistent(HandleItemChange(items, key, e))
  {
  }

  /** `addItem()` (lines 74-76); `now` is `Date.now()`. */
  function AddItem(items: seq<FormLine>, now: int): (r: seq<FormLine>)
    ensures Keys(r) == Keys(items) + [Local(now)]
    ensures AmountsConsistent(items) ==> AmountsConsistent(r)
  {
    var r := items + [FormLine(Local(now), "", 1.0, 0.0, 0.0)];
    assert r[..|items|] == items;
    r
  }

  /** Adding keeps every line and appends one blank line that adds nothing
      to the subtotal; consistency of amounts is kept. */
  lemma AddItemEffect(items: seq<FormLine>, now: int)
    ensures var r := AddItem(items, now);
      && |r| == |items| + 1 && r[..|items|] == items
      && r[|items|] == FormLine(Local(now), "", 1.0, 0.0, 0.0)
      && SubTotal(r) == SubTotal(items)
      && (AmountsConsistent(items) ==> AmountsConsistent(r))
  {
    var r := AddItem(items, now);
    assert r[..|items|] == items;
  }

  /** `removeItem(id)` (lines 78-82). */
  function RemoveItem(items: seq<FormLine>, key: LineKey): (r: seq<FormLine>)
    ensures |r| <= |items| && forall i :: 0 <= i < |r| ==> r[i] in items
    ensures |items| > 1 ==> forall i :: 0 <= i < |r| ==> r[i].key != key
  {
    if |items| > 1 then Filter(items, (l: FormLine) => l.key != key) else items
  }

  function Keys(items: seq<FormLine>): (k: seq<LineKey>)
    ensures |k| == |items| && forall i :: 0 <= i < |items| ==> k[i] == items[i].key
  {
    seq(|items|, i requires 0 <= i < |items| => items[i].key)
  }

  /** A single remaining line is never removed. Otherwise the lines with
      that key go and the rest stay, in order and unchanged. */
  lemma RemoveItemEffect(items: seq<FormLine>, key: LineKey)
    ensures |items| <= 1 ==> RemoveItem(items, key) == items
    ensures IsSubsequence(RemoveItem(items, key), items)
    ensures |items| > 1 ==>
      (forall l :: l in RemoveItem(items, key) <==> l in items && l.key != key)
  {
    var p := (l: FormLine) => l.key != key;
    FilterIsSubsequence(items, p);
    if |items| > 1 {
      forall l | l in items && l.key != key ensures l in Filter(items, p) {
        InFilter(items, p, l);
      }
      forall l | l in Filter(items, p) ensures l in items && l.key != key {
        FromFilter(items, p, l);
      }
    } else {
      assert IsSubsequence(items, items) by {
        SubsequenceRefl(items);
      }
    }
  }

  lemma {:induction false} SubsequenceRefl<T>(s: seq<T>)
    ensures IsSubsequence(s, s)
  {
    if s != [] {
      SubsequenceRefl(s[1..]);
    }
  }

  lemma {:induction false} FilterDropsOneKey(items: seq<FormLine>, key: LineKey)
    requires Distinct(Keys(items)) && key in Keys(items)
    ensures |Filter(items, (l: FormLine) => l.key != key)| == |items| - 1
  {
    var p := (l: FormLine) => l.key != key;
    if items != [] {
      var rest := items[1..];
      assert Keys(rest) == Keys(items)[1..];
      if items[0].key == key {
        forall i | 0 <= i < |rest| ensures p(rest[i]) {
          assert Keys(items)[i + 1] == rest[i].key;
        }
        FilterKeepsAll(rest, p);
      } else {
        FilterDropsOneKey(rest, key);
      }
    }
  }

  /** With distinct keys (what the code relies on) a list with at least one
      line keeps at least one after any removal, and removing a present key
      drops exactly one line. */
  lemma RemoveItemKeepsALine(items: seq<FormLine>, key: LineKey)
    requires |items| >= 1 && Distinct(Keys(items))
    ensures |RemoveItem(items, key)| >= 1
    ensures |items| > 1 && key in Keys(items) ==> |RemoveItem(items, key)| == |items| - 1
  {
    var p := (l: FormLine) => l.key != key;
    if |items| > 1 {
      if key in Keys(items) {
        FilterDropsOneKey(items, key);
      } else {
        FilterKeepsAll(items, p);
      }
    }
  }

  /** Two lines added within the same millisecond share a key. Once the
      first blank line is removed, those two are all that is left, and
      removing their key empties the list. */
  lemma RemoveItemDuplicateKeysCanEmpty(now: int)
    requires now != 1
    ensures var s := RemoveItem(AddItem(AddItem([BlankLine], now), now), Local(1));
      |s| == 2 && RemoveItem(s, Local(now)) == []
  {
    var l := FormLine(Local(now), "", 1.0, 0.0, 0.0);
    var three := AddItem(AddItem([BlankLine], now), now);
    assert three == [BlankLine, l, l];
    assert three[1..] == [l, l] && [l, l][1..] == [l] && [l][1..] == [];
    assert Filter([l], (x: FormLine) => x.key != Local(1)) == [l];
    assert Filter([l, l], (x: FormLine) => x.key != Local(1)) == [l, l];
    assert Filter(three, (x: FormLine) => x.key != Local(1)) == [l, l];
    assert Filter([l], (x: FormLine) => x.key != Local(now)) == [];
    assert Filter([l, l], (x: FormLine) => x.key != Local(now)) == [];
  }

  /** Adding a line with a fresh `Date.now()` keeps keys distinct; editing
      keeps keys; removing keeps keys distinct. */
  lemma TransitionsKeepKeysDistinct(items: seq<FormLine>, key: LineKey, e: Edit, now: int)
    requires Distinct(Keys(items))
    ensures Distinct(Keys(HandleItemChange(items, key, e)))
    ensures Local(now) !in Keys(items) ==> Distinct(Keys(AddItem(items, now)))
    ensures Distinct(Keys(RemoveItem(items, key)))
  {
    assert Keys(HandleItemChange(items, key, e)) == Keys(items);
    assert Keys(AddItem(items, now)) == Keys(items) + [Local(now)];
    if |items| > 1 {
      FilterKeysDistinct(items, (l: FormLine) => l.key != key);
    }
  }

  lemma FilterKeysDistinct(items: seq<FormLine>, p: FormLine -> bool)
    requires Distinct(Keys(items))
    ensures Distinct(Keys(Filter(items, p)))
  {
    var key := (l: FormLine) => l.key;
    assert UniqueKeys(items, key) by {
      forall i, j | 0 <= i < j < |items| ensures key(items[i]) != key(items[j]) {
        assert Keys(items)[i] != Keys(items)[j];
      }
    }
    FilterUniqueKeys(items, p, key);
    var r := Filter(items, p);
    forall i, j | 0 <= i < j < |r| ensures Keys(r)[i] != Keys(r)[j] {
      assert key(r[i]) != key(r[j]);
    }
  }

  // ---------------------------------------------------------------------
  // handleSubmit

  /** What `handleSubmit` does: refuse, or call one of the two actions. */
  datatype SubmitAction = Refused | CallCreate(data: InvoiceData) | CallUpdate(id: Id, data: InvoiceData)

  /** The `invoiceData` built at lines 91-104. */
  function SubmittedData(s: FormState, factoryId: Id): (d: InvoiceData)
    ensures d.factoryId == factoryId && d.items == SubmittedLines(s.items)
    ensures d.subTotal == SubTotal(s.items) && d.totalAmount == d.subTotal + d.gstAmount
  {
    var t := CalculateTotal(s.items, s.gstEnabled, s.gstRate);
    InvoiceData(factoryId, s.invoiceNo, s.date, s.customer.name,
                Some(s.customer.address), Some(s.customer.mobile), Some(s.customer.gstin),
                SubmittedLines(s.items), t.subTotal, if s.gstEnabled then s.gstRate else 0.0,
                t.gstAmount, t.totalAmount)
  }

  /** `handleSubmit()` (lines 84-120); `editingId` is `initialData?.id`. */
  function HandleSubmit(s: FormState, factoryId: Id, editingId: Option<Id>): (a: SubmitAction)
    ensures !a.Refused? ==> a.data == SubmittedData(s, factoryId)
    ensures a.CallUpdate? ==> a.id != "" && editingId == Some(a.id)
  {
    if s.customer.name == "" || s.invoiceNo == "" then Refused
    else if editingId.Some? && editingId.value != "" then CallUpdate(editingId.value, SubmittedData(s, factoryId))
    else CallCreate(SubmittedData(s, factoryId))
  }

  /** Submission is refused exactly when the customer name or the invoice
      number is empty; otherwise update is called exactly when the form edits
      an invoice with an id, and create otherwise. */
  lemma HandleSubmitChoice(s: FormState, factoryId: Id, editingId: Option<Id>)
    ensures HandleSubmit(s, factoryId, editingId).Refused? <==> s.customer.name == "" || s.invoiceNo == ""
    ensures HandleSubmit(s, factoryId, editingId).CallUpdate? <==>
      s.customer.name != "" && s.invoiceNo != "" && editingId.Some? && editingId.value != ""
    ensures HandleSubmit(s, factoryId, editingId).CallUpdate? ==> HandleSubmit(s, factoryId, editingId).id == editingId.value
  {
  }

  /** The submitted data carry the form's lines and totals: the subtotal is
      Σ quantity * rate of the submitted items, the grand total is subtotal
      plus GST, and the rate sent is 0 with GST off (then GST is 0 too). */
  lemma SubmittedDataTotals(s: FormState, factoryId: Id)
    ensures var d := SubmittedData(s, factoryId);
      && d.items == SubmittedLines(s.items)
      && d.subTotal == SubTotal(s.items)
      && d.totalAmount == d.subTotal + d.gstAmount
      && (!s.gstEnabled ==> d.gstRate == 0.0 && d.gstAmount == 0.0)
      && (s.gstEnabled ==> d.gstRate == s.gstRate && d.gstAmount * 100.0 == d.subTotal * s.gstRate)
      && d.invoiceNo == s.invoiceNo && d.customerName == s.customer.name
  {
  }

  /** An invoice the form creates is stored with the form's totals: its
      subtotal equals Σ quantity * rate over the item rows stored for it. */
  lemma CreatedFromFormIsConsistent(t: Tables, uid: UserId, s: FormState, factoryId: Id,
                                    invoiceId: Id, itemIds: seq<Id>, now: Timestamp, fault: Store.Fault)
    requires Integrity(t) && |itemIds| == |s.items|
    requires HandleSubmit(s, factoryId, None).CallCreate?
    requires CreateInvoiceSpec(t, Some(uid), SubmittedData(s, factoryId), invoiceId, itemIds, now, fault).result.Success?
    ensures var o := CreateInvoiceSpec(t, Some(uid), SubmittedData(s, factoryId), invoiceId, itemIds, now, fault);
      && o.tables.invoices[|t.invoices|].subTotal == StoredSubTotal(ItemsOf(o.tables.items, invoiceId))
      && LinesOf(ItemsOf(o.tables.items, invoiceId)) == SubmittedLines(s.items)
  {
    var d := SubmittedData(s, factoryId);
    CreateInsertsHeader(t, Some(uid), d, invoiceId, itemIds, now, fault);
    CreateInsertsItems(t, Some(uid), d, invoiceId, itemIds, now, fault);
    var o := CreateInvoiceSpec(t, Some(uid), d, invoiceId, itemIds, now, fault);
    StoredMatchesForm(ItemsOf(o.tables.items, invoiceId), s.items);
  }

  /** Σ quantity * rate over stored item rows. */
  function StoredSubTotal(rows: seq<InvoiceItem>): real {
    if rows == [] then 0.0 else StoredSubTotal(rows[..|rows| - 1]) + rows[|rows| - 1].quantity * rows[|rows| - 1].rate
  }

  lemma {:induction false} StoredMatchesForm(rows: seq<InvoiceItem>, items: seq<FormLine>)
    requires LinesOf(rows) == SubmittedLines(items)
    ensures StoredSubTotal(rows) == SubTotal(items)
  {
    if rows != [] {
      var n := |rows| - 1;
      assert |items| == |rows|;
      assert LinesOf(rows)[n] == SubmittedLines(items)[n];
      assert LinesOf(rows[..n]) == SubmittedLines(items[..n]) by {
        forall i | 0 <= i < n ensures LinesOf(rows[..n])[i] == SubmittedLines(items[..n])[i] {
          assert LinesOf(rows)[i] == SubmittedLines(items)[i];
        }
      }
      StoredMatchesForm(rows[..n], items[..n]);
    }
  }
}
