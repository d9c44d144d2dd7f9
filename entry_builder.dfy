/**
 * The payout-to-journal-entry builder. For one payout, its balance
 * transactions, the run's account mapping and the external-id prefix it
 * builds the ledger payload: an anchor line for the payout's cash movement and
 * up to four line items, appended in a fixed order, each under its own
 * condition.
 *
 * `Entry` is the specification: the payload as a value. `BuildEntry` builds
 * it the way the command does, starting from an empty list of line items and
 * appending to it, and `ImportAll` runs the builder over every payout of a run.
 */
module EntryBuilder {
  import opened Ledger
  import opened Classifier
  import opened Totals

  /**
   * The sales-tax amount of the sale revenue line, given the sales total and
   * the sales tax's rate. The command computes it in floating point; here it
   * is left uninterpreted.
   */
  type TaxFunction = (int, real) -> int

  /** The four kinds of line item, in the order the builder appends them. */
  datatype LineKind = SponsorshipRevenue | SponsorshipFee | SaleRevenue | SaleFee

  /** The position of a kind in the builder's fixed order. */
  function Rank(k: LineKind): nat
  {
    match k
    case SponsorshipRevenue => 0
    case SponsorshipFee => 1
    case SaleRevenue => 2
    case SaleFee => 3
  }

  /** The suffix of a revenue line's description: empty unless the total is not positive. */
  function RefundSuffix(total: int): (r: string)
    ensures r == [] || r == " (Refund)"
    ensures r != [] <==> total <= 0
  {
    if total > 0 then "" else " (Refund)"
  }

  /** The kind of a line item, as its description tells it. */
  function KindOf(item: LineItem): Option<LineKind>
  {
    var d := item.description;
    if d == "Sponsorships" || d == "Sponsorships (Refund)" then Some(SponsorshipRevenue)
    else if d == "Sponsorship Stripe fees" then Some(SponsorshipFee)
    else if d == "Total ticket purchases amount" || d == "Total ticket purchases amount (Refund)" then Some(SaleRevenue)
    else if d == "Stripe fees" then Some(SaleFee)
    else None
  }

  /** The rank of a line item's kind, or -1 for a line of no known kind. */
  function RankOf(item: LineItem): int
  {
    match KindOf(item)
    case None => -1
    case Some(k) => Rank(k)
  }

  /** An optional line as a sequence of zero or one lines. */
  function Present(o: Option<LineItem>): (r: seq<LineItem>)
    ensures |r| <= 1
    ensures forall x :: x in r <==> o == Some(x)
  {
    if o.Some? then [o.value] else []
  }

  /** The anchor: the payout's amount as an unsigned amount and a direction. */
  function AnchorFor(payout: Payout, m: AccountMapping): (a: AnchorLine)
    ensures a.direction == Deposit <==> payout.amount > 0
    ensures a.amount >= 0 && AnchorValue(a) == payout.amount
    ensures a.accountId == m.anchor
  {
    AnchorLine(if payout.amount > 0 then Deposit else Withdrawal, m.anchor, Abs(payout.amount))
  }

  /** The sponsorship revenue line, present exactly when the sponsorship total is not zero. */
  function SponsorshipRevenueLine(total: int, m: AccountMapping): (r: Option<LineItem>)
    ensures r.Some? <==> total != 0
    ensures r.Some? ==>
      && r.value.accountId == m.sponsorship
      && r.value.amount > 0 && LineValue(r.value) == total
      && (r.value.balance == Credit <==> total > 0)
      && r.value.taxes == None
  {
    if total != 0 then
      Some(LineItem(Abs(total), m.sponsorship, if total > 0 then Credit else Debit,
                    "Sponsorships" + RefundSuffix(total), None))
    else None
  }

  /**
   * The sponsorship fee line, present exactly when the sponsorship fee total is
   * not zero, whatever the sign of the sponsorship revenue. Its amount is the
   * fee total as it is, not its absolute value.
   */
  function SponsorshipFeeLine(feeTotal: int, m: AccountMapping): (r: Option<LineItem>)
    ensures r.Some? <==> feeTotal != 0
    ensures r.Some? ==>
      && r.value.accountId == m.stripeFee
      && r.value.balance == Debit && r.value.amount == feeTotal
      && LineValue(r.value) == -feeTotal
      && r.value.taxes == None
  {
    if feeTotal != 0 then
      Some(LineItem(feeTotal, m.stripeFee, Debit, "Sponsorship Stripe fees", None))
    else None
  }

  /**
   * The sale revenue line, present exactly when the sales total is not zero,
   * with the selected sales tax nested in it.
   */
  function SaleRevenueLine(total: int, m: AccountMapping, taxOf: TaxFunction): (r: Option<LineItem>)
    ensures r.Some? <==> total != 0
    ensures r.Some? ==>
      && r.value.accountId == m.ticketSales
      && r.value.amount > 0 && LineValue(r.value) == total
      && (r.value.balance == Credit <==> total > 0)
      && r.value.taxes.Some?
      && r.value.taxes.value.salesTaxId == m.salesTaxId
      && r.value.taxes.value.amount == taxOf(total, m.salesTaxRate)
  {
    if total != 0 then
      Some(LineItem(Abs(total), m.ticketSales, if total > 0 then Credit else Debit,
                    "Total ticket purchases amount" + RefundSuffix(total),
                    Some(TaxEntry(m.salesTaxId, taxOf(total, m.salesTaxRate)))))
    else None
  }

  /**
   * The sale fee line, present exactly when the sale fee total is not zero AND
   * the sales total is strictly positive: on a payout whose sales are zero or
   * refunds the sale fees are dropped.
   */
  function SaleFeeLine(feeTotal: int, salesTotal: int, m: AccountMapping): (r: Option<LineItem>)
    ensures r.Some? <==> feeTotal != 0 && salesTotal > 0
    ensures r.Some? ==>
      && r.value.accountId == m.stripeFee
      && r.value.balance == Debit && r.value.amount == feeTotal
      && LineValue(r.value) == -feeTotal
      && r.value.taxes == None
  {
    if feeTotal != 0 && salesTotal > 0 then
      Some(LineItem(feeTotal, m.stripeFee, Debit, "Stripe fees", None))
    else None
  }

  /**
   * The descriptions of the four lines: a revenue line's description carries
   * " (Refund)" exactly when its total is negative; each description names the
   * line's kind.
   */
  lemma LineDescriptions(sponsorships: int, sponsorshipFees: int, sales: int, saleFees: int,
                         m: AccountMapping, taxOf: TaxFunction)
    ensures var r := SponsorshipRevenueLine(sponsorships, m);
      r.Some? ==>
        && (r.value.description == "Sponsorships" <==> sponsorships > 0)
        && (r.value.description == "Sponsorships (Refund)" <==> sponsorships < 0)
        && KindOf(r.value) == Some(SponsorshipRevenue)
    ensures var r := SponsorshipFeeLine(sponsorshipFees, m);
      r.Some? ==> r.value.description == "Sponsorship Stripe fees" && KindOf(r.value) == Some(SponsorshipFee)
    ensures var r := SaleRevenueLine(sales, m, taxOf);
      r.Some? ==>
        && (r.value.description == "Total ticket purchases amount" <==> sales > 0)
        && (r.value.description == "Total ticket purchases amount (Refund)" <==> sales < 0)
        && KindOf(r.value) == Some(SaleRevenue)
    ensures var r := SaleFeeLine(saleFees, sales, m);
      r.Some? ==> r.value.description == "Stripe fees" && KindOf(r.value) == Some(SaleFee)
  {
  }

  /**
   * The payload built for one payout: the business, the external id (the
   * prefix, which may be empty, followed by the payout id, so the id can be
   * read back), the date, the payout's description followed by its id, the
   * anchor, and at most four line items.
   */
  function Entry(payout: Payout, ts: seq<Transaction>, m: AccountMapping, prefix: string, taxOf: TaxFunction): (e: Payload)
    ensures e.businessId == m.businessId
    ensures |prefix| <= |e.externalId| && e.externalId[..|prefix|] == prefix && e.externalId[|prefix|..] == payout.id
    ensures e.description == payout.description + " " + payout.id
    ensures e.date == payout.arrivalDate
    ensures e.anchor == AnchorFor(payout, m)
    ensures |e.lineItems| <= 4
  {
    var sales := AmountTotal(ts, Sale);
    Payload(
      m.businessId,
      prefix + payout.id,
      payout.arrivalDate,
      payout.description + " " + payout.id,
      AnchorFor(payout, m),
      Present(SponsorshipRevenueLine(AmountTotal(ts, Sponsorship), m))
      + Present(SponsorshipFeeLine(FeeTotal(ts, Sponsorship), m))
      + Present(SaleRevenueLine(sales, m, taxOf))
      + Present(SaleFeeLine(FeeTotal(ts, Sale), sales, m)))
  }

  /**
   * Builds the payload as the command does: the identifying fields and the
   * anchor first, with no line items, then one conditional append per line.
   */
  method BuildEntry(payout: Payout, ts: seq<Transaction>, m: AccountMapping, prefix: string, taxOf: TaxFunction)
    returns (e: Payload)
    ensures e == Entry(payout, ts, m, prefix, taxOf)
  {
    e := Payload(
      m.businessId,
      prefix + payout.id,
      payout.arrivalDate,
      payout.description + " " + payout.id,
      AnchorFor(payout, m),
      []);
    ghost var sales := AmountTotal(ts, Sale);
    ghost var p1 := Present(SponsorshipRevenueLine(AmountTotal(ts, Sponsorship), m));
    ghost var p2 := Present(SponsorshipFeeLine(FeeTotal(ts, Sponsorship), m));
    ghost var p3 := Present(SaleRevenueLine(sales, m, taxOf));
    ghost var p4 := Present(SaleFeeLine(FeeTotal(ts, Sale), sales, m));

    var sponsorshipsTotal := AmountTotal(ts, Sponsorship);
    if sponsorshipsTotal != 0 {
      e := e.(lineItems := e.lineItems + [LineItem(
        Abs(sponsorshipsTotal), m.sponsorship,
        if sponsorshipsTotal > 0 then Credit else Debit,
        "Sponsorships" + RefundSuffix(sponsorshipsTotal),
        None)]);
    }
    assert e.lineItems == p1;

    var sponsorshipsFeeTotal := FeeTotal(ts, Sponsorship);
    if sponsorshipsFeeTotal != 0 {
      e := e.(lineItems := e.lineItems + [LineItem(
        sponsorshipsFeeTotal, m.stripeFee, Debit, "Sponsorship Stripe fees", None)]);
    }
    assert e.lineItems == p1 + p2;

    var salesTotal := AmountTotal(ts, Sale);
    if salesTotal != 0 {
      var salesTaxAmount := taxOf(salesTotal, m.salesTaxRate);
      e := e.(lineItems := e.lineItems + [LineItem(
        Abs(salesTotal), m.ticketSales,
        if salesTotal > 0 then Credit else Debit,
        "Total ticket purchases amount" + RefundSuffix(salesTotal),
        Some(TaxEntry(m.salesTaxId, salesTaxAmount)))]);
    }
    assert e.lineItems == p1 + p2 + p3;

    var salesFeeTotal := FeeTotal(ts, Sale);
    if salesFeeTotal != 0 && salesTotal > 0 {
      e := e.(lineItems := e.lineItems + [LineItem(
        salesFeeTotal, m.stripeFee, Debit, "Stripe fees", None)]);
    }
    assert e.lineItems == p1 + p2 + p3 + p4;
  }

  /** One payout of the run together with its balance transactions. */
  datatype PayoutBatch = PayoutBatch(payout: Payout, transactions: seq<Transaction>)

  /** The payloads of a run, one per payout, in payout order. */
  function Entries(batches: seq<PayoutBatch>, m: AccountMapping, prefix: string, taxOf: TaxFunction): (r: seq<Payload>)
    ensures |r| == |batches|
  {
    if batches == [] then []
    else
      var last := batches[|batches| - 1];
      Entries(batches[..|batches| - 1], m, prefix, taxOf) + [Entry(last.payout, last.transactions, m, prefix, taxOf)]
  }

  /** The i-th payload of a run is the entry of the i-th payout. */
  lemma {:induction false} EntriesAt(batches: seq<PayoutBatch>, m: AccountMapping, prefix: string, taxOf: TaxFunction, i: int)
    requires 0 <= i < |batches|
    ensures Entries(batches, m, prefix, taxOf)[i] == Entry(batches[i].payout, batches[i].transactions, m, prefix, taxOf)
  {
    var init := batches[..|batches| - 1];
    if i < |batches| - 1 {
      EntriesAt(init, m, prefix, taxOf, i);
      assert init[i] == batches[i];
    }
  }

  /**
   * The loop over a run's payouts: one payload per payout, in payout order,
   * all built with the same account mapping and prefix.
   */
  method ImportAll(batches: seq<PayoutBatch>, m: AccountMapping, prefix: string, taxOf: TaxFunction)
    returns (payloads: seq<Payload>)
    ensures payloads == Entries(batches, m, prefix, taxOf)
    ensures |payloads| == |batches|
    ensures forall i :: 0 <= i < |batches| ==>
      payloads[i] == Entry(batches[i].payout, batches[i].transactions, m, prefix, taxOf)
  {
    payloads := [];
    for k := 0 to |batches|
      invariant payloads == Entries(batches[..k], m, prefix, taxOf)
    {
      var batch := batches[k];
      var payload := BuildEntry(batch.payout, batch.transactions, m, prefix, taxOf);
      assert batches[..k + 1][..k] == batches[..k];
      payloads := payloads + [payload];
    }
    assert batches[..|batches|] == batches;
    forall i | 0 <= i < |batches|
      ensures payloads[i] == Entry(batches[i].payout, batches[i].transactions, m, prefix, taxOf)
    {
      EntriesAt(batches, m, prefix, taxOf, i);
    }
  }

  // ------------------------------------------------------------------
  // Properties of the line items

  /** Whether a line of kind `k` is among `items`. */
  ghost predicate HasKind(items: seq<LineItem>, k: LineKind)
  {
    exists i :: 0 <= i < |items| && KindOf(items[i]) == Some(k)
  }

  /** The condition under which the builder appends a line of kind `k`. */
  ghost predicate Emits(ts: seq<Transaction>, k: LineKind)
  {
    match k
    case SponsorshipRevenue => AmountTotal(ts, Sponsorship) != 0
    case SponsorshipFee => FeeTotal(ts, Sponsorship) != 0
    case SaleRevenue => AmountTotal(ts, Sale) != 0
    case SaleFee => FeeTotal(ts, Sale) != 0 && AmountTotal(ts, Sale) > 0
  }

  /** Every line has a known kind and the kinds strictly follow the fixed order. */
  ghost predicate InFixedOrder(items: seq<LineItem>)
  {
    && (forall i :: 0 <= i < |items| ==> KindOf(items[i]).Some?)
    && (forall i, j :: 0 <= i < j < |items| ==> RankOf(items[i]) < RankOf(items[j]))
  }

  /** Every line of `items` ranks below `r`. */
  ghost predicate AllBelow(items: seq<LineItem>, r: int)
  {
    forall x :: x in items ==> RankOf(x) < r
  }

  /** A kind is present in a concatenation exactly when it is present in either part. */
  lemma HasKindAppend(a: seq<LineItem>, b: seq<LineItem>, k: LineKind)
    ensures HasKind(a + b, k) <==> HasKind(a, k) || HasKind(b, k)
  {
    if HasKind(a + b, k) {
      var i :| 0 <= i < |a + b| && KindOf((a + b)[i]) == Some(k);
      if i >= |a| {
        assert (a + b)[i] == b[i - |a|];
      }
    }
    if HasKind(b, k) {
      var i :| 0 <= i < |b| && KindOf(b[i]) == Some(k);
      assert (a + b)[|a| + i] == b[i];
    }
    if HasKind(a, k) {
      var i :| 0 <= i < |a| && KindOf(a[i]) == Some(k);
      assert (a + b)[i] == a[i];
    }
  }

  /** A kind is present in an optional line exactly when the line is there and of that kind. */
  lemma HasKindPresent(o: Option<LineItem>, k: LineKind)
    ensures HasKind(Present(o), k) <==> o.Some? && KindOf(o.value) == Some(k)
  {
    if o.Some? {
      assert Present(o)[0] == o.value;
    }
  }

  /** Appending a line that ranks above everything before it keeps the order. */
  lemma OrderedAppend(a: seq<LineItem>, o: Option<LineItem>, r: int)
    requires InFixedOrder(a) && AllBelow(a, r)
    requires o.Some? ==> KindOf(o.value).Some? && RankOf(o.value) == r
    ensures InFixedOrder(a + Present(o)) && AllBelow(a + Present(o), r + 1)
  {
    var c := a + Present(o);
    forall i, j | 0 <= i < j < |c| ensures RankOf(c[i]) < RankOf(c[j]) {
      if j >= |a| {
        assert c[j] == o.value;
        assert c[i] in a;
      }
    }
  }

  /** Four optional lines of the four kinds, in rank order, concatenated. */
  lemma OrderedLines(o1: Option<LineItem>, o2: Option<LineItem>, o3: Option<LineItem>, o4: Option<LineItem>)
    requires o1.Some? ==> KindOf(o1.value).Some? && RankOf(o1.value) == 0
    requires o2.Some? ==> KindOf(o2.value).Some? && RankOf(o2.value) == 1
    requires o3.Some? ==> KindOf(o3.value).Some? && RankOf(o3.value) == 2
    requires o4.Some? ==> KindOf(o4.value).Some? && RankOf(o4.value) == 3
    ensures InFixedOrder(Present(o1) + Present(o2) + Present(o3) + Present(o4))
  {
    var a0: seq<LineItem> := [];
    OrderedAppend(a0, o1, 0);
    assert a0 + Present(o1) == Present(o1);
    OrderedAppend(Present(o1), o2, 1);
    OrderedAppend(Present(o1) + Present(o2), o3, 2);
    OrderedAppend(Present(o1) + Present(o2) + Present(o3), o4, 3);
  }

  /**
   * The line items of a payload are in the fixed order sponsorship revenue,
   * sponsorship fee, sale revenue, sale fee, each kind at most once, and none
   * of any other kind.
   */
  lemma LineOrder(payout: Payout, ts: seq<Transaction>, m: AccountMapping, prefix: string, taxOf: TaxFunction)
    ensures InFixedOrder(Entry(payout, ts, m, prefix, taxOf).lineItems)
  {
    var sponsorships, sponsorshipFees := AmountTotal(ts, Sponsorship), FeeTotal(ts, Sponsorship);
    var sales, saleFees := AmountTotal(ts, Sale), FeeTotal(ts, Sale);
    LineDescriptions(sponsorships, sponsorshipFees, sales, saleFees, m, taxOf);
    OrderedLines(SponsorshipRevenueLine(sponsorships, m), SponsorshipFeeLine(sponsorshipFees, m),
                 SaleRevenueLine(sales, m, taxOf), SaleFeeLine(saleFees, sales, m));
  }

  /** Whether an optional line is present and of kind `k`. */
  function HasKindOption(o: Option<LineItem>, k: LineKind): bool
  {
    o.Some? && KindOf(o.value) == Some(k)
  }

  /** The kinds present in four concatenated optional lines are those of the present ones. */
  lemma PresenceOfLines(o1: Option<LineItem>, o2: Option<LineItem>, o3: Option<LineItem>, o4: Option<LineItem>, k: LineKind)
    ensures HasKind(Present(o1) + Present(o2) + Present(o3) + Present(o4), k)
      <==> HasKindOption(o1, k) || HasKindOption(o2, k) || HasKindOption(o3, k) || HasKindOption(o4, k)
  {
    var p1, p2, p3, p4 := Present(o1), Present(o2), Present(o3), Present(o4);
    HasKindAppend(p1 + p2 + p3, p4, k);
    HasKindAppend(p1 + p2, p3, k);
    HasKindAppend(p1, p2, k);
    HasKindPresent(o1, k);
    HasKindPresent(o2, k);
    HasKindPresent(o3, k);
    HasKindPresent(o4, k);
  }

  /**
   * A line of each kind is present exactly when its condition holds; an
   * omitted line leaves no placeholder.
   */
  lemma LinePresence(payout: Payout, ts: seq<Transaction>, m: AccountMapping, prefix: string, taxOf: TaxFunction)
    ensures forall k :: HasKind(Entry(payout, ts, m, prefix, taxOf).lineItems, k) <==> Emits(ts, k)
  {
    var sponsorships, sponsorshipFees := AmountTotal(ts, Sponsorship), FeeTotal(ts, Sponsorship);
    var sales, saleFees := AmountTotal(ts, Sale), FeeTotal(ts, Sale);
    var o1 := SponsorshipRevenueLine(sponsorships, m);
    var o2 := SponsorshipFeeLine(sponsorshipFees, m);
    var o3 := SaleRevenueLine(sales, m, taxOf);
    var o4 := SaleFeeLine(saleFees, sales, m);
    EntryLines(payout, ts, m, prefix, taxOf, sponsorships, sponsorshipFees, sales, saleFees);
    LineDescriptions(sponsorships, sponsorshipFees, sales, saleFees, m, taxOf);
    forall k ensures HasKind(Entry(payout, ts, m, prefix, taxOf).lineItems, k) <==> Emits(ts, k) {
      PresenceOfLines(o1, o2, o3, o4, k);
    }
  }

  /** On a payout whose sales are zero or refunds there is no sale fee line, whatever the fees. */
  lemma SaleFeeSuppressedWithoutSales(payout: Payout, ts: seq<Transaction>, m: AccountMapping, prefix: string, taxOf: TaxFunction)
    requires AmountTotal(ts, Sale) <= 0
    ensures !HasKind(Entry(payout, ts, m, prefix, taxOf).lineItems, SaleFee)
  {
    LinePresence(payout, ts, m, prefix, taxOf);
  }

  /**
   * No line item has amount zero, and the two revenue lines always carry a
   * strictly positive amount.
   */
  lemma NoZeroLines(payout: Payout, ts: seq<Transaction>, m: AccountMapping, prefix: string, taxOf: TaxFunction)
    ensures forall x :: x in Entry(payout, ts, m, prefix, taxOf).lineItems ==>
      x.amount != 0 && (KindOf(x) == Some(SponsorshipRevenue) || KindOf(x) == Some(SaleRevenue) ==> x.amount > 0)
  {
    var sales := AmountTotal(ts, Sale);
    var o1 := SponsorshipRevenueLine(AmountTotal(ts, Sponsorship), m);
    var o2 := SponsorshipFeeLine(FeeTotal(ts, Sponsorship), m);
    var o3 := SaleRevenueLine(sales, m, taxOf);
    var o4 := SaleFeeLine(FeeTotal(ts, Sale), sales, m);
    var items := Entry(payout, ts, m, prefix, taxOf).lineItems;
    assert items == Present(o1) + Present(o2) + Present(o3) + Present(o4);
    LineDescriptions(AmountTotal(ts, Sponsorship), FeeTotal(ts, Sponsorship), sales, FeeTotal(ts, Sale), m, taxOf);
    forall x | x in items
      ensures x.amount != 0 && (KindOf(x) == Some(SponsorshipRevenue) || KindOf(x) == Some(SaleRevenue) ==> x.amount > 0)
    {
      assert o1 == Some(x) || o2 == Some(x) || o3 == Some(x) || o4 == Some(x);
    }
  }

  /**
   * The signed total of the line items: both revenue totals (so the sum of all
   * transaction amounts) less the sponsorship fees, less the sale fees only
   * when the sales total is positive.
   */
  lemma LineItemsNetValue(payout: Payout, ts: seq<Transaction>, m: AccountMapping, prefix: string, taxOf: TaxFunction)
    ensures NetValue(Entry(payout, ts, m, prefix, taxOf).lineItems)
      == SumAmounts(ts) - FeeTotal(ts, Sponsorship) - (if AmountTotal(ts, Sale) > 0 then FeeTotal(ts, Sale) else 0)
  {
    var sponsorships, sponsorshipFees := AmountTotal(ts, Sponsorship), FeeTotal(ts, Sponsorship);
    var sales, saleFees := AmountTotal(ts, Sale), FeeTotal(ts, Sale);
    EntryLines(payout, ts, m, prefix, taxOf, sponsorships, sponsorshipFees, sales, saleFees);
    NetOfLines(SponsorshipRevenueLine(sponsorships, m), SponsorshipFeeLine(sponsorshipFees, m),
               SaleRevenueLine(sales, m, taxOf), SaleFeeLine(saleFees, sales, m));
    AmountTotalsPartition(ts);
  }

  /** The signed value of an optional line; an absent line contributes nothing. */
  function OptionValue(o: Option<LineItem>): int
  {
    if o.Some? then LineValue(o.value) else 0
  }

  /** The signed total of an optional line as a sequence. */
  lemma NetOfPresent(o: Option<LineItem>)
    ensures NetValue(Present(o)) == OptionValue(o)
  {
    if o.Some? {
      assert Present(o)[..0] == [];
    }
  }

  /** The signed total of four concatenated optional lines. */
  lemma NetOfLines(o1: Option<LineItem>, o2: Option<LineItem>, o3: Option<LineItem>, o4: Option<LineItem>)
    ensures NetValue(Present(o1) + Present(o2) + Present(o3) + Present(o4))
      == OptionValue(o1) + OptionValue(o2) + OptionValue(o3) + OptionValue(o4)
  {
    var p1, p2, p3, p4 := Present(o1), Present(o2), Present(o3), Present(o4);
    NetOfPresent(o1);
    NetOfPresent(o2);
    NetOfPresent(o3);
    NetOfPresent(o4);
    NetValueAppend(p1, p2);
    NetValueAppend(p1 + p2, p3);
    NetValueAppend(p1 + p2 + p3, p4);
  }

  /**
   * When the payout's amount is the net of its transactions (amounts less
   * fees), the entry balances exactly when no sale fees are dropped: the sales
   * total is positive or the sale fee total is zero.
   */
  lemma BalancesIffNoDroppedSaleFees(payout: Payout, ts: seq<Transaction>, m: AccountMapping, prefix: string, taxOf: TaxFunction)
    requires payout.amount == SumAmounts(ts) - SumFees(ts)
    ensures var e := Entry(payout, ts, m, prefix, taxOf);
      NetValue(e.lineItems) == AnchorValue(e.anchor) <==> AmountTotal(ts, Sale) > 0 || FeeTotal(ts, Sale) == 0
  {
    LineItemsNetValue(payout, ts, m, prefix, taxOf);
    FeeTotalsPartition(ts);
  }

  // ------------------------------------------------------------------
  // Worked payouts

  /** The payload's line items depend on the transactions only through the four bucket totals. */
  lemma EntryLines(payout: Payout, ts: seq<Transaction>, m: AccountMapping, prefix: string, taxOf: TaxFunction,
                   sponsorships: int, sponsorshipFees: int, sales: int, saleFees: int)
    requires AmountTotal(ts, Sponsorship) == sponsorships && FeeTotal(ts, Sponsorship) == sponsorshipFees
    requires AmountTotal(ts, Sale) == sales && FeeTotal(ts, Sale) == saleFees
    ensures Entry(payout, ts, m, prefix, taxOf).lineItems ==
      Present(SponsorshipRevenueLine(sponsorships, m)) + Present(SponsorshipFeeLine(sponsorshipFees, m))
      + Present(SaleRevenueLine(sales, m, taxOf)) + Present(SaleFeeLine(saleFees, sales, m))
  {
  }

  /** The folds over a single transaction. */
  lemma SingletonSums(t: Transaction)
    ensures SumAmounts([t]) == t.amount && SumFees([t]) == t.fee
  {
    assert [t][..0] == [];
  }

  /** The totals of a payout of one sale and one sponsorship. */
  lemma SaleAndSponsorshipTotals(sale: Transaction, sponsor: Transaction)
    requires BucketOf(sale) == Sale && BucketOf(sponsor) == Sponsorship
    ensures AmountTotal([sale, sponsor], Sponsorship) == sponsor.amount
    ensures FeeTotal([sale, sponsor], Sponsorship) == sponsor.fee
    ensures AmountTotal([sale, sponsor], Sale) == sale.amount
    ensures FeeTotal([sale, sponsor], Sale) == sale.fee
  {
    var ts := [sale, sponsor];
    assert ts[..1] == [sale] && [sale][..0] == [] && [sponsor][..0] == [];
    assert Filter([sale], Sponsorship) == [];
    assert Filter([sale], Sale) == [sale];
    assert Filter(ts, Sponsorship) == [sponsor];
    assert Filter(ts, Sale) == [sale];
    SingletonSums(sponsor);
    SingletonSums(sale);
  }

  /** The totals of a payout of one sale. */
  lemma SingleSaleTotals(sale: Transaction)
    requires BucketOf(sale) == Sale
    ensures AmountTotal([sale], Sponsorship) == 0 && FeeTotal([sale], Sponsorship) == 0
    ensures AmountTotal([sale], Sale) == sale.amount && FeeTotal([sale], Sale) == sale.fee
  {
    assert [sale][..0] == [];
    assert Filter([sale], Sponsorship) == [];
    assert Filter([sale], Sale) == [sale];
    SingletonSums(sale);
  }

  /**
   * A deposit of 5000 with a sale of 3000 (fee 100) and a sponsorship of 2000
   * (fee 50), such as a "Ticket" and a "Sponsorship pkg" transaction (see
   * TicketIsSale and SponsorshipPackageIsSponsorship): all four lines, in order.
   */
  lemma DepositScenario(payout: Payout, ticket: Transaction, sponsor: Transaction,
                        m: AccountMapping, prefix: string, taxOf: TaxFunction)
    requires payout.amount == 5000
    requires ticket.amount == 3000 && ticket.fee == 100 && !IsSponsorship(ticket.description)
    requires sponsor.amount == 2000 && sponsor.fee == 50 && IsSponsorship(sponsor.description)
    ensures var e := Entry(payout, [ticket, sponsor], m, prefix, taxOf);
      && e.anchor == AnchorLine(Deposit, m.anchor, 5000)
      && e.lineItems == [
        LineItem(2000, m.sponsorship, Credit, "Sponsorships", None),
        LineItem(50, m.stripeFee, Debit, "Sponsorship Stripe fees", None),
        LineItem(3000, m.ticketSales, Credit, "Total ticket purchases amount",
                 Some(TaxEntry(m.salesTaxId, taxOf(3000, m.salesTaxRate)))),
        LineItem(100, m.stripeFee, Debit, "Stripe fees", None)]
  {
    SaleAndSponsorshipTotals(ticket, sponsor);
    EntryLines(payout, [ticket, sponsor], m, prefix, taxOf, 2000, 50, 3000, 100);
    LineDescriptions(2000, 50, 3000, 100, m, taxOf);
    var l1 := LineItem(2000, m.sponsorship, Credit, "Sponsorships", None);
    var l2 := LineItem(50, m.stripeFee, Debit, "Sponsorship Stripe fees", None);
    var l3 := LineItem(3000, m.ticketSales, Credit, "Total ticket purchases amount",
                       Some(TaxEntry(m.salesTaxId, taxOf(3000, m.salesTaxRate))));
    var l4 := LineItem(100, m.stripeFee, Debit, "Stripe fees", None);
    assert Present(SponsorshipRevenueLine(2000, m)) == [l1];
    assert Present(SponsorshipFeeLine(50, m)) == [l2];
    assert Present(SaleRevenueLine(3000, m, taxOf)) == [l3];
    assert Present(SaleFeeLine(100, 3000, m)) == [l4];
    assert [l1] + [l2] + [l3] + [l4] == [l1, l2, l3, l4];
  }

  /**
   * A payout holding only a sale refund of 1000 with a fee of 30, such as a
   * "Ticket refund" transaction (see TicketRefundIsSale): one debit sale line
   * marked as a refund, and the sale fee dropped.
   */
  lemma RefundScenario(payout: Payout, refund: Transaction, m: AccountMapping, prefix: string, taxOf: TaxFunction)
    requires payout.amount == -1030
    requires refund.amount == -1000 && refund.fee == 30 && !IsSponsorship(refund.description)
    ensures var e := Entry(payout, [refund], m, prefix, taxOf);
      && e.anchor == AnchorLine(Withdrawal, m.anchor, 1030)
      && e.lineItems == [
        LineItem(1000, m.ticketSales, Debit, "Total ticket purchases amount (Refund)",
                 Some(TaxEntry(m.salesTaxId, taxOf(-1000, m.salesTaxRate))))]
  {
    SingleSaleTotals(refund);
    EntryLines(payout, [refund], m, prefix, taxOf, 0, 0, -1000, 30);
    LineDescriptions(0, 0, -1000, 30, m, taxOf);
    assert Present(SponsorshipRevenueLine(0, m)) == [];
    assert Present(SponsorshipFeeLine(0, m)) == [];
    assert Present(SaleRevenueLine(-1000, m, taxOf)) ==
      [LineItem(1000, m.ticketSales, Debit, "Total ticket purchases amount (Refund)",
                Some(TaxEntry(m.salesTaxId, taxOf(-1000, m.salesTaxRate))))];
    assert Present(SaleFeeLine(30, -1000, m)) == [];
  }
}
