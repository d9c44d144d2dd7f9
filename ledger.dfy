/**
 * The data the entry builder reads and writes: payouts and their balance
 * transactions from the payment processor, the account mapping chosen once per
 * run, and the journal-entry payload sent to the ledger.
 *
 * All amounts are integers in minor currency units (cents). The command
 * divides every amount by 100 before sending it; that only changes the display
 * unit and is not modelled.
 */
module Ledger {

  datatype Option<+T> = None | Some(value: T)

  /** One balance transaction of a payout. `kind` is the processor's `type`. */
  datatype Transaction = Transaction(amount: int, fee: int, description: string, kind: string)

  /** A payout; `arrivalDate` is the processor's epoch timestamp. */
  datatype Payout = Payout(id: string, arrivalDate: int, amount: int, description: string)

  /**
   * The business and the ledger accounts selected by the operator, fixed for
   * the whole run. `salesTaxRate` is the selected sales tax's decimal rate.
   */
  datatype AccountMapping = AccountMapping(
    businessId: string,
    anchor: string,
    stripeFee: string,
    ticketSales: string,
    sponsorship: string,
    salesTaxId: string,
    salesTaxRate: real)

  datatype Direction = Deposit | Withdrawal

  datatype Balance = Credit | Debit

  /** The line for the cash movement of the payout itself. */
  datatype AnchorLine = AnchorLine(direction: Direction, accountId: string, amount: int)

  /** The nested sales-tax allocation of the sale revenue line. */
  datatype TaxEntry = TaxEntry(salesTaxId: string, amount: int)

  datatype LineItem = LineItem(
    amount: int,
    accountId: string,
    balance: Balance,
    description: string,
    taxes: Option<TaxEntry>)

  /** The `input` object of the ledger's transaction-creation request. */
  datatype Payload = Payload(
    businessId: string,
    externalId: string,
    date: int,
    description: string,
    anchor: AnchorLine,
    lineItems: seq<LineItem>)

  function Abs(x: int): (r: nat)
    ensures r == x || r == -x
  {
    if x < 0 then -x else x
  }

  /** The anchor's amount with the sign its direction carries (deposits positive). */
  function AnchorValue(a: AnchorLine): int
  {
    if a.direction == Deposit then a.amount else -a.amount
  }

  /** A line's amount with the sign its balance carries (credits positive). */
  function LineValue(item: LineItem): int
  {
    if item.balance == Credit then item.amount else -item.amount
  }

  /** The signed total of a sequence of lines. */
  function NetValue(items: seq<LineItem>): int
  {
    if items == [] then 0 else NetValue(items[..|items| - 1]) + LineValue(items[|items| - 1])
  }

  lemma {:induction false} NetValueAppend(a: seq<LineItem>, b: seq<LineItem>)
    ensures NetValue(a + b) == NetValue(a) + NetValue(b)
    decreases |b|
  {
    if b == [] {
      assert a + b == a;
    } else {
      var b' := b[..|b| - 1];
      assert (a + b)[..|a + b| - 1] == a + b';
      assert (a + b)[|a + b| - 1] == b[|b| - 1];
      NetValueAppend(a, b');
    }
  }
}
