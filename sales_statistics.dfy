/** Sales statistics (pages/sales/SalesStatistics.tsx): count and amount per
    payment type, the total, and the average sale as displayed. */
module SalesStatistics {
  import opened Seqs
  import opened Types
  import opened Grouping
  import Text

  function SaleAmount(s: Sale): int { s.amount }

  function SalePaymentType(s: Sale): PaymentType { s.paymentType }

  /** One entry of `paymentStats`. */
  datatype PaymentStat = PaymentStat(count: nat, amount: int)

  /** The entry `paymentStats` should hold for payment type `t` after the
      sales `s`: how many of them were paid that way, and their sum. */
  function StatOf(s: seq<Sale>, t: PaymentType): PaymentStat
    decreases |s|
  {
    if s == [] then PaymentStat(0, 0)
    else
      var prev := StatOf(s[..|s| - 1], t);
      if s[|s| - 1].paymentType == t then PaymentStat(prev.count + 1, prev.amount + s[|s| - 1].amount) else prev
  }

  /** The entry of a type counts and sums exactly the group of its sales. */
  lemma {:induction false} StatOfIsGroup(s: seq<Sale>, t: PaymentType)
    ensures StatOf(s, t) == PaymentStat(|Group(s, SalePaymentType, t)|, GroupSum(s, SalePaymentType, SaleAmount, t))
    decreases |s|
  {
    if s != [] {
      var s' := s[..|s| - 1];
      StatOfIsGroup(s', t);
      assert s == s' + [s[|s| - 1]];
      GroupSnoc(s', SalePaymentType, s[|s| - 1], t);
      GroupSumSnoc(s', SalePaymentType, SaleAmount, s[|s| - 1], t);
    }
  }

  /** `types` and `stats` are the accumulator after the sales `s`: the
      payment types in order of first occurrence, and the entry of each. */
  predicate Tallied(s: seq<Sale>, types: seq<PaymentType>, stats: map<PaymentType, PaymentStat>)
  {
    types == KeysInOrder(s, SalePaymentType)
    && (forall t :: t in stats <==> t in types)
    && (forall t :: t in stats ==> stats[t] == StatOf(s, t))
  }

  /** One step of the reduce keeps the accumulator tallied. */
  lemma TallyStep(s: seq<Sale>, i: int, types: seq<PaymentType>, stats: map<PaymentType, PaymentStat>)
    requires 0 <= i < |s| && Tallied(s[..i], types, stats)
    ensures var t := s[i].paymentType;
      var entry := if t in stats then stats[t] else PaymentStat(0, 0);
      Tallied(s[..i + 1], if t in stats then types else types + [t],
        stats[t := PaymentStat(entry.count + 1, entry.amount + s[i].amount)])
  {
    KeysStep(s, i, SalePaymentType);
    assert s[..i + 1][..i] == s[..i];
    var t := s[i].paymentType;
    if t !in stats {
      StatOfIsGroup(s[..i], t);
      GroupOfAbsentKey(s[..i], SalePaymentType, t);
    }
  }

  /** `paymentStats`: the reduce that opens an entry the first time a payment
      type is met and adds one to its count and the sale to its amount. */
  method PaymentStats(sales: seq<Sale>) returns (types: seq<PaymentType>, stats: map<PaymentType, PaymentStat>)
    ensures Tallied(sales, types, stats)
  {
    types := [];
    stats := map[];
    var i := 0;
    while i < |sales|
      invariant 0 <= i <= |sales|
      invariant Tallied(sales[..i], types, stats)
    {
      TallyStep(sales, i, types, stats);
      var t := sales[i].paymentType;
      var entry := if t in stats then stats[t] else PaymentStat(0, 0);
      if t !in stats {
        types := types + [t];
      }
      stats := stats[t := PaymentStat(entry.count + 1, entry.amount + sales[i].amount)];
      i := i + 1;
    }
    assert sales[..i] == sales;
  }

  /** `totalSales`. */
  function TotalSales(sales: seq<Sale>): int
  {
    SumOf(SaleAmount, sales)
  }

  /** The entries of `paymentStats` cover the sales exactly once: only payment
      types that occur get an entry, the counts add up to the number of sales
      and the amounts add up to `totalSales`. */
  lemma PaymentStatsAddUp(sales: seq<Sale>, t: PaymentType)
    ensures t in KeysInOrder(sales, SalePaymentType) <==> exists i :: 0 <= i < |sales| && sales[i].paymentType == t
    ensures StatOf(sales, t).count == |Group(sales, SalePaymentType, t)| == GroupSum(sales, SalePaymentType, One, t)
    ensures StatOf(sales, t).amount == GroupSum(sales, SalePaymentType, SaleAmount, t)
    ensures SumOverKeys(KeysInOrder(sales, SalePaymentType), sales, SalePaymentType, One) == |sales|
    ensures SumOverKeys(KeysInOrder(sales, SalePaymentType), sales, SalePaymentType, SaleAmount) == TotalSales(sales)
  {
    KeysInOrderSpec(sales, SalePaymentType, t);
    StatOfIsGroup(sales, t);
    SumOfOneIsLength(Group(sales, SalePaymentType, t));
    GroupSizesPartition(sales, SalePaymentType);
    GroupSumsPartition(sales, SalePaymentType, SaleAmount);
  }

  /** `Math.round(averageSale)`: the mean sale rounded half up, 0 without sales. */
  function RoundedAverage(sales: seq<Sale>): int
  {
    if |sales| > 0 then (2 * TotalSales(sales) + |sales|) / (2 * |sales|) else 0
  }

  /** The shown average is 0 for no sales and otherwise the integer nearest
      to totalSales / n, a tie going up. */
  lemma RoundedAverageSpec(sales: seq<Sale>)
    ensures |sales| == 0 ==> RoundedAverage(sales) == 0
    ensures |sales| > 0 ==>
      var n, r := |sales|, RoundedAverage(sales);
      0 - n <= 2 * (TotalSales(sales) - n * r) < n
  {
    if |sales| > 0 {
      var n, t, r := |sales|, TotalSales(sales), RoundedAverage(sales);
      var rem := (2 * t + n) % (2 * n);
      assert 2 * t + n == 2 * n * r + rem;
    }
  }

  function PaymentCode(t: PaymentType): string
  {
    match t
    case Cash => "CASH"
    case Card => "CARD"
    case Transfer => "TRANSFER"
  }

  /** `getPaymentLabel`: the Korean name of a payment code; any other code
      that is not an inherited key of the table is shown as it is. */
  function PaymentLabel(code: string): string
  {
    if code == "CASH" then "현금"
    else if code == "CARD" then "카드"
    else if code == "TRANSFER" then "계좌이체"
    else code
  }

  /** Each payment type gets its own label, different from its code; an
      unknown code that is not an inherited key is shown unchanged. */
  lemma PaymentLabelSpec(t: PaymentType, u: PaymentType, code: string)
    ensures PaymentLabel(PaymentCode(t)) != PaymentCode(t)
    ensures PaymentLabel(PaymentCode(t)) == PaymentLabel(PaymentCode(u)) <==> t == u
    ensures (forall k :: PaymentCode(k) != code) && !Text.InheritedKey(code) ==> PaymentLabel(code) == code
  {
    assert PaymentCode(Cash) == "CASH" && PaymentCode(Card) == "CARD" && PaymentCode(Transfer) == "TRANSFER";
  }
}
