/**
 * Prices and currency amounts of order items and invoice lines, and the
 * null-skipping sum by which orders and invoices total their lines.
 * Amounts are whole minor units of one currency.
 */
module Money {
  import opened Common

  /**
   * A unit price: its net amount, its tax amount and the VAT percentage the
   * tax was derived from. The gross amount is net plus tax.
   */
  datatype Price = Price(net: int, tax: int, vatPercentage: int)

  function Gross(p: Price): int
  {
    p.net + p.tax
  }

  /** Which of the three amounts of a price a total is about. */
  datatype AmountKind = NetAmount | GrossAmount | TaxAmount

  function AmountOf(p: Price, k: AmountKind): int
  {
    match k
    case NetAmount => p.net
    case GrossAmount => Gross(p)
    case TaxAmount => p.tax
  }

  /**
   * getTotalNetAmount / getTotalGrossAmount / getTotalTaxAmount of one line:
   * null when there is no unit price or the quantity is negative, otherwise
   * the unit amount multiplied by the quantity.
   */
  function LineTotal(unitPrice: Option<Price>, quantity: int, k: AmountKind): (r: Option<int>)
    ensures r.None? <==> unitPrice.None? || quantity < 0
  {
    if unitPrice.None? || quantity < 0 then None
    else Some(AmountOf(unitPrice.value, k) * quantity)
  }

  /** A line's totals scale its unit amounts; a zero quantity totals zero. */
  lemma LineTotalScales(p: Price, quantity: nat, k: AmountKind)
    ensures LineTotal(Some(p), quantity, k) == Some(AmountOf(p, k) * quantity)
    ensures quantity == 0 ==> LineTotal(Some(p), quantity, k) == Some(0)
    ensures quantity == 1 ==> LineTotal(Some(p), quantity, k) == Some(AmountOf(p, k))
  {
  }

  /** A line's gross total is its net total plus its tax total, and all three are null together. */
  lemma LineGrossIsNetPlusTax(unitPrice: Option<Price>, quantity: int)
    ensures LineTotal(unitPrice, quantity, GrossAmount).None? <==> LineTotal(unitPrice, quantity, NetAmount).None?
    ensures LineTotal(unitPrice, quantity, TaxAmount).None? <==> LineTotal(unitPrice, quantity, NetAmount).None?
    ensures LineTotal(unitPrice, quantity, GrossAmount).Some? ==>
              LineTotal(unitPrice, quantity, GrossAmount).value
              == LineTotal(unitPrice, quantity, NetAmount).value + LineTotal(unitPrice, quantity, TaxAmount).value
  {
    if unitPrice.Some? && quantity >= 0 {
      var p := unitPrice.value;
      assert (p.net + p.tax) * quantity == p.net * quantity + p.tax * quantity;
    }
  }

  /**
   * _addOrCreate: a null addend leaves the running total as it is, a null
   * running total becomes the addend, otherwise the two are added.
   */
  function AddOrCreate(base: Option<int>, add: Option<int>): (r: Option<int>)
    ensures r.None? <==> base.None? && add.None?
  {
    if add.None? then base
    else if base.None? then add
    else Some(base.value + add.value)
  }

  /** The running total of a list of line totals, folded from the first to the last as the getTotal* loops do. */
  function SumOpt(xs: seq<Option<int>>): Option<int>
    decreases |xs|
  {
    if |xs| == 0 then None else AddOrCreate(SumOpt(xs[..|xs| - 1]), xs[|xs| - 1])
  }

  /** The non-null entries of xs, in order. */
  function Present(xs: seq<Option<int>>): (r: seq<int>)
    ensures |r| <= |xs|
    decreases |xs|
  {
    if |xs| == 0 then []
    else Present(xs[..|xs| - 1]) + (if xs[|xs| - 1].Some? then [xs[|xs| - 1].value] else [])
  }

  function Sum(xs: seq<int>): int
    decreases |xs|
  {
    if |xs| == 0 then 0 else Sum(xs[..|xs| - 1]) + xs[|xs| - 1]
  }

  /**
   * The fold is the sum of the lines that contribute, and null exactly when
   * no line contributes.
   */
  lemma {:induction false} SumOptIsSumOfPresent(xs: seq<Option<int>>)
    ensures SumOpt(xs).None? <==> |Present(xs)| == 0
    ensures SumOpt(xs).Some? ==> SumOpt(xs).value == Sum(Present(xs))
    decreases |xs|
  {
    if |xs| > 0 {
      var init, last := xs[..|xs| - 1], xs[|xs| - 1];
      SumOptIsSumOfPresent(init);
      if last.Some? {
        var p := Present(init) + [last.value];
        assert Present(xs) == p;
        assert p[..|p| - 1] == Present(init);
        assert Sum(p) == Sum(Present(init)) + last.value;
        if SumOpt(init).None? {
          assert Present(init) == [];
        }
      } else {
        assert Present(init) + [] == Present(init);
        assert Present(xs) == Present(init);
      }
    }
  }

  /** The fold is null exactly when every line total is null. */
  lemma {:induction false} SumOptNoneIffAllNone(xs: seq<Option<int>>)
    ensures SumOpt(xs).None? <==> forall i :: 0 <= i < |xs| ==> xs[i].None?
    decreases |xs|
  {
    if |xs| > 0 {
      var init := xs[..|xs| - 1];
      SumOptNoneIffAllNone(init);
      assert forall i :: 0 <= i < |init| ==> init[i] == xs[i];
    }
  }

  /**
   * Folding line totals that are pointwise sums: when c[i] is null exactly
   * when a[i] and b[i] are, and otherwise their sum, the fold of c is the
   * sum of the folds of a and b.
   */
  lemma {:induction false} SumOptPointwise(a: seq<Option<int>>, b: seq<Option<int>>, c: seq<Option<int>>)
    requires |a| == |b| == |c|
    requires forall i :: 0 <= i < |c| ==> (c[i].None? <==> a[i].None?) && (b[i].None? <==> a[i].None?)
    requires forall i :: 0 <= i < |c| && c[i].Some? ==> c[i].value == a[i].value + b[i].value
    ensures SumOpt(c).None? <==> SumOpt(a).None?
    ensures SumOpt(b).None? <==> SumOpt(a).None?
    ensures SumOpt(c).Some? ==> SumOpt(c).value == SumOpt(a).value + SumOpt(b).value
    decreases |c|
  {
    if |c| > 0 {
      var n := |c| - 1;
      SumOptPointwise(a[..n], b[..n], c[..n]);
    }
  }
}
