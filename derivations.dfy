/** `GetFullName`, `GetPortfolioFunds` and `GetPortfolioTotalAmount`. */
module Derivations {
  import opened Domain

  /** `GetFullName`: first name, one space, surname. */
  function FullName(app: Application): (r: string)
    ensures |r| == |app.person.firstName| + 1 + |app.person.surname|
    ensures r[..|app.person.firstName|] == app.person.firstName
    ensures r[|app.person.firstName|] == ' '
    ensures r[|app.person.firstName| + 1..] == app.person.surname
  {
    app.person.firstName + " " + app.person.surname
  }

  /** `SelectMany(p => p.Funds)`: the funds of every product, in order. */
  function Flatten(products: seq<Product>): (r: seq<Fund>)
  {
    if products == [] then [] else products[0].funds + Flatten(products[1..])
  }

  /** `GetPortfolioFunds`. */
  function PortfolioFunds(app: Application): seq<Fund> {
    Flatten(app.products)
  }

  /** Flattening distributes over concatenation of product lists. */
  lemma {:induction false} FlattenAppend(a: seq<Product>, b: seq<Product>)
    ensures Flatten(a + b) == Flatten(a) + Flatten(b)
    decreases |a|
  {
    if a == [] {
      assert a + b == b;
    } else {
      assert (a + b)[1..] == a[1..] + b;
      FlattenAppend(a[1..], b);
    }
  }

  /** A single product contributes exactly its own funds. */
  lemma FlattenSingle(p: Product)
    ensures Flatten([p]) == p.funds
  {
  }

  /**
   * Product order, then fund order: fund `j` of product `i` sits right after
   * the funds of the products before `i`.
   */
  lemma FlattenAt(products: seq<Product>, i: int, j: int)
    requires 0 <= i < |products| && 0 <= j < |products[i].funds|
    ensures |Flatten(products[..i])| + j < |Flatten(products)|
    ensures Flatten(products)[|Flatten(products[..i])| + j] == products[i].funds[j]
  {
    assert products == products[..i] + [products[i]] + products[i + 1..];
    FlattenAppend(products[..i] + [products[i]], products[i + 1..]);
    FlattenAppend(products[..i], [products[i]]);
    FlattenSingle(products[i]);
  }

  /** A fund is in the portfolio exactly when some product holds it. */
  lemma {:induction false} FlattenMembership(products: seq<Product>, f: Fund)
    ensures f in Flatten(products) <==> exists i :: 0 <= i < |products| && f in products[i].funds
    decreases |products|
  {
    if products != [] {
      FlattenMembership(products[1..], f);
      assert forall i :: 0 < i < |products| ==> products[i] == products[1..][i - 1];
      if f in Flatten(products[1..]) {
        var i :| 0 <= i < |products[1..]| && f in products[1..][i].funds;
        assert f in products[i + 1].funds;
      }
    }
  }

  /** `(f.Amount - f.Fees) * TaxRate`. */
  function FundValue(f: Fund, taxRate: real): real {
    (f.amount - f.fees) * taxRate
  }

  /** `Select(FundValue).Sum()`; with exact arithmetic the order of summation does not matter. */
  function FundsTotal(funds: seq<Fund>, taxRate: real): real {
    if funds == [] then 0.0 else FundValue(funds[0], taxRate) + FundsTotal(funds[1..], taxRate)
  }

  /** `GetPortfolioTotalAmount`. */
  function PortfolioTotalAmount(app: Application, taxRate: real): real {
    FundsTotal(PortfolioFunds(app), taxRate)
  }

  /** The total of a concatenation is the sum of the totals. */
  lemma {:induction false} FundsTotalAppend(a: seq<Fund>, b: seq<Fund>, taxRate: real)
    ensures FundsTotal(a + b, taxRate) == FundsTotal(a, taxRate) + FundsTotal(b, taxRate)
    decreases |a|
  {
    if a == [] {
      assert a + b == b;
    } else {
      assert (a + b)[1..] == a[1..] + b;
      FundsTotalAppend(a[1..], b, taxRate);
    }
  }

  /** The portfolio total distributes over concatenation of product lists. */
  lemma PortfolioTotalAppend(a: seq<Product>, b: seq<Product>, taxRate: real)
    ensures FundsTotal(Flatten(a + b), taxRate) == FundsTotal(Flatten(a), taxRate) + FundsTotal(Flatten(b), taxRate)
  {
    FlattenAppend(a, b);
    FundsTotalAppend(Flatten(a), Flatten(b), taxRate);
  }

  /** No products, or only products without funds, give a total of zero. */
  lemma {:induction false} PortfolioWithoutFundsTotalsZero(app: Application, taxRate: real)
    requires forall i :: 0 <= i < |app.products| ==> app.products[i].funds == []
    ensures PortfolioFunds(app) == [] && PortfolioTotalAmount(app, taxRate) == 0.0
  {
    NoFundsFlattenEmpty(app.products);
  }

  lemma {:induction false} NoFundsFlattenEmpty(products: seq<Product>)
    requires forall i :: 0 <= i < |products| ==> products[i].funds == []
    ensures Flatten(products) == []
    decreases |products|
  {
    if products != [] {
      assert forall i :: 0 <= i < |products[1..]| ==> products[1..][i] == products[i + 1];
      NoFundsFlattenEmpty(products[1..]);
    }
  }

  function SumAmounts(funds: seq<Fund>): real {
    if funds == [] then 0.0 else funds[0].amount + SumAmounts(funds[1..])
  }

  function SumFees(funds: seq<Fund>): real {
    if funds == [] then 0.0 else funds[0].fees + SumFees(funds[1..])
  }

  /** An independent form of the total: all amounts less all fees, times the tax rate. */
  lemma {:induction false} FundsTotalFactored(funds: seq<Fund>, taxRate: real)
    ensures FundsTotal(funds, taxRate) == (SumAmounts(funds) - SumFees(funds)) * taxRate
    decreases |funds|
  {
    if funds != [] {
      FundsTotalFactored(funds[1..], taxRate);
      var f := funds[0];
      var a, e := SumAmounts(funds[1..]), SumFees(funds[1..]);
      calc {
        FundsTotal(funds, taxRate);
        (f.amount - f.fees) * taxRate + (a - e) * taxRate;
        ((f.amount + a) - (f.fees + e)) * taxRate;
      }
    }
  }

  /** Every fund with its amount and fees multiplied by `k`. */
  function ScaleFunds(funds: seq<Fund>, k: real): (r: seq<Fund>)
    ensures |r| == |funds|
    ensures forall i :: 0 <= i < |r| ==> r[i] == Fund(k * funds[i].amount, k * funds[i].fees)
  {
    if funds == [] then [] else [Fund(k * funds[0].amount, k * funds[0].fees)] + ScaleFunds(funds[1..], k)
  }

  /** The total is linear: scaling every amount and fee by `k` scales the total by `k`. */
  lemma {:induction false} FundsTotalScales(funds: seq<Fund>, k: real, taxRate: real)
    ensures FundsTotal(ScaleFunds(funds, k), taxRate) == k * FundsTotal(funds, taxRate)
    decreases |funds|
  {
    if funds != [] {
      var s := ScaleFunds(funds, k);
      assert s[1..] == ScaleFunds(funds[1..], k);
      FundsTotalScales(funds[1..], k, taxRate);
      var f := funds[0];
      var rest := FundsTotal(funds[1..], taxRate);
      calc {
        FundsTotal(s, taxRate);
        (k * f.amount - k * f.fees) * taxRate + k * rest;
        k * ((f.amount - f.fees) * taxRate) + k * rest;
        k * ((f.amount - f.fees) * taxRate + rest);
      }
    }
  }
}
