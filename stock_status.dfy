/** The stock page's classification of a product as out of stock, low or fine, and the
    label shown for each class. */
module StockStatus {
  import opened Common
  import opened Ledger
  import opened Products

  datatype Status = Out | Low | Ok

  /** `getStockStatus`: a quantity of exactly 0 is out of stock whatever the minimum;
      otherwise a quantity at or below the minimum is low (a null quantity compares as 0). */
  function StatusOf(p: Product): (s: Status)
    ensures s == Out <==> p.currentQuantity == Some(0.0)
    ensures s == Low <==> p.currentQuantity != Some(0.0) && Quantity(p) <= p.minQuantity
    ensures s == Ok <==> p.currentQuantity != Some(0.0) && Quantity(p) > p.minQuantity
  {
    if p.currentQuantity == Some(0.0) then Out
    else if Quantity(p) <= p.minQuantity then Low
    else Ok
  }

  /** `getStockLabel`: the text shown for a status; anything but out or low reads as in stock. */
  function Label(status: string): (text: string)
    ensures status == "out" ==> text == "Sem estoque"
    ensures status == "low" ==> text == "Estoque baixo"
    ensures status != "out" && status != "low" ==> text == "Em estoque"
  {
    if status == "out" then "Sem estoque"
    else if status == "low" then "Estoque baixo"
    else "Em estoque"
  }

  /** The status string `getStockStatus` returns. */
  function StatusName(s: Status): string {
    match s
    case Out => "out"
    case Low => "low"
    case Ok => "ok"
  }

  /** A product with no quantity recorded is low when its minimum is not negative. */
  lemma NullQuantityIsLow(p: Product)
    requires p.currentQuantity.None? && p.minQuantity >= 0.0
    ensures StatusOf(p) == Low
  {
  }

  /** Each status has its own label, and an Ok product reads as in stock. */
  lemma LabelsDistinct(p: Product, q: Product)
    requires StatusOf(p) != StatusOf(q)
    ensures Label(StatusName(StatusOf(p))) != Label(StatusName(StatusOf(q)))
  {
    assert "Sem estoque"[0] != "Estoque baixo"[0] && "Sem estoque"[0] != "Em estoque"[0];
    assert "Estoque baixo"[1] != "Em estoque"[1];
    assert "out"[0] != "low"[0];
  }

  /** With a non-negative minimum, every product classed out or low is in the
      low-stock list, and every product in the list is classed out or low. */
  lemma {:induction false} ClassifiedLowIsListed(ps: seq<Product>, p: Product)
    requires p in ps && p.minQuantity >= 0.0
    ensures StatusOf(p) != Ok <==> p in LowStockProducts(ps)
  {
    if StatusOf(p) == Out {
      assert Quantity(p) == 0.0;
    }
  }
}
