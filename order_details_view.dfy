/** The order-lines card of the restaurant's order page
    (src/components/restaurant/OrderDetails.tsx): one row per order line with its total in
    cents, the order total, the number of items and the average price per item. */
module OrderDetailsView {
  import opened Wrappers
  import opened Seqs
  import opened Types
  import opened Prices
  import CartProvider
  import UseOrder

  /** One displayed row: "<quantity>x Produit <id>" and the line total. */
  datatype Row = Row(quantite: int, produitId: string, totalCents: int, totalText: string)

  function LineCents(line: LigneCommande): int
  {
    line.prixUnitaire * line.quantite
  }

  function ToRow(line: LigneCommande): (row: Row)
    ensures row.quantite == line.quantite && row.produitId == line.produitId
    ensures row.totalCents == line.prixUnitaire * line.quantite
    ensures ParsePrice(row.totalText) == Some(row.totalCents)
  {
    ParseFormatPrice(LineCents(line));
    Row(line.quantite, line.produitId, LineCents(line), FormatPrice(LineCents(line)))
  }

  /** The rows: exactly one per order line, in order. */
  function Rows(lines: seq<LigneCommande>): (rows: seq<Row>)
    ensures |rows| == |lines|
    ensures forall i :: 0 <= i < |lines| ==>
      rows[i].produitId == lines[i].produitId && rows[i].quantite == lines[i].quantite &&
      rows[i].totalCents == lines[i].prixUnitaire * lines[i].quantite
  {
    Map(ToRow, lines)
  }

  /** "Nombre d'articles": Σ quantite. */
  function ItemCount(lines: seq<LigneCommande>): int
  {
    if lines == [] then 0 else ItemCount(lines[..|lines| - 1]) + lines[|lines| - 1].quantite
  }

  /** The restaurant counts as many items as the customer's cart did: converting cart lines
      to order lines keeps the item count. */
  lemma {:induction false} ConversionKeepsItemCount(items: seq<CartItem>)
    ensures ItemCount(UseOrder.ConvertLines(items)) == CartProvider.ItemCount(items)
  {
    if items != [] {
      var n := |items|;
      var lines := UseOrder.ConvertLines(items);
      assert lines[..n - 1] == UseOrder.ConvertLines(items[..n - 1]);
      ConversionKeepsItemCount(items[..n - 1]);
    }
  }

  /** "Prix moyen par article": the total shared out over the items, available only when
      there is at least one item. */
  function AveragePrice(order: Commande): (avg: Option<real>)
    ensures avg.Some? <==> ItemCount(order.produits) != 0
    ensures avg.Some? ==> avg.value * ItemCount(order.produits) as real == order.prixTotal as real
  {
    var count := ItemCount(order.produits);
    if count != 0 then Some(order.prixTotal as real / count as real) else None
  }

  /** The "Total" line. */
  function TotalText(order: Commande): (text: string)
    ensures ParsePrice(text) == Some(order.prixTotal)
  {
    ParseFormatPrice(order.prixTotal);
    FormatPrice(order.prixTotal)
  }
}
