/** The purchase-order ("pedido") editor: its lines, the catalog lookup that
    prices a line, the grand total, and the clean-up of the list filters. */
module Pedido {
  import opened Records

  /** One order line. Numeric fields hold raw form input (`Num`). */
  datatype Item = Item(
    discriminacao: string,
    quantidade: Num,
    unidade: string,
    precoUnitario: Num,
    precoTotal: Num)

  /** The line the "add item" button appends. */
  function NewItem(): Item
  {
    var quantidade, precoUnitario := 1.0, 0.0;
    Item("", Some(quantidade), "", Some(precoUnitario), Some(quantidade * precoUnitario))
  }

  /** What a line adds to the grand total: its stored total, a missing one as 0. */
  function Contribution(it: Item): real
  {
    OrZero(it.precoTotal)
  }

  /** Reference sum of the stored line totals. */
  function SumTotals(items: seq<Item>): real
  {
    if items == [] then 0.0 else Contribution(items[0]) + SumTotals(items[1..])
  }

  /** The front-end's running total: a left fold that adds each line's stored total
      (a missing one as 0) to an accumulator that begins at `start`. */
  function ReduceTotals(start: real, items: seq<Item>): real
    decreases items
  {
    if items == [] then start else ReduceTotals(start + Contribution(items[0]), items[1..])
  }

  /** The grand total an order should carry: freight (missing as 0) plus the stored line totals. */
  function GrandTotal(frete: Num, items: seq<Item>): real
  {
    OrZero(frete) + SumTotals(items)
  }

  lemma {:induction false} ReduceTotalsIsSum(start: real, items: seq<Item>)
    ensures ReduceTotals(start, items) == start + SumTotals(items)
    decreases items
  {
    if items != [] {
      ReduceTotalsIsSum(start + Contribution(items[0]), items[1..]);
    }
  }

  lemma {:induction false} SumTotalsAppend(items: seq<Item>, it: Item)
    ensures SumTotals(items + [it]) == SumTotals(items) + Contribution(it)
  {
    if items == [] {
      assert items + [it] == [it];
    } else {
      assert (items + [it])[1..] == items[1..] + [it];
      SumTotalsAppend(items[1..], it);
    }
  }

  /** Replacing one line changes the sum by exactly the difference of the two lines. */
  lemma {:induction false} SumTotalsUpdate(items: seq<Item>, i: nat, it: Item)
    requires i < |items|
    ensures SumTotals(items[i := it]) == SumTotals(items) - Contribution(items[i]) + Contribution(it)
  {
    if i == 0 {
      assert items[i := it][1..] == items[1..];
    } else {
      assert items[i := it][1..] == items[1..][i - 1 := it];
      SumTotalsUpdate(items[1..], i - 1, it);
    }
  }

  /** The index of the first catalog entry whose description is exactly `d`, if any. */
  function FindByDiscriminacao(catalog: seq<CatalogItem>, d: string): (r: Option<nat>)
    ensures r.Some? ==> r.value < |catalog| && catalog[r.value].discriminacao == d
    ensures r.Some? ==> forall j :: 0 <= j < r.value ==> catalog[j].discriminacao != d
    ensures r.None? ==> forall j :: 0 <= j < |catalog| ==> catalog[j].discriminacao != d
  {
    if catalog == [] then None
    else if catalog[0].discriminacao == d then Some(0)
    else match FindByDiscriminacao(catalog[1..], d)
      case None => None
      case Some(k) => Some(k + 1)
  }

  /** The unit price of the first catalog entry described exactly by `d`; 0 when
      there is none or its price is missing. */
  function CatalogPrice(catalog: seq<CatalogItem>, d: string): real
  {
    match FindByDiscriminacao(catalog, d)
    case None => 0.0
    case Some(k) => OrZero(catalog[k].precoUnitario)
  }

  /** The unit of the first catalog entry described exactly by `d`; empty when there is none. */
  function CatalogUnit(catalog: seq<CatalogItem>, d: string): string
  {
    match FindByDiscriminacao(catalog, d)
    case None => ""
    case Some(k) => catalog[k].unidade
  }

  /** Quantity times unit price, each read as 0 when missing. */
  function Product(quantidade: Num, precoUnitario: Num): real
  {
    OrZero(quantidade) * OrZero(precoUnitario)
  }

  /** A line whose stored total is its quantity times its unit price. */
  predicate LineAgrees(it: Item)
  {
    it.precoTotal == Some(Product(it.quantidade, it.precoUnitario))
  }

  /** True when `k` is the first catalog entry whose description is exactly `d`. */
  predicate FirstMatch(catalog: seq<CatalogItem>, d: string, k: int)
  {
    0 <= k < |catalog| && catalog[k].discriminacao == d &&
    forall j :: 0 <= j < k ==> catalog[j].discriminacao != d
  }

  /** The edits the order form makes to one field of one line. */
  datatype Edit =
    | SetDiscriminacao(d: string)
    | SetQuantidade(q: Num)
    | SetUnidade(u: string)
    | SetPrecoUnitario(p: Num)

  /** The effect of one `handleItemChange` call on the edited line. */
  function EditItem(it: Item, e: Edit, catalog: seq<CatalogItem>): (r: Item)
    // the edited field takes the given value, the others keep theirs unless the catalog sets them
    ensures r.discriminacao == (if e.SetDiscriminacao? then e.d else it.discriminacao)
    ensures r.quantidade == (if e.SetQuantidade? then e.q else it.quantidade)
    ensures e.SetUnidade? ==> r.unidade == e.u
    ensures e.SetPrecoUnitario? ==> r.precoUnitario == e.p
    ensures e.SetQuantidade? || e.SetPrecoUnitario? ==> r.unidade == it.unidade
    ensures e.SetQuantidade? || e.SetUnidade? ==> r.precoUnitario == it.precoUnitario
    // a description pulls unit and price from its first exact catalog match, or resets them
    ensures e.SetDiscriminacao? ==> forall k :: FirstMatch(catalog, e.d, k) ==>
      r.precoUnitario == Some(OrZero(catalog[k].precoUnitario)) && r.unidade == catalog[k].unidade
    ensures e.SetDiscriminacao? && (forall j :: 0 <= j < |catalog| ==> catalog[j].discriminacao != e.d) ==>
      r.precoUnitario == Some(0.0) && r.unidade == ""
    // the line total is recomputed except when only the unit changes
    ensures !e.SetUnidade? ==> LineAgrees(r)
    ensures e.SetUnidade? ==> r.precoTotal == it.precoTotal
    ensures LineAgrees(it) ==> LineAgrees(r)
  {
    match e
    case SetDiscriminacao(d) =>
      var picked := it.(discriminacao := d, precoUnitario := Some(CatalogPrice(catalog, d)),
                        unidade := CatalogUnit(catalog, d));
      picked.(precoTotal := Some(Product(picked.quantidade, picked.precoUnitario)))
    case SetQuantidade(q) =>
      var changed := it.(quantidade := q);
      changed.(precoTotal := Some(Product(changed.quantidade, changed.precoUnitario)))
    case SetUnidade(u) =>
      it.(unidade := u)
    case SetPrecoUnitario(p) =>
      var changed := it.(precoUnitario := p);
      changed.(precoTotal := Some(Product(changed.quantidade, changed.precoUnitario)))
  }

  /** The order being edited (`currentPedido`). */
  class PedidoForm {
    var obra: string
    var fornecedor: string
    var observacao: string
    var items: seq<Item>
    var frete: Num
    var totalGeral: real

    /** The stored grand total is freight plus the stored line totals. */
    predicate TotalsAgree()
      reads this
    {
      totalGeral == GrandTotal(frete, items)
    }

    /** A new, empty order (`handleNewPedido`). */
    constructor ()
      ensures obra == "" && fornecedor == "" && observacao == ""
      ensures items == [] && frete == Some(0.0) && totalGeral == 0.0
      ensures TotalsAgree()
    {
      obra, fornecedor, observacao := "", "", "";
      items := [];
      frete := Some(0.0);
      totalGeral := 0.0;
    }

    /** Appends an empty line and recomputes the grand total (`handleAddItem`). */
    method AddItem()
      modifies this
      ensures items == old(items) + [NewItem()]
      ensures obra == old(obra) && fornecedor == old(fornecedor) && observacao == old(observacao)
      ensures frete == old(frete)
      ensures TotalsAgree()
      ensures old(TotalsAgree()) ==> totalGeral == old(totalGeral)
    {
      var updated := items + [NewItem()];
      ReduceTotalsIsSum(OrZero(frete), updated);
      SumTotalsAppend(items, NewItem());
      items, totalGeral := updated, ReduceTotals(OrZero(frete), updated);
    }

    /** Edits one field of line `index` and recomputes the grand total from scratch
        (`handleItemChange`). An index past the end makes the front-end throw. */
    method ItemChange(index: nat, e: Edit, catalog: seq<CatalogItem>)
      requires index < |items|
      modifies this
      ensures items == old(items)[index := EditItem(old(items)[index], e, catalog)]
      ensures obra == old(obra) && fornecedor == old(fornecedor) && observacao == old(observacao)
      ensures frete == old(frete)
      ensures TotalsAgree()
      ensures old(TotalsAgree()) ==>
        totalGeral == old(totalGeral) - Contribution(old(items)[index]) + Contribution(items[index])
    {
      var edited := EditItem(items[index], e, catalog);
      ReduceTotalsIsSum(OrZero(frete), items[index := edited]);
      SumTotalsUpdate(items, index, edited);
      items, totalGeral := items[index := edited], ReduceTotals(OrZero(frete), items[index := edited]);
    }

    /** The description selector: a description edit followed by a unit edit
        with the matching catalog entry's unit (or "" when none matches). */
    method SelectItem(index: nat, d: string, catalog: seq<CatalogItem>)
      requires index < |items|
      modifies this
      ensures |items| == |old(items)|
      ensures forall j :: 0 <= j < |items| && j != index ==> items[j] == old(items)[j]
      ensures items[index] == EditItem(old(items)[index], SetDiscriminacao(d), catalog)
      ensures obra == old(obra) && fornecedor == old(fornecedor) && observacao == old(observacao)
      ensures frete == old(frete)
      ensures TotalsAgree() && LineAgrees(items[index])
    {
      var found := FindByDiscriminacao(catalog, d);
      ItemChange(index, SetDiscriminacao(d), catalog);
      var unidade := if found.Some? then catalog[found.value].unidade else "";
      ItemChange(index, SetUnidade(unidade), catalog);
    }

    /** The freight input: stores the parsed value and leaves the total as it was. */
    method SetFrete(v: Num)
      modifies this
      ensures frete == v && items == old(items) && totalGeral == old(totalGeral)
      ensures obra == old(obra) && fornecedor == old(fornecedor) && observacao == old(observacao)
      ensures old(TotalsAgree()) ==> (TotalsAgree() <==> OrZero(v) == OrZero(old(frete)))
    {
      frete := v;
    }
  }

  /** The copy of the list filters sent with the order query: every key whose
      value is empty is deleted, the others are kept with their values. */
  method RemoveEmptyFilters(filters: map<string, string>) returns (params: map<string, string>)
    ensures forall k :: k in params <==> k in filters && filters[k] != ""
    ensures forall k :: k in params ==> params[k] == filters[k]
  {
    params := filters;
    var pending := filters.Keys;
    while pending != {}
      invariant pending <= filters.Keys
      invariant forall k :: k in params <==> k in filters && (k in pending || filters[k] != "")
      invariant forall k :: k in params ==> params[k] == filters[k]
      decreases pending
    {
      var k :| k in pending;
      if params[k] == "" {
        params := params - {k};
      }
      pending := pending - {k};
    }
  }
}
