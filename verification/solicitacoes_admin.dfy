/** The administrator's conversion of a purchase request ("solicitação") into a
    new purchase order. */
module SolicitacoesAdmin {
  import opened Records
  import Pedido

  /** The request's supplier as stored: absent, a bare id, or a populated document. */
  datatype Fornecedor = Absent | RawId(id: string) | Populated(docId: string, nome: string)

  /** The supplier written into the new order: null, an id, or the document itself. */
  datatype FornecedorRef = NullRef | IdRef(id: string) | ObjectRef(docId: string, nome: string)

  /** A request line; `itemId` is the populated catalog item, `None` when it is not populated. */
  datatype RequestItem = RequestItem(itemId: Option<CatalogItem>, quantidade: Num)

  datatype Solicitacao = Solicitacao(
    obra: Option<ObraDoc>,
    itens: seq<RequestItem>,
    fornecedor: Fornecedor,
    observacao: Option<string>,
    frete: Num)

  /** The order record sent to the server. */
  datatype NovoPedido = NovoPedido(
    obra: Option<string>,
    items: seq<Pedido.Item>,
    fornecedor: FornecedorRef,
    observacao: string,
    frete: real,
    totalGeral: real)

  const Desconhecido := "Desconhecido"
  const SemUnidade := "N/A"

  /** The populated catalog item's unit price; 0 when the item or its price is missing. */
  function UnitPrice(ri: RequestItem): real
  {
    match ri.itemId
    case None => 0.0
    case Some(c) => OrZero(c.precoUnitario)
  }

  /** The requested quantity; 0 when it is missing. */
  function Quantity(ri: RequestItem): real
  {
    OrZero(ri.quantidade)
  }

  /** The order line built from one request line. */
  function ToLine(ri: RequestItem): (it: Pedido.Item)
    ensures it.quantidade == Some(OrZero(ri.quantidade))
    ensures ri.itemId.None? ==> it.precoUnitario == Some(0.0)
    ensures ri.itemId.Some? ==> it.precoUnitario == Some(OrZero(ri.itemId.value.precoUnitario))
    ensures Pedido.LineAgrees(it)
    ensures it.discriminacao ==
      (if ri.itemId.Some? && ri.itemId.value.discriminacao != "" then ri.itemId.value.discriminacao else Desconhecido)
    ensures it.unidade ==
      (if ri.itemId.Some? && ri.itemId.value.unidade != "" then ri.itemId.value.unidade else SemUnidade)
  {
    var precoUnitario := UnitPrice(ri);
    var quantidade := Quantity(ri);
    assert Pedido.Product(Some(quantidade), Some(precoUnitario)) == quantidade * precoUnitario;
    Pedido.Item(
      if ri.itemId.Some? && ri.itemId.value.discriminacao != "" then ri.itemId.value.discriminacao else Desconhecido,
      Some(quantidade),
      if ri.itemId.Some? && ri.itemId.value.unidade != "" then ri.itemId.value.unidade else SemUnidade,
      Some(precoUnitario),
      Some(quantidade * precoUnitario))
  }

  /** One order line per request line, in order. */
  function BuildLines(itens: seq<RequestItem>): (lines: seq<Pedido.Item>)
    ensures |lines| == |itens|
    ensures forall i :: 0 <= i < |itens| ==> lines[i] == ToLine(itens[i])
  {
    if itens == [] then [] else [ToLine(itens[0])] + BuildLines(itens[1..])
  }

  /** The `totalGeral` fold over the request lines, recomputing quantity times price. */
  function ReduceRequest(total: real, itens: seq<RequestItem>): real
    decreases itens
  {
    if itens == [] then total
    else ReduceRequest(total + Quantity(itens[0]) * UnitPrice(itens[0]), itens[1..])
  }

  /** The fold equals its start plus the sum of the built lines' stored totals. */
  lemma {:induction false} ReduceRequestIsLineSum(total: real, itens: seq<RequestItem>)
    ensures ReduceRequest(total, itens) == total + Pedido.SumTotals(BuildLines(itens))
    decreases itens
  {
    if itens != [] {
      var lines := BuildLines(itens);
      assert lines[0] == ToLine(itens[0]);
      assert lines[1..] == BuildLines(itens[1..]);
      ReduceRequestIsLineSum(total + Quantity(itens[0]) * UnitPrice(itens[0]), itens[1..]);
    }
  }

  /** The populated supplier's id when it has one, else the raw value when it is
      non-empty, else null. */
  function SupplierRef(f: Fornecedor): (r: FornecedorRef)
    ensures f.Populated? && f.docId != "" ==> r == IdRef(f.docId)
    ensures f.Populated? && f.docId == "" ==> r == ObjectRef(f.docId, f.nome)
    ensures f.RawId? && f.id != "" ==> r == IdRef(f.id)
    ensures f.Absent? || (f.RawId? && f.id == "") ==> r == NullRef
  {
    match f
    case Absent => NullRef
    case RawId(id) => if id != "" then IdRef(id) else NullRef
    case Populated(docId, nome) => if docId != "" then IdRef(docId) else ObjectRef(docId, nome)
  }

  /** The order record `handleCriarPedido` builds from a request. */
  function CriarPedido(s: Solicitacao): (r: NovoPedido)
    ensures r.obra == (if s.obra.Some? then Some(s.obra.value.id) else None)
    ensures |r.items| == |s.itens|
    ensures forall i :: 0 <= i < |s.itens| ==> r.items[i] == ToLine(s.itens[i])
    ensures r.fornecedor == SupplierRef(s.fornecedor)
    ensures r.observacao == (if s.observacao.Some? then s.observacao.value else "")
    ensures r.frete == OrZero(s.frete)
    ensures r.totalGeral == Pedido.SumTotals(r.items)
  {
    ReduceRequestIsLineSum(0.0, s.itens);
    NovoPedido(
      if s.obra.Some? then Some(s.obra.value.id) else None,
      BuildLines(s.itens),
      SupplierRef(s.fornecedor),
      if s.observacao.Some? then s.observacao.value else "",
      OrZero(s.frete),
      ReduceRequest(0.0, s.itens))
  }

  /** Unlike the order editor, the built total leaves the freight out: it agrees
      with the editor's grand total exactly when the freight is zero. */
  lemma CriarPedidoOmitsFrete(s: Solicitacao)
    ensures CriarPedido(s).totalGeral == Pedido.GrandTotal(Some(CriarPedido(s).frete), CriarPedido(s).items)
        <==> OrZero(s.frete) == 0.0
  {
  }
}
