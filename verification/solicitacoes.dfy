/** The purchase-request ("solicitação") form: its item list, the checks made
    before saving, and the payload that is saved. */
module Solicitacoes {
  import opened Records

  /** A form line. `otherFields` holds whatever else a loaded request line carries
      (such as its own `_id`); the form never reads it. */
  datatype FormItem = FormItem(itemId: string, quantidade: Num, otherFields: map<string, string>)

  /** A blank line: no item chosen yet and quantity 1. */
  function DefaultItem(): FormItem
  {
    FormItem("", Some(1.0), map[])
  }

  /** The two fields the form edits. */
  datatype ItemEdit = SetItemId(id: string) | SetQuantidade(q: Num)

  function EditFormItem(it: FormItem, e: ItemEdit): (r: FormItem)
    ensures r.itemId == (if e.SetItemId? then e.id else it.itemId)
    ensures r.quantidade == (if e.SetQuantidade? then e.q else it.quantidade)
    ensures r.otherFields == it.otherFields
  {
    match e
    case SetItemId(id) => it.(itemId := id)
    case SetQuantidade(q) => it.(quantidade := q)
  }

  /** The list without the element at position `index`, if there is one; order is kept. */
  function Without<T>(s: seq<T>, index: int): (r: seq<T>)
    ensures 0 <= index < |s| ==> r == s[..index] + s[index + 1..]
    ensures !(0 <= index < |s|) ==> r == s
  {
    if s == [] then []
    else (if index == 0 then [] else [s[0]]) + Without(s[1..], index - 1)
  }

  /** Whether some line has no item chosen. */
  function HasMissingId(itens: seq<FormItem>): (b: bool)
    ensures b <==> exists i :: 0 <= i < |itens| && itens[i].itemId == ""
  {
    if itens == [] then false else itens[0].itemId == "" || HasMissingId(itens[1..])
  }

  datatype PayloadItem = PayloadItem(itemId: string, quantidade: Num)

  datatype Payload = Payload(itens: seq<PayloadItem>, obra: string)

  /** Each form line reduced to its item id and quantity, in order. */
  function ToPayloadItems(itens: seq<FormItem>): (r: seq<PayloadItem>)
    ensures |r| == |itens|
    ensures forall i :: 0 <= i < |itens| ==>
      r[i].itemId == itens[i].itemId && r[i].quantidade == itens[i].quantidade
  {
    if itens == [] then []
    else [PayloadItem(itens[0].itemId, itens[0].quantidade)] + ToPayloadItems(itens[1..])
  }

  const MsgObra := "Selecione uma obra."
  const MsgItens := "Adicione ao menos um item e preencha todos os campos."

  /** The checks and the payload of `handleSaveSolicitacao`: the site is checked
      first, then the item list; an accepted request is reduced to its payload. */
  function SaveSolicitacao(obra: string, itens: seq<FormItem>): (r: Result<Payload, string>)
    ensures obra == "" ==> r == Failure(MsgObra)
    ensures obra != "" && (|itens| == 0 || exists i :: 0 <= i < |itens| && itens[i].itemId == "") ==>
      r == Failure(MsgItens)
    ensures r.Success? <==>
      obra != "" && |itens| > 0 && forall i :: 0 <= i < |itens| ==> itens[i].itemId != ""
    ensures r.Success? ==> r.value.obra == obra && |r.value.itens| == |itens|
    ensures r.Success? ==> forall i :: 0 <= i < |itens| ==>
      r.value.itens[i] == PayloadItem(itens[i].itemId, itens[i].quantidade)
  {
    if obra == "" then Failure(MsgObra)
    else if |itens| == 0 || HasMissingId(itens) then Failure(MsgItens)
    else Success(Payload(ToPayloadItems(itens), obra))
  }

  /** A request as listed by the server. */
  datatype StoredSolicitacao = StoredSolicitacao(id: string, itens: Option<seq<FormItem>>, obra: Option<ObraDoc>)

  /** The request form's state. */
  class SolicitacaoForm {
    var itens: seq<FormItem>
    var obra: string
    var editId: Option<string>

    /** The initial form state: one empty line, no site, nothing being edited. */
    constructor ()
      ensures itens == [DefaultItem()] && obra == "" && editId == None
    {
      itens := [DefaultItem()];
      obra := "";
      editId := None;
    }

    /** `handleNewSolicitacao`: a fresh form that cannot be saved until a site is chosen. */
    method NewSolicitacao()
      modifies this
      ensures itens == [DefaultItem()] && obra == "" && editId == None
      ensures SaveSolicitacao(obra, itens) == Failure(MsgObra)
    {
      itens := [DefaultItem()];
      obra := "";
      editId := None;
    }

    /** The "edit" button: loads the stored request's lines (the default line only
        when it has no line list at all) and its site id. */
    method LoadForEdit(s: StoredSolicitacao)
      modifies this
      ensures editId == Some(s.id)
      ensures itens == (if s.itens.Some? then s.itens.value else [DefaultItem()])
      ensures obra == (if s.obra.Some? then s.obra.value.id else "")
    {
      editId := Some(s.id);
      itens := if s.itens.Some? then s.itens.value else [DefaultItem()];
      obra := if s.obra.Some? then s.obra.value.id else "";
    }

    /** The site selector. */
    method SetObra(o: string)
      modifies this
      ensures obra == o && itens == old(itens) && editId == old(editId)
    {
      obra := o;
    }

    /** `handleAddItem`: appends one empty line. */
    method AddItem()
      modifies this
      ensures itens == old(itens) + [DefaultItem()]
      ensures obra == old(obra) && editId == old(editId)
    {
      itens := itens + [DefaultItem()];
    }

    /** `handleRemoveItem`: drops the line at `index`; any other index changes nothing. */
    method RemoveItem(index: int)
      modifies this
      ensures itens == Without(old(itens), index)
      ensures obra == old(obra) && editId == old(editId)
    {
      itens := Without(itens, index);
    }

    /** `handleItemChange`: sets one field of line `index`. An index past the end
        makes the front-end throw. */
    method ItemChange(index: nat, e: ItemEdit)
      requires index < |itens|
      modifies this
      ensures |itens| == |old(itens)|
      ensures itens[index] == EditFormItem(old(itens)[index], e)
      ensures forall j :: 0 <= j < |itens| && j != index ==> itens[j] == old(itens)[j]
      ensures obra == old(obra) && editId == old(editId)
    {
      itens := itens[index := EditFormItem(itens[index], e)];
    }
  }

  /** Adding a line and then removing it gives back the list it started from. */
  lemma RemoveAfterAdd(itens: seq<FormItem>)
    ensures Without(itens + [DefaultItem()], |itens|) == itens
  {
  }
}
