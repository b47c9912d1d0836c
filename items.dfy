/** The ledger-row handlers shared by the report editor
    (src/components/InformeConPanelEdicion.tsx) and the invoice section
    (src/components/SeccionFacturasElectronicas.tsx): both build the new list
    with `filter`/`map`/spread, the editor for donation rows (medio
    "EFECTIVO") and both for invoice rows (medio "FACTURA ELECTRÓNICA"). */
module Items {
  import opened Tipos
  import opened Aritmetica
  import opened Listas

  const MedioEfectivo := "EFECTIVO"
  const MedioFactura := "FACTURA ELECTRÓNICA"

  /** `map((item, idx) => ({ ...item, item: idx + 1 }))`: numbers the rows
      1..n and changes nothing else. */
  function Renumerar(s: seq<ItemTabla>): (r: seq<ItemTabla>)
    ensures |r| == |s| && Numerado(r)
    ensures forall k :: 0 <= k < |s| ==> r[k] == s[k].(item := k + 1)
    ensures Valores(r) == Valores(s)
  {
    seq(|s|, k requires 0 <= k < |s| => s[k].(item := k + 1))
  }

  /** A list already numbered 1..n is left as it is by renumbering. */
  lemma {:induction false} RenumerarNumerado(s: seq<ItemTabla>)
    requires Numerado(s)
    ensures Renumerar(s) == s
  {
  }

  /** The delete handlers: drop position `index`, then renumber. Deleting
      keeps the other rows in order, changes nothing in them but their
      number, and lowers the total by exactly the deleted amount; an index
      outside the list only renumbers. */
  function EliminarItem(s: seq<ItemTabla>, index: int): (r: seq<ItemTabla>)
    ensures Numerado(r)
    ensures 0 <= index < |s| ==>
      && |r| == |s| - 1
      && (forall k :: 0 <= k < index ==> r[k] == s[k].(item := k + 1))
      && (forall k :: index <= k < |r| ==> r[k] == s[k + 1].(item := k + 1))
      && Suma(Valores(r)) == Suma(Valores(s)) - s[index].valor
    ensures !(0 <= index < |s|) ==> r == Renumerar(s)
  {
    if 0 <= index < |s| then
      EliminarDentro(s, index);
      Renumerar(SinPosicion(s, index))
    else
      Renumerar(SinPosicion(s, index))
  }

  /** Deleting an existing row: the rows before it keep their place, the rows
      after it move up by one, and the total loses the deleted amount. */
  lemma {:induction false} EliminarDentro(s: seq<ItemTabla>, index: int)
    requires 0 <= index < |s|
    ensures var r := Renumerar(SinPosicion(s, index));
      && |r| == |s| - 1
      && (forall k :: 0 <= k < index ==> r[k] == s[k].(item := k + 1))
      && (forall k :: index <= k < |r| ==> r[k] == s[k + 1].(item := k + 1))
      && Suma(Valores(r)) == Suma(Valores(s)) - s[index].valor
  {
    var t := SinPosicion(s, index);
    assert forall k :: 0 <= k < index ==> t[k] == s[k];
    assert forall k :: index <= k < |t| ==> t[k] == s[k + 1];
    SumaEliminar(s, index);
  }

  lemma {:induction false} SumaEliminar(s: seq<ItemTabla>, index: int)
    requires 0 <= index < |s|
    ensures Suma(Valores(SinPosicion(s, index))) == Suma(Valores(s)) - s[index].valor
  {
    var v := Valores(s);
    var a, c := s[..index], s[index + 1..];
    assert SinPosicion(s, index) == a + c;
    ValoresConcatenar(a, c);
    assert Valores(a) == v[..index];
    assert Valores(c) == v[index + 1..];
    SumaSinPosicion(v, index);
  }

  /** The row the append handlers add: anonymous, no document or receipt,
      amount 0. */
  function NuevoItem(numero: int, medio: string): ItemTabla
  {
    ItemTabla(numero, "ANÓNIMO", "", medio, 0, "", "SIN OBSERVACIONES")
  }

  /** The append handlers: one new row numbered `|s| + 1` after the others,
      so a list numbered 1..n becomes numbered 1..n+1 and the total does not
      change. */
  function AgregarItem(s: seq<ItemTabla>, medio: string): (r: seq<ItemTabla>)
    ensures |r| == |s| + 1 && r[..|s|] == s
    ensures r[|s|].item == |s| + 1 && r[|s|].valor == 0 && r[|s|].medio == medio
    ensures r[|s|].donante == "ANÓNIMO" && r[|s|].documento == "" && r[|s|].reciboN == ""
         && r[|s|].observaciones == "SIN OBSERVACIONES"
    ensures Numerado(s) ==> Numerado(r)
    ensures Suma(Valores(r)) == Suma(Valores(s))
  {
    var r := s + [NuevoItem(|s| + 1, medio)];
    assert Valores(r) == Valores(s) + [0];
    SumaAgregarUno(Valores(s), 0);
    r
  }

  /** A field of a row and its new value; the amount arrives already converted
      with `Number(valor)`. */
  datatype EdicionItem =
    | NumeroItem(n: int)
    | Donante(texto: string)
    | Documento(texto: string)
    | Medio(texto: string)
    | Valor(valor: int)
    | ReciboN(texto: string)
    | Observaciones(texto: string)

  /** `{ ...item, [campo]: valor }`: the named field takes the new value and
      every other field keeps its own. */
  function Editar(item: ItemTabla, e: EdicionItem): (r: ItemTabla)
    ensures e.NumeroItem? ==> r.item == e.n
    ensures !e.NumeroItem? ==> r.item == item.item
    ensures e.Valor? ==> r.valor == e.valor
    ensures !e.Valor? ==> r.valor == item.valor
    ensures e.Donante? ==> r.donante == e.texto
    ensures !e.Donante? ==> r.donante == item.donante
    ensures e.Documento? ==> r.documento == e.texto
    ensures !e.Documento? ==> r.documento == item.documento
    ensures e.Medio? ==> r.medio == e.texto
    ensures !e.Medio? ==> r.medio == item.medio
    ensures e.ReciboN? ==> r.reciboN == e.texto
    ensures !e.ReciboN? ==> r.reciboN == item.reciboN
    ensures e.Observaciones? ==> r.observaciones == e.texto
    ensures !e.Observaciones? ==> r.observaciones == item.observaciones
  {
    match e
    case NumeroItem(n) => item.(item := n)
    case Donante(t) => item.(donante := t)
    case Documento(t) => item.(documento := t)
    case Medio(t) => item.(medio := t)
    case Valor(v) => item.(valor := v)
    case ReciboN(t) => item.(reciboN := t)
    case Observaciones(t) => item.(observaciones := t)
  }

  /** The update handlers: only row `index` changes, and only in the named
      field; the numbering survives any edit but one of the number itself,
      and the total moves by exactly the change of that row's amount. */
  function ActualizarItem(s: seq<ItemTabla>, index: int, e: EdicionItem): (r: seq<ItemTabla>)
    requires 0 <= index < |s|
    ensures |r| == |s|
    ensures forall k :: 0 <= k < |s| && k != index ==> r[k] == s[k]
    ensures r[index] == Editar(s[index], e)
    ensures Numerado(s) && !e.NumeroItem? ==> Numerado(r)
    ensures Suma(Valores(r)) == Suma(Valores(s)) - s[index].valor + r[index].valor
  {
    var r := s[index := Editar(s[index], e)];
    assert Valores(r) == Valores(s)[index := r[index].valor];
    SumaActualizar(Valores(s), index, r[index].valor);
    r
  }
}
