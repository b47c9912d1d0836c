/** The electronic-invoice section (src/components/SeccionFacturasElectronicas.tsx):
    the per-person share of the invoice, the automatic generation of one
    equal-valued row per person, and the on/off switch. The section owns only
    the switch; the rows belong to its parent and every handler hands the new
    list back, so the delete, update and append handlers are the list
    functions of `Items`. */
module Facturas {
  import opened Tipos
  import opened Aritmetica
  import opened Items

  /** `calcularValorPorPersona`: the invoice amount divided by the number of
      people, rounded to the nearest integer with halves upwards; 0 when
      there are no people. */
  function CalcularValorPorPersona(f: FacturaElectronica): (r: int)
    ensures f.cantidadPersonas == 0 ==> r == 0
    ensures f.cantidadPersonas > 0 ==>
      2 * r * f.cantidadPersonas - f.cantidadPersonas <= 2 * f.valor < 2 * r * f.cantidadPersonas + f.cantidadPersonas
    ensures f.cantidadPersonas < 0 ==>
      2 * r * f.cantidadPersonas + f.cantidadPersonas < 2 * f.valor <= 2 * r * f.cantidadPersonas - f.cantidadPersonas
  {
    if f.cantidadPersonas == 0 then 0 else RedondearCociente(f.valor, f.cantidadPersonas)
  }

  /** The row generated for person `numero` with share `valor`. */
  function ItemFacturaAutomatico(numero: int, valor: int): ItemFactura
  {
    NuevoItem(numero, MedioFactura).(valor := valor)
  }

  /** `generarItemsAutomatico`: one row per person, numbered 1..n, all with
      the same share. Their sum is the invoice amount up to the rounding of
      the share: it lies within half the number of people of it, and is
      exact when the division is. */
  method GenerarItemsAutomatico(f: FacturaElectronica) returns (items: seq<ItemFactura>)
    ensures |items| == if f.cantidadPersonas > 0 then f.cantidadPersonas else 0
    ensures Numerado(items)
    ensures forall k :: 0 <= k < |items| ==>
      items[k] == ItemFacturaAutomatico(k + 1, CalcularValorPorPersona(f))
    ensures f.cantidadPersonas > 0 ==>
      2 * Suma(Valores(items)) - f.cantidadPersonas <= 2 * f.valor < 2 * Suma(Valores(items)) + f.cantidadPersonas
    ensures f.cantidadPersonas > 0 && f.valor % f.cantidadPersonas == 0 ==> Suma(Valores(items)) == f.valor
  {
    var valorPorPersona := CalcularValorPorPersona(f);
    items := [];
    var i := 0;
    while i < f.cantidadPersonas
      invariant 0 <= i && (if f.cantidadPersonas > 0 then i <= f.cantidadPersonas else i == 0)
      invariant |items| == i
      invariant forall k :: 0 <= k < i ==> items[k] == ItemFacturaAutomatico(k + 1, valorPorPersona)
    {
      items := items + [ItemFacturaAutomatico(i + 1, valorPorPersona)];
      i := i + 1;
    }
    SumaConstante(Valores(items), valorPorPersona);
    if f.cantidadPersonas > 0 {
      SumaDeCuotas(f, Suma(Valores(items)));
    }
  }

  /** `n` equal shares of the rounded quotient approximate the invoice
      amount within n/2, exactly when the division is exact. */
  lemma {:induction false} SumaDeCuotas(f: FacturaElectronica, suma: int)
    requires f.cantidadPersonas > 0
    requires suma == f.cantidadPersonas * CalcularValorPorPersona(f)
    ensures 2 * suma - f.cantidadPersonas <= 2 * f.valor < 2 * suma + f.cantidadPersonas
    ensures f.valor % f.cantidadPersonas == 0 ==> suma == f.valor
  {
    var n, r := f.cantidadPersonas, CalcularValorPorPersona(f);
    assert 2 * r * n == 2 * suma;
    if f.valor % n == 0 {
      RedondearExacto(f.valor, n);
    }
  }

  /** The section's own state: whether the invoice rows are switched on. */
  class SeccionFacturas {
    var habilitado: bool

    constructor ()
      ensures !habilitado
    {
      habilitado := false;
    }

    /** `handleToggle`: flips the switch; switching on hands back freshly
        generated rows, switching off hands back the empty list. */
    method HandleToggle(f: FacturaElectronica) returns (nuevosItems: seq<ItemFactura>)
      modifies this
      ensures habilitado == !old(habilitado)
      ensures old(habilitado) ==> nuevosItems == []
      ensures !old(habilitado) ==>
        && |nuevosItems| == (if f.cantidadPersonas > 0 then f.cantidadPersonas else 0)
        && Numerado(nuevosItems)
        && forall k :: 0 <= k < |nuevosItems| ==>
             nuevosItems[k] == ItemFacturaAutomatico(k + 1, CalcularValorPorPersona(f))
    {
      var estaba := habilitado;
      habilitado := !habilitado;
      if !estaba {
        nuevosItems := GenerarItemsAutomatico(f);
      } else {
        nuevosItems := [];
      }
    }
  }

  /** The worked example: 100000 over three people gives 33333 each, and the
      three rows add up to 99999. */
  method EjemploTresPersonas() returns (items: seq<ItemFactura>)
    ensures |items| == 3 && Suma(Valores(items)) == 99999
  {
    items := GenerarItemsAutomatico(FacturaElectronica(100000, 3));
    assert CalcularValorPorPersona(FacturaElectronica(100000, 3)) == 33333;
    SumaConstante(Valores(items), 33333);
  }
}
