/** The report view with its editing panel (src/components/InformeConPanelEdicion.tsx,
    state and handlers only). The component keeps a saved copy and an
    editable copy of the donation rows and of the invoice rows; the panel
    edits the editable copies, saving copies them over the saved ones and
    cancelling throws them away. The records received from the parent are
    never changed here. The `confirm` dialog is a boolean argument and the
    signatures on offer are a parameter. */
module Informe {
  import opened Wrappers
  import opened Tipos
  import opened Aritmetica
  import Calculos
  import Items

  /** `firmas[tipo].find(f => f.nombre === nombre) || null`: the first
      signature on offer with that name, or none. */
  function BuscarFirma(disponibles: seq<Firma>, nombre: string): (r: Option<Firma>)
    ensures r.None? <==> forall k :: 0 <= k < |disponibles| ==> disponibles[k].nombre != nombre
    ensures r.Some? ==>
      exists k :: 0 <= k < |disponibles| && disponibles[k] == r.value && r.value.nombre == nombre
        && forall j :: 0 <= j < k ==> disponibles[j].nombre != nombre
  {
    if |disponibles| == 0 then None
    else if disponibles[0].nombre == nombre then Some(disponibles[0])
    else
      var r := BuscarFirma(disponibles[1..], nombre);
      assert r.Some? ==> (exists k :: 0 <= k < |disponibles| && disponibles[k] == r.value && r.value.nombre == nombre
                                      && forall j :: 0 <= j < k ==> disponibles[j].nombre != nombre) by {
        if r.Some? {
          var k :| 0 <= k < |disponibles[1..]| && disponibles[1..][k] == r.value && r.value.nombre == nombre
            && forall j :: 0 <= j < k ==> disponibles[1..][j].nombre != nombre;
          assert disponibles[k + 1] == r.value;
          assert forall j :: 0 <= j < k + 1 ==> disponibles[j].nombre != nombre by {
            forall j | 0 <= j < k + 1 ensures disponibles[j].nombre != nombre {
              if j > 0 { assert disponibles[j] == disponibles[1..][j - 1]; }
            }
          }
        }
      }
      assert r.None? ==> forall k :: 0 <= k < |disponibles| ==> disponibles[k].nombre != nombre by {
        if r.None? {
          forall k | 0 <= k < |disponibles| ensures disponibles[k].nombre != nombre {
            if k > 0 { assert disponibles[k] == disponibles[1..][k - 1]; }
          }
        }
      }
      r
  }

  /** A field of a record the panel can edit, with its new value; the amounts
      arrive already converted with `Number(valor)`. Any other field name
      (`Otro`) is ignored. */
  datatype CampoRegistro =
    | Fecha(fecha: string)
    | Ubicacion(ubicacion: string)
    | TipoParqueadero(tipo: Tipos.TipoParqueadero)
    | ValorDonacion(valor: int)
    | CantidadDonantes(cantidad: int)
    | Otro

  /** The edit of `handleActualizarRegistro` on one record: the named field
      changes, every other field and the other half of the donation keep
      their values, and `Otro` changes nothing. */
  function EditarRegistro(r: RegistroDiario, campo: CampoRegistro): (s: RegistroDiario)
    ensures campo.Otro? ==> s == r
    ensures s.fecha == (if campo.Fecha? then campo.fecha else r.fecha)
    ensures s.ubicacion == (if campo.Ubicacion? then campo.ubicacion else r.ubicacion)
    ensures s.tipoParqueadero == (if campo.TipoParqueadero? then campo.tipo else r.tipoParqueadero)
    ensures s.donaciones.valor == (if campo.ValorDonacion? then campo.valor else r.donaciones.valor)
    ensures s.donaciones.cantidadDonantes
         == (if campo.CantidadDonantes? then campo.cantidad else r.donaciones.cantidadDonantes)
    ensures s.facturaElectronica == r.facturaElectronica && s.firmas == r.firmas
  {
    match campo
    case Fecha(x) => r.(fecha := x)
    case Ubicacion(x) => r.(ubicacion := x)
    case TipoParqueadero(x) => r.(tipoParqueadero := x)
    case ValorDonacion(x) => r.(donaciones := r.donaciones.(valor := x))
    case CantidadDonantes(x) => r.(donaciones := r.donaciones.(cantidadDonantes := x))
    case Otro => r
  }

  class InformeConPanelEdicion {
    const registros: seq<RegistroDiario>
    var panelAbierto: bool
    var registrosEditables: seq<RegistroDiario>
    var itemsEditables: seq<ItemTabla>
    var itemsGuardados: seq<ItemTabla>
    var itemsFacturasEditables: seq<ItemFactura>
    var itemsFacturasGuardados: seq<ItemFactura>

    /** The donation rows on screen: the editable copy while the panel is
        open, the saved copy otherwise. */
    function ItemsEnPantalla(): seq<ItemTabla>
      reads this
    {
      if panelAbierto then itemsEditables else itemsGuardados
    }

    /** The invoice rows on screen, chosen the same way. */
    function ItemsFacturasEnPantalla(): seq<ItemFactura>
      reads this
    {
      if panelAbierto then itemsFacturasEditables else itemsFacturasGuardados
    }

    /** The shift total on screen: donation rows plus invoice rows. */
    function TotalTurno(): int
      reads this
    {
      Suma(Valores(ItemsEnPantalla())) + Suma(Valores(ItemsFacturasEnPantalla()))
    }

    /** The first record on screen (the one whose signatures are printed). */
    function PrimerRegistro(): (r: Option<RegistroDiario>)
      reads this
      ensures r.Some? <==> |if panelAbierto then registrosEditables else registros| > 0
    {
      var lista := if panelAbierto then registrosEditables else registros;
      if |lista| > 0 then Some(lista[0]) else None
    }

    /** Mounting: both copies of the donation rows are generated from the
        records, each by its own run of the random generator, so both are
        valid tables of the records that may still differ; the invoice rows
        are taken as given. The table is only built when every record is one
        the generator accepts. */
    constructor (registros: seq<RegistroDiario>, itemsFacturas: seq<ItemFactura>)
      requires Calculos.Aceptados(registros)
      ensures this.registros == registros && !panelAbierto
      ensures registrosEditables == registros
      ensures itemsFacturasEditables == itemsFacturas && itemsFacturasGuardados == itemsFacturas
      ensures |itemsEditables| == |itemsGuardados| == Calculos.TotalDonantes(registros)
      ensures Calculos.FilasDonacion(itemsEditables) && Calculos.FilasDonacion(itemsGuardados)
      ensures Suma(Valores(itemsEditables)) == Calculos.CalcularTotalDonaciones(registros)
      ensures TotalTurno() == Calculos.CalcularTotalDonaciones(registros) + Suma(Valores(itemsFacturas))
    {
      this.registros := registros;
      panelAbierto := false;
      registrosEditables := registros;
      var editables, guardados;
      ghost var particiones;
      editables, particiones := Calculos.GenerarItemsTabla(registros);
      guardados, particiones := Calculos.GenerarItemsTabla(registros);
      itemsEditables := editables.value;
      itemsGuardados := guardados.value;
      itemsFacturasEditables := itemsFacturas;
      itemsFacturasGuardados := itemsFacturas;
    }

    /** `handleAbrirPanel`: the editable copies start from the saved copies
        and the records received, so opening does not change what is shown. */
    method AbrirPanel()
      modifies this
      ensures panelAbierto
      ensures registrosEditables == registros
      ensures itemsEditables == itemsGuardados == old(itemsGuardados)
      ensures itemsFacturasEditables == itemsFacturasGuardados == old(itemsFacturasGuardados)
      ensures !old(panelAbierto) ==> ItemsEnPantalla() == old(ItemsEnPantalla()) && TotalTurno() == old(TotalTurno())
      ensures !old(panelAbierto) ==> PrimerRegistro() == old(PrimerRegistro())
    {
      registrosEditables := registros;
      itemsEditables := itemsGuardados;
      itemsFacturasEditables := itemsFacturasGuardados;
      panelAbierto := true;
    }

    /** `handleGuardarCambios`: the saved copies become the editable ones, the
        panel closes, and the edited records and rows are handed to the
        parent. What is shown does not change. */
    method GuardarCambios() returns (registrosActualizados: seq<RegistroDiario>,
                                     itemsActualizados: seq<ItemTabla>,
                                     itemsFacturasActualizados: seq<ItemFactura>)
      modifies this
      ensures !panelAbierto
      ensures itemsGuardados == itemsEditables == old(itemsEditables)
      ensures itemsFacturasGuardados == itemsFacturasEditables == old(itemsFacturasEditables)
      ensures registrosEditables == old(registrosEditables)
      ensures registrosActualizados == registrosEditables && itemsActualizados == itemsEditables
      ensures itemsFacturasActualizados == itemsFacturasEditables
      ensures old(panelAbierto) ==> ItemsEnPantalla() == old(ItemsEnPantalla()) && TotalTurno() == old(TotalTurno())
      ensures PrimerRegistro() == if |registros| > 0 then Some(registros[0]) else None
    {
      itemsGuardados := itemsEditables;
      itemsFacturasGuardados := itemsFacturasEditables;
      registrosActualizados, itemsActualizados, itemsFacturasActualizados :=
        registrosEditables, itemsEditables, itemsFacturasEditables;
      panelAbierto := false;
    }

    /** `handleCancelar`: the edits are discarded, the saved copies are kept,
        and the panel closes. */
    method Cancelar()
      modifies this
      ensures !panelAbierto
      ensures registrosEditables == registros
      ensures itemsGuardados == old(itemsGuardados) && itemsEditables == itemsGuardados
      ensures itemsFacturasGuardados == old(itemsFacturasGuardados) && itemsFacturasEditables == itemsFacturasGuardados
      ensures ItemsEnPantalla() == old(itemsGuardados) && ItemsFacturasEnPantalla() == old(itemsFacturasGuardados)
      ensures PrimerRegistro() == if |registros| > 0 then Some(registros[0]) else None
    {
      registrosEditables := registros;
      itemsEditables := itemsGuardados;
      itemsFacturasEditables := itemsFacturasGuardados;
      panelAbierto := false;
    }

    /** `handleActualizarRegistro`: one field of one editable record. */
    method ActualizarRegistro(index: int, campo: CampoRegistro)
      requires campo.Otro? || 0 <= index < |registrosEditables|
      modifies this
      ensures campo.Otro? ==> registrosEditables == old(registrosEditables)
      ensures !campo.Otro? ==>
        registrosEditables == old(registrosEditables)[index := EditarRegistro(old(registrosEditables)[index], campo)]
      ensures panelAbierto == old(panelAbierto)
      ensures itemsEditables == old(itemsEditables) && itemsGuardados == old(itemsGuardados)
      ensures itemsFacturasEditables == old(itemsFacturasEditables)
      ensures itemsFacturasGuardados == old(itemsFacturasGuardados)
    {
      if !campo.Otro? {
        registrosEditables := registrosEditables[index := EditarRegistro(registrosEditables[index], campo)];
      }
    }

    /** `handleRegenerarTabla`: new editable donation rows from the edited
        records; when some record is one the generator rejects, the handler
        fails and nothing changes. */
    method RegenerarTabla() returns (error: Option<Calculos.DonacionError>)
      modifies this
      ensures error.None? <==> Calculos.Aceptados(old(registrosEditables))
      ensures error.None? ==>
        && |itemsEditables| == Calculos.TotalDonantes(registrosEditables)
        && Calculos.FilasDonacion(itemsEditables)
        && Suma(Valores(itemsEditables)) == Calculos.CalcularTotalDonaciones(registrosEditables)
      ensures error.Some? ==> itemsEditables == old(itemsEditables)
      ensures panelAbierto == old(panelAbierto) && registrosEditables == old(registrosEditables)
      ensures itemsGuardados == old(itemsGuardados)
      ensures itemsFacturasEditables == old(itemsFacturasEditables)
      ensures itemsFacturasGuardados == old(itemsFacturasGuardados)
    {
      var r;
      ghost var particiones;
      r, particiones := Calculos.GenerarItemsTabla(registrosEditables);
      if r.Err? {
        return Some(r.error);
      }
      itemsEditables := r.value;
      return None;
    }

    /** `handleActualizarItem`: one field of one editable donation row. */
    method ActualizarItem(index: int, e: Items.EdicionItem)
      requires 0 <= index < |itemsEditables|
      modifies this
      ensures itemsEditables == Items.ActualizarItem(old(itemsEditables), index, e)
      ensures panelAbierto == old(panelAbierto) && registrosEditables == old(registrosEditables)
      ensures itemsGuardados == old(itemsGuardados)
      ensures itemsFacturasEditables == old(itemsFacturasEditables)
      ensures itemsFacturasGuardados == old(itemsFacturasGuardados)
    {
      itemsEditables := Items.ActualizarItem(itemsEditables, index, e);
    }

    /** `handleEliminarItem`: when confirmed, drops one editable donation row
        and renumbers the rest. */
    method EliminarItem(index: int, confirmado: bool)
      modifies this
      ensures itemsEditables == if confirmado then Items.EliminarItem(old(itemsEditables), index) else old(itemsEditables)
      ensures panelAbierto == old(panelAbierto) && registrosEditables == old(registrosEditables)
      ensures itemsGuardados == old(itemsGuardados)
      ensures itemsFacturasEditables == old(itemsFacturasEditables)
      ensures itemsFacturasGuardados == old(itemsFacturasGuardados)
    {
      if confirmado {
        itemsEditables := Items.EliminarItem(itemsEditables, index);
      }
    }

    /** `handleAgregarItem`: appends a blank cash row. */
    method AgregarItem()
      modifies this
      ensures itemsEditables == Items.AgregarItem(old(itemsEditables), Items.MedioEfectivo)
      ensures panelAbierto == old(panelAbierto) && registrosEditables == old(registrosEditables)
      ensures itemsGuardados == old(itemsGuardados)
      ensures itemsFacturasEditables == old(itemsFacturasEditables)
      ensures itemsFacturasGuardados == old(itemsFacturasGuardados)
    {
      itemsEditables := Items.AgregarItem(itemsEditables, Items.MedioEfectivo);
    }

    /** `handleActualizarItemFactura`: one field of one editable invoice row. */
    method ActualizarItemFactura(index: int, e: Items.EdicionItem)
      requires 0 <= index < |itemsFacturasEditables|
      modifies this
      ensures itemsFacturasEditables == Items.ActualizarItem(old(itemsFacturasEditables), index, e)
      ensures panelAbierto == old(panelAbierto) && registrosEditables == old(registrosEditables)
      ensures itemsEditables == old(itemsEditables) && itemsGuardados == old(itemsGuardados)
      ensures itemsFacturasGuardados == old(itemsFacturasGuardados)
    {
      itemsFacturasEditables := Items.ActualizarItem(itemsFacturasEditables, index, e);
    }

    /** `handleEliminarItemFactura`: when confirmed, drops one editable
        invoice row and renumbers the rest. */
    method EliminarItemFactura(index: int, confirmado: bool)
      modifies this
      ensures itemsFacturasEditables ==
        if confirmado then Items.EliminarItem(old(itemsFacturasEditables), index) else old(itemsFacturasEditables)
      ensures panelAbierto == old(panelAbierto) && registrosEditables == old(registrosEditables)
      ensures itemsEditables == old(itemsEditables) && itemsGuardados == old(itemsGuardados)
      ensures itemsFacturasGuardados == old(itemsFacturasGuardados)
    {
      if confirmado {
        itemsFacturasEditables := Items.EliminarItem(itemsFacturasEditables, index);
      }
    }

    /** `handleAgregarItemFactura`: appends a blank invoice row. */
    method AgregarItemFactura()
      modifies this
      ensures itemsFacturasEditables == Items.AgregarItem(old(itemsFacturasEditables), Items.MedioFactura)
      ensures panelAbierto == old(panelAbierto) && registrosEditables == old(registrosEditables)
      ensures itemsEditables == old(itemsEditables) && itemsGuardados == old(itemsGuardados)
      ensures itemsFacturasGuardados == old(itemsFacturasGuardados)
    {
      itemsFacturasEditables := Items.AgregarItem(itemsFacturasEditables, Items.MedioFactura);
    }

    /** `handleCambiarFirma`: the signature slot of one role in the first
        editable record becomes the first signature on offer with that name,
        or empty when there is none; nothing else changes. */
    method CambiarFirma(rol: RolFirma, nombre: string, disponibles: seq<Firma>)
      requires |registrosEditables| > 0
      modifies this
      ensures |registrosEditables| == |old(registrosEditables)|
      ensures registrosEditables[0].firmas.Get(rol) == BuscarFirma(disponibles, nombre)
      ensures forall otro :: otro != rol ==>
        registrosEditables[0].firmas.Get(otro) == old(registrosEditables)[0].firmas.Get(otro)
      ensures registrosEditables[0] == old(registrosEditables)[0].(firmas := registrosEditables[0].firmas)
      ensures registrosEditables[1..] == old(registrosEditables)[1..]
      ensures panelAbierto == old(panelAbierto)
      ensures itemsEditables == old(itemsEditables) && itemsGuardados == old(itemsGuardados)
      ensures itemsFacturasEditables == old(itemsFacturasEditables)
      ensures itemsFacturasGuardados == old(itemsFacturasGuardados)
      ensures panelAbierto ==> PrimerRegistro().Some? && PrimerRegistro().value.firmas.Get(rol) == BuscarFirma(disponibles, nombre)
    {
      var firma := BuscarFirma(disponibles, nombre);
      var primero := registrosEditables[0];
      registrosEditables := registrosEditables[0 := primero.(firmas := primero.firmas.With(rol, firma))];
    }
  }
}
