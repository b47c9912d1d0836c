/** The daily-record form state of src/hooks/useRegistroDiario.ts: the list of
    records entered so far, the invoice rows, and the record being filled in.
    Each React state setter becomes an assignment to a field. The date the
    source takes from the clock (`new Date()`) is a parameter. */
module HookRegistro {
  import opened Wrappers
  import opened Tipos
  import opened Listas
  import Validacion
  import Calculos

  /** A blank form for the given date, category and signatures: no place,
      zero donation and a zero invoice. It cannot be added to the list
      before it is filled in. */
  function FormularioVacio(fecha: string, tipo: TipoParqueadero, firmas: Firmas): (r: RegistroDiario)
    ensures r.ubicacion == "" && r.donaciones == Donacion(0, 0)
    ensures r.facturaElectronica == Some(FacturaElectronica(0, 0))
    ensures r.fecha == fecha && r.tipoParqueadero == tipo && r.firmas == firmas
    ensures !Completo(r)
  {
    RegistroDiario(fecha, "", Donacion(0, 0), Some(FacturaElectronica(0, 0)), firmas, tipo)
  }

  /** The form the hook starts with and returns to on reset: category
      "carros" and no signatures. */
  function FormularioInicial(fecha: string): RegistroDiario
  {
    FormularioVacio(fecha, Carros, SinFirmas)
  }

  /** What `agregarRegistro` demands before it accepts the current form: a
      place, and a positive donation from a positive number of donors. */
  predicate Completo(r: RegistroDiario)
  {
    r.ubicacion != "" && r.donaciones.valor > 0 && r.donaciones.cantidadDonantes > 0
  }

  /** A top-level field of the form and its new value (`handleInputChange`). */
  datatype CampoFormulario =
    | Fecha(fecha: string)
    | Ubicacion(ubicacion: string)
    | Donaciones(donaciones: Donacion)
    | Factura(factura: Option<FacturaElectronica>)
    | FirmasFormulario(firmas: Firmas)
    | Tipo(tipo: TipoParqueadero)

  /** `{ ...prev, [field]: value }`: the named field takes the value and the
      other five keep theirs. */
  function Asignar(r: RegistroDiario, c: CampoFormulario): (s: RegistroDiario)
    ensures s.fecha == (if c.Fecha? then c.fecha else r.fecha)
    ensures s.ubicacion == (if c.Ubicacion? then c.ubicacion else r.ubicacion)
    ensures s.donaciones == (if c.Donaciones? then c.donaciones else r.donaciones)
    ensures s.facturaElectronica == (if c.Factura? then c.factura else r.facturaElectronica)
    ensures s.firmas == (if c.FirmasFormulario? then c.firmas else r.firmas)
    ensures s.tipoParqueadero == (if c.Tipo? then c.tipo else r.tipoParqueadero)
  {
    match c
    case Fecha(x) => r.(fecha := x)
    case Ubicacion(x) => r.(ubicacion := x)
    case Donaciones(x) => r.(donaciones := x)
    case Factura(x) => r.(facturaElectronica := x)
    case FirmasFormulario(x) => r.(firmas := x)
    case Tipo(x) => r.(tipoParqueadero := x)
  }

  /** The two fields of a donation, and of an invoice. */
  datatype CampoDonacion = Valor | CantidadDonantes
  datatype CampoFactura = ValorFactura | CantidadPersonas

  /** The state held by `useRegistroDiario`. */
  class RegistroDiarioHook {
    var registros: seq<RegistroDiario>
    var itemsFacturas: seq<ItemFactura>
    var registroActual: RegistroDiario

    /** Every record in the list passed the check of `agregarRegistro`. */
    predicate Valid()
      reads this
    {
      forall k :: 0 <= k < |registros| ==> Completo(registros[k])
    }

    /** Because every stored record is complete, none has zero donors, so on
        each of them the live check of the form and the generator give the
        same verdict. */
    lemma {:induction false} RegistrosAcordes()
      requires Valid()
      ensures forall k :: 0 <= k < |registros| ==>
        (Validacion.Validar(Validacion.Numero(registros[k].donaciones.valor),
                            Validacion.Numero(registros[k].donaciones.cantidadDonantes),
                            registros[k].tipoParqueadero).isValid
         <==> Calculos.RegistroFactible(registros[k]))
    {
      forall k | 0 <= k < |registros|
        ensures Validacion.Validar(Validacion.Numero(registros[k].donaciones.valor),
                                   Validacion.Numero(registros[k].donaciones.cantidadDonantes),
                                   registros[k].tipoParqueadero).isValid
                <==> Calculos.RegistroFactible(registros[k])
      {
        var d := registros[k].donaciones;
        Validacion.AcuerdoConGenerador(d.valor, d.cantidadDonantes, registros[k].tipoParqueadero);
      }
    }

    constructor (fecha: string)
      ensures Valid()
      ensures registros == [] && itemsFacturas == []
      ensures registroActual == FormularioInicial(fecha)
    {
      registros := [];
      itemsFacturas := [];
      registroActual := FormularioInicial(fecha);
    }

    /** `handleInputChange`: one top-level field of the form. */
    method HandleInputChange(c: CampoFormulario)
      requires Valid()
      modifies this
      ensures Valid()
      ensures registroActual == Asignar(old(registroActual), c)
      ensures registros == old(registros) && itemsFacturas == old(itemsFacturas)
    {
      registroActual := Asignar(registroActual, c);
    }

    /** `handleDonacionChange`: one field of the donation, nothing else. */
    method HandleDonacionChange(campo: CampoDonacion, valor: int)
      requires Valid()
      modifies this
      ensures Valid()
      ensures registroActual.donaciones.valor
           == (if campo == Valor then valor else old(registroActual).donaciones.valor)
      ensures registroActual.donaciones.cantidadDonantes
           == (if campo == CantidadDonantes then valor else old(registroActual).donaciones.cantidadDonantes)
      ensures registroActual == old(registroActual).(donaciones := registroActual.donaciones)
      ensures registros == old(registros) && itemsFacturas == old(itemsFacturas)
    {
      var d := registroActual.donaciones;
      var nueva := if campo == Valor then d.(valor := valor) else d.(cantidadDonantes := valor);
      registroActual := registroActual.(donaciones := nueva);
    }

    /** `handleFacturaChange`: one field of the invoice, nothing else. */
    method HandleFacturaChange(campo: CampoFactura, valor: int)
      requires Valid() && registroActual.facturaElectronica.Some?
      modifies this
      ensures Valid()
      ensures registroActual.facturaElectronica.Some?
      ensures registroActual.facturaElectronica.value.valor
           == (if campo == ValorFactura then valor else old(registroActual).facturaElectronica.value.valor)
      ensures registroActual.facturaElectronica.value.cantidadPersonas
           == (if campo == CantidadPersonas then valor
               else old(registroActual).facturaElectronica.value.cantidadPersonas)
      ensures registroActual == old(registroActual).(facturaElectronica := registroActual.facturaElectronica)
      ensures registros == old(registros) && itemsFacturas == old(itemsFacturas)
    {
      var f := registroActual.facturaElectronica.value;
      var nueva := if campo == ValorFactura then f.(valor := valor) else f.(cantidadPersonas := valor);
      registroActual := registroActual.(facturaElectronica := Some(nueva));
    }

    /** `handleItemsFacturasChange`: replaces the invoice rows. */
    method HandleItemsFacturasChange(items: seq<ItemFactura>)
      requires Valid()
      modifies this
      ensures Valid()
      ensures itemsFacturas == items
      ensures registros == old(registros) && registroActual == old(registroActual)
    {
      itemsFacturas := items;
    }

    /** `handleFirmaChange`: the signature slot of one role, nothing else. */
    method HandleFirmaChange(rol: RolFirma, firma: Option<Firma>)
      requires Valid()
      modifies this
      ensures Valid()
      ensures registroActual.firmas.Get(rol) == firma
      ensures forall otro :: otro != rol ==> registroActual.firmas.Get(otro) == old(registroActual).firmas.Get(otro)
      ensures registroActual == old(registroActual).(firmas := registroActual.firmas)
      ensures registros == old(registros) && itemsFacturas == old(itemsFacturas)
    {
      registroActual := registroActual.(firmas := registroActual.firmas.With(rol, firma));
    }

    /** `agregarRegistro`: an incomplete form is refused and nothing changes;
        a complete one is appended to the list, and the form is cleared but
        keeps its date, category and signatures. */
    method AgregarRegistro() returns (ok: bool)
      requires Valid()
      modifies this
      ensures Valid()
      ensures ok <==> Completo(old(registroActual))
      ensures !ok ==> registros == old(registros) && registroActual == old(registroActual)
      ensures ok ==> registros == old(registros) + [old(registroActual)]
      ensures ok ==> registroActual == FormularioVacio(old(registroActual).fecha,
                                                       old(registroActual).tipoParqueadero,
                                                       old(registroActual).firmas)
      ensures itemsFacturas == old(itemsFacturas)
    {
      if registroActual.ubicacion == "" || registroActual.donaciones.valor <= 0
         || registroActual.donaciones.cantidadDonantes <= 0 {
        return false;
      }
      registros := registros + [registroActual];
      registroActual := FormularioVacio(registroActual.fecha, registroActual.tipoParqueadero, registroActual.firmas);
      return true;
    }

    /** `eliminarRegistro`: drops the record at `index` and keeps the others
        in order; an index outside the list changes nothing. */
    method EliminarRegistro(index: int)
      requires Valid()
      modifies this
      ensures Valid()
      ensures registros == SinPosicion(old(registros), index)
      ensures 0 <= index < |old(registros)| ==>
        |registros| == |old(registros)| - 1
        && multiset(registros) + multiset{old(registros)[index]} == multiset(old(registros))
      ensures registroActual == old(registroActual) && itemsFacturas == old(itemsFacturas)
    {
      if 0 <= index < |registros| {
        SinPosicionMulticonjunto(registros, index);
      }
      registros := SinPosicion(registros, index);
    }

    /** `reiniciarFormulario`: empties both lists and returns the form to its
        initial defaults for the given date. */
    method ReiniciarFormulario(fecha: string)
      modifies this
      ensures Valid()
      ensures registros == [] && itemsFacturas == []
      ensures registroActual == FormularioInicial(fecha)
    {
      registros := [];
      itemsFacturas := [];
      registroActual := FormularioInicial(fecha);
    }
  }
}
