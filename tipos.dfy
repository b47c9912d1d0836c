/** The records of the application (src/types/index.ts) as values. */
module Tipos {
  import opened Wrappers

  /** The two parking categories a daily record belongs to. */
  datatype TipoParqueadero = Motos | Carros

  /** The three roles that sign a report. */
  datatype RolFirma = Trabajador | Supervisor | Responsable

  datatype Donacion = Donacion(valor: int, cantidadDonantes: int)

  datatype FacturaElectronica = FacturaElectronica(valor: int, cantidadPersonas: int)

  datatype Firma = Firma(nombre: string, tipo: RolFirma, ruta: string, publicId: Option<string>)

  /** One optional signature per role; `null` in the source is `None`. */
  datatype Firmas = Firmas(trabajador: Option<Firma>, supervisor: Option<Firma>, responsable: Option<Firma>)
  {
    /** The slot for `rol` (the source's `firmas[tipo]`). */
    function Get(rol: RolFirma): Option<Firma>
    {
      match rol
      case Trabajador => trabajador
      case Supervisor => supervisor
      case Responsable => responsable
    }

    /** `{ ...firmas, [rol]: firma }`: replaces one slot and keeps the other two. */
    function With(rol: RolFirma, firma: Option<Firma>): (r: Firmas)
      ensures r.Get(rol) == firma
      ensures forall otro :: otro != rol ==> r.Get(otro) == Get(otro)
    {
      match rol
      case Trabajador => this.(trabajador := firma)
      case Supervisor => this.(supervisor := firma)
      case Responsable => this.(responsable := firma)
    }
  }

  const SinFirmas := Firmas(None, None, None)

  datatype RegistroDiario = RegistroDiario(
    fecha: string,
    ubicacion: string,
    donaciones: Donacion,
    facturaElectronica: Option<FacturaElectronica>,
    firmas: Firmas,
    tipoParqueadero: TipoParqueadero)

  /** One row of the printed ledger. */
  datatype ItemTabla = ItemTabla(
    item: int,
    donante: string,
    documento: string,
    medio: string,
    valor: int,
    reciboN: string,
    observaciones: string)

  /** The invoice row has exactly the fields of a ledger row. */
  type ItemFactura = ItemTabla

  /** Rows numbered 1, 2, ..., n in order. */
  ghost predicate Numerado(items: seq<ItemTabla>)
  {
    forall k :: 0 <= k < |items| ==> items[k].item == k + 1
  }

  /** The amounts of the rows, in order. */
  function Valores(items: seq<ItemTabla>): (r: seq<int>)
    ensures |r| == |items|
    ensures forall k :: 0 <= k < |items| ==> r[k] == items[k].valor
  {
    seq(|items|, k requires 0 <= k < |items| => items[k].valor)
  }

  lemma {:induction false} ValoresConcatenar(a: seq<ItemTabla>, b: seq<ItemTabla>)
    ensures Valores(a + b) == Valores(a) + Valores(b)
  {
  }
}
