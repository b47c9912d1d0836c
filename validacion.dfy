/** The live feasibility check of src/hooks/usedonacionesvalidation.ts: the
    decision taken inside the effect of `useDonacionesValidation`, as a pure
    function of the two form fields and the parking category. The hook keeps
    its own copy of the per-donor bounds; the lemmas at the end relate its
    verdict to the generator's feasibility predicate. */
module Validacion {
  import opened Wrappers
  import opened Tipos
  import Calculos
  import Aritmetica

  const MinMotos := 300
  const MinCarros := 500
  const Max := 5000

  /** A form field after parsing: `Vacio` is every value the hook treats as
      "not filled in yet" (the empty string, the number 0, or text that does
      not parse); `Numero(n)` is a parsed integer, including 0 parsed from
      the text "0". */
  datatype Campo = Vacio | Numero(n: int)

  /** The allowed range of the total for the given number of donors. */
  datatype Rangos = Rangos(min: int, max: int)

  /** Why the hook rejects a form; the message texts are not modelled. */
  datatype ErrorValidacion =
    | CantidadNoPositiva
    | NoMultiploDe50(sugeridoAbajo: int, sugeridoArriba: int)
    | MuyBajo(minimo: int)
    | MuyAlto(maximo: int)

  /** The hook's `ValidationResult`, without the message texts. */
  datatype Resultado = Resultado(isValid: bool, error: Option<ErrorValidacion>, ranges: Option<Rangos>)

  function MinimoValidacion(tipo: TipoParqueadero): int
  {
    if tipo == Motos then MinMotos else MinCarros
  }

  /** `Math.ceil(t / 50) * 50` on integers. */
  function RedondearArriba50(t: int): int
  {
    -((-t) / 50) * 50
  }

  /** The decision of `useDonacionesValidation`. Blank fields are accepted
      without comment; a non-positive number of donors is rejected without
      ranges; then the multiple-of-50 check comes before the range checks,
      and every later outcome carries the range. */
  function Validar(total: Campo, cantidad: Campo, tipo: TipoParqueadero): (r: Resultado)
    ensures r.isValid <==> r.error.None?
    ensures total.Vacio? || cantidad.Vacio? ==> r == Resultado(true, None, None)
    ensures total.Numero? && cantidad.Numero? && cantidad.n <= 0 ==>
      r == Resultado(false, Some(CantidadNoPositiva), None)
    ensures total.Numero? && cantidad.Numero? && cantidad.n > 0 && total.n % 50 != 0 ==>
      && r.ranges.None? && r.error.Some? && r.error.value.NoMultiploDe50?
      && var e := r.error.value;
         e.sugeridoAbajo % 50 == 0 && e.sugeridoArriba % 50 == 0
         && e.sugeridoAbajo < total.n < e.sugeridoArriba
         && e.sugeridoArriba - e.sugeridoAbajo == 50
    ensures total.Numero? && cantidad.Numero? && cantidad.n > 0 && total.n % 50 == 0 ==>
      && var minimo := cantidad.n * MinimoValidacion(tipo);
         var maximo := cantidad.n * Max;
         && r.ranges == Some(Rangos(minimo, maximo))
         && (r.isValid <==> minimo <= total.n <= maximo)
         && (total.n < minimo ==> r.error == Some(MuyBajo(minimo)))
         && (total.n > maximo ==> r.error == Some(MuyAlto(maximo)))
  {
    if total.Vacio? || cantidad.Vacio? then
      Resultado(true, None, None)
    else if cantidad.n <= 0 then
      Resultado(false, Some(CantidadNoPositiva), None)
    else
      var t := total.n;
      var minPosible := cantidad.n * MinimoValidacion(tipo);
      var maxPosible := cantidad.n * Max;
      if t % 50 != 0 then
        var abajo := (t / 50) * 50;
        var arriba := RedondearArriba50(t);
        assert abajo < t < arriba && arriba - abajo == 50 by {
          Sugerencias(t);
        }
        Resultado(false, Some(NoMultiploDe50(abajo, arriba)), None)
      else if t < minPosible then
        Resultado(false, Some(MuyBajo(minPosible)), Some(Rangos(minPosible, maxPosible)))
      else if t > maxPosible then
        Resultado(false, Some(MuyAlto(maxPosible)), Some(Rangos(minPosible, maxPosible)))
      else
        Resultado(true, None, Some(Rangos(minPosible, maxPosible)))
  }

  /** For a total that is not a multiple of 50, floor and ceiling to the
      nearest multiples of 50 lie on either side of it, 50 apart. */
  lemma {:induction false} Sugerencias(t: int)
    requires t % 50 != 0
    ensures (t / 50) * 50 < t < RedondearArriba50(t)
    ensures RedondearArriba50(t) - (t / 50) * 50 == 50
  {
    var q := t / 50;
    Aritmetica.DivisionUnica(-t, 50, -q - 1, 50 - t % 50);
  }

  /** The hook and the generator agree on every pair of parsed numbers except
      zero donors with a zero total: the hook accepts exactly what
      `generarDonaciones` accepts. Both keep their own copy of the bounds. */
  lemma {:induction false} AcuerdoConGenerador(total: int, cantidad: int, tipo: TipoParqueadero)
    requires !(total == 0 && cantidad == 0)
    ensures Validar(Numero(total), Numero(cantidad), tipo).isValid <==> Calculos.Factible(total, cantidad, tipo)
    ensures Validar(Numero(total), Numero(cantidad), tipo).isValid <==> Calculos.Verificar(total, cantidad, tipo).None?
  {
    assert MinimoValidacion(tipo) == Calculos.Minimo(tipo);
    if cantidad < 0 {
      assert cantidad * Calculos.Max < cantidad * Calculos.Minimo(tipo) by {
        Aritmetica.MultiploAlejado(Calculos.Max - Calculos.Minimo(tipo), cantidad);
      }
    }
  }

  /** Zero donors with a zero total typed in: the generator returns an empty
      partition, but the hook reports a non-positive number of donors. */
  lemma {:induction false} CeroDonantes(tipo: TipoParqueadero)
    ensures Calculos.Factible(0, 0, tipo)
    ensures Validar(Numero(0), Numero(0), tipo) == Resultado(false, Some(CantidadNoPositiva), None)
  {
  }

  /** A total that is both too low and not a multiple of 50 gets different
      diagnoses: the hook checks granularity first, the generator the range. */
  lemma {:induction false} DiagnosticosDistintos(total: int, cantidad: int, tipo: TipoParqueadero)
    requires cantidad > 0 && total % 50 != 0
    requires total < cantidad * Calculos.Minimo(tipo) || total > cantidad * Calculos.Max
    ensures Validar(Numero(total), Numero(cantidad), tipo).error.value.NoMultiploDe50?
    ensures Calculos.Verificar(total, cantidad, tipo).value.TotalMuyBajo?
         || Calculos.Verificar(total, cantidad, tipo).value.TotalMuyAlto?
  {
  }

  /** The worked examples: 5025 for ten motos donors suggests 5000 or 5050;
      1025 for ten motos donors is reported by the hook as a granularity error
      and by the generator as too low. */
  lemma {:induction false} Ejemplos()
    ensures Validar(Numero(5025), Numero(10), Motos).error == Some(NoMultiploDe50(5000, 5050))
    ensures Validar(Numero(1025), Numero(10), Motos).error == Some(NoMultiploDe50(1000, 1050))
    ensures Calculos.Verificar(1025, 10, Motos) == Some(Calculos.TotalMuyBajo(1025, 10, 3000))
    ensures Validar(Numero(5000), Numero(10), Carros)
         == Resultado(true, None, Some(Rangos(5000, 50000)))
  {
  }
}
