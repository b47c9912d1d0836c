/** The donation-splitting engine of src/utils/calculosInforme.ts: the
    feasibility checks, the randomised partition of a total into per-donor
    amounts, the Fisher-Yates shuffle, the flattening of several daily records
    into numbered ledger rows, and the totals.

    `Math.random()` is modelled by an arbitrary choice (`:|`) of an index in
    the range the source computes, so every property below holds for every
    sequence of random draws. */
module Calculos {
  import opened Wrappers
  import opened Tipos
  import opened Aritmetica

  const MinMotos := 300
  const MinCarros := 500
  const Max := 5000

  /** Curated "natural" cash amounts per category; repeated entries make an
      amount more likely to be drawn. */
  const ValoresMotos: seq<int> := [
    300, 300, 350, 400, 450, 500, 500, 500, 550, 600, 650, 700, 750, 800, 900, 950,
    1000, 1000, 1000,
    1500, 2000,
    2500, 3000,
    4000, 5000]

  const ValoresCarros: seq<int> := [
    500, 700, 1000, 1000, 1000, 1250, 1500,
    2000, 2000, 2000, 2000, 2000, 2000, 2500,
    3000, 3000,
    4000, 4000,
    5000]

  /** The per-donor minimum of a category. */
  function Minimo(tipo: TipoParqueadero): (m: int)
    ensures m % 50 == 0 && 0 < m < Max
  {
    if tipo == Motos then MinMotos else MinCarros
  }

  /** The curated table of a category: every entry is a multiple of 50 and lies
      within the per-donor bounds, so an extra `v - MIN` never leaves them. */
  function ValoresBase(tipo: TipoParqueadero): (r: seq<int>)
    ensures forall k :: 0 <= k < |r| ==> r[k] % 50 == 0 && Minimo(tipo) <= r[k] <= Max
  {
    if tipo == Motos then ValoresMotos else ValoresCarros
  }

  /** The `DonacionError` kinds with their numeric details (the message texts
      are not modelled). */
  datatype DonacionError =
    | TotalMuyBajo(total: int, cantidad: int, minimo: int)
    | TotalMuyAlto(total: int, cantidad: int, maximo: int)
    | NoMultiploDe50(total: int, redondeado: int)

  /** The requests the generator accepts. */
  predicate Factible(total: int, cantidad: int, tipo: TipoParqueadero)
  {
    cantidad * Minimo(tipo) <= total <= cantidad * Max && total % 50 == 0
  }

  /** Every amount a multiple of 50 within [minimo, 5000]. */
  predicate EnRango(s: seq<int>, minimo: int)
  {
    forall k :: 0 <= k < |s| ==> minimo <= s[k] <= Max && s[k] % 50 == 0
  }

  /** Adding an extra that fits the slot's headroom keeps every amount in range
      and raises the sum by exactly the extra. */
  lemma {:induction false} AnadirExtra(s: seq<int>, i: nat, extra: int, minimo: int)
    requires i < |s| && EnRango(s, minimo)
    requires 0 <= extra <= Max - s[i] && extra % 50 == 0
    ensures EnRango(s[i := s[i] + extra], minimo)
    ensures Suma(s[i := s[i] + extra]) == Suma(s) + extra
  {
    Multiplos50(s[i], extra);
    SumaActualizar(s, i, s[i] + extra);
  }

  /** The state of the allocation loop: the amounts so far and what remains
      still make up `total`, and every amount is in range. */
  predicate EstadoReparto(s: seq<int>, restante: int, total: int, minimo: int)
  {
    0 <= restante && restante % 50 == 0 && Suma(s) + restante == total && EnRango(s, minimo)
  }

  /** One allocation step keeps the loop state. */
  lemma {:induction false} PasoReparto(s: seq<int>, i: nat, extra: int, restante: int, total: int, minimo: int)
    requires EstadoReparto(s, restante, total, minimo) && i < |s|
    requires 0 <= extra <= Max - s[i] && extra <= restante && extra % 50 == 0
    ensures EstadoReparto(s[i := s[i] + extra], restante - extra, total, minimo)
  {
    AnadirExtra(s, i, extra, minimo);
    Multiplos50(restante, extra);
  }

  /** What a successful result promises: `cantidad` amounts, each a multiple of
      50 within the category's bounds, summing exactly to `total`. */
  predicate Particion(s: seq<int>, total: int, cantidad: int, tipo: TipoParqueadero)
  {
    && |s| == cantidad
    && Suma(s) == total
    && forall k :: 0 <= k < |s| ==> Minimo(tipo) <= s[k] <= Max && s[k] % 50 == 0
  }

  lemma {:induction false} Multiplos50(a: int, b: int)
    requires a % 50 == 0 && b % 50 == 0
    ensures (a + b) % 50 == 0 && (a - b) % 50 == 0
  {
    DivisionUnica(a + b, 50, a / 50 + b / 50, 0);
    DivisionUnica(a - b, 50, a / 50 - b / 50, 0);
  }

  lemma {:induction false} ProductoMultiplo50(n: int, m: int)
    requires m % 50 == 0
    ensures (n * m) % 50 == 0
  {
    var q := m / 50;
    assert n * m == 50 * (n * q);
    DivisionUnica(n * m, 50, n * q, 0);
  }

  /** A feasible request has a non-negative count, and a count of zero only
      with a total of zero. */
  lemma {:induction false} FactibleCantidad(total: int, cantidad: int, tipo: TipoParqueadero)
    requires Factible(total, cantidad, tipo)
    ensures cantidad >= 0
    ensures cantidad == 0 ==> total == 0
  {
    var d := Max - Minimo(tipo);
    assert cantidad * Max - cantidad * Minimo(tipo) == cantidad * d;
    MultiploAlejado(d, cantidad);
  }

  /** The checks made before any amount is generated: the two range checks,
      in that order, and then the granularity check. */
  function Verificar(total: int, cantidad: int, tipo: TipoParqueadero): (r: Option<DonacionError>)
    ensures r.None? <==> Factible(total, cantidad, tipo)
    ensures total < cantidad * Minimo(tipo) ==>
      r == Some(TotalMuyBajo(total, cantidad, cantidad * Minimo(tipo)))
    ensures cantidad * Minimo(tipo) <= total && total > cantidad * Max ==>
      r == Some(TotalMuyAlto(total, cantidad, cantidad * Max))
    ensures r.Some? && r.value.NoMultiploDe50? ==>
      && cantidad * Minimo(tipo) <= total <= cantidad * Max
      && r.value.total == total
      && r.value.redondeado % 50 == 0
      && -25 < r.value.redondeado - total <= 25
    ensures cantidad * Minimo(tipo) <= total <= cantidad * Max && total % 50 != 0 ==>
      r == Some(NoMultiploDe50(total, RedondearCociente(total, 50) * 50))
  {
    var minPosible := cantidad * Minimo(tipo);
    var maxPosible := cantidad * Max;
    if total < minPosible then
      Some(TotalMuyBajo(total, cantidad, minPosible))
    else if total > maxPosible then
      Some(TotalMuyAlto(total, cantidad, maxPosible))
    else if total % 50 != 0 then
      Some(NoMultiploDe50(total, RedondearCociente(total, 50) * 50))
    else
      None
  }

  /** The candidate extras for one slot: `v - MIN` for every table entry `v`
      above MIN, kept when it fits both the slot's headroom and what remains
      (the filter/map/filter chain of the source, in table order). */
  function Posibles(base: seq<int>, minimo: int, maxExtra: int, restante: int): (r: seq<int>)
    ensures |r| <= |base|
    ensures forall k :: 0 <= k < |r| ==>
      && 0 < r[k] <= maxExtra && r[k] <= restante
      && exists j :: 0 <= j < |base| && base[j] == r[k] + minimo
  {
    if |base| == 0 then []
    else
      var resto := Posibles(base[1..], minimo, maxExtra, restante);
      var extra := base[0] - minimo;
      if base[0] > minimo && extra <= maxExtra && extra <= restante then [extra] + resto else resto
  }

  /** Every table entry whose extra fits is among the candidates. */
  lemma {:induction false} PosiblesCompletos(base: seq<int>, minimo: int, maxExtra: int, restante: int, j: nat)
    requires j < |base| && base[j] > minimo
    requires base[j] - minimo <= maxExtra && base[j] - minimo <= restante
    ensures base[j] - minimo in Posibles(base, minimo, maxExtra, restante)
  {
    var resto := Posibles(base[1..], minimo, maxExtra, restante);
    if j == 0 {
      assert Posibles(base, minimo, maxExtra, restante) == [base[0] - minimo] + resto;
    } else {
      assert base[1..][j - 1] == base[j];
      PosiblesCompletos(base[1..], minimo, maxExtra, restante, j - 1);
      assert base[j] - minimo in resto;
    }
  }

  /** `generarDonaciones`: rejects an infeasible request with the first failing
      check, and otherwise returns a partition of `total` (shuffled). */
  method GenerarDonaciones(total: int, cantidad: int, tipo: TipoParqueadero)
    returns (r: Result<seq<int>, DonacionError>)
    ensures r.Err? <==> !Factible(total, cantidad, tipo)
    ensures r.Err? ==> Verificar(total, cantidad, tipo) == Some(r.error)
    ensures r.Ok? ==> Particion(r.value, total, cantidad, tipo)
  {
    var error := Verificar(total, cantidad, tipo);
    if error.Some? {
      return Err(error.value);
    }
    var donaciones := Repartir(total, cantidad, tipo);
    var mezcladas := ShuffleArray(donaciones);
    ParticionPermutada(donaciones[..], mezcladas[..], total, cantidad, tipo);
    r := Ok(mezcladas[..]);
  }

  /** The allocation phase of `generarDonaciones`: every donor starts at the
      minimum, then the slots are visited circularly, each receiving an extra,
      until nothing remains. The loop ends because the remainder drops at
      least once in every `cantidad` consecutive steps: a step adds 0 only to
      a slot already at 5000, and some slot is below 5000 while something
      remains. */
  method Repartir(total: int, cantidad: int, tipo: TipoParqueadero) returns (donaciones: array<int>)
    requires Factible(total, cantidad, tipo)
    ensures fresh(donaciones)
    ensures Particion(donaciones[..], total, cantidad, tipo)
  {
    FactibleCantidad(total, cantidad, tipo);
    var minimo := Minimo(tipo);
    var base := ValoresBase(tipo);

    donaciones := new int[cantidad](_ => minimo);
    var restante := total - cantidad * minimo;
    EstadoInicial(donaciones[..], total, tipo);

    var i := 0;
    // A slot that still has room; one exists while something remains.
    ghost var abierto := 0;
    while restante > 0
      invariant donaciones.Length == cantidad
      invariant EstadoReparto(donaciones[..], restante, total, minimo)
      invariant cantidad == 0 ==> restante == 0
      invariant 0 <= i && (cantidad > 0 ==> i < cantidad)
      invariant restante > 0 ==> 0 <= abierto < cantidad && donaciones[abierto] < Max
      decreases restante, if i <= abierto then abierto - i else abierto + cantidad - i
    {
      var extra := DarExtra(donaciones, i, base, minimo, restante, total);
      restante := restante - extra;
      SiguienteCircular(i, cantidad);
      i := (i + 1) % cantidad;

      if restante > 0 && extra > 0 {
        ExisteMenor(donaciones[..], Max);
        abierto :| 0 <= abierto < cantidad && donaciones[abierto] < Max;
      }
    }
  }

  /** Before the loop every donor holds the minimum and the rest of the total
      remains to be handed out. */
  lemma {:induction false} EstadoInicial(s: seq<int>, total: int, tipo: TipoParqueadero)
    requires Factible(total, |s|, tipo)
    requires forall k :: 0 <= k < |s| ==> s[k] == Minimo(tipo)
    ensures EstadoReparto(s, total - |s| * Minimo(tipo), total, Minimo(tipo))
  {
    var minimo := Minimo(tipo);
    SumaConstante(s, minimo);
    ProductoMultiplo50(|s|, minimo);
    Multiplos50(total, |s| * minimo);
  }

  /** The body of the allocation loop: slot `i` receives an extra and no
      other slot changes; an extra of 0 means the slot was already full. */
  method DarExtra(donaciones: array<int>, i: int, base: seq<int>, minimo: int, restante: int, total: int)
    returns (extra: int)
    requires 0 <= i < donaciones.Length
    requires forall k :: 0 <= k < |base| ==> base[k] % 50 == 0
    requires minimo % 50 == 0 && restante > 0
    requires EstadoReparto(donaciones[..], restante, total, minimo)
    modifies donaciones
    ensures donaciones[..] == old(donaciones[..])[i := old(donaciones[i]) + extra]
    ensures EstadoReparto(donaciones[..], restante - extra, total, minimo)
    ensures 0 <= extra && (extra == 0 ==> donaciones[i] == Max)
  {
    var maxExtra := Max - donaciones[i];
    Multiplos50(Max, donaciones[i]);
    extra := ElegirExtra(base, minimo, maxExtra, restante);
    ghost var antes := donaciones[..];
    donaciones[i] := donaciones[i] + extra;
    assert donaciones[..] == antes[i := antes[i] + extra];
    PasoReparto(antes, i, extra, restante, total, minimo);
  }

  /** One step of the allocation loop: a random fitting extra from the table,
      or else as much as the slot and the remainder allow (possibly 0, which
      happens only for a slot already at 5000). */
  method ElegirExtra(base: seq<int>, minimo: int, maxExtra: int, restante: int) returns (extra: int)
    requires forall k :: 0 <= k < |base| ==> base[k] % 50 == 0
    requires minimo % 50 == 0 && maxExtra % 50 == 0 && restante % 50 == 0
    requires 0 <= maxExtra && 0 < restante
    ensures 0 <= extra <= maxExtra && extra <= restante && extra % 50 == 0
    ensures extra == 0 ==> maxExtra == 0
    ensures |Posibles(base, minimo, maxExtra, restante)| > 0 ==> extra in Posibles(base, minimo, maxExtra, restante)
    ensures |Posibles(base, minimo, maxExtra, restante)| == 0 ==>
      extra == if maxExtra < restante then maxExtra else restante
  {
    var posibles := Posibles(base, minimo, maxExtra, restante);
    if |posibles| > 0 {
      var k :| 0 <= k < |posibles|;
      extra := posibles[k];
      var j :| 0 <= j < |base| && base[j] == extra + minimo;
      Multiplos50(base[j], minimo);
    } else {
      extra := if maxExtra < restante then maxExtra else restante;
    }
  }

  /** Reordering a partition gives a partition of the same request. */
  lemma {:induction false} ParticionPermutada(a: seq<int>, b: seq<int>, total: int, cantidad: int, tipo: TipoParqueadero)
    requires Particion(a, total, cantidad, tipo)
    requires multiset(a) == multiset(b)
    ensures Particion(b, total, cantidad, tipo)
  {
    assert |b| == |multiset(b)| == |multiset(a)| == |a|;
    SumaPermutacion(a, b);
    forall k | 0 <= k < |b|
      ensures Minimo(tipo) <= b[k] <= Max && b[k] % 50 == 0
    {
      assert b[k] in multiset(a);
    }
  }

  /** Fisher-Yates shuffle of a copy: the input is left as it was and the
      result holds the same elements, each as many times. */
  method ShuffleArray<T>(a: array<T>) returns (result: array<T>)
    ensures fresh(result)
    ensures result.Length == a.Length
    ensures multiset(result[..]) == multiset(a[..])
  {
    result := new T[a.Length](k requires 0 <= k < a.Length reads a => a[k]);
    assert result[..] == a[..];
    var i := result.Length - 1;
    while i > 0
      invariant i < result.Length
      invariant multiset(result[..]) == multiset(a[..])
    {
      var j :| 0 <= j <= i;
      result[i], result[j] := result[j], result[i];
      i := i - 1;
    }
  }

  /** A partition at either end of the feasible range is constant: all
      minimums for `cantidad * MIN`, all 5000 for `cantidad * 5000`. */
  lemma {:induction false} ParticionEnFrontera(s: seq<int>, total: int, cantidad: int, tipo: TipoParqueadero)
    requires Particion(s, total, cantidad, tipo)
    ensures total == cantidad * Minimo(tipo) ==> forall k :: 0 <= k < |s| ==> s[k] == Minimo(tipo)
    ensures total == cantidad * Max ==> forall k :: 0 <= k < |s| ==> s[k] == Max
  {
    SumaAcotada(s, Minimo(tipo), Max);
  }

  /** A daily record whose donation the generator accepts. */
  predicate RegistroFactible(registro: RegistroDiario)
  {
    Factible(registro.donaciones.valor, registro.donaciones.cantidadDonantes, registro.tipoParqueadero)
  }

  /** The number of donors over all records. */
  function TotalDonantes(registros: seq<RegistroDiario>): int
  {
    if |registros| == 0 then 0
    else TotalDonantes(registros[..|registros| - 1]) + registros[|registros| - 1].donaciones.cantidadDonantes
  }

  /** `calcularTotalDonaciones`: the donation totals of all records. */
  function CalcularTotalDonaciones(registros: seq<RegistroDiario>): int
  {
    if |registros| == 0 then 0
    else CalcularTotalDonaciones(registros[..|registros| - 1]) + registros[|registros| - 1].donaciones.valor
  }

  /** The invoice totals of all records; a record without one counts 0. */
  function TotalFacturas(registros: seq<RegistroDiario>): int
  {
    if |registros| == 0 then 0
    else
      var f := registros[|registros| - 1].facturaElectronica;
      TotalFacturas(registros[..|registros| - 1]) + (if f.Some? then f.value.valor else 0)
  }

  /** `calcularTotalGeneral`: donations plus electronic invoices. */
  function CalcularTotalGeneral(registros: seq<RegistroDiario>): int
  {
    CalcularTotalDonaciones(registros) + TotalFacturas(registros)
  }

  /** The totals add up over consecutive groups of records. */
  lemma {:induction false} TotalGeneralConcatenar(a: seq<RegistroDiario>, b: seq<RegistroDiario>)
    ensures CalcularTotalDonaciones(a + b) == CalcularTotalDonaciones(a) + CalcularTotalDonaciones(b)
    ensures TotalFacturas(a + b) == TotalFacturas(a) + TotalFacturas(b)
    ensures CalcularTotalGeneral(a + b) == CalcularTotalGeneral(a) + CalcularTotalGeneral(b)
    decreases |b|
  {
    if |b| == 0 {
      assert a + b == a;
    } else {
      var c := b[..|b| - 1];
      assert (a + b)[..|a + b| - 1] == a + c;
      assert (a + b)[|a + b| - 1] == b[|b| - 1];
      TotalGeneralConcatenar(a, c);
    }
  }

  /** `calcularValorPorDonante`: the average per donor, rounded to the nearest
      integer with halves upwards; 0 for no donors. */
  function CalcularValorPorDonante(valorTotal: int, cantidadDonantes: int): (r: int)
    ensures cantidadDonantes == 0 ==> r == 0
    ensures cantidadDonantes > 0 ==>
      2 * r * cantidadDonantes - cantidadDonantes <= 2 * valorTotal < 2 * r * cantidadDonantes + cantidadDonantes
    ensures cantidadDonantes < 0 ==>
      2 * r * cantidadDonantes + cantidadDonantes < 2 * valorTotal <= 2 * r * cantidadDonantes - cantidadDonantes
    ensures cantidadDonantes != 0 && valorTotal % cantidadDonantes == 0 ==> r * cantidadDonantes == valorTotal
  {
    if cantidadDonantes == 0 then 0
    else
      var r := RedondearCociente(valorTotal, cantidadDonantes);
      assert valorTotal % cantidadDonantes == 0 ==> r * cantidadDonantes == valorTotal by {
        if valorTotal % cantidadDonantes == 0 {
          RedondearExacto(valorTotal, cantidadDonantes);
        }
      }
      r
  }

  /** Sequences of amounts laid end to end, in order. */
  function Aplanar(partes: seq<seq<int>>): seq<int>
  {
    if |partes| == 0 then [] else Aplanar(partes[..|partes| - 1]) + partes[|partes| - 1]
  }

  /** The ledger row of one generated donation. */
  function ItemDonacion(numero: int, valor: int): ItemTabla
  {
    ItemTabla(numero, "ANÓNIMO", "", "EFECTIVO", valor, "", "SIN OBSERVACIONES")
  }

  /** Every record's donation is one the generator accepts. */
  predicate Aceptados(registros: seq<RegistroDiario>)
  {
    forall j :: 0 <= j < |registros| ==> RegistroFactible(registros[j])
  }

  /** One partition per record, each a valid split of that record's donation. */
  predicate Particionados(particiones: seq<seq<int>>, registros: seq<RegistroDiario>)
  {
    |particiones| == |registros|
    && forall j :: 0 <= j < |registros| ==>
         Particion(particiones[j], registros[j].donaciones.valor, registros[j].donaciones.cantidadDonantes,
                   registros[j].tipoParqueadero)
  }

  lemma {:induction false} ParticionadosAgregar(particiones: seq<seq<int>>, registros: seq<RegistroDiario>, s: seq<int>, registro: RegistroDiario)
    requires Particionados(particiones, registros) && Aceptados(registros)
    requires Particion(s, registro.donaciones.valor, registro.donaciones.cantidadDonantes, registro.tipoParqueadero)
    requires RegistroFactible(registro)
    ensures Particionados(particiones + [s], registros + [registro])
    ensures Aceptados(registros + [registro])
  {
  }

  /** Every row is a generated donation numbered by its position. */
  predicate FilasDonacion(items: seq<ItemTabla>)
  {
    forall k :: 0 <= k < |items| ==> items[k] == ItemDonacion(k + 1, items[k].valor)
  }

  /** The inner loop of `generarItemsTabla`: one row per amount, in order,
      numbered by the running counter. */
  method AgregarFilas(items: seq<ItemTabla>, itemCounter: int, valores: seq<int>)
    returns (nuevos: seq<ItemTabla>, siguiente: int)
    requires FilasDonacion(items) && itemCounter == |items| + 1
    ensures FilasDonacion(nuevos) && siguiente == |nuevos| + 1
    ensures |nuevos| == |items| + |valores|
    ensures nuevos[..|items|] == items
    ensures Valores(nuevos) == Valores(items) + valores
  {
    nuevos, siguiente := items, itemCounter;
    var i := 0;
    while i < |valores|
      invariant 0 <= i <= |valores|
      invariant |nuevos| == |items| + i && nuevos[..|items|] == items
      invariant Valores(nuevos) == Valores(items) + valores[..i]
      invariant siguiente == |nuevos| + 1
      invariant FilasDonacion(nuevos)
    {
      ghost var antes := nuevos;
      nuevos := nuevos + [ItemDonacion(siguiente, valores[i])];
      siguiente := siguiente + 1;
      assert Valores(nuevos) == Valores(antes) + [valores[i]];
      assert valores[..i + 1] == valores[..i] + [valores[i]];
      i := i + 1;
    }
    assert valores[..i] == valores;
  }

  /** `generarItemsTabla`: splits each record's donation in input order and
      lays the amounts out as rows numbered by one counter across all records.
      The first record the generator rejects aborts the whole run with its
      error. `particiones` are the generated partitions, one per record. */
  method GenerarItemsTabla(registros: seq<RegistroDiario>)
    returns (r: Result<seq<ItemTabla>, DonacionError>, ghost particiones: seq<seq<int>>)
    ensures r.Ok? <==> Aceptados(registros)
    ensures r.Err? ==>
      exists k :: 0 <= k < |registros|
        && Aceptados(registros[..k])
        && Verificar(registros[k].donaciones.valor, registros[k].donaciones.cantidadDonantes,
                     registros[k].tipoParqueadero) == Some(r.error)
    ensures r.Ok? ==> Particionados(particiones, registros) && Valores(r.value) == Aplanar(particiones)
    ensures r.Ok? ==> |r.value| == TotalDonantes(registros)
    ensures r.Ok? ==> Numerado(r.value)
    ensures r.Ok? ==> FilasDonacion(r.value)
    ensures r.Ok? ==> Suma(Valores(r.value)) == CalcularTotalDonaciones(registros)
  {
    var items: seq<ItemTabla> := [];
    var itemCounter := 1;
    particiones := [];
    var idx := 0;
    while idx < |registros|
      invariant 0 <= idx <= |registros|
      invariant EstadoTabla(registros[..idx], particiones, items, itemCounter)
    {
      var registro := registros[idx];
      var valores := GenerarDonaciones(registro.donaciones.valor, registro.donaciones.cantidadDonantes,
                                       registro.tipoParqueadero);
      if valores.Err? {
        r := Err(valores.error);
        return;
      }
      ghost var previos := items;
      items, itemCounter := AgregarFilas(items, itemCounter, valores.value);
      PasoTabla(registros[..idx], particiones, previos, items, registro, valores.value);
      particiones := particiones + [valores.value];
      assert registros[..idx + 1] == registros[..idx] + [registro];
      idx := idx + 1;
    }
    assert registros[..idx] == registros;
    r := Ok(items);
  }

  /** The state of the outer loop of `generarItemsTabla` after the records
      `hechos`: all accepted, one partition each, and the rows so far are
      those partitions laid end to end, numbered from 1. */
  predicate EstadoTabla(hechos: seq<RegistroDiario>, particiones: seq<seq<int>>, items: seq<ItemTabla>, itemCounter: int)
  {
    && Aceptados(hechos)
    && Particionados(particiones, hechos)
    && Valores(items) == Aplanar(particiones)
    && |items| == TotalDonantes(hechos)
    && itemCounter == |items| + 1
    && FilasDonacion(items)
    && Suma(Valores(items)) == CalcularTotalDonaciones(hechos)
  }

  /** Appending the rows of one more accepted record keeps the loop state. */
  lemma {:induction false} PasoTabla(hechos: seq<RegistroDiario>, particiones: seq<seq<int>>,
                                     previos: seq<ItemTabla>, items: seq<ItemTabla>,
                                     registro: RegistroDiario, valores: seq<int>)
    requires EstadoTabla(hechos, particiones, previos, |previos| + 1)
    requires RegistroFactible(registro)
    requires Particion(valores, registro.donaciones.valor, registro.donaciones.cantidadDonantes,
                       registro.tipoParqueadero)
    requires FilasDonacion(items) && |items| == |previos| + |valores|
    requires Valores(items) == Valores(previos) + valores
    ensures EstadoTabla(hechos + [registro], particiones + [valores], items, |items| + 1)
  {
    var todos := hechos + [registro];
    assert todos[..|todos| - 1] == hechos;
    var partes := particiones + [valores];
    assert partes[..|partes| - 1] == particiones;
    SumaAgregar(Valores(previos), valores);
    ParticionadosAgregar(particiones, hechos, valores, registro);
  }

  /** The scenarios of src/utils/calculos.test.ts: 1000 is below the motos
      minimum for ten donors, 5025 is not a multiple of 50, and 5000 for ten
      motos donors is accepted. */
  lemma {:induction false} EscenariosDePrueba()
    ensures Verificar(1000, 10, Motos) == Some(TotalMuyBajo(1000, 10, 3000))
    ensures Verificar(5025, 10, Motos) == Some(NoMultiploDe50(5025, 5050))
    ensures Factible(5000, 10, Motos) && Factible(8000, 15, Motos) && Factible(10000, 10, Carros)
  {
  }
}
