/** The signature listing route (src/app/api/cloudinary/list/route.ts): the
    search over candidate folder prefixes, the file name taken from the end
    of each public id, and `formatearNombre`, which turns a file name into a
    display name. The image-service lookup is a parameter: for a prefix it
    answers `None` when the call fails and `Some(ids)` with the public ids
    found otherwise. The image URL, built from an environment variable, is
    left out. */
module Listado {
  import opened Wrappers
  import opened Texto
  import Subida

  // ---------------------------------------------------------------------
  // Extension stripping: `replace(/\.[^/.]+$/, '')`

  /** The regular expression matches from position `i`: a dot followed by at
      least one character, none of them a dot or a slash, up to the end. */
  ghost predicate ExtensionEn(s: string, i: int)
  {
    0 <= i < |s| - 1 && s[i] == '.' && forall j :: i < j < |s| ==> s[j] != '.' && s[j] != '/'
  }

  /** Scans backwards from `k` over characters that are neither a dot nor a
      slash; everything after `k` is already known to be such. */
  function BuscarPunto(s: string, k: int): (r: Option<nat>)
    requires -1 <= k < |s|
    requires forall j :: k < j < |s| ==> s[j] != '.' && s[j] != '/'
    ensures r.Some? ==> ExtensionEn(s, r.value)
    ensures r.None? ==> forall i :: !ExtensionEn(s, i)
    decreases k + 1
  {
    if k < 0 then None
    else if s[k] == '.' then
      if k < |s| - 1 then Some(k) else None
    else if s[k] == '/' then None
    else BuscarPunto(s, k - 1)
  }

  /** At most one position can start the match. */
  lemma {:induction false} ExtensionUnica(s: string, i: int, j: int)
    requires ExtensionEn(s, i) && ExtensionEn(s, j)
    ensures i == j
  {
  }

  /** The name without its extension: the text before the match when the
      expression matches, the whole name otherwise. */
  function QuitarExtension(s: string): (r: string)
    ensures forall i :: ExtensionEn(s, i) ==> r == s[..i]
    ensures (forall i :: !ExtensionEn(s, i)) ==> r == s
  {
    match BuscarPunto(s, |s| - 1)
    case Some(i) =>
      assert forall j :: ExtensionEn(s, j) ==> j == i by {
        forall j | ExtensionEn(s, j) ensures j == i { ExtensionUnica(s, i, j); }
      }
      s[..i]
    case None => s
  }

  // ---------------------------------------------------------------------
  // `split(/[_-]/)`, the capitalisation of each word, and `join(' ')`

  predicate EsSeparador(c: char)
  {
    c == '_' || c == '-'
  }

  /** `s` with its separators removed. */
  function SinSeparadores(s: string): string
  {
    if |s| == 0 then []
    else (if EsSeparador(s[0]) then [] else [s[0]]) + SinSeparadores(s[1..])
  }

  /** The separators of `s`, in order. */
  function Separadores(s: string): (r: seq<char>)
    ensures forall k :: 0 <= k < |r| ==> EsSeparador(r[k])
  {
    if |s| == 0 then []
    else (if EsSeparador(s[0]) then [s[0]] else []) + Separadores(s[1..])
  }

  /** The pieces with the separators put back between them, in order: the
      inverse of the split. */
  function Intercalar(piezas: seq<string>, seps: seq<char>): string
    requires |piezas| == |seps| + 1
  {
    if |seps| == 0 then piezas[0] else piezas[0] + [seps[0]] + Intercalar(piezas[1..], seps[1..])
  }

  function Concatenar(ws: seq<string>): string
  {
    if |ws| == 0 then [] else ws[0] + Concatenar(ws[1..])
  }

  /** `s.split(/[_-]/)`: the pieces between separators, one more than there
      are separators (empty pieces included); no piece holds a separator,
      laid end to end they are `s` without its separators, and put back
      together with the separators of `s` they are `s` itself. */
  function Segmentos(s: string): (r: seq<string>)
    ensures |r| == |Separadores(s)| + 1
    ensures forall i, j :: 0 <= i < |r| && 0 <= j < |r[i]| ==> !EsSeparador(r[i][j])
    ensures Concatenar(r) == SinSeparadores(s)
    ensures Intercalar(r, Separadores(s)) == s
  {
    if |s| == 0 then [""]
    else
      var resto := Segmentos(s[1..]);
      if EsSeparador(s[0]) then
        var r := [""] + resto;
        assert r[1..] == resto;
        assert Separadores(s) == [s[0]] + Separadores(s[1..]);
        assert Intercalar(r, Separadores(s)) == "" + [s[0]] + Intercalar(resto, Separadores(s[1..]));
        assert "" + [s[0]] + s[1..] == s;
        r
      else
        var r := [[s[0]] + resto[0]] + resto[1..];
        assert Separadores(s) == Separadores(s[1..]);
        IntercalarPrefijo(s[0], resto, Separadores(s[1..]));
        assert [s[0]] + s[1..] == s;
        assert Concatenar(r) == [s[0]] + Concatenar(resto) by {
          assert Concatenar(resto) == resto[0] + Concatenar(resto[1..]);
          assert r[1..] == resto[1..];
        }
        assert forall i, j :: 0 <= i < |r| && 0 <= j < |r[i]| ==> !EsSeparador(r[i][j]) by {
          forall i, j | 0 <= i < |r| && 0 <= j < |r[i]| ensures !EsSeparador(r[i][j]) {
            if i == 0 {
              if j > 0 { assert r[0][j] == resto[0][j - 1]; }
            } else {
              assert r[i] == resto[i];
            }
          }
        }
        r
  }

  /** Text without separators is the start of the first piece. */
  lemma {:induction false} SegmentosPalabra(a: string, b: string)
    requires forall k :: 0 <= k < |a| ==> !EsSeparador(a[k])
    ensures Segmentos(a + b) == [a + Segmentos(b)[0]] + Segmentos(b)[1..]
    decreases |a|
  {
    if |a| == 0 {
      assert a + b == b;
      assert a + Segmentos(b)[0] == Segmentos(b)[0];
    } else {
      assert (a + b)[1..] == a[1..] + b;
      SegmentosPalabra(a[1..], b);
      assert [a[0]] + (a[1..] + Segmentos(b)[0]) == a + Segmentos(b)[0];
    }
  }

  /** A character in front of the first piece is a character in front of
      the whole text. */
  lemma {:induction false} IntercalarPrefijo(c: char, piezas: seq<string>, seps: seq<char>)
    requires |piezas| == |seps| + 1
    ensures Intercalar([[c] + piezas[0]] + piezas[1..], seps) == [c] + Intercalar(piezas, seps)
  {
    var r := [[c] + piezas[0]] + piezas[1..];
    assert r[0] == [c] + piezas[0] && r[1..] == piezas[1..];
    if |seps| > 0 {
      var resto := Intercalar(piezas[1..], seps[1..]);
      assert ([c] + piezas[0]) + [seps[0]] + resto == [c] + (piezas[0] + [seps[0]] + resto);
    }
  }

  /** A piece holds no separator. */
  predicate Limpia(w: string)
  {
    forall j :: 0 <= j < |w| ==> !EsSeparador(w[j])
  }

  /** Splitting undoes putting back: pieces without separators, joined by
      separators, split into exactly those pieces. With the last ensures of
      `Segmentos`, this makes the split the only one of its kind. */
  lemma {:induction false} SegmentosDeIntercalar(piezas: seq<string>, seps: seq<char>)
    requires |piezas| == |seps| + 1
    requires forall i :: 0 <= i < |piezas| ==> Limpia(piezas[i])
    requires forall k :: 0 <= k < |seps| ==> EsSeparador(seps[k])
    ensures Segmentos(Intercalar(piezas, seps)) == piezas
    decreases |seps|
  {
    var p0 := piezas[0];
    assert Limpia(p0);
    if |seps| == 0 {
      SegmentosPalabra(p0, "");
      assert p0 + "" == p0;
      assert Segmentos(p0 + "") == [p0];
    } else {
      var resto, sr := piezas[1..], seps[1..];
      assert forall i :: 0 <= i < |resto| ==> Limpia(resto[i]) by {
        forall i | 0 <= i < |resto| ensures Limpia(resto[i]) { assert resto[i] == piezas[i + 1]; }
      }
      assert forall k :: 0 <= k < |sr| ==> EsSeparador(sr[k]) by {
        forall k | 0 <= k < |sr| ensures EsSeparador(sr[k]) { assert sr[k] == seps[k + 1]; }
      }
      SegmentosDeIntercalar(resto, sr);
      PasoSegmentos(p0, seps[0], Intercalar(resto, sr), resto);
      assert [p0] + resto == piezas;
    }
  }

  /** One piece and one separator in front of a text whose split is known. */
  lemma {:induction false} PasoSegmentos(p0: string, c: char, x: string, resto: seq<string>)
    requires Limpia(p0) && EsSeparador(c) && Segmentos(x) == resto
    ensures Segmentos(p0 + [c] + x) == [p0] + resto
  {
    var cx := [c] + x;
    SegmentosTrasSeparador(c, x);
    SegmentosPalabra(p0, cx);
    assert p0 + [c] + x == p0 + cx;
    assert p0 + "" == p0;
  }

  /** A separator in front starts a new, empty first piece. */
  lemma {:induction false} SegmentosTrasSeparador(c: char, x: string)
    requires EsSeparador(c)
    ensures Segmentos([c] + x) == [""] + Segmentos(x)
  {
    assert ([c] + x)[1..] == x;
  }

  /** Hence the split is determined: any pieces without separators that put
      back together with the separators of `s` give `s` are the split. */
  lemma {:induction false} SegmentosUnicos(s: string, piezas: seq<string>)
    requires |piezas| == |Separadores(s)| + 1
    requires forall i, j :: 0 <= i < |piezas| && 0 <= j < |piezas[i]| ==> !EsSeparador(piezas[i][j])
    requires Intercalar(piezas, Separadores(s)) == s
    ensures Segmentos(s) == piezas
  {
    assert forall i :: 0 <= i < |piezas| ==> Limpia(piezas[i]);
    SegmentosDeIntercalar(piezas, Separadores(s));
  }

  /** The map step: `word.charAt(0).toUpperCase() + word.slice(1).toLowerCase()`,
      and the empty word stays empty. The result is the same word up to case,
      its first letter is upper-case and the others lower-case. */
  function Capitalizar(w: string): (r: string)
    ensures |r| == |w|
    ensures Minusculas(r) == Minusculas(w)
    ensures |r| > 0 ==> !EsMinuscula(r[0])
    ensures forall j :: 1 <= j < |r| ==> !EsMayuscula(r[j])
    ensures forall j :: 0 <= j < |r| ==> (EsSeparador(r[j]) <==> EsSeparador(w[j]))
  {
    if w == "" then "" else [AMayuscula(w[0])] + Minusculas(w[1..])
  }

  /** The filter step: the non-empty words, in order. Every non-empty word
      is kept, as often as it occurs, and nothing else. */
  function NoVacias(ws: seq<string>): (r: seq<string>)
    ensures |r| <= |ws|
    ensures forall k :: 0 <= k < |r| ==> |r[k]| > 0
    ensures multiset(r) == multiset(ws)["" := 0]
  {
    if |ws| == 0 then []
    else
      assert ws == [ws[0]] + ws[1..];
      (if |ws[0]| > 0 then [ws[0]] else []) + NoVacias(ws[1..])
  }

  function CapitalizarTodas(ws: seq<string>): (r: seq<string>)
    ensures |r| == |ws| && forall k :: 0 <= k < |ws| ==> r[k] == Capitalizar(ws[k])
  {
    seq(|ws|, k requires 0 <= k < |ws| => Capitalizar(ws[k]))
  }

  /** The words of a cleaned name: map, then drop the empty ones. */
  function Palabras(s: string): seq<string>
  {
    NoVacias(CapitalizarTodas(Segmentos(s)))
  }

  /** Capitalising keeps emptiness, so dropping the empty words before or
      after capitalising gives the same list. */
  lemma {:induction false} FiltrarAntesDeCapitalizar(ws: seq<string>)
    ensures NoVacias(CapitalizarTodas(ws)) == CapitalizarTodas(NoVacias(ws))
    decreases |ws|
  {
    if |ws| > 0 {
      var w, resto := ws[0], ws[1..];
      assert ws == [w] + resto;
      FiltrarAntesDeCapitalizar(resto);
      CapitalizarTodasCons(w, resto);
      NoVaciasCons(Capitalizar(w), CapitalizarTodas(resto));
      NoVaciasCons(w, resto);
      if |w| > 0 {
        CapitalizarTodasCons(w, NoVacias(resto));
      }
    }
  }

  lemma {:induction false} CapitalizarTodasCons(w: string, ws: seq<string>)
    ensures CapitalizarTodas([w] + ws) == [Capitalizar(w)] + CapitalizarTodas(ws)
  {
  }

  lemma {:induction false} NoVaciasCons(w: string, ws: seq<string>)
    ensures NoVacias([w] + ws) == (if |w| > 0 then [w] else []) + NoVacias(ws)
  {
    assert ([w] + ws)[1..] == ws;
  }

  /** The words are exactly the non-empty segments, in order, each
      capitalised: same text up to case, first letter upper-case, the rest
      lower-case, and no separator inside. */
  lemma {:induction false} PalabrasSonSegmentos(s: string)
    ensures |Palabras(s)| == |NoVacias(Segmentos(s))|
    ensures forall k :: 0 <= k < |Palabras(s)| ==>
      && Palabras(s)[k] == Capitalizar(NoVacias(Segmentos(s))[k])
      && Minusculas(Palabras(s)[k]) == Minusculas(NoVacias(Segmentos(s))[k])
      && |Palabras(s)[k]| > 0 && !EsMinuscula(Palabras(s)[k][0])
      && (forall j :: 1 <= j < |Palabras(s)[k]| ==> !EsMayuscula(Palabras(s)[k][j]))
  {
    FiltrarAntesDeCapitalizar(Segmentos(s));
  }

  /** No separator survives into the words. */
  lemma {:induction false} PalabrasSinSeparadores(s: string)
    ensures forall i, j :: 0 <= i < |Palabras(s)| && 0 <= j < |Palabras(s)[i]| ==> !EsSeparador(Palabras(s)[i][j])
  {
    var segs := Segmentos(s);
    FiltrarAntesDeCapitalizar(segs);
    NoVaciasConserva(segs);
  }

  /** The kept words are words of the input. */
  lemma {:induction false} NoVaciasConserva(ws: seq<string>)
    requires forall i, j :: 0 <= i < |ws| && 0 <= j < |ws[i]| ==> !EsSeparador(ws[i][j])
    ensures forall i, j :: 0 <= i < |NoVacias(ws)| && 0 <= j < |NoVacias(ws)[i]| ==> !EsSeparador(NoVacias(ws)[i][j])
    decreases |ws|
  {
    if |ws| > 0 {
      NoVaciasConserva(ws[1..]);
      assert forall i, j :: 0 <= i < |ws[1..]| && 0 <= j < |ws[1..][i]| ==> ws[1..][i][j] == ws[i + 1][j];
    }
  }

  /** `join(' ')`: the words separated by single spaces. */
  function Unir(ws: seq<string>): string
  {
    if |ws| == 0 then ""
    else if |ws| == 1 then ws[0]
    else ws[0] + " " + Unir(ws[1..])
  }

  /** Joining with spaces adds no separator. */
  lemma {:induction false} UnirSinSeparadores(ws: seq<string>)
    requires forall i, j :: 0 <= i < |ws| && 0 <= j < |ws[i]| ==> !EsSeparador(ws[i][j])
    ensures forall k :: 0 <= k < |Unir(ws)| ==> !EsSeparador(Unir(ws)[k])
    decreases |ws|
  {
    if |ws| > 1 {
      UnirSinSeparadores(ws[1..]);
      var r := Unir(ws);
      assert r == ws[0] + " " + Unir(ws[1..]);
      forall k | 0 <= k < |r| ensures !EsSeparador(r[k]) {
        if k < |ws[0]| {
          assert r[k] == ws[0][k];
        } else if k > |ws[0]| {
          assert r[k] == Unir(ws[1..])[k - |ws[0]| - 1];
        }
      }
    }
  }

  /** `formatearNombre`: the file name without extension, as capitalised
      words separated by single spaces; a name that is blank once the
      extension is gone is returned as it came. */
  function FormatearNombre(nombre: string): (r: string)
    ensures EsBlanco(QuitarExtension(nombre)) ==> r == nombre
    ensures !EsBlanco(QuitarExtension(nombre)) ==>
      r == Unir(Palabras(QuitarExtension(nombre)))
      && forall k :: 0 <= k < |r| ==> !EsSeparador(r[k])
  {
    var limpio := QuitarExtension(nombre);
    if EsBlanco(limpio) then nombre
    else
      PalabrasSinSeparadores(limpio);
      UnirSinSeparadores(Palabras(limpio));
      Unir(Palabras(limpio))
  }

  // ---------------------------------------------------------------------
  // The file name at the end of a public id

  /** `split('/').pop()`: the text after the last slash, or the whole text
      when it has none. */
  function UltimoSegmento(s: string): (r: string)
    ensures |r| <= |s| && r == s[|s| - |r|..]
    ensures forall k :: 0 <= k < |r| ==> r[k] != '/'
    ensures |r| < |s| ==> s[|s| - |r| - 1] == '/'
  {
    if |s| == 0 then ""
    else if s[|s| - 1] == '/' then ""
    else
      var p := s[..|s| - 1];
      var u := UltimoSegmento(p);
      var r := u + [s[|s| - 1]];
      assert |r| <= |s|;
      assert s[|s| - |r|..] == p[|p| - |u|..] + [s[|s| - 1]];
      assert |r| < |s| ==> s[|s| - |r| - 1] == p[|p| - |u| - 1];
      r
  }

  /** `public_id.split('/').pop() || public_id`: the last segment, or the
      whole id when that segment is empty. The file name is always an end
      of the id, empty only for the empty id, and holds no slash unless the
      id ends in one. */
  function NombreArchivo(publicId: string): (r: string)
    ensures UltimoSegmento(publicId) != "" ==> r == UltimoSegmento(publicId)
    ensures UltimoSegmento(publicId) == "" ==> r == publicId
    ensures |r| <= |publicId| && r == publicId[|publicId| - |r|..]
    ensures r == "" <==> publicId == ""
    ensures publicId != "" && publicId[|publicId| - 1] != '/' ==> forall k :: 0 <= k < |r| ==> r[k] != '/'
  {
    var ultimo := UltimoSegmento(publicId);
    if ultimo == "" then publicId else ultimo
  }

  // ---------------------------------------------------------------------
  // The search

  /** The prefixes tried, in order: first the role's own name under
      `firmas/`, and the upload folder of the role among them. The first
      three all extend `firmas/<tipo>` and the last two extend `<tipo>`. */
  function Prefijos(tipo: string): (r: seq<string>)
    ensures |r| == 5
    ensures r[0] == "firmas/" + tipo
    ensures "firmas/" + Subida.Carpeta(tipo) in r
    ensures forall k :: 0 <= k < 3 ==> "firmas/" + tipo <= r[k]
    ensures forall k :: 3 <= k < 5 ==> tipo <= r[k]
  {
    var r := ["firmas/" + tipo,
              "firmas/" + tipo + "s",
              "firmas/" + (if tipo == "responsable" then "responsable_conteos" else tipo),
              tipo,
              tipo + "s"];
    assert "firmas/" + Subida.Carpeta(tipo) == (if tipo == "responsable" then r[2] else r[1]);
    r
  }

  /** A lookup that succeeded with at least one resource. */
  predicate Encontrado(respuesta: Option<seq<string>>)
  {
    respuesta.Some? && |respuesta.value| > 0
  }

  /** The resources of the first prefix whose lookup finds something; none
      when no prefix does. */
  function PrimerResultado(prefijos: seq<string>, consulta: string -> Option<seq<string>>): (r: seq<string>)
    ensures r == [] <==> forall k :: 0 <= k < |prefijos| ==> !Encontrado(consulta(prefijos[k]))
    ensures r != [] ==>
      exists k :: 0 <= k < |prefijos| && consulta(prefijos[k]) == Some(r)
        && forall j :: 0 <= j < k ==> !Encontrado(consulta(prefijos[j]))
  {
    if |prefijos| == 0 then []
    else if Encontrado(consulta(prefijos[0])) then consulta(prefijos[0]).value
    else
      var r := PrimerResultado(prefijos[1..], consulta);
      assert r != [] ==> (exists k :: 0 <= k < |prefijos| && consulta(prefijos[k]) == Some(r)
                                        && forall j :: 0 <= j < k ==> !Encontrado(consulta(prefijos[j]))) by {
        if r != [] {
          var k :| 0 <= k < |prefijos[1..]| && consulta(prefijos[1..][k]) == Some(r)
            && forall j :: 0 <= j < k ==> !Encontrado(consulta(prefijos[1..][j]));
          assert consulta(prefijos[k + 1]) == Some(r);
          forall j | 0 <= j < k + 1 ensures !Encontrado(consulta(prefijos[j])) {
            if j > 0 { assert prefijos[j] == prefijos[1..][j - 1]; }
          }
        }
      }
      assert r == [] ==> forall k :: 0 <= k < |prefijos| ==> !Encontrado(consulta(prefijos[k])) by {
        if r == [] {
          forall k | 0 <= k < |prefijos| ensures !Encontrado(consulta(prefijos[k])) {
            if k > 0 { assert prefijos[k] == prefijos[1..][k - 1]; }
          }
        }
      }
      r
  }

  /** The search loop: the prefixes are looked up in order and the loop
      stops at the first that finds something. Returns the resources and the
      prefixes looked up. */
  method BuscarRecursos(prefijos: seq<string>, consulta: string -> Option<seq<string>>)
    returns (recursos: seq<string>, consultados: seq<string>)
    ensures recursos == PrimerResultado(prefijos, consulta)
    ensures |consultados| <= |prefijos| && consultados == prefijos[..|consultados|]
    ensures forall k :: 0 <= k < |consultados| - 1 ==> !Encontrado(consulta(consultados[k]))
    ensures recursos != [] ==> |consultados| > 0 && consulta(consultados[|consultados| - 1]) == Some(recursos)
    ensures recursos == [] ==> consultados == prefijos
  {
    recursos, consultados := [], [];
    var i := 0;
    while i < |prefijos|
      invariant 0 <= i <= |prefijos|
      invariant consultados == prefijos[..i]
      invariant forall k :: 0 <= k < i ==> !Encontrado(consulta(prefijos[k]))
      invariant PrimerResultado(prefijos, consulta) == PrimerResultado(prefijos[i..], consulta)
    {
      var respuesta := consulta(prefijos[i]);
      assert prefijos[..i + 1] == prefijos[..i] + [prefijos[i]];
      consultados := consultados + [prefijos[i]];
      PrimerResultadoDesde(prefijos, i, consulta);
      if Encontrado(respuesta) {
        recursos := respuesta.value;
        return;
      }
      i := i + 1;
    }
    assert prefijos[i..] == [];
  }

  /** The search from prefix `i` on answers that prefix's resources when it
      finds something, and otherwise searches from the next one. */
  lemma {:induction false} PrimerResultadoDesde(prefijos: seq<string>, i: nat, consulta: string -> Option<seq<string>>)
    requires i < |prefijos|
    ensures PrimerResultado(prefijos[i..], consulta)
         == if Encontrado(consulta(prefijos[i])) then consulta(prefijos[i]).value
            else PrimerResultado(prefijos[i + 1..], consulta)
  {
    assert prefijos[i..][0] == prefijos[i];
    assert prefijos[i..][1..] == prefijos[i + 1..];
  }

  /** One entry of the answer: the public id and its display name. */
  datatype FirmaListada = FirmaListada(publicId: string, nombre: string)

  datatype RespuestaListado = TipoRequerido | Firmas(firmas: seq<FirmaListada>)

  function Describir(publicId: string): FirmaListada
  {
    FirmaListada(publicId, FormatearNombre(NombreArchivo(publicId)))
  }

  /** The route: a missing or empty `tipo` is refused with a 400 before any
      lookup; otherwise the first prefix that finds something supplies the
      signatures, one per resource in the order found, each named from the
      end of its public id. */
  method Listar(tipo: Option<string>, consulta: string -> Option<seq<string>>)
    returns (respuesta: RespuestaListado, consultados: seq<string>)
    ensures respuesta.TipoRequerido? <==> tipo.None? || tipo.value == ""
    ensures respuesta.TipoRequerido? ==> consultados == []
    ensures respuesta.Firmas? ==>
      && |respuesta.firmas| == |PrimerResultado(Prefijos(tipo.value), consulta)|
      && forall k :: 0 <= k < |respuesta.firmas| ==>
           respuesta.firmas[k] == Describir(PrimerResultado(Prefijos(tipo.value), consulta)[k])
    ensures respuesta.Firmas? ==>
      |consultados| <= 5 && consultados == Prefijos(tipo.value)[..|consultados|]
  {
    if tipo.None? || tipo.value == "" {
      return TipoRequerido, [];
    }
    var recursos;
    recursos, consultados := BuscarRecursos(Prefijos(tipo.value), consulta);
    var firmas := seq(|recursos|, k requires 0 <= k < |recursos| => Describir(recursos[k]));
    respuesta := Firmas(firmas);
  }

  // ---------------------------------------------------------------------
  // Upload and listing together

  /** An image uploaded for a role lands under a folder that is one of the
      prefixes the listing tries for that role, its id already starts with
      the first prefix tried, and when the slug holds no slash the listing
      shows it under the slug as file name. */
  lemma {:induction false} SubidaSeLista(tipo: string, slug: string)
    requires tipo != ""
    ensures "firmas/" + Subida.Carpeta(tipo) in Prefijos(tipo)
    ensures Prefijos(tipo)[0] <= "firmas/" + Subida.Carpeta(tipo) + "/" + slug
    ensures slug != "" && (forall k :: 0 <= k < |slug| ==> slug[k] != '/') ==>
      NombreArchivo("firmas/" + Subida.Carpeta(tipo) + "/" + slug) == slug
  {
    var carpeta := "firmas/" + Subida.Carpeta(tipo);
    PrefijoExtendido("firmas/", tipo, Subida.Carpeta(tipo), "/" + slug);
    assert carpeta + "/" + slug == "firmas/" + Subida.Carpeta(tipo) + ("/" + slug);
    if slug != "" && (forall k :: 0 <= k < |slug| ==> slug[k] != '/') {
      UltimoSegmentoSinBarra(carpeta + "/", slug);
    }
  }

  /** A prefix stays a prefix under a common start and any continuation. */
  lemma {:induction false} PrefijoExtendido(a: string, b: string, c: string, d: string)
    requires b <= c
    ensures a + b <= a + c + d
  {
    assert (a + c + d)[..|a + b|] == a + b by {
      assert c[..|b|] == b;
      assert (a + c + d)[..|a| + |b|] == a + c[..|b|];
    }
  }

  /** The last segment of a text that ends in slash-free text after a slash
      is that text. */
  lemma {:induction false} UltimoSegmentoSinBarra(a: string, b: string)
    requires |a| > 0 && a[|a| - 1] == '/'
    requires forall k :: 0 <= k < |b| ==> b[k] != '/'
    ensures UltimoSegmento(a + b) == b
    decreases |b|
  {
    if |b| == 0 {
      assert a + b == a;
    } else {
      assert (a + b)[..|a + b| - 1] == a + b[..|b| - 1];
      UltimoSegmentoSinBarra(a, b[..|b| - 1]);
    }
  }

  /** A worked example: the extension goes, an underscore becomes a space and
      each word is capitalised. */
  lemma {:induction false} EjemplosFormato()
    ensures FormatearNombre("ana_paz.png") == "Ana Paz"
  {
    var limpio := QuitarExtension("ana_paz.png");
    EjemploExtension();
    assert limpio[0] == 'a';
    assert !EsBlanco(limpio);
    EjemploPalabras();
    EjemploUnir();
  }

  lemma {:induction false} EjemploUnir()
    ensures Unir(["Ana", "Paz"]) == "Ana Paz"
  {
    assert ["Ana", "Paz"][1..] == ["Paz"];
  }

  lemma {:induction false} EjemploExtension()
    ensures QuitarExtension("ana_paz.png") == "ana_paz"
  {
    var n := "ana_paz.png";
    assert ExtensionEn(n, 7);
    assert n[..7] == "ana_paz";
  }

  lemma {:induction false} EjemploPalabras()
    ensures Palabras("ana_paz") == ["Ana", "Paz"]
  {
    var segmentos := Segmentos("ana_paz");
    EjemploSegmentos();
    var capitalizadas := CapitalizarTodas(segmentos);
    EjemploCapitalizar();
    assert |capitalizadas| == 2;
    assert capitalizadas[0] == "Ana" && capitalizadas[1] == "Paz";
    assert capitalizadas == ["Ana", "Paz"];
    EjemploNoVacias();
  }

  lemma {:induction false} EjemploNoVacias()
    ensures NoVacias(["Ana", "Paz"]) == ["Ana", "Paz"]
  {
    var ws := ["Ana", "Paz"];
    assert ws[1..] == ["Paz"] && ws[1..][1..] == [];
  }

  lemma {:induction false} EjemploCapitalizar()
    ensures Capitalizar("ana") == "Ana" && Capitalizar("paz") == "Paz"
  {
    assert Minusculas("na") == "na";
    assert Minusculas("az") == "az";
  }

  lemma {:induction false} EjemploSegmentos()
    ensures Segmentos("ana_paz") == ["ana", "paz"]
  {
    var resto := Segmentos("_paz");
    EjemploSeparador();
    assert resto[0] == "" && resto[1..] == ["paz"];
    SegmentosPalabra("ana", "_paz");
    assert "ana" + "_paz" == "ana_paz";
    assert "ana" + resto[0] == "ana";
  }

  lemma {:induction false} EjemploSeparador()
    ensures Segmentos("_paz") == ["", "paz"]
  {
    EjemploPalabraSola();
    assert "_paz"[1..] == "paz";
  }

  lemma {:induction false} EjemploPalabraSola()
    ensures Segmentos("paz") == ["paz"]
  {
    SegmentosPalabra("paz", "");
    assert "paz" + "" == "paz";
  }

  /** The file name is the end of the public id, or the whole id when that
      end is empty. */
  lemma {:induction false} EjemplosNombreArchivo()
    ensures NombreArchivo("firmas/x/ana_paz") == "ana_paz"
    ensures NombreArchivo("firmas/") == "firmas/"
  {
    UltimoSegmentoSinBarra("firmas/x/", "ana_paz");
    assert "firmas/x/" + "ana_paz" == "firmas/x/ana_paz";
  }
}
