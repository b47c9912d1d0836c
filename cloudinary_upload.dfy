/** The signature upload route (src/app/api/cloudinary/upload/route.ts): the
    check of the required form fields, the folder chosen for the role, and
    the `public_id` derived from the display name. The upload itself is a
    call into the image service; the model returns the folder and id the
    route would upload under. */
module Subida {
  import opened Wrappers
  import opened Texto

  /** The folder of a role: `responsable` has its own name, every other role
      the plural of the role name. Either way the role name is a proper
      prefix of its folder, so a search by the role name reaches it. */
  function Carpeta(tipo: string): (r: string)
    ensures tipo == "responsable" ==> r == "responsable_conteos"
    ensures tipo != "responsable" ==> r == tipo + "s"
    ensures tipo < r
  {
    if tipo == "responsable" then "responsable_conteos" else tipo + "s"
  }

  /** The leading whitespace of `s` dropped. */
  function SaltarEspacios(s: string): (r: string)
    ensures |r| <= |s| && r == s[|s| - |r|..]
    ensures r == [] || !EsEspacio(r[0])
    ensures EsBlanco(s[..|s| - |r|])
  {
    if |s| > 0 && EsEspacio(s[0]) then
      var r := SaltarEspacios(s[1..]);
      assert s[..|s| - |r|] == [s[0]] + s[1..][..|s[1..]| - |r|];
      r
    else s
  }

  /** `replace(/\s+/g, '_')`: every maximal run of whitespace becomes one
      underscore; everything else is copied. */
  function ReemplazarEspacios(s: string): (r: string)
    ensures |r| <= |s|
    ensures forall k :: 0 <= k < |r| ==> !EsEspacio(r[k])
    decreases |s|
  {
    if |s| == 0 then []
    else if EsEspacio(s[0]) then "_" + ReemplazarEspacios(SaltarEspacios(s[1..]))
    else [s[0]] + ReemplazarEspacios(s[1..])
  }

  /** The `public_id` of an upload: the name lower-cased, each whitespace run
      replaced by one underscore. It has no whitespace and no upper-case
      letter, and is never longer than the name. */
  function Slug(nombre: string): (r: string)
    ensures |r| <= |nombre|
    ensures forall k :: 0 <= k < |r| ==> !EsEspacio(r[k]) && !EsMayuscula(r[k])
  {
    var m := Minusculas(nombre);
    SlugSinMayusculas(m);
    ReemplazarEspacios(m)
  }

  /** Replacing whitespace adds no upper-case letter. */
  lemma {:induction false} SlugSinMayusculas(s: string)
    requires forall k :: 0 <= k < |s| ==> !EsMayuscula(s[k])
    ensures forall k :: 0 <= k < |ReemplazarEspacios(s)| ==> !EsMayuscula(ReemplazarEspacios(s)[k])
    decreases |s|
  {
    if |s| > 0 {
      if EsEspacio(s[0]) {
        var t := SaltarEspacios(s[1..]);
        SlugSinMayusculas(t);
      } else {
        SlugSinMayusculas(s[1..]);
      }
    }
  }

  /** Text without whitespace is copied unchanged, also in front of other
      text. */
  lemma {:induction false} SinEspaciosSeCopia(a: string, b: string)
    requires forall k :: 0 <= k < |a| ==> !EsEspacio(a[k])
    ensures ReemplazarEspacios(a + b) == a + ReemplazarEspacios(b)
    decreases |a|
  {
    if |a| > 0 {
      assert (a + b)[1..] == a[1..] + b;
      SinEspaciosSeCopia(a[1..], b);
    } else {
      assert a + b == b;
    }
  }

  /** A run of whitespace between a word and text that does not start with
      whitespace becomes exactly one underscore. */
  lemma {:induction false} RachaDeEspacios(a: string, w: string, b: string)
    requires forall k :: 0 <= k < |a| ==> !EsEspacio(a[k])
    requires |w| > 0 && EsBlanco(w)
    requires b == [] || !EsEspacio(b[0])
    ensures ReemplazarEspacios(a + w + b) == a + "_" + ReemplazarEspacios(b)
  {
    var wb := w + b;
    assert wb[1..] == w[1..] + b;
    assert EsEspacio(wb[0]);
    SaltarRacha(w[1..], b);
    assert ReemplazarEspacios(wb) == "_" + ReemplazarEspacios(b);
    SinEspaciosSeCopia(a, wb);
    assert a + w + b == a + wb;
    assert a + ("_" + ReemplazarEspacios(b)) == a + "_" + ReemplazarEspacios(b);
  }

  lemma {:induction false} SaltarRacha(w: string, b: string)
    requires EsBlanco(w)
    requires b == [] || !EsEspacio(b[0])
    ensures SaltarEspacios(w + b) == b
    decreases |w|
  {
    if |w| > 0 {
      assert (w + b)[1..] == w[1..] + b;
      SaltarRacha(w[1..], b);
    } else {
      assert w + b == b;
    }
  }

  /** A slug is its own slug: lower-case text without whitespace is left as
      it is, so slugging twice changes nothing. */
  lemma {:induction false} SlugIdempotente(nombre: string)
    ensures Slug(Slug(nombre)) == Slug(nombre)
  {
    var s := Slug(nombre);
    assert Minusculas(s) == s;
    SinEspaciosSeCopia(s, []);
    assert s + [] == s;
  }

  /** The characters of `s` other than whitespace and underscores, in order. */
  function SoloTexto(s: string): string
  {
    if |s| == 0 then []
    else (if EsEspacio(s[0]) || s[0] == '_' then [] else [s[0]]) + SoloTexto(s[1..])
  }

  lemma {:induction false} SoloTextoBlanco(s: string)
    requires EsBlanco(s)
    ensures SoloTexto(s) == []
    decreases |s|
  {
    if |s| > 0 {
      SoloTextoBlanco(s[1..]);
    }
  }

  lemma {:induction false} SoloTextoConcatenar(a: string, b: string)
    ensures SoloTexto(a + b) == SoloTexto(a) + SoloTexto(b)
    decreases |a|
  {
    if |a| == 0 {
      assert a + b == b;
    } else {
      assert (a + b)[1..] == a[1..] + b;
      SoloTextoConcatenar(a[1..], b);
    }
  }

  /** Replacing whitespace loses no other character and reorders nothing:
      apart from whitespace and underscores the text is the same. */
  lemma {:induction false} ReemplazoConservaTexto(s: string)
    ensures SoloTexto(ReemplazarEspacios(s)) == SoloTexto(s)
    decreases |s|
  {
    if |s| > 0 {
      if EsEspacio(s[0]) {
        var t := SaltarEspacios(s[1..]);
        var prefijo := s[1..][..|s[1..]| - |t|];
        assert s[1..] == prefijo + t;
        SoloTextoBlanco(prefijo);
        SoloTextoConcatenar(prefijo, t);
        ReemplazoConservaTexto(t);
        SoloTextoConcatenar("_", ReemplazarEspacios(t));
      } else {
        ReemplazoConservaTexto(s[1..]);
        SoloTextoConcatenar([s[0]], ReemplazarEspacios(s[1..]));
      }
    }
  }

  /** The slug keeps the lower-cased name's text, in order. */
  lemma {:induction false} SlugConservaTexto(nombre: string)
    ensures SoloTexto(Slug(nombre)) == SoloTexto(Minusculas(nombre))
  {
    ReemplazoConservaTexto(Minusculas(nombre));
  }

  /** What the route answers: a 400 for a missing field, or the folder and
      id of the upload. */
  datatype RespuestaSubida = FaltanCampos | Subida(folder: string, publicId: string)

  /** The route: a missing file, or an empty or missing role or name, is
      refused before anything is uploaded; otherwise the image goes to
      `firmas/<carpeta>` under the slug of the name. */
  function Subir(hayArchivo: bool, tipo: Option<string>, nombre: Option<string>): (r: RespuestaSubida)
    ensures r.FaltanCampos? <==> !hayArchivo || tipo.None? || tipo == Some("") || nombre.None? || nombre == Some("")
    ensures r.Subida? ==> r.folder == "firmas/" + Carpeta(tipo.value) && r.publicId == Slug(nombre.value)
  {
    if !hayArchivo || tipo.None? || tipo.value == "" || nombre.None? || nombre.value == "" then
      FaltanCampos
    else
      Subida("firmas/" + Carpeta(tipo.value), Slug(nombre.value))
  }
}
