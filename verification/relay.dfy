/** The mail-relay endpoint of api/send.ts as a pure function. The parsed body
    (`request.json()` plus destructuring) is an input, and so is the outcome of
    handing the message to the e-mail provider; the sender and recipient
    addresses are a configuration value. */
module Relay {
  import opened Options
  import opened Strings

  /** One element of `respuestas`: question id, question text, value. */
  datatype RespuestaPregunta = RespuestaPregunta(id: int, texto: string, val: int)

  /** The destructured request body. A field that is absent is `None`. */
  datatype Cuerpo = Cuerpo(
    servicio: Option<string>,
    total: Option<int>,
    nombre: Option<string>,
    puesto: Option<string>,
    empresa: Option<string>,
    correo: Option<string>,
    celular: Option<string>,
    respuestas: Option<seq<RespuestaPregunta>>)

  /** An incoming request. `cuerpo` is `None` when `request.json()` rejects or
      the JSON value cannot be destructured. */
  datatype Peticion = Peticion(metodo: string, cuerpo: Option<Cuerpo>)

  /** Deployment configuration: the `EMAIL_FROM` and `EMAIL_TO` addresses. */
  datatype Config = Config(from: string, to: string)

  /** The message handed to the provider. */
  datatype Mensaje = Mensaje(from: string, to: string, subject: string, html: string,
                             replyTo: Option<seq<string>>)

  /** What the provider call does: delivers, returns an `error`, or throws. */
  datatype Entrega = Entregado | ErrorDelProveedor | Excepcion

  /** An HTTP response; `contentType` `None` is the plain-text default. */
  datatype Response = Response(status: int, contentType: Option<string>, body: string)

  /** The response, and the message handed to the provider if one was. */
  datatype Salida = Salida(response: Response, enviado: Option<Mensaje>)

  const MetodoNoPermitido := Response(405, None, "Method Not Allowed")
  const SolicitudInvalida := Response(400, None, "Bad Request")
  const ErrorDeProveedor := Response(500, None, "Resend error")
  const Aceptado := Response(200, Some("application/json"), "{\"ok\":true}")

  // ---------------------------------------------------------------------------
  // Interpolation
  // ---------------------------------------------------------------------------

  /** `${v}` for a string field: the string itself, or "undefined". */
  function Texto(v: Option<string>): string {
    v.GetOr("undefined")
  }

  /** `${v}` for a number field: its decimal text, or "undefined". */
  function Numero(v: Option<int>): string {
    match v
    case Some(n) => IntToString(n)
    case None => "undefined"
    }

  /** `${v || "-"}`: the field when it is a non-empty string, the dash otherwise. */
  function OGuion(v: Option<string>): (r: string)
    ensures r != ""
    ensures v.Some? && v.value != "" ==> r == v.value
    ensures r == "-" <==> v.None? || v.value == "" || v.value == "-"
  {
    if v.Some? && v.value != "" then v.value else "-"
  }

  /** `correo ? [correo] : undefined`: a reply-to list only for a non-empty address. */
  function ResponderA(correo: Option<string>): (r: Option<seq<string>>)
    ensures r.Some? <==> correo.Some? && correo.value != ""
    ensures r.Some? ==> r.value == [correo.value]
  {
    if correo.Some? && correo.value != "" then Some([correo.value]) else None
  }

  // ---------------------------------------------------------------------------
  // Table rows and their parser
  // ---------------------------------------------------------------------------

  const Estilo := "padding:4px 8px;border:1px solid #eee;"
  const CeldaId := "<tr>" + "<td style=\"" + Estilo + "\">"
  const CeldaTexto := ".</td>" + "<td style=\"" + Estilo + "\">"
  const CeldaValor := "</td>" + "<td style=\"" + Estilo + "text-align:center;" + "\">"
  const FinFila := "</td></tr>"

  /** The `<tr>` for one answer: id, text and value in three cells. */
  function Fila(r: RespuestaPregunta): string {
    CeldaId + IntToString(r.id) + CeldaTexto + r.texto + CeldaValor + IntToString(r.val) + FinFila
  }

  /** `respuestas.map(row).join("")`. */
  function Filas(rs: seq<RespuestaPregunta>): string {
    if rs == [] then "" else Fila(rs[0]) + Filas(rs[1..])
  }

  /** Splits `s` at its first `c`, provided the rest starts with `sep` (whose
      first character is `c`): the text before it and the text after `sep`. */
  function Cortar(s: string, c: char, sep: string): (r: Option<(string, string)>)
    ensures r.Some? ==> |r.value.0| + |sep| + |r.value.1| == |s|
  {
    var i := IndexOf(s, c);
    if sep <= s[i..] then Some((s[..i], s[i + |sep|..])) else None
  }

  lemma CortarDe(a: string, sep: string, rest: string, c: char)
    requires c !in a && sep != [] && sep[0] == c
    ensures Cortar(a + sep + rest, c, sep) == Some((a, rest))
  {
    var s := a + sep + rest;
    assert s == a + (sep + rest);
    IndexOfAfter(a, sep + rest, c);
    assert s[|a|..] == sep + rest;
    assert s[..|a|] == a;
    assert s[|a| + |sep|..] == rest;
  }

  /** Reads one row off the front of `s`, returning the answer and what follows. */
  function LeerFila(s: string): (r: Option<(RespuestaPregunta, string)>)
    ensures r.Some? ==> |r.value.1| < |s|
  {
    if !(CeldaId <= s) then None
    else
      match Cortar(s[|CeldaId|..], '.', CeldaTexto)
      case None => None
      case Some((id, s1)) =>
        match Cortar(s1, '<', CeldaValor)
        case None => None
        case Some((texto, s2)) =>
          match Cortar(s2, '<', FinFila)
          case None => None
          case Some((val, rest)) =>
            match (ParseInt(id), ParseInt(val))
            case (Some(i), Some(v)) => Some((RespuestaPregunta(i, texto, v), rest))
            case _ => None
  }

  /** Reads a whole sequence of rows. */
  function LeerFilas(s: string): Option<seq<RespuestaPregunta>>
    decreases |s|
  {
    if s == [] then Some([])
    else
      match LeerFila(s)
      case None => None
      case Some((r, rest)) =>
        match LeerFilas(rest)
        case None => None
        case Some(rs) => Some([r] + rs)
  }

  /** The text of an answer carries no markup. */
  predicate SinMarcado(r: RespuestaPregunta) {
    '<' !in r.texto
  }

  lemma Separadores()
    ensures CeldaTexto != [] && CeldaTexto[0] == '.'
    ensures CeldaValor != [] && CeldaValor[0] == '<'
    ensures FinFila != [] && FinFila[0] == '<'
  {
  }

  lemma SinSeparadores(n: int)
    ensures '.' !in IntToString(n) && '<' !in IntToString(n)
  {
    IntToStringChars(n);
  }

  lemma Asociar(c0: string, a: string, c1: string, t: string, c2: string, v: string, c3: string, rest: string)
    ensures c0 + a + c1 + t + c2 + v + c3 + rest == c0 + (a + c1 + (t + c2 + (v + c3 + rest)))
  {
  }

  lemma FilaPorPartes(r: RespuestaPregunta, rest: string)
    ensures Fila(r) + rest
            == CeldaId + (IntToString(r.id) + CeldaTexto
                          + (r.texto + CeldaValor + (IntToString(r.val) + FinFila + rest)))
  {
    Asociar(CeldaId, IntToString(r.id), CeldaTexto, r.texto, CeldaValor, IntToString(r.val), FinFila, rest);
  }

  /** A row followed by anything reads back as that row's answer. */
  lemma LeerFilaDeFila(r: RespuestaPregunta, rest: string)
    requires SinMarcado(r)
    ensures LeerFila(Fila(r) + rest) == Some((r, rest))
  {
    var a := IntToString(r.id);
    var v := IntToString(r.val);
    SinSeparadores(r.id);
    SinSeparadores(r.val);
    Separadores();
    IntToStringRoundTrip(r.id);
    IntToStringRoundTrip(r.val);
    var s2 := v + FinFila + rest;
    var s1 := r.texto + CeldaValor + s2;
    var s0 := a + CeldaTexto + s1;
    FilaPorPartes(r, rest);
    assert CeldaId <= CeldaId + s0 && (CeldaId + s0)[|CeldaId|..] == s0;
    CortarDe(a, CeldaTexto, s1, '.');
    CortarDe(r.texto, CeldaValor, s2, '<');
    CortarDe(v, FinFila, rest, '<');
  }

  lemma LeerFilasPaso(s: string, r: RespuestaPregunta, rest: string, rs: seq<RespuestaPregunta>)
    ensures LeerFila(s) == Some((r, rest)) && LeerFilas(rest) == Some(rs)
            ==> LeerFilas(s) == Some([r] + rs)
  {
  }

  lemma LeerPrimeraFila(rs: seq<RespuestaPregunta>)
    requires rs != [] && SinMarcado(rs[0])
    ensures LeerFila(Filas(rs)) == Some((rs[0], Filas(rs[1..])))
  {
    assert Filas(rs) == Fila(rs[0]) + Filas(rs[1..]);
    LeerFilaDeFila(rs[0], Filas(rs[1..]));
  }

  /** The rows of answers whose texts carry no markup read back as exactly
      those answers, in order: one row per answer, each holding its id, text
      and value. */
  lemma {:induction false} LeerFilasDeFilas(rs: seq<RespuestaPregunta>)
    requires forall i :: 0 <= i < |rs| ==> SinMarcado(rs[i])
    ensures LeerFilas(Filas(rs)) == Some(rs)
  {
    if rs != [] {
      var rest := Filas(rs[1..]);
      LeerPrimeraFila(rs);
      LeerFilasDeFilas(rs[1..]);
      LeerFilasPaso(Filas(rs), rs[0], rest, rs[1..]);
      assert [rs[0]] + rs[1..] == rs;
    }
  }

  lemma Reasociar(c0: string, a: string, c1: string, x: string, c2: string, v: string, c3: string, y: string)
    ensures c0 + a + c1 + (x + c2 + v + c3 + c0 + a + c1 + y) + c2 + v + c3
            == (c0 + a + c1 + x + c2 + v + c3) + (c0 + a + c1 + y + c2 + v + c3)
  {
  }

  /** A text that closes its row and opens another renders like two answers. */
  lemma FilaInyectada(id: int, val: int, x: string, y: string)
    ensures var t := x + CeldaValor + IntToString(val) + FinFila + CeldaId + IntToString(id) + CeldaTexto + y;
            Fila(RespuestaPregunta(id, t, val))
            == Fila(RespuestaPregunta(id, x, val)) + Fila(RespuestaPregunta(id, y, val))
  {
    Reasociar(CeldaId, IntToString(id), CeldaTexto, x, CeldaValor, IntToString(val), FinFila, y);
  }

  /** The texts are not escaped: an answer whose text holds markup renders to
      the same rows as two different answers. */
  lemma FilasSinEscapar()
    ensures var dos := [RespuestaPregunta(1, "a", 2), RespuestaPregunta(1, "b", 2)];
            var una := [RespuestaPregunta(1, "a" + CeldaValor + "2" + FinFila + CeldaId + "1" + CeldaTexto + "b", 2)];
            una != dos && Filas(una) == Filas(dos)
  {
    var dos := [RespuestaPregunta(1, "a", 2), RespuestaPregunta(1, "b", 2)];
    var t := "a" + CeldaValor + "2" + FinFila + CeldaId + "1" + CeldaTexto + "b";
    assert IntToString(1) == "1" && IntToString(2) == "2";
    FilaInyectada(1, 2, "a", "b");
    assert Filas([RespuestaPregunta(1, t, 2)]) == Fila(RespuestaPregunta(1, t, 2));
    assert Filas(dos) == Fila(dos[0]) + Fila(dos[1]) by {
      assert dos[1..] == [dos[1]];
      assert Filas([dos[1]]) == Fila(dos[1]);
    }
  }

  // ---------------------------------------------------------------------------
  // Subject line and its reader
  // ---------------------------------------------------------------------------

  const PrefijoAsunto := "Nuevo lead | "
  const MarcaTotal := " | Total: "

  /** `Nuevo lead | ${servicio} | Total: ${total}`. */
  function Asunto(servicio: Option<string>, total: Option<int>): string {
    PrefijoAsunto + Texto(servicio) + MarcaTotal + Numero(total)
  }

  /** How many digits end `s`. */
  function DigitosFinales(s: string): (d: nat)
    ensures d <= |s|
  {
    if s == [] || !IsDigit(s[|s| - 1]) then 0
    else DigitosFinales(s[..|s| - 1]) + 1
  }

  lemma {:induction false} DigitosFinalesTras(x: string, t: string)
    requires AllDigits(t) && (x == [] || !IsDigit(x[|x| - 1]))
    ensures DigitosFinales(x + t) == |t|
  {
    if t == [] {
      assert x + t == x;
    } else {
      var t' := t[..|t| - 1];
      DigitosFinalesTras(x, t');
      assert (x + t)[..|x + t| - 1] == x + t';
    }
  }

  predicate TerminaEn(s: string, t: string) {
    |t| <= |s| && s[|s| - |t|..] == t
  }

  /** Reads the service label and the total back off a subject line. */
  function LeerAsunto(s: string): Option<(string, int)> {
    var d := DigitosFinales(s);
    var cabeza := s[..|s| - d];
    var digitos := s[|s| - d..];
    if d == 0 || !AllDigits(digitos) || !(PrefijoAsunto <= cabeza) then None
    else if TerminaEn(cabeza, MarcaTotal + "-") && |PrefijoAsunto| + |MarcaTotal| + 1 <= |cabeza| then
      Some((cabeza[|PrefijoAsunto|..|cabeza| - |MarcaTotal| - 1], -(DigitsValue(digitos) as int)))
    else if TerminaEn(cabeza, MarcaTotal) && |PrefijoAsunto| + |MarcaTotal| <= |cabeza| then
      Some((cabeza[|PrefijoAsunto|..|cabeza| - |MarcaTotal|], DigitsValue(digitos) as int))
    else None
  }

  lemma PartesDelAsunto(servicio: string, digitos: string, signo: string)
    requires AllDigits(digitos) && (signo == "" || signo == "-")
    ensures var cabeza := PrefijoAsunto + servicio + MarcaTotal + signo;
            var s := cabeza + digitos;
            && DigitosFinales(s) == |digitos|
            && s[..|s| - |digitos|] == cabeza
            && s[|s| - |digitos|..] == digitos
            && PrefijoAsunto <= cabeza
            && cabeza[|PrefijoAsunto|..|cabeza| - |MarcaTotal| - |signo|] == servicio
            && TerminaEn(cabeza, MarcaTotal + signo)
            && (signo == "" <==> !TerminaEn(cabeza, MarcaTotal + "-"))
  {
    var cabeza := PrefijoAsunto + servicio + MarcaTotal + signo;
    assert cabeza[|cabeza| - 1] == if signo == "" then ' ' else '-';
    DigitosFinalesTras(cabeza, digitos);
    assert cabeza[|cabeza| - |MarcaTotal + signo|..] == MarcaTotal + signo;
  }

  lemma LeerAsuntoNoNegativo(s: string, servicio: string, digitos: string)
    requires AllDigits(digitos) && digitos != []
    requires s == PrefijoAsunto + servicio + MarcaTotal + digitos
    ensures LeerAsunto(s) == Some((servicio, DigitsValue(digitos) as int))
  {
    PartesDelAsunto(servicio, digitos, "");
    var cabeza := PrefijoAsunto + servicio + MarcaTotal;
    assert cabeza + "" == cabeza;
    var d := DigitosFinales(s);
    assert d == |digitos| && d != 0;
    assert s[..|s| - d] == cabeza && s[|s| - d..] == digitos;
    assert cabeza[|PrefijoAsunto|..|cabeza| - |MarcaTotal|] == servicio;
  }

  lemma LeerAsuntoNegativo(s: string, servicio: string, digitos: string)
    requires AllDigits(digitos) && digitos != []
    requires s == PrefijoAsunto + servicio + MarcaTotal + "-" + digitos
    ensures LeerAsunto(s) == Some((servicio, -(DigitsValue(digitos) as int)))
  {
    PartesDelAsunto(servicio, digitos, "-");
    var cabeza := PrefijoAsunto + servicio + MarcaTotal + "-";
    var d := DigitosFinales(s);
    assert d == |digitos| && d != 0;
    assert s[..|s| - d] == cabeza && s[|s| - d..] == digitos;
    assert cabeza[|PrefijoAsunto|..|cabeza| - |MarcaTotal| - 1] == servicio;
  }

  lemma AsuntoNegativo(servicio: string, total: int)
    requires total < 0
    ensures LeerAsunto(Asunto(Some(servicio), Some(total))) == Some((servicio, total))
  {
    var digitos := NatToString(-total);
    NatToStringRoundTrip(-total);
    NatToStringDigits(-total);
    var s := Asunto(Some(servicio), Some(total));
    assert s == PrefijoAsunto + servicio + MarcaTotal + "-" + digitos;
    LeerAsuntoNegativo(s, servicio, digitos);
  }

  lemma AsuntoNoNegativo(servicio: string, total: int)
    requires total >= 0
    ensures LeerAsunto(Asunto(Some(servicio), Some(total))) == Some((servicio, total))
  {
    var digitos := NatToString(total);
    NatToStringRoundTrip(total);
    NatToStringDigits(total);
    var s := Asunto(Some(servicio), Some(total));
    assert s == PrefijoAsunto + servicio + MarcaTotal + digitos;
    LeerAsuntoNoNegativo(s, servicio, digitos);
  }

  /** The subject line determines both the service label and the total. */
  lemma LeerAsuntoDeAsunto(servicio: string, total: int)
    ensures LeerAsunto(Asunto(Some(servicio), Some(total))) == Some((servicio, total))
  {
    if total < 0 {
      AsuntoNegativo(servicio, total);
    } else {
      AsuntoNoNegativo(servicio, total);
    }
  }

  // ---------------------------------------------------------------------------
  // The HTML body
  // ---------------------------------------------------------------------------

  /** `t` occurs somewhere in `s`. */
  predicate Contiene(s: string, t: string) {
    exists k :: 0 <= k <= |s| && t <= s[k..]
  }

  lemma ContieneEntre(a: string, t: string, b: string)
    ensures Contiene(a + t + b, t)
  {
    assert t <= (a + t + b)[|a|..];
  }

  lemma ContieneIzquierda(a: string, b: string, t: string)
    requires Contiene(a, t)
    ensures Contiene(a + b, t)
  {
    var k :| 0 <= k <= |a| && t <= a[k..];
    assert t <= (a + b)[k..];
  }

  lemma ContieneDerecha(a: string, b: string, t: string)
    requires Contiene(b, t)
    ensures Contiene(a + b, t)
  {
    var k :| 0 <= k <= |b| && t <= b[k..];
    assert (a + b)[|a| + k..] == b[k..];
  }

  const AbreServicio := "\n      <h2>"
  const CierraServicio := "</h2>\n"
  const AbreTotal := "      <p><b>Total:</b> "
  const CierraTotal := " / 24</p>\n"
  const AbreContacto := "      <h3>Contacto</h3>\n      <ul>\n"
  const CierraContacto := "      </ul>\n"
  const Encabezados := "            <th style=\"padding:6px 8px;border:1px solid #eee;\">#</th>\n"
    + "            <th style=\"padding:6px 8px;border:1px solid #eee;text-align:left;\">Pregunta</th>\n"
    + "            <th style=\"padding:6px 8px;border:1px solid #eee;\">Valor</th>\n"
  const AbreTabla := "      <h3>Respuestas</h3>\n"
    + "      <table style=\"border-collapse:collapse;border:1px solid #eee;\">\n"
    + "        <thead>\n          <tr>\n" + Encabezados + "          </tr>\n        </thead>\n"
    + "        <tbody>"
  const CierraTabla := "</tbody>\n      </table>\n    "

  /** `<li><b>${etiqueta}:</b> ${v || "-"}</li>` on its own line. */
  function Dato(etiqueta: string, v: Option<string>): string {
    "        <li><b>" + etiqueta + ":</b> " + OGuion(v) + "</li>\n"
  }

  /** The `<h3>Contacto</h3>` list. */
  function Contacto(c: Cuerpo): string {
    AbreContacto + Dato("Nombre", c.nombre) + Dato("Puesto", c.puesto) + Dato("Empresa", c.empresa)
    + Dato("Correo", c.correo) + Dato("Celular", c.celular) + CierraContacto
  }

  /** The `<h2>${servicio}</h2>` heading. */
  function Servicio(servicio: Option<string>): string {
    AbreServicio + Texto(servicio) + CierraServicio
  }

  /** The `<p><b>Total:</b> ${total} / 24</p>` line. */
  function LineaTotal(total: Option<int>): string {
    AbreTotal + (Numero(total) + CierraTotal)
  }

  /** Everything of the `html` template literal before `${rows}`. */
  function AntesDeFilas(c: Cuerpo): string {
    Servicio(c.servicio) + LineaTotal(c.total) + Contacto(c) + AbreTabla
  }

  /** The `html` template literal, with `filas` between `<tbody>` and `</tbody>`. */
  function Html(c: Cuerpo, filas: string): string {
    AntesDeFilas(c) + filas + CierraTabla
  }

  lemma HtmlContieneAntes(c: Cuerpo, filas: string, t: string)
    requires Contiene(AntesDeFilas(c), t)
    ensures Contiene(Html(c, filas), t)
  {
    ContieneIzquierda(AntesDeFilas(c), filas, t);
    ContieneIzquierda(AntesDeFilas(c) + filas, CierraTabla, t);
  }

  lemma HtmlContieneContacto(c: Cuerpo, filas: string, t: string)
    requires Contiene(Contacto(c), t)
    ensures Contiene(Html(c, filas), t)
  {
    var p := Servicio(c.servicio) + LineaTotal(c.total);
    ContieneDerecha(p, Contacto(c), t);
    ContieneIzquierda(p + Contacto(c), AbreTabla, t);
    HtmlContieneAntes(c, filas, t);
  }

  /** Every contact field has its line in the contact list. */
  lemma ContactoMuestraCampos(c: Cuerpo)
    ensures Contiene(Contacto(c), Dato("Nombre", c.nombre))
    ensures Contiene(Contacto(c), Dato("Puesto", c.puesto))
    ensures Contiene(Contacto(c), Dato("Empresa", c.empresa))
    ensures Contiene(Contacto(c), Dato("Correo", c.correo))
    ensures Contiene(Contacto(c), Dato("Celular", c.celular))
  {
    var n := Dato("Nombre", c.nombre);
    var pu := Dato("Puesto", c.puesto);
    var e := Dato("Empresa", c.empresa);
    var co := Dato("Correo", c.correo);
    var ce := Dato("Celular", c.celular);
    var p1 := AbreContacto + n;
    var p2 := p1 + pu;
    var p3 := p2 + e;
    var p4 := p3 + co;
    var p5 := p4 + ce;
    ContieneEntre(AbreContacto, n, pu);
    ContieneIzquierda(p2, e, n);
    ContieneIzquierda(p3, co, n);
    ContieneIzquierda(p4, ce, n);
    ContieneEntre(p1, pu, e);
    ContieneIzquierda(p3, co, pu);
    ContieneIzquierda(p4, ce, pu);
    ContieneEntre(p2, e, co);
    ContieneIzquierda(p4, ce, e);
    ContieneEntre(p3, co, ce);
    ContieneEntre(p4, ce, CierraContacto);
    ContieneIzquierda(p5, CierraContacto, n);
    ContieneIzquierda(p5, CierraContacto, pu);
    ContieneIzquierda(p5, CierraContacto, e);
    ContieneIzquierda(p5, CierraContacto, co);
  }

  lemma ContieneAlFinal(a: string, t: string)
    ensures Contiene(a + t, t)
  {
    assert t <= (a + t)[|a|..];
  }

  /** The body contains the service heading. */
  lemma HtmlMuestraServicio(c: Cuerpo, filas: string)
    ensures Contiene(Html(c, filas), Servicio(c.servicio))
  {
    var sv := Servicio(c.servicio);
    var lt := LineaTotal(c.total);
    assert sv <= sv[0..];
    ContieneIzquierda(sv, lt, sv);
    ContieneIzquierda(sv + lt, Contacto(c), sv);
    ContieneIzquierda(sv + lt + Contacto(c), AbreTabla, sv);
    HtmlContieneAntes(c, filas, sv);
  }

  /** The body shows the total out of 24. */
  lemma HtmlMuestraTotal(c: Cuerpo, filas: string)
    ensures Contiene(Html(c, filas), Numero(c.total) + CierraTotal)
  {
    var sv := Servicio(c.servicio);
    var lt := LineaTotal(c.total);
    var t := Numero(c.total) + CierraTotal;
    ContieneAlFinal(AbreTotal, t);
    ContieneDerecha(sv, lt, t);
    ContieneIzquierda(sv + lt, Contacto(c), t);
    ContieneIzquierda(sv + lt + Contacto(c), AbreTabla, t);
    HtmlContieneAntes(c, filas, t);
  }

  /** The body names the service, shows the total out of 24 and lists every
      contact field, each as its own value or as a dash. */
  lemma HtmlMuestraDatos(c: Cuerpo, filas: string)
    ensures Contiene(Html(c, filas), Servicio(c.servicio))
    ensures Contiene(Html(c, filas), Numero(c.total) + CierraTotal)
    ensures Contiene(Html(c, filas), Dato("Nombre", c.nombre))
    ensures Contiene(Html(c, filas), Dato("Puesto", c.puesto))
    ensures Contiene(Html(c, filas), Dato("Empresa", c.empresa))
    ensures Contiene(Html(c, filas), Dato("Correo", c.correo))
    ensures Contiene(Html(c, filas), Dato("Celular", c.celular))
  {
    HtmlMuestraServicio(c, filas);
    HtmlMuestraTotal(c, filas);
    ContactoMuestraCampos(c);
    HtmlContieneContacto(c, filas, Dato("Nombre", c.nombre));
    HtmlContieneContacto(c, filas, Dato("Puesto", c.puesto));
    HtmlContieneContacto(c, filas, Dato("Empresa", c.empresa));
    HtmlContieneContacto(c, filas, Dato("Correo", c.correo));
    HtmlContieneContacto(c, filas, Dato("Celular", c.celular));
  }

  /** Two bodies built from the same request fields are equal exactly when
      their rows are: the rows sit between a fixed head and a fixed tail. */
  lemma HtmlDeterminaFilas(c: Cuerpo, f: string, g: string)
    ensures Html(c, f) == Html(c, g) <==> f == g
  {
    var a := AntesDeFilas(c);
    if Html(c, f) == Html(c, g) {
      assert |f| == |g|;
      assert (a + f + CierraTabla)[|a|..|a| + |f|] == f;
      assert (a + g + CierraTabla)[|a|..|a| + |g|] == g;
    }
  }

  // ---------------------------------------------------------------------------
  // The handler
  // ---------------------------------------------------------------------------

  /** The message the handler hands to the provider for body `c`. */
  function Componer(c: Cuerpo, rs: seq<RespuestaPregunta>, cfg: Config): Mensaje {
    Mensaje(cfg.from, cfg.to, Asunto(c.servicio, c.total), Html(c, Filas(rs)), ResponderA(c.correo))
  }

  /** The request reaches the provider call: a POST whose body parsed and
      carries a `respuestas` list. */
  predicate Despachable(req: Peticion) {
    req.metodo == "POST" && req.cuerpo.Some? && req.cuerpo.value.respuestas.Some?
  }

  /** `handler(request)`: the early 405, the provider call inside the `try`, and
      the 400 of the `catch`. */
  function Handler(req: Peticion, cfg: Config, entrega: Entrega): (r: Salida)
    ensures r.response.status == 405 <==> req.metodo != "POST"
    ensures r.response.status == 400
            <==> req.metodo == "POST" && (!Despachable(req) || entrega == Excepcion)
    ensures r.response.status == 500 <==> Despachable(req) && entrega == ErrorDelProveedor
    ensures r.response.status == 200 <==> Despachable(req) && entrega == Entregado
    ensures r.response in {MetodoNoPermitido, SolicitudInvalida, ErrorDeProveedor, Aceptado}
    ensures r.enviado.Some? <==> Despachable(req)
    ensures r.enviado.Some? ==>
              r.enviado.value == Componer(req.cuerpo.value, req.cuerpo.value.respuestas.value, cfg)
  {
    if req.metodo != "POST" then Salida(MetodoNoPermitido, None)
    else
      match req.cuerpo
      case None => Salida(SolicitudInvalida, None)
      case Some(c) =>
        match c.respuestas
        case None => Salida(SolicitudInvalida, None)
        case Some(rs) =>
          var m := Componer(c, rs, cfg);
          match entrega
          case Excepcion => Salida(SolicitudInvalida, Some(m))
          case ErrorDelProveedor => Salida(ErrorDeProveedor, Some(m))
          case Entregado => Salida(Aceptado, Some(m))
  }
}
