/** The scoring side of the transport questionnaire (src/App.tsx): the fixed
    list of twelve questions, the answer map, the derived `total` and
    `faltantes`, and the three result buckets. */
module Scoring {
  import opened Options

  /** One statement of the questionnaire. */
  datatype Pregunta = Pregunta(id: int, texto: string)

  /** The twelve questions, in display order, with ids 1 to 12. */
  const Preguntas: seq<Pregunta> := [
    Pregunta(1, "¿Recibes reportes de puntualidad por ruta y unidad con indicadores claros?"),
    Pregunta(2, "¿Tu proveedor garantiza al menos un 95% de cumplimiento en horarios?"),
    Pregunta(3, "¿Tus empleados viajan en unidades recientes, con clima y mantenimiento preventivo al día?"),
    Pregunta(4, "¿Los choferes cuentan con capacitación en manejo defensivo y protocolos de seguridad?"),
    Pregunta(5, "¿Las unidades ofrecen comodidad suficiente para llegadas con buen ánimo y energía?"),
    Pregunta(6, "¿El proveedor entiende que el transporte influye en la rotación y el compromiso del personal?"),
    Pregunta(7, "Si falla una unidad, ¿recibes reposición inmediata?"),
    Pregunta(8, "¿Existen protocolos probados para incidentes en ruta o bloqueos?"),
    Pregunta(9, "¿Puedes contactar a más de una persona responsable en caso de incidencia?"),
    Pregunta(10, "¿Hay tres niveles de escalación (operador, coordinador, dirección) para resolver rápido?"),
    Pregunta(11, "¿Cuentas con acceso a monitoreo en tiempo real de tus unidades?"),
    Pregunta(12, "¿Puedes saber quién subió y quién no al inicio del turno?")
  ]

  /** The number of questions, and the largest total (every answer "Sí" = 2). */
  const NumPreguntas: nat := 12
  const TotalMaximo: nat := 24

  /** The answer map: question id to the chosen value. A key that is absent is
      JavaScript's `undefined`; `None` is an explicit `null`. */
  type Respuestas = map<int, Option<int>>

  /** The values the three radio options record: "Sí" 2, "Parcial" 1, "No" 0. */
  predicate ValorDeOpcion(v: int) {
    0 <= v <= 2
  }

  /** Every recorded answer is one of the radio options' values. */
  predicate ValoresValidos(m: Respuestas) {
    forall id :: id in m && m[id].Some? ==> ValorDeOpcion(m[id].value)
  }

  /** Question `id` has no answer: absent or null. */
  predicate Falta(m: Respuestas, id: int) {
    id !in m || m[id].None?
  }

  /** What question `id` contributes to the total: `respuestas[id] ?? 0`. */
  function Valor(m: Respuestas, id: int): int {
    if id in m then m[id].GetOr(0) else 0
  }

  /** The running sum of `reduce((acc, p) => acc + (respuestas[p.id] ?? 0), 0)`
      over `qs`, first question first. */
  function Suma(qs: seq<Pregunta>, m: Respuestas): int {
    if qs == [] then 0
    else Suma(qs[..|qs| - 1], m) + Valor(m, qs[|qs| - 1].id)
  }

  /** `qs.filter(p => respuestas[p.id] is undefined or null)`: the unanswered
      questions of `qs`, in order. */
  function Pendientes(qs: seq<Pregunta>, m: Respuestas): (r: seq<Pregunta>)
    ensures |r| <= |qs|
  {
    if qs == [] then []
    else
      var q := qs[|qs| - 1];
      Pendientes(qs[..|qs| - 1], m) + (if Falta(m, q.id) then [q] else [])
  }

  /** `total`: the sum of the recorded answers, an absent or null one counting 0. */
  function Total(m: Respuestas): int {
    Suma(Preguntas, m)
  }

  /** `faltantes`: how many questions have no answer. */
  function Faltantes(m: Respuestas): nat {
    |Pendientes(Preguntas, m)|
  }

  /** The ids of the unanswered questions. */
  function SinResponder(m: Respuestas): set<int> {
    set id | 1 <= id <= NumPreguntas && Falta(m, id)
  }

  // ---------------------------------------------------------------------------
  // Buckets
  // ---------------------------------------------------------------------------

  /** The three result texts, keyed `bajo`, `medio` and `alto`. */
  datatype Nivel = Bajo | Medio | Alto {
    /** The badge shown in the result panel. */
    function Badge(): string {
      match this
      case Bajo => "Muy pobre"
      case Medio => "Regular"
      case Alto => "Sólido"
    }
  }

  /** `rango(total)`: the bucket a total falls in. Each bucket is one contiguous
      range, switching at 11/12 and 18/19, and every integer is in exactly one. */
  function Rango(total: int): (n: Nivel)
    ensures n == Bajo <==> total <= 11
    ensures n == Medio <==> 12 <= total <= 18
    ensures n == Alto <==> 19 <= total
  {
    if total <= 11 then Bajo
    else if total <= 18 then Medio
    else Alto
  }

  function Orden(n: Nivel): nat {
    match n
    case Bajo => 0
    case Medio => 1
    case Alto => 2
  }

  /** A higher total never lands in a lower bucket. */
  lemma RangoMonotono(s: int, t: int)
    requires s <= t
    ensures Orden(Rango(s)) <= Orden(Rango(t))
  {
  }

  /** The three badges are different, so the badge tells the bucket. */
  lemma BadgesDistintos(a: Nivel, b: Nivel)
    ensures a.Badge() == b.Badge() ==> a == b
  {
    assert "Muy pobre"[0] != "Regular"[0] && "Regular"[0] != "Sólido"[0] && "Muy pobre"[0] != "Sólido"[0];
  }

  // ---------------------------------------------------------------------------
  // Facts about total and faltantes
  // ---------------------------------------------------------------------------

  /** `qs[i]` is question `i + 1`, as in the fixed list. */
  predicate IdsConsecutivos(qs: seq<Pregunta>) {
    forall i :: 0 <= i < |qs| ==> qs[i].id == i + 1
  }

  lemma IdsDePreguntas()
    ensures |Preguntas| == NumPreguntas && IdsConsecutivos(Preguntas)
  {
  }

  /** Over any list of questions, when answers are option values the sum is
      between 0 and twice the number of answered questions. */
  lemma {:induction false} SumaAcotada(qs: seq<Pregunta>, m: Respuestas)
    requires ValoresValidos(m)
    ensures 0 <= Suma(qs, m) <= 2 * (|qs| - |Pendientes(qs, m)|)
  {
    if qs != [] {
      var q := qs[|qs| - 1];
      SumaAcotada(qs[..|qs| - 1], m);
      assert Falta(m, q.id) ==> Valor(m, q.id) == 0;
    }
  }

  /** With option values only, `0 <= total <= 2 * (12 - faltantes) <= 24`. */
  lemma TotalAcotado(m: Respuestas)
    requires ValoresValidos(m)
    ensures 0 <= Total(m) <= 2 * (NumPreguntas - Faltantes(m)) <= TotalMaximo
  {
    SumaAcotada(Preguntas, m);
  }

  /** The ids in `1..n` without an answer. */
  function SinResponderHasta(m: Respuestas, n: int): set<int> {
    set id | 1 <= id <= n && Falta(m, id)
  }

  /** The filter keeps exactly the unanswered questions of `qs`. */
  lemma {:induction false} PendientesSonLasQueFaltan(qs: seq<Pregunta>, m: Respuestas, q: Pregunta)
    ensures q in Pendientes(qs, m) <==> q in qs && Falta(m, q.id)
  {
    if qs != [] {
      var init := qs[..|qs| - 1];
      PendientesSonLasQueFaltan(init, m, q);
      assert qs == init + [qs[|qs| - 1]];
    }
  }

  /** Raising the bound by one adds `k` to the unanswered ids exactly when
      `k` is unanswered. */
  lemma SinResponderPaso(m: Respuestas, k: int)
    requires k >= 1
    ensures |SinResponderHasta(m, k)| == |SinResponderHasta(m, k - 1)| + (if Falta(m, k) then 1 else 0)
  {
    var prev := SinResponderHasta(m, k - 1);
    var cur := SinResponderHasta(m, k);
    assert k !in prev;
    if Falta(m, k) {
      assert cur == prev + {k} by {
        forall id ensures id in cur <==> id in prev + {k} {
          assert id in cur <==> 1 <= id <= k && Falta(m, id);
          assert id in prev <==> 1 <= id <= k - 1 && Falta(m, id);
        }
      }
    } else {
      assert cur == prev by {
        forall id ensures id in cur <==> id in prev {
          assert id in cur <==> 1 <= id <= k && Falta(m, id);
          assert id in prev <==> 1 <= id <= k - 1 && Falta(m, id);
        }
      }
    }
  }

  lemma {:induction false} PendientesCuenta(qs: seq<Pregunta>, m: Respuestas)
    requires IdsConsecutivos(qs)
    ensures |Pendientes(qs, m)| == |SinResponderHasta(m, |qs|)|
  {
    if qs != [] {
      var k := |qs|;
      var init := qs[..k - 1];
      assert IdsConsecutivos(init) by {
        forall i | 0 <= i < |init| ensures init[i].id == i + 1 {
          assert init[i] == qs[i];
        }
      }
      PendientesCuenta(init, m);
      assert qs[k - 1].id == k;
      SinResponderPaso(m, k);
    }
  }

  /** `faltantes` is the number of ids in 1..12 without an answer. */
  lemma FaltantesCuenta(m: Respuestas)
    ensures Faltantes(m) == |SinResponder(m)|
  {
    IdsDePreguntas();
    PendientesCuenta(Preguntas, m);
    assert SinResponderHasta(m, NumPreguntas) == SinResponder(m);
  }

  /** Nothing is missing exactly when every one of the twelve ids has a value. */
  lemma CompletoSiiTodasRespondidas(m: Respuestas)
    ensures Faltantes(m) == 0 <==> forall id :: 1 <= id <= NumPreguntas ==> !Falta(m, id)
  {
    FaltantesCuenta(m);
    var faltan := SinResponder(m);
    if |faltan| != 0 {
      var id :| id in faltan;
    } else {
      assert faltan == {};
      forall id | 1 <= id <= NumPreguntas ensures !Falta(m, id) {
        assert id !in faltan;
      }
    }
  }

  lemma {:induction false} SumaTrasAsignar(qs: seq<Pregunta>, m: Respuestas, id: int, v: int)
    requires IdsConsecutivos(qs)
    ensures Suma(qs, m[id := Some(v)])
            == Suma(qs, m) + (if 1 <= id <= |qs| then v - Valor(m, id) else 0)
  {
    if qs != [] {
      SumaTrasAsignar(qs[..|qs| - 1], m, id, v);
    }
  }

  /** Recording `v` for `id` moves the total by `v` minus the old contribution
      of `id` when `id` is one of the twelve questions, and not at all otherwise. */
  lemma TotalTrasAsignar(m: Respuestas, id: int, v: int)
    ensures Total(m[id := Some(v)])
            == Total(m) + (if 1 <= id <= NumPreguntas then v - Valor(m, id) else 0)
  {
    IdsDePreguntas();
    SumaTrasAsignar(Preguntas, m, id, v);
  }

  /** Recording an answer for a question that had none lowers `faltantes` by
      one; any other recording leaves it as it was. */
  lemma FaltantesTrasAsignar(m: Respuestas, id: int, v: int)
    ensures Faltantes(m[id := Some(v)])
            == Faltantes(m) - (if 1 <= id <= NumPreguntas && Falta(m, id) then 1 else 0)
  {
    var m' := m[id := Some(v)];
    FaltantesCuenta(m);
    FaltantesCuenta(m');
    assert SinResponder(m') == SinResponder(m) - {id};
  }

  /** When no question of the list is answered the fold gives 0 and the
      filter keeps every question. */
  lemma {:induction false} SinRespuestasNadaSuma(qs: seq<Pregunta>, m: Respuestas)
    requires forall i :: 0 <= i < |qs| ==> Falta(m, qs[i].id)
    ensures Suma(qs, m) == 0
    ensures Pendientes(qs, m) == qs
  {
    if qs != [] {
      var init := qs[..|qs| - 1];
      var q := qs[|qs| - 1];
      assert forall i :: 0 <= i < |init| ==> init[i] == qs[i];
      SinRespuestasNadaSuma(init, m);
      assert Falta(m, q.id);
      assert Valor(m, q.id) == 0;
      assert qs == init + [q];
    }
  }

  /** The empty map (after `reiniciar`) has total 0 and twelve missing answers. */
  lemma MapaVacio()
    ensures Total(map[]) == 0 && Faltantes(map[]) == NumPreguntas
  {
    SinRespuestasNadaSuma(Preguntas, map[]);
  }

  lemma {:induction false} SumaMaxima(qs: seq<Pregunta>, m: Respuestas)
    requires IdsConsecutivos(qs) && ValoresValidos(m)
    ensures Suma(qs, m) == 2 * |qs| <==> forall id :: 1 <= id <= |qs| ==> Valor(m, id) == 2
  {
    if qs != [] {
      var k := |qs|;
      SumaMaxima(qs[..k - 1], m);
      SumaAcotada(qs[..k - 1], m);
      assert qs[k - 1].id == k;
      if Suma(qs, m) == 2 * k {
        assert Valor(m, k) == 2;
      }
    }
  }

  /** With option values only, the total is 24 exactly when all twelve answers are "Sí". */
  lemma TotalMaximoSii(m: Respuestas)
    requires ValoresValidos(m)
    ensures Total(m) == TotalMaximo
            <==> forall id :: 1 <= id <= NumPreguntas ==> id in m && m[id] == Some(2)
  {
    IdsDePreguntas();
    SumaMaxima(Preguntas, m);
    if Total(m) == TotalMaximo {
      forall id | 1 <= id <= NumPreguntas ensures id in m && m[id] == Some(2) {
        assert Valor(m, id) == 2;
      }
    }
  }

  /** Questions `1..k` answered `a`, the rest answered `b`: the sum is
      `a` per question up to `k` and `b` per question after it. */
  lemma {:induction false} SumaPorTramos(qs: seq<Pregunta>, m: Respuestas, k: nat, a: int, b: int)
    requires IdsConsecutivos(qs) && k <= |qs|
    requires forall id :: 1 <= id <= k ==> Valor(m, id) == a
    requires forall id :: k < id <= |qs| ==> Valor(m, id) == b
    ensures Suma(qs, m) == a * k + b * (|qs| - k)
  {
    if |qs| == k {
      if k > 0 {
        SumaPorTramos(qs[..k - 1], m, k - 1, a, b);
        assert qs[k - 1].id == k;
      }
    } else {
      SumaPorTramos(qs[..|qs| - 1], m, k, a, b);
      assert qs[|qs| - 1].id == |qs|;
    }
  }

  /** Every answer "Sí": total 24, nothing missing, bucket `alto`, badge "Sólido". */
  lemma EscenarioTodoSi(m: Respuestas)
    requires forall id :: 1 <= id <= NumPreguntas ==> id in m && m[id] == Some(2)
    ensures Total(m) == 24 && Faltantes(m) == 0 && Rango(Total(m)).Badge() == "Sólido"
  {
    IdsDePreguntas();
    SumaPorTramos(Preguntas, m, NumPreguntas, 2, 0);
    CompletoSiiTodasRespondidas(m);
  }

  /** Every answer "No": total 0, nothing missing, bucket `bajo`, badge "Muy pobre". */
  lemma EscenarioTodoNo(m: Respuestas)
    requires forall id :: 1 <= id <= NumPreguntas ==> id in m && m[id] == Some(0)
    ensures Total(m) == 0 && Faltantes(m) == 0 && Rango(Total(m)).Badge() == "Muy pobre"
  {
    IdsDePreguntas();
    SumaPorTramos(Preguntas, m, NumPreguntas, 0, 0);
    CompletoSiiTodasRespondidas(m);
  }

  /** Six answers "Sí" and six "Parcial": total 18, the top of bucket `medio`. */
  lemma EscenarioLimiteMedio(m: Respuestas)
    requires forall id :: 1 <= id <= 6 ==> id in m && m[id] == Some(2)
    requires forall id :: 6 < id <= NumPreguntas ==> id in m && m[id] == Some(1)
    ensures Total(m) == 18 && Faltantes(m) == 0 && Rango(Total(m)).Badge() == "Regular"
    ensures Rango(Total(m) + 1) == Alto
  {
    IdsDePreguntas();
    SumaPorTramos(Preguntas, m, 6, 2, 1);
    CompletoSiiTodasRespondidas(m);
  }
}
