/** The state of the two components of src/App.tsx: `App` (the answers and
    whether the result modal is open) and `ModalContacto` (the contact form and
    the in-flight flag). Browser I/O is abstracted: an `alert` is the message a
    method returns, and a `fetch` is split into the request a method hands out
    and the outcome that is fed back. */
module App {
  import opened Options
  import opened Strings
  import opened Scoring

  // ---------------------------------------------------------------------------
  // The questionnaire page
  // ---------------------------------------------------------------------------

  /** The message shown when the result is asked for too early. */
  function AvisoFaltantes(faltantes: int): string {
    "Te faltan " + IntToString(faltantes) + " preguntas por contestar."
  }

  /** The `App` component's state. */
  class Cuestionario {
    var respuestas: Respuestas
    var abrirModal: bool

    /** Every recorded answer is one of the radio options' values. */
    ghost predicate Valid()
      reads this
    {
      ValoresValidos(respuestas)
    }

    /** The initial state: no answers, modal closed. */
    constructor ()
      ensures respuestas == map[] && !abrirModal && Valid()
      ensures Total(respuestas) == 0 && Faltantes(respuestas) == NumPreguntas
    {
      respuestas := map[];
      abrirModal := false;
      MapaVacio();
    }

    /** `setValor(id, val)`: records one answer and touches nothing else. */
    method SetValor(id: int, val: int)
      modifies this
      ensures respuestas == old(respuestas)[id := Some(val)]
      ensures abrirModal == old(abrirModal)
      ensures old(Valid()) && ValorDeOpcion(val) ==> Valid()
      ensures Total(respuestas)
              == Total(old(respuestas)) + (if 1 <= id <= NumPreguntas then val - Valor(old(respuestas), id) else 0)
      ensures Faltantes(respuestas)
              == Faltantes(old(respuestas)) - (if 1 <= id <= NumPreguntas && Falta(old(respuestas), id) then 1 else 0)
    {
      TotalTrasAsignar(respuestas, id, val);
      FaltantesTrasAsignar(respuestas, id, val);
      respuestas := respuestas[id := Some(val)];
    }

    /** `reiniciar`: clears every answer; the modal is left as it was. */
    method Reiniciar()
      modifies this
      ensures respuestas == map[] && abrirModal == old(abrirModal) && Valid()
      ensures Total(respuestas) == 0 && Faltantes(respuestas) == NumPreguntas
    {
      respuestas := map[];
      MapaVacio();
    }

    /** `verResultado`: opens the modal only when no answer is missing; otherwise
        returns the reminder of how many are missing and changes nothing. */
    method VerResultado() returns (aviso: Option<string>)
      modifies this
      ensures respuestas == old(respuestas)
      ensures aviso == None <==> Faltantes(respuestas) == 0
      ensures aviso != None ==> aviso == Some(AvisoFaltantes(Faltantes(respuestas)))
      ensures abrirModal == (old(abrirModal) || Faltantes(respuestas) == 0)
      ensures abrirModal && !old(abrirModal) ==> forall id :: 1 <= id <= NumPreguntas ==> !Falta(respuestas, id)
      ensures old(Valid()) ==> Valid()
      ensures Valid() ==> 0 <= Total(respuestas) <= TotalMaximo
    {
      CompletoSiiTodasRespondidas(respuestas);
      if Valid() {
        TotalAcotado(respuestas);
      }
      var faltantes := Faltantes(respuestas);
      if faltantes > 0 {
        aviso := Some(AvisoFaltantes(faltantes));
        return;
      }
      aviso := None;
      abrirModal := true;
    }

    /** `onClose` as the page passes it to the modal: closes it. */
    method CerrarModal()
      modifies this
      ensures !abrirModal && respuestas == old(respuestas)
      ensures old(Valid()) ==> Valid()
    {
      abrirModal := false;
    }
  }

  // ---------------------------------------------------------------------------
  // The contact form
  // ---------------------------------------------------------------------------

  /** The JSON body the form posts: the five trimmed fields and the total. */
  datatype Payload = Payload(nombre: string, puesto: string, empresa: string,
                             correo: string, celular: string, total: int)

  /** The form is complete when name and e-mail are non-empty once trimmed. */
  predicate DatosCompletos(nombre: string, correo: string) {
    Trim(nombre) != "" && Trim(correo) != ""
  }

  /** A field passes the check exactly when it holds something other than whitespace. */
  lemma DatosCompletosSii(nombre: string, correo: string)
    ensures DatosCompletos(nombre, correo) <==> !AllSpace(nombre) && !AllSpace(correo)
  {
    TrimEmptyIff(nombre);
    TrimEmptyIff(correo);
  }

  function ArmarPayload(nombre: string, puesto: string, empresa: string,
                        correo: string, celular: string, total: int): Payload
  {
    Payload(Trim(nombre), Trim(puesto), Trim(empresa), Trim(correo), Trim(celular), total)
  }

  /** Every field of the posted body is already trimmed, and when the form is
      complete the name and e-mail sent are non-empty. */
  lemma PayloadRecortado(nombre: string, puesto: string, empresa: string,
                         correo: string, celular: string, total: int)
    ensures var p := ArmarPayload(nombre, puesto, empresa, correo, celular, total);
            && Trim(p.nombre) == p.nombre && Trim(p.puesto) == p.puesto
            && Trim(p.empresa) == p.empresa && Trim(p.correo) == p.correo
            && Trim(p.celular) == p.celular && p.total == total
            && (DatosCompletos(nombre, correo) ==> p.nombre != "" && p.correo != "")
  {
    TrimIdempotent(nombre);
    TrimIdempotent(puesto);
    TrimIdempotent(empresa);
    TrimIdempotent(correo);
    TrimIdempotent(celular);
  }

  const AvisoObligatorios := "Nombre y correo son obligatorios."
  const AvisoEnviado := "¡Enviado! Gracias."
  const AvisoFallo := "No se pudo enviar. Intenta de nuevo."

  /** What pressing the submit button leads to. */
  datatype Envio =
    | Ignorado                     // the button is disabled while a request is in flight
    | Incompleto(aviso: string)    // validation failed: an alert, no request
    | Solicitud(payload: Payload)  // one POST to the relay with this body

  /** How the request ended, as the form sees it: a response (`resp.ok` and the
      `error` member of its JSON body, absent when the body is not JSON) or a
      rejected `fetch`. */
  datatype Resultado = Respondio(ok: bool, error: Option<string>) | FalloDeRed

  /** The `ModalContacto` component's state. Its state survives the modal being
      closed: the component stays mounted and only renders nothing. */
  class ModalContacto {
    var nombre: string
    var puesto: string
    var empresa: string
    var correo: string
    var celular: string
    var enviando: bool

    constructor ()
      ensures nombre == puesto == empresa == correo == celular == ""
      ensures !enviando
    {
      nombre, puesto, empresa, correo, celular := "", "", "", "", "";
      enviando := false;
    }

    /** Pressing "Enviar y cerrar" (`enviar`). While a request is in flight the
        button is disabled and nothing happens. An incomplete form gets an alert
        and no request, and `enviando` stays false. Otherwise `enviando` is set
        and exactly one request is made, carrying the trimmed fields and `total`. */
    method Enviar(total: int) returns (e: Envio)
      modifies this`enviando
      ensures old(enviando) ==> e == Ignorado && enviando
      ensures !old(enviando) && !DatosCompletos(nombre, correo)
              ==> e == Incompleto(AvisoObligatorios) && !enviando
      ensures !old(enviando) && DatosCompletos(nombre, correo)
              ==> e == Solicitud(ArmarPayload(nombre, puesto, empresa, correo, celular, total)) && enviando
    {
      if enviando {
        return Ignorado;
      }
      if !DatosCompletos(nombre, correo) {
        return Incompleto(AvisoObligatorios);
      }
      enviando := true;
      e := Solicitud(ArmarPayload(nombre, puesto, empresa, correo, celular, total));
    }

    /** The rest of `enviar`, once the request has ended. A response that is not
        ok, or a rejected fetch, gives a failure alert and clears `enviando`; a
        success gives the thank-you alert and asks to close the modal, and does
        NOT clear `enviando`. */
    method Responder(r: Resultado) returns (cerrar: bool, aviso: string)
      requires enviando
      modifies this`enviando
      ensures cerrar <==> r.Respondio? && r.ok
      ensures enviando == cerrar
      ensures cerrar ==> aviso == AvisoEnviado
      ensures r.Respondio? && !r.ok ==> aviso == AvisoFallo + "\n" + r.error.GetOr("")
      ensures r.FalloDeRed? ==> aviso == AvisoFallo
    {
      match r
      case FalloDeRed =>
        enviando := false;
        return false, AvisoFallo;
      case Respondio(ok, error) =>
        if !ok {
          enviando := false;
          return false, AvisoFallo + "\n" + error.GetOr("");
        }
        return true, AvisoEnviado;
    }
  }
}
