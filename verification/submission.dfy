/** The contact form of src/App.tsx talking to the relay of api/send.ts: the
    body `enviar` posts, how the relay answers it, and what the form then does. */
module Submission {
  import opened Options
  import App
  import Relay

  /** The JSON body `enviar` posts, as the relay destructures it: the five
      trimmed contact fields and `total`, and neither `servicio` nor
      `respuestas`. */
  function CuerpoDe(p: App.Payload): (c: Relay.Cuerpo)
    ensures c.servicio.None? && c.respuestas.None?
    ensures c.total == Some(p.total)
    ensures c.nombre == Some(p.nombre) && c.correo == Some(p.correo)
    ensures c.puesto == Some(p.puesto) && c.empresa == Some(p.empresa) && c.celular == Some(p.celular)
  {
    Relay.Cuerpo(None, Some(p.total), Some(p.nombre), Some(p.puesto), Some(p.empresa),
                 Some(p.correo), Some(p.celular), None)
  }

  /** The POST request `enviar` makes. */
  function PeticionDe(p: App.Payload): Relay.Peticion {
    Relay.Peticion("POST", Some(CuerpoDe(p)))
  }

  /** How `enviar` sees a relay response: `resp.ok` is a 2xx status. The
      `error` member is taken to be absent; parsing the body is not modelled. */
  function VistaDelFormulario(r: Relay.Response): (v: App.Resultado)
    ensures v.Respondio? && v.error.None?
    ensures v.ok <==> 200 <= r.status <= 299
  {
    App.Respondio(200 <= r.status <= 299, None)
  }

  /** Whatever the provider would do, the relay answers the form's request with
      400 and hands nothing to the provider: the body has no `respuestas`, so
      building the rows throws before the provider is called. */
  lemma FormularioRechazado(p: App.Payload, cfg: Relay.Config, entrega: Relay.Entrega)
    ensures Relay.Handler(PeticionDe(p), cfg, entrega) == Relay.Salida(Relay.SolicitudInvalida, None)
    ensures !VistaDelFormulario(Relay.SolicitudInvalida).ok
  {
  }

  /** One press of "Enviar y cerrar" carried through the relay. A complete
      form never closes the modal: the relay rejects the request, the form
      shows the failure alert with an empty detail line, and `enviando` is
      cleared again. */
  method EnviarFormulario(modal: App.ModalContacto, total: int, cfg: Relay.Config, entrega: Relay.Entrega)
    returns (e: App.Envio, respuesta: Option<Relay.Response>, cerrar: bool, aviso: string)
    modifies modal`enviando
    ensures !cerrar
    ensures old(modal.enviando) ==> e.Ignorado? && respuesta == None && modal.enviando
    ensures !old(modal.enviando) && !App.DatosCompletos(modal.nombre, modal.correo)
            ==> e.Incompleto? && respuesta == None && aviso == App.AvisoObligatorios && !modal.enviando
    ensures !old(modal.enviando) && App.DatosCompletos(modal.nombre, modal.correo)
            ==> && e == App.Solicitud(App.ArmarPayload(modal.nombre, modal.puesto, modal.empresa,
                                                       modal.correo, modal.celular, total))
                && respuesta == Some(Relay.SolicitudInvalida)
                && aviso == App.AvisoFallo + "\n"
                && !modal.enviando
  {
    e := modal.Enviar(total);
    match e
    case Ignorado =>
      respuesta, cerrar, aviso := None, false, "";
    case Incompleto(a) =>
      respuesta, cerrar, aviso := None, false, a;
    case Solicitud(p) =>
      FormularioRechazado(p, cfg, entrega);
      var r := Relay.Handler(PeticionDe(p), cfg, entrega);
      respuesta := Some(r.response);
      cerrar, aviso := modal.Responder(VistaDelFormulario(r.response));
  }

  /** After a successful send `enviando` stays set, so the next press of the
      button is ignored (the modal is closed but keeps its state). */
  method ReenvioTrasExito(modal: App.ModalContacto, total: int) returns (cerrar: bool, e: App.Envio)
    requires modal.enviando
    modifies modal`enviando
    ensures cerrar && e.Ignorado? && modal.enviando
  {
    var aviso;
    cerrar, aviso := modal.Responder(App.Respondio(true, None));
    e := modal.Enviar(total);
  }
}
