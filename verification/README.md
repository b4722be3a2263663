# Transport diagnostic questionnaire: scoring, gating and mail relay

This project models the logic of a small web application that asks a company
twelve yes / partial / no questions about its staff transport. Each answer is
worth 2, 1 or 0 points. The application adds up a total out of 24, places it in
one of three buckets ("Muy pobre", "Regular", "Sólido") and offers a contact
form. The form posts a lead to a serverless mail relay, which turns it into an
HTML e-mail for a delivery provider.

The model has six modules:

- `Options`: the `Option` type.
- `Strings`: JavaScript's `trim`, the decimal text a template literal gives an
  integer, a parser that reads that text back, and a first-occurrence search.
- `Scoring` (the pure part of `src/App.tsx`): the twelve questions, `total`,
  `faltantes` and `rango`, with their bounds and counting facts.
- `App` (the stateful part of `src/App.tsx`): two classes. `Cuestionario` holds
  the answers and the modal flag; its methods are `setValor`, `reiniciar` and
  `verResultado`. `ModalContacto` holds the contact fields and the `enviando`
  flag, and splits `enviar` into `Enviar` (validation and the request) and
  `Responder` (what happens when the request ends).
- `Relay` (`api/send.ts`): the handler as a pure function of the method, the
  parsed body, the configured addresses and the provider's outcome. It builds
  the table rows, the HTML body, the subject and the reply-to. It comes with
  readers that recover the rows and the subject's fields, to show what those
  texts determine.
- `Submission`: the form's request run through the relay, end to end.

The answers are a `map<int, Option<int>>`. A missing key is JavaScript's
`undefined` and `None` is `null`. `total` is a left fold over the question
list, like `reduce`. `faltantes` is the length of a filter over the same list.

Two behaviours of the code are modelled as written and proved as properties.
First, the body that `enviar` posts (`src/App.tsx:114-121`) has no `servicio`
and no `respuestas`. The relay reaches `respuestas.map` (`api/send.ts:36`),
which throws, so every submission from this form gets a 400 and no e-mail is
sent (`Submission.FormularioRechazado`, `Submission.EnviarFormulario`). The
relay declares `servicio` and `respuestas` as members of the body it expects
(`api/send.ts:25-34`), so the two files disagree; the model keeps both as
written. Second, on success `enviar` calls
`onClose` and never clears `enviando` (`src/App.tsx:129-130`). The button then
stays disabled for the rest of the page's life (`Submission.ReenvioTrasExito`).

## Model

| member | source | states |
|---|---|---|
| Scoring.IdsDePreguntas | src/App.tsx:15-28 | the fixed list holds twelve questions whose ids are 1 to 12 in order |
| Scoring.Rango | src/App.tsx:64-68 | the bucket is `bajo` exactly when total ≤ 11, `medio` exactly when 12 ≤ total ≤ 18, `alto` exactly when total ≥ 19; so every integer is in exactly one bucket |
| Scoring.RangoMonotono | src/App.tsx:64-68 | a larger total never lands in a lower bucket |
| Scoring.BadgesDistintos | src/App.tsx:31-55 | the three badges differ, so the badge shown identifies the bucket |
| Scoring.Pendientes | src/App.tsx:200 | the filtered list is never longer than the question list |
| Scoring.PendientesSonLasQueFaltan | src/App.tsx:200 | a question survives the filter exactly when it is in the list and its answer is undefined or null |
| Scoring.PendientesCuenta | src/App.tsx:199-202 | the filter's length is the number of distinct missing ids among consecutive ids |
| Scoring.FaltantesCuenta | src/App.tsx:199-202 | `faltantes` equals the number of ids 1..12 with no recorded answer, so 0 ≤ faltantes ≤ 12 |
| Scoring.CompletoSiiTodasRespondidas | src/App.tsx:199-202 | `faltantes == 0` exactly when every one of the twelve ids has a non-null answer |
| Scoring.SumaAcotada | src/App.tsx:195-198 | with answers in {0,1,2}, a fold over any prefix is between 0 and twice the number of answered questions in it |
| Scoring.TotalAcotado | src/App.tsx:195-198 | with answers in {0,1,2}, 0 ≤ total ≤ 2·(12 − faltantes) ≤ 24 |
| Scoring.SinRespuestasNadaSuma | src/App.tsx:196-200 | for any map in which no question of the list is answered (absent, null, or only ids outside the list), the fold gives 0 and the filter keeps every question |
| Scoring.MapaVacio | src/App.tsx:192 | the empty answer map has total 0 and 12 missing answers |
| Scoring.SumaMaxima | src/App.tsx:196 | with answers in {0,1,2}, the fold equals twice the list length exactly when every answer is 2 |
| Scoring.TotalMaximoSii | src/App.tsx:195-198 | total is 24 exactly when all twelve answers are 2 |
| Scoring.SumaPorTramos | src/App.tsx:196 | answering the first k questions with a and the rest with b gives a·k + b·(n − k) |
| Scoring.SumaTrasAsignar | src/App.tsx:196 | overwriting one id changes the fold by the new value minus the old one when the id is in the list, and not at all otherwise |
| Scoring.TotalTrasAsignar | src/App.tsx:195-206 | after recording `val` for `id`, total changes by `val` minus the previous value for ids 1..12 and is unchanged for any other id |
| Scoring.FaltantesTrasAsignar | src/App.tsx:199-206 | recording an answer lowers `faltantes` by one exactly when the id is 1..12 and was unanswered |
| Scoring.EscenarioTodoSi | src/App.tsx:195-198 | twelve answers of 2 give total 24, nothing missing, bucket `alto` ("Sólido") |
| Scoring.EscenarioTodoNo | src/App.tsx:195-198 | twelve answers of 0 give total 0, bucket `bajo` ("Muy pobre") |
| Scoring.EscenarioLimiteMedio | src/App.tsx:64-68 | six 2s and six 1s give 18, the top of `medio`, and 19 is already `alto` |
| App.Cuestionario.constructor | src/App.tsx:192-193 | starts with no answers and the modal closed: total 0, 12 missing |
| App.Cuestionario.SetValor | src/App.tsx:204-206 | entry `id` becomes `val` and every other entry and the modal flag stay; answers stay within {0,1,2} when `val` is; total and `faltantes` change as stated above |
| App.Cuestionario.Reiniciar | src/App.tsx:208 | empties the map, giving total 0 and 12 missing, and leaves the modal flag |
| App.Cuestionario.VerResultado | src/App.tsx:211-217 | opens the modal exactly when nothing is missing, and then every question is answered; otherwise returns "Te faltan N preguntas por contestar." and leaves the flag; answers untouched; keeps answers within {0,1,2}, and then the total shown is between 0 and 24 |
| App.Cuestionario.CerrarModal | src/App.tsx:289 | the page's `onClose` closes the modal and keeps the answers, so answers stay within {0,1,2} |
| App.DatosCompletosSii | src/App.tsx:105-108 | the form passes validation exactly when neither name nor e-mail is all whitespace |
| App.PayloadRecortado | src/App.tsx:114-121 | every posted field is already trimmed, `total` is passed through, and a validated form sends a non-empty name and e-mail |
| App.ModalContacto.constructor | src/App.tsx:95-100 | all fields empty and nothing in flight |
| App.ModalContacto.Enviar | src/App.tsx:104-121 | while in flight the (disabled) button does nothing; an incomplete form gives the "obligatorios" alert, no request and leaves `enviando` false; otherwise sets `enviando` and makes one request with the trimmed fields and `total` |
| App.ModalContacto.Responder | src/App.tsx:122-134 | closes only on an ok response, with the thank-you alert; a failed response or network error gives the failure alert (with the server's `error` text when it is a failed response) and clears `enviando`; success leaves `enviando` set |
| Strings.TrimShape | src/App.tsx:105 | `trim` returns the slice of its input left after cutting whitespace off both ends, and it neither starts nor ends with whitespace |
| Strings.TrimEmptyIff | src/App.tsx:105 | a string trims to empty exactly when it is all whitespace |
| Strings.TrimIdempotent | src/App.tsx:114-118 | trimming a trimmed field changes nothing |
| Strings.NatToStringDigits | api/send.ts:73 | a natural number renders as a non-empty run of digits with no leading zero |
| Strings.IntToStringChars | api/send.ts:39 | an integer renders using only digits and a leading minus sign |
| Strings.NatToStringRoundTrip | api/send.ts:73 | the value of a rendered natural number's digits is that number |
| Strings.IntToStringRoundTrip | api/send.ts:73 | reading back a rendered integer gives the integer |
| Strings.IntToStringInjective | api/send.ts:73 | two integers render alike only if they are equal |
| Relay.OGuion | api/send.ts:48-52 | `v || "-"` is the value itself when it is a non-empty string and "-" otherwise; it is never empty, and it is "-" exactly when the field is absent, empty or "-" |
| Relay.ResponderA | api/send.ts:75 | a reply-to list exists exactly when `correo` is a non-empty string, and it is `[correo]` |
| Relay.LeerFilaDeFila | api/send.ts:39 | one row, followed by anything, reads back as that answer's id, text and value when the text has no `<` |
| Relay.LeerFilasDeFilas | api/send.ts:36-41 | the joined rows hold one row per answer, in order: reading them back gives the answer list exactly, when no text has a `<` |
| Relay.FilaInyectada | api/send.ts:39 | a text that closes its row and opens another renders like two answers |
| Relay.FilasSinEscapar | api/send.ts:39 | texts are not escaped: a one-answer list and a different two-answer list render to the same rows |
| Relay.LeerAsuntoDeAsunto | api/send.ts:73 | the subject ("Nuevo lead", the service label, "Total:" and the total, joined by separators) determines both the service label and the total |
| Relay.ContactoMuestraCampos | api/send.ts:47-53 | the contact list has a line for each of nombre, puesto, empresa, correo and celular |
| Relay.HtmlMuestraServicio | api/send.ts:44 | the body has the service heading |
| Relay.HtmlMuestraTotal | api/send.ts:45 | the body contains the total followed by " / 24" |
| Relay.HtmlMuestraDatos | api/send.ts:43-65 | the body contains the service heading, the total out of 24 and every contact line |
| Relay.HtmlDeterminaFilas | api/send.ts:43-65 | for the same request fields, two bodies are equal exactly when their rows are |
| Relay.Handler | api/send.ts:8-89 | 405 exactly for a method other than POST; 400 exactly for a POST whose body fails to parse, lacks `respuestas`, or whose provider call throws; 500 exactly for a provider error; 200 with `{"ok":true}` exactly on delivery; a message is handed over exactly when the POST body parsed with `respuestas`, and it is the composed message |
| Submission.CuerpoDe | src/App.tsx:114-121 | the posted body carries the payload's five fields and `total`, and no `servicio` and no `respuestas` (the fields are trimmed by `App.PayloadRecortado`) |
| Submission.FormularioRechazado | api/send.ts:36 | whatever the provider would do, the form's request gets 400 and nothing is handed to the provider |
| Submission.EnviarFormulario | src/App.tsx:104-135 | one press never closes the modal: a complete form is rejected, shows the failure alert with an empty detail and clears `enviando`; the other presses behave as in `Enviar` |
| Submission.ReenvioTrasExito | src/App.tsx:129-130 | after a successful response `enviando` stays set, so the next press is ignored |

## Left out

- Rendering: React components, JSX, styling, the result panel's markup and the long bucket texts (`heading`, `detail`). A bucket is the `Nivel` enumeration with its badge.
- `useMemo` and hook mechanics. `total` and `faltantes` are functions of the answer map.
- `alert`, `window.print` and `fetch` are browser I/O. An alert is a string a method returns. A request is a value `Enviar` returns, and its outcome is an input of `Responder`.
- `async`/`await`. The request and its outcome are two separate steps, and `enviando` is a plain boolean.
- The Resend client, `RESEND_API_KEY`, `EMAIL_FROM` and `EMAIL_TO`. The addresses are a `Config` value. The provider's outcome (delivered, error reported, exception) is an input and does not depend on the message.
- `request.json()` and destructuring: the parsed body is an `Option` of a record. The model covers string and integer fields only, so non-string JSON values, `null` versus absent, and non-integer or exponent-form numbers are not modelled.
- Relay.RespuestaPregunta: elements of `respuestas` always have integer `id` and `val` and a string `texto`. Missing or ill-typed members, which would render as "undefined", are not modelled.
- Relay.Handler: `request.method` is taken as already normalised by the platform. A request body that is a non-array `respuestas` (where `.map` also throws) is folded into `respuestas` being `None`.
- `Scoring.Valor` treats any recorded `Some(v)` as `v`. The page only ever records 0, 1 or 2, and the bounds lemmas assume this.
- Trimming uses JavaScript's WhiteSpace and LineTerminator sets. Unicode properties beyond that list are not modelled.
- A second, near-identical copy of the page elsewhere in the repository is not part of this model.
- Submission.VistaDelFormulario: `resp.json()` is abstracted, so the form's `error` text is fixed at absent rather than read from the body. The relay's 405, 400 and 500 bodies are plain text, which `resp.json()` rejects, and its 200 body `{"ok":true}` has no `error` member.
