/** The fault-classification function: a first-match keyword dictionary,
    then an optional AI answer, then the pending label. The request body,
    the presence of the API key and the AI gateway's answer are inputs. */
module ClassifyFault {
  import opened Common
  import opened Text

  /** The dictionary, in declaration order (keyword, classification). */
  const FaultMappings: seq<(string, string)> := [
    ("pikap", "Error de Pick-up"),
    ("pick up", "Error de Pick-up"),
    ("no agarra", "Error de Pick-up"),
    ("no levanta", "Error de Pick-up"),
    ("pasta", "Insuficiencia de Soldadura"),
    ("poca pasta", "Insuficiencia de Soldadura"),
    ("falta pasta", "Insuficiencia de Soldadura"),
    ("puente", "Puente de Soldadura"),
    ("corto", "Puente de Soldadura"),
    ("bridge", "Puente de Soldadura"),
    ("desplazado", "Componente Desplazado"),
    ("torcido", "Componente Desplazado"),
    ("movido", "Componente Desplazado"),
    ("faltante", "Componente Faltante"),
    ("missing", "Componente Faltante"),
    ("tombstone", "Defecto de Tombstone"),
    ("manhattan", "Defecto de Tombstone"),
    ("parado", "Defecto de Tombstone"),
    ("fria", "Pasta Fría"),
    ("cold", "Pasta Fría"),
    ("vision", "Error de Visión"),
    ("camara", "Error de Visión"),
    ("no ve", "Error de Visión")
  ]

  const Pending := "Falla Pendiente de Clasificación"

  datatype Classification = Classification(classification: string, isUnknown: bool)

  /** The request as the handler sees it. `Invalid` is a body whose reading
      throws (with the error's message). */
  datatype Request = Options | Post(body: Body)
  datatype Body = Parsed(text: string, machineType: string) | Invalid(message: string)

  /** What the AI step yields: no API key configured, a non-OK response,
      an OK response with the first choice's content (if any), or a
      thrown error. */
  datatype AiOutcome = NoApiKey | NotOk | Answer(content: Option<string>) | Threw(message: string)

  datatype ResponseBody = Empty | Classified(result: Classification) | Error(message: string)

  /** Every response carries the CORS headers. */
  datatype Response = Response(status: int, body: ResponseBody)

  /** The index of the first dictionary keyword contained in `text`. */
  function FirstMatch(text: string, entries: seq<(string, string)>): (r: Option<nat>)
    ensures r.Some? ==> r.value < |entries| && Contains(text, entries[r.value].0)
    ensures r.Some? ==> forall j :: 0 <= j < r.value ==> !Contains(text, entries[j].0)
    ensures r.None? ==> forall j :: 0 <= j < |entries| ==> !Contains(text, entries[j].0)
  {
    if entries == [] then None
    else if Contains(text, entries[0].0) then Some(0)
    else
      var rest := FirstMatch(text, entries[1..]);
      if rest.Some? then Some(rest.value + 1) else None
  }

  /** The dictionary step on the lower-cased text. */
  function KeywordClassification(text: string): (r: Option<string>)
    ensures r.Some? <==> exists j :: 0 <= j < |FaultMappings| && Contains(ToLower(text), FaultMappings[j].0)
  {
    var m := FirstMatch(ToLower(text), FaultMappings);
    if m.Some? then Some(FaultMappings[m.value].1) else None
  }

  /** `content?.trim() || "Falla Pendiente de Clasificación"`. */
  function NormalizeAnswer(content: Option<string>): (c: string)
    ensures c != ""
    ensures content.None? || IsBlank(content.value) ==> c == Pending
    ensures content.Some? && !IsBlank(content.value) ==> c == Trim(content.value)
  {
    if content.Some? && Trim(content.value) != "" then Trim(content.value) else Pending
  }

  /** The handler. */
  function Handle(req: Request, ai: AiOutcome): (r: Response)
    ensures r.status == 200 || r.status == 500
    ensures r.status == 500 <==> r.body.Error?
  {
    match req
    case Options => Response(200, Empty)
    case Post(Invalid(message)) => Response(500, Error(message))
    case Post(Parsed(text, _)) =>
      var hit := KeywordClassification(text);
      if hit.Some? then Response(200, Classified(Classification(hit.value, false)))
      else match ai
        case Threw(message) => Response(500, Error(message))
        case Answer(content) =>
          var c := NormalizeAnswer(content);
          Response(200, Classified(Classification(c, Contains(c, "Pendiente"))))
        case _ => Response(200, Classified(Classification(Pending, true)))
  }

  /** The pending label contains "Pendiente". */
  lemma PendingIsUnknown()
    ensures Contains(Pending, "Pendiente")
  {
    assert Pending == "Falla " + "Pendiente" + " de Clasificación";
    ContainsInfix("Falla ", "Pendiente", " de Clasificación");
  }

  /** A keyword hit answers with the first matching entry's classification,
      marked known, whatever the AI would have said. */
  lemma KeywordHitWins(text: string, machineType: string, ai: AiOutcome, j: nat)
    requires j < |FaultMappings| && Contains(ToLower(text), FaultMappings[j].0)
    requires forall i :: 0 <= i < j ==> !Contains(ToLower(text), FaultMappings[i].0)
    ensures Handle(Post(Parsed(text, machineType)), ai) == Response(200, Classified(Classification(FaultMappings[j].1, false)))
  {
    var m := FirstMatch(ToLower(text), FaultMappings);
    assert m.Some?;
  }

  /** Without a keyword hit, no API key or a non-OK answer gives the
      pending label, marked unknown. */
  lemma FallbackIsPending(text: string, machineType: string, ai: AiOutcome)
    requires forall i :: 0 <= i < |FaultMappings| ==> !Contains(ToLower(text), FaultMappings[i].0)
    requires ai == NoApiKey || ai == NotOk
    ensures Handle(Post(Parsed(text, machineType)), ai) == Response(200, Classified(Classification(Pending, true)))
  {
  }

  /** Without a keyword hit, an AI answer is trimmed (an empty one becomes
      the pending label) and is unknown exactly when it contains
      "Pendiente". */
  lemma AiAnswerClassification(text: string, machineType: string, content: Option<string>)
    requires forall i :: 0 <= i < |FaultMappings| ==> !Contains(ToLower(text), FaultMappings[i].0)
    ensures var r := Handle(Post(Parsed(text, machineType)), Answer(content));
      && r.status == 200 && r.body.Classified?
      && r.body.result.classification == NormalizeAnswer(content)
      && (r.body.result.isUnknown <==> Contains(r.body.result.classification, "Pendiente"))
      && (content.None? || IsBlank(content.value) ==> r.body.result == Classification(Pending, true))
  {
    PendingIsUnknown();
  }

  /** A thrown error, reading the body or calling the AI gateway, gives
      status 500 with its message; a preflight gets an empty body. */
  lemma ErrorsAndPreflight(text: string, machineType: string, message: string, ai: AiOutcome)
    ensures Handle(Options, ai) == Response(200, Empty)
    ensures Handle(Post(Invalid(message)), ai) == Response(500, Error(message))
    ensures KeywordClassification(text).None? ==>
      Handle(Post(Parsed(text, machineType)), Threw(message)) == Response(500, Error(message))
  {
  }
}
