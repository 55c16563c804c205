/** The part of the screen's Spanish/English text table that the submit, save and share
    behaviour writes into the state, and the messages built from it. */
module Messages {
  import opened Strings

  datatype Lang = Es | En

  function QueryPlaceholder(lang: Lang): (m: string)
    ensures |m| > 0
  {
    match lang
    case Es => "Por favor, ingresa tu consulta para Xlerion."
    case En => "Please enter your query for Xlerion."
  }

  /** The limit message is this text, the limit, and `LimitAfter`. */
  function LimitBefore(lang: Lang): string {
    match lang
    case Es => "Límite de "
    case En => "Daily limit of "
  }

  function LimitAfter(lang: Lang): string {
    match lang
    case Es => " consultas diarias alcanzado. Regístrate para más."
    case En => " queries reached. Register for more."
  }

  /** Shown in the response panel while the model is being asked. */
  function Processing(lang: Lang): string {
    match lang
    case Es => "Xlerion está procesando tu consulta... 🧠"
    case En => "Xlerion is processing your query... 🧠"
  }

  function NoClearResponse(lang: Lang): string {
    match lang
    case Es => "Xlerion no ha encontrado una respuesta clara en este momento. Intenta reformular tu consulta."
    case En => "Xlerion has not found a clear answer at this moment. Try rephrasing your query."
  }

  function ApiError(lang: Lang): string {
    match lang
    case Es => "Error al conectar con Xlerion. Revisa tu conexión o intenta más tarde."
    case En => "Error connecting with Xlerion. Check your connection or try again later."
  }

  function DbNotReady(lang: Lang): (m: string)
    ensures |m| > 0
  {
    match lang
    case Es => "La base de datos no está lista. Por favor, espera o recarga la página."
    case En => "Database is not ready. Please wait or reload the page."
  }

  function SaveError(lang: Lang): string {
    match lang
    case Es => "Error al guardar la consulta. Intenta de nuevo."
    case En => "Error saving query. Please try again."
  }

  function NoQueryOrResponse(lang: Lang): (m: string)
    ensures |m| > 0
  {
    match lang
    case Es => "No hay consulta o respuesta para guardar."
    case En => "No query or response to save."
  }

  /** The headings of the share text; none holds a line feed. */
  function YourQuery(lang: Lang): (m: string)
    ensures NL !in m
  {
    match lang
    case Es => "Tu Consulta:"
    case En => "Your Query:"
  }

  function ResponseHeading(lang: Lang): (m: string)
    ensures NL !in m
  {
    match lang
    case Es => "Respuesta de Xlerion:"
    case En => "Xlerion's Response:"
  }

  function RecommendationTitle(lang: Lang): (m: string)
    ensures NL !in m
  {
    match lang
    case Es => "Recomendación Sintetizada de Xlerion:"
    case En => "Xlerion's Synthesized Recommendation:"
  }

  /** The recommendation fallbacks are written in Spanish whatever the selected language. */
  const NoRecommendation: string := "No se pudo generar una recomendación sintetizada."
  const RecommendationFailed: string := "Error al generar la recomendación."
  const RecommendationErrorPrefix: string := "Error al generar la recomendación: "
  const DbNotReadyOnSaveSuffix: string := ". Asegúrate de que Firebase esté inicializado y tengas un ID de usuario."

  /** `n` written in decimal between two fixed texts: the characters between them are digits
      that read back as `n`. */
  function Framed(before: string, n: nat, after: string): (m: string)
    ensures |before| + |after| < |m|
    ensures m[..|before|] == before && m[|m| - |after|..] == after
    ensures AllDigits(m[|before|..|m| - |after|])
    ensures DigitsValue(m[|before|..|m| - |after|]) == n
  {
    var m := before + Decimal(n) + after;
    assert m[|before|..|m| - |after|] == Decimal(n);
    DecimalRoundTrip(n);
    m
  }

  /** The "daily limit reached" message: the fixed text with the limit in between. */
  function LimitMessage(lang: Lang, limit: nat): string {
    Framed(LimitBefore(lang), limit, LimitAfter(lang))
  }

  /** Different limits give different messages. */
  lemma FramedInjective(before: string, after: string, a: nat, b: nat)
    requires Framed(before, a, after) == Framed(before, b, after)
    ensures a == b
  {
  }

  /** An error caught around a remote call: the localised text, a colon and the error's own
      message. */
  function CallErrorMessage(lang: Lang, detail: string): string {
    ApiError(lang) + ": " + detail
  }

  function SaveErrorMessage(lang: Lang, detail: string): string {
    SaveError(lang) + ": " + detail
  }
}
