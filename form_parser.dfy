/** Form extraction from an uploaded PDF (backend/src/from_parser.py). Page texts
    are inputs; the extraction chain (prompt, model and JSON parser) is a
    parameter. */
module FormParser {
  import opened Wrappers
  import opened Text

  const MaxPages := 5
  const MaxChars := 15000

  /** `[page.get_text() for page in doc][:5]`. */
  function FirstPages(pages: seq<string>): (r: seq<string>)
    ensures |r| == if |pages| < MaxPages then |pages| else MaxPages
    ensures r == pages[..|r|]
  {
    if |pages| <= MaxPages then pages else pages[..MaxPages]
  }

  /** `extraer_texto_pdf`: the texts of at most the first five pages joined by
      line breaks, cut to 15000 characters. */
  function ExtractPdfText(pages: seq<string>): (r: string)
    ensures |r| <= MaxChars
    ensures var joined := Join("\n", FirstPages(pages));
      && |r| <= |joined| && r == joined[..|r|]
      && (|joined| <= MaxChars ==> r == joined)
      && (|joined| > MaxChars ==> |r| == MaxChars)
  {
    var texto := Join("\n", FirstPages(pages));
    if |texto| <= MaxChars then texto else texto[..MaxChars]
  }

  /** Pages after the fifth have no influence on the text. */
  lemma OnlyFirstFivePages(pages: seq<string>, more: seq<string>)
    requires |pages| >= MaxPages
    ensures ExtractPdfText(pages + more) == ExtractPdfText(pages)
  {
    assert (pages + more)[..MaxPages] == pages[..MaxPages];
  }

  /** When the five pages fit, the text is exactly their join, which is as long
      as the page texts plus one line break between each two of them. */
  lemma ShortTextKeepsEveryPage(pages: seq<string>)
    requires 1 <= |pages| <= MaxPages
    requires TotalLength(pages) + |pages| - 1 <= MaxChars
    ensures ExtractPdfText(pages) == Join("\n", pages)
    ensures |ExtractPdfText(pages)| == TotalLength(pages) + |pages| - 1
  {
    JoinLength("\n", pages);
  }

  /** The JSON object the output parser yields: field name to string or null. */
  type JsonObject = map<string, Option<string>>

  /** `chain.invoke(texto)`: a parsed object, or an exception with its message. */
  datatype ChainOutcome = Parsed(output: JsonObject) | Raised(message: string)

  type ExtractionChain = string -> ChainOutcome

  /** What a call of `extraer_campos_formulario` ends with: a returned dictionary,
      or an exception escaping to the caller. */
  datatype FormOutcome = Returned(data: JsonObject) | Raises(exception: string)

  const ErrorPrefix := "No se pudo extraer o estructurar los datos: "

  /** The error dictionary the except branch builds. */
  function ErrorPayload(message: string, rawOutput: string): (d: JsonObject)
    ensures d.Keys == {"error", "raw_output"}
    ensures d["error"] == Some(ErrorPrefix + message) && d["raw_output"] == Some(rawOutput)
  {
    map["error" := Some(ErrorPrefix + message), "raw_output" := Some(rawOutput)]
  }

  /** `extraer_campos_formulario` as written: when the chain raises, building the
      error dictionary reads `salida`, which the failed assignment never bound,
      so an `UnboundLocalError` escapes instead of the dictionary. */
  function ExtractFormFieldsAsWritten(pages: seq<string>, chain: ExtractionChain): (r: FormOutcome)
    ensures chain(ExtractPdfText(pages)).Parsed? ==> r == Returned(chain(ExtractPdfText(pages)).output)
    ensures chain(ExtractPdfText(pages)).Raised? ==> r == Raises("UnboundLocalError")
  {
    match chain(ExtractPdfText(pages))
    case Parsed(salida) => Returned(salida)
    case Raised(_) => Raises("UnboundLocalError")
  }

  /** The error dictionary is unreachable as written: whatever the chain does, the
      call never returns a dictionary that the chain did not produce itself. */
  lemma AsWrittenNeverReportsError(pages: seq<string>, chain: ExtractionChain)
    ensures var r := ExtractFormFieldsAsWritten(pages, chain);
      r.Returned? <==> chain(ExtractPdfText(pages)).Parsed?
  {
  }

  /** A concrete case: a chain that raises on every input (the model is
      unreachable, say) makes the call raise `UnboundLocalError`. */
  lemma AsWrittenFailingChainRaises()
    ensures ExtractFormFieldsAsWritten(["Nombre: Ana"], _ => Raised("Connection error.")) == Raises("UnboundLocalError")
  {
  }

  /** `extraer_campos_formulario` with `salida` bound to `None` before the call:
      the chain's output when it succeeds, otherwise the error dictionary with the
      exception's message and `str(None)` as the raw output. */
  function ExtractFormFields(pages: seq<string>, chain: ExtractionChain): (r: FormOutcome)
    ensures r.Returned?
  {
    match chain(ExtractPdfText(pages))
    case Parsed(salida) => Returned(salida)
    case Raised(e) => Returned(ErrorPayload(e, "None"))
  }

  /** Corrected behaviour: a failing chain is reported as the error dictionary,
      carrying the exception's message, and a succeeding one is returned as is. */
  lemma ExtractFormFieldsReportsError(pages: seq<string>, chain: ExtractionChain)
    ensures var c := chain(ExtractPdfText(pages));
      var r := ExtractFormFields(pages, chain);
      && (c.Parsed? ==> r == Returned(c.output))
      && (c.Raised? ==> r.data.Keys == {"error", "raw_output"} && r.data["error"] == Some(ErrorPrefix + c.message))
  {
  }
}
