/** The messages the content script and the background worker exchange over
    the extension's runtime messaging. */
module Protocol {
  import opened Wrappers

  /** What a successful translation returns; `charCount` is the length of the
      source text in UTF-16 code units. */
  datatype TranslationResult = TranslationResult(translatedText: string, detectedLanguage: Option<string>, charCount: nat)

  /** A request: `action` is one of "translate", "direct_translate_test",
      "ping", "test" (or anything else, which is ignored). */
  datatype Message = Message(action: string, text: string, targetLang: string)

  /** The shapes of the objects the background worker answers with. */
  datatype Reply =
    | Status(status: string)
    | Translated(result: TranslationResult)
    | Failed(error: string)
    | TestFailed(error: string, statusCode: string)
}
