/**
  perform_advanced_nlp_features
  (async_fastapi_nlp_agent_system/app/api/v1/endpoints/advanced_nlp_features.py):
  sentiment analysis and entity recognition on the request text, and a
  translation only for a target language that is not blank.  The three
  NLP service calls are parameters; the model records which calls are
  made, in order.
 */
module AdvancedNlp {

  import opened Wrappers
  import opened Text

  datatype Request = Request(text: string, targetLanguage: Option<string>)

  datatype SentimentResult = SentimentResult(result: string)
  datatype EntityResult = EntityResult(entities: seq<string>)
  datatype TranslationResult = TranslationResult(translatedText: string)

  datatype Response = Response(sentimentAnalysis: string, entityRecognition: seq<string>, languageTranslation: Option<string>)

  /** A service call the route makes. */
  datatype Call = AnalyzeSentiment(text: string) | RecognizeEntities(text: string) | TranslateText(text: string, target: string)

  /** `request.target_language and request.target_language.strip()`: present, and something left after stripping. */
  predicate TranslationWanted(target: Option<string>) {
    target.Some? && target.value != [] && Strip(target.value) != []
  }

  /** The translation is wanted exactly when the target has a non-whitespace character. */
  lemma TranslationWantedIffNotBlank(target: Option<string>)
    ensures TranslationWanted(target) <==> target.Some? && !IsBlank(target.value)
  {
    if target.Some? {
      StripEmptyIffBlank(target.value);
      StripEmptyIffBlank([]);
    }
  }

  /** The calls, in the order the route makes them. */
  function Calls(req: Request): (calls: seq<Call>)
    ensures |calls| >= 2 && calls[0] == AnalyzeSentiment(req.text) && calls[1] == RecognizeEntities(req.text)
    ensures |calls| == 3 <==> TranslationWanted(req.targetLanguage)
    ensures |calls| == 3 ==> calls[2] == TranslateText(req.text, req.targetLanguage.value)
    ensures |calls| <= 3
  {
    [AnalyzeSentiment(req.text), RecognizeEntities(req.text)]
      + if TranslationWanted(req.targetLanguage) then [TranslateText(req.text, req.targetLanguage.value)] else []
  }

  /**
    The response: the sentiment's result and the entities, and the
    translated text of the original text into the target as given
    (unstripped), or None when no translation was made.
   */
  function Perform(
    req: Request,
    analyze: string -> SentimentResult,
    recognize: string -> EntityResult,
    translate: (string, string) -> TranslationResult): (r: Response)
    ensures r.sentimentAnalysis == analyze(req.text).result
    ensures r.entityRecognition == recognize(req.text).entities
    ensures r.languageTranslation.Some? <==> TranslationWanted(req.targetLanguage)
    ensures r.languageTranslation.Some? ==>
      r.languageTranslation.value == translate(req.text, req.targetLanguage.value).translatedText
  {
    var sentiment := analyze(req.text);
    var entities := recognize(req.text);
    var translation: Option<TranslationResult> :=
      if TranslationWanted(req.targetLanguage) then Some(translate(req.text, req.targetLanguage.value)) else None;
    Response(
      sentiment.result,
      entities.entities,
      if translation.Some? then Some(translation.value.translatedText) else None)
  }

  /** An empty or whitespace-only target (or none) leaves the translation out, whatever the text. */
  lemma BlankTargetNoTranslation(
    text: string, target: Option<string>,
    analyze: string -> SentimentResult,
    recognize: string -> EntityResult,
    translate: (string, string) -> TranslationResult)
    requires target.None? || IsBlank(target.value)
    ensures Perform(Request(text, target), analyze, recognize, translate).languageTranslation == None
    ensures Calls(Request(text, target)) == [AnalyzeSentiment(text), RecognizeEntities(text)]
  {
    TranslationWantedIffNotBlank(target);
  }

  /** The translation, when made, is the one service result that depends on the target. */
  lemma TargetOnlyAffectsTranslation(
    text: string, t1: Option<string>, t2: Option<string>,
    analyze: string -> SentimentResult,
    recognize: string -> EntityResult,
    translate: (string, string) -> TranslationResult)
    ensures Perform(Request(text, t1), analyze, recognize, translate).sentimentAnalysis
         == Perform(Request(text, t2), analyze, recognize, translate).sentimentAnalysis
    ensures Perform(Request(text, t1), analyze, recognize, translate).entityRecognition
         == Perform(Request(text, t2), analyze, recognize, translate).entityRecognition
  {
  }
}
