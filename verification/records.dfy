/** The records that flow between the pipeline's stages, as the language
    model and the voice table produce them. Voice-setting numbers are kept
    in hundredths (0.65 is 65) so that the clamps are exact. */
module Records {
  import opened Wrappers

  /** The object the emotion analysis returns for one line of dialogue. */
  datatype Emotion = Emotion(primaryEmotion: string, intensity: string, voiceModulation: string)

  /** The fallback emotion used whenever no analysis is available. */
  const Neutral := Emotion("neutral", "medium", "normal")

  /** One entry of `sequentialData.segments`: `type` is "dialogue" or
      anything else (narration); `order` is its place in the chapter. */
  datatype Segment = Segment(kind: string, text: string, speaker: string, order: int)

  datatype SequentialData = SequentialData(segments: seq<Segment>)

  datatype CharacterInfo = CharacterInfo(description: string, personality: string, role: string)

  /** A line of dialogue as handed to the emotion analysis. */
  datatype Dialogue = Dialogue(speaker: string, text: string, context: string)

  /** A dialogue with the emotion attached to it. */
  datatype AnalyzedDialogue = AnalyzedDialogue(speaker: string, text: string, context: string, emotion: Emotion)

  /** What step 3 extracts: the `characters` object as its entries, in
      order, and the `dialogues` array. */
  datatype CharacterData = CharacterData(characters: seq<(string, CharacterInfo)>, dialogues: seq<Dialogue>)

  datatype VoiceSettings = VoiceSettings(stability: int, similarityBoost: int, style: int, useSpeakerBoost: bool)

  datatype VoiceAssignment = VoiceAssignment(voiceId: string, voiceName: string, voiceSettings: VoiceSettings)

  /** The outcome of one request to the language model: the call failed;
      its text did not parse (`JSON.parse` threw); it parsed to a value that
      lacks the field the stage reads next (`null`, `{}`, an object without
      `segments` or `characters`); or it parsed to the expected document. */
  datatype Reply<T> = CallFailed | Unparsable | Misshapen | Replied(document: T)

  /** Why a run stops. */
  datatype Failure =
    | MissingApiKey(variable: string)
    | ServiceError
    | MalformedJson
    | TypeError(what: string)
    | NothingToCombine
    | ToolFailed
    | ExtractionFailed
}
