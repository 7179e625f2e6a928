/** The checkpoint files the staged pipeline keeps under `output/`, and
    `loadData`/`saveData` over them. The directory is a map from file name
    to content. A JSON checkpoint is kept as what `JSON.parse` makes of its
    text: the document, or None when the text does not parse or is not the
    document the pipeline expects; its text itself is not modelled. */
module Checkpoints {
  import opened Wrappers
  import opened Text
  import opened Records
  import opened Audio
  import opened Effects

  /** The documents the pipeline writes, one per JSON checkpoint. */
  datatype Artifact =
    | SegmentsDoc(sequentialData: SequentialData)
    | CharactersDoc(extractedData: CharacterData)
    | EmotionsDoc(analyzedDialogues: seq<AnalyzedDialogue>)
    | VoicesDoc(voiceAssignments: map<string, VoiceAssignment>)
    | AudioManifestDoc(audioManifest: AudioManifest)
    | EffectsManifestDoc(effectsManifest: EffectsManifest)

  /** A file: plain text, a JSON checkpoint, or audio written by the
      concatenation tool. */
  datatype FileContent = TextFile(text: string) | JsonFile(doc: Option<Artifact>) | AudioFile

  type FileSystem = map<string, FileContent>

  /** What `loadData` returns when it does not return null. */
  datatype Loaded = RawText(text: string) | Parsed(doc: Artifact)

  const TextExtractionFile := "chapter1_extracted.txt"
  const SequentialSegmentsFile := "sequential_segments.json"
  const CharactersFile := "characters_and_dialogues.json"
  const EmotionsFile := "dialogues_with_emotions.json"
  const VoiceMappingFile := "voice_assignments.json"
  const ManifestFile := "audiobook_manifest.json"
  const SoundEffectsFile := "sound_effects_manifest.json"
  /** The list file handed to the concatenation tool, and its output. */
  const SegmentListFile := "segments.txt"
  const FinalAudioFile := "audiobook_chapter1.mp3"

  /** The file whose presence lets stage n return its cached result. */
  function StepFile(n: int): string
    requires 1 <= n <= 8
  {
    match n
    case 1 => TextExtractionFile
    case 2 => SequentialSegmentsFile
    case 3 => CharactersFile
    case 4 => EmotionsFile
    case 5 => VoiceMappingFile
    case 6 => ManifestFile
    case 7 => FinalAudioFile
    case 8 => SoundEffectsFile
  }

  /** The files stage n writes when it computes its result. */
  function FilesOf(n: int): set<string>
    requires 1 <= n <= 8
  {
    if n == 7 then {SegmentListFile, FinalAudioFile} else {StepFile(n)}
  }

  /** Every stage checks a file of its own, written by no other stage. */
  lemma StepFilesAreOwn(n: int, m: int)
    requires 1 <= n <= 8 && 1 <= m <= 8 && n != m
    ensures StepFile(n) in FilesOf(n)
    ensures StepFile(n) !in FilesOf(m)
  {
  }

  /** `fs.access`/`fs.readFile` as a lookup. */
  function Lookup(fs: FileSystem, name: string): Option<FileContent> {
    if name in fs then Some(fs[name]) else None
  }

  /** `loadData`: never fails, but gives None (null) when the file is
      missing or a JSON checkpoint does not parse; a `.json` name is parsed,
      any other name is returned as its text. */
  function LoadData(fs: FileSystem, filename: string): (r: Option<Loaded>)
    ensures r.Some? ==> filename in fs
    ensures r.Some? ==> (r.value.Parsed? <==> EndsWith(filename, ".json"))
  {
    if filename !in fs then None
    else if EndsWith(filename, ".json") then
      match fs[filename]
      case JsonFile(Some(doc)) => Some(Parsed(doc))
      case _ => None
    else
      match fs[filename]
      case TextFile(text) => Some(RawText(text))
      case _ => None
  }

  /** `saveData` with a string. */
  function SaveText(fs: FileSystem, filename: string, text: string): FileSystem {
    fs[filename := TextFile(text)]
  }

  /** `saveData` with an object, written as JSON. */
  function SaveDoc(fs: FileSystem, filename: string, doc: Artifact): FileSystem {
    fs[filename := JsonFile(Some(doc))]
  }

  /** `saveData` with a parsed reply of the wrong shape: the file is
      written, but it holds no document the pipeline can use. */
  function SaveMisshapen(fs: FileSystem, filename: string): FileSystem {
    fs[filename := JsonFile(None)]
  }

  /** A wrong-shaped checkpoint exists afterwards, so a later existence
      check sees it, yet it loads as null. */
  lemma LoadSavedMisshapen(fs: FileSystem, filename: string)
    requires EndsWith(filename, ".json")
    ensures filename in SaveMisshapen(fs, filename)
    ensures LoadData(SaveMisshapen(fs, filename), filename) == None
  {
  }

  /** Text saved under a name that is not `.json` loads back as that text. */
  lemma LoadSavedText(fs: FileSystem, filename: string, text: string)
    requires !EndsWith(filename, ".json")
    ensures LoadData(SaveText(fs, filename, text), filename) == Some(RawText(text))
  {
  }

  /** A document saved under a `.json` name loads back as that document. */
  lemma LoadSavedDoc(fs: FileSystem, filename: string, doc: Artifact)
    requires EndsWith(filename, ".json")
    ensures LoadData(SaveDoc(fs, filename, doc), filename) == Some(Parsed(doc))
  {
  }

  /** Saving one file changes what loads from no other. */
  lemma SaveLeavesOthers(fs: FileSystem, filename: string, other: string, text: string, doc: Artifact)
    requires other != filename
    ensures LoadData(SaveText(fs, filename, text), other) == LoadData(fs, other)
    ensures LoadData(SaveDoc(fs, filename, doc), other) == LoadData(fs, other)
  {
  }

  // ----- the checkpoints as the pipeline reads them -----

  function LoadText(fs: FileSystem): Option<string> {
    match LoadData(fs, TextExtractionFile)
    case Some(RawText(t)) => Some(t)
    case _ => None
  }

  function LoadSegments(fs: FileSystem): Option<SequentialData> {
    match LoadData(fs, SequentialSegmentsFile)
    case Some(Parsed(SegmentsDoc(d))) => Some(d)
    case _ => None
  }

  function LoadCharacters(fs: FileSystem): Option<CharacterData> {
    match LoadData(fs, CharactersFile)
    case Some(Parsed(CharactersDoc(d))) => Some(d)
    case _ => None
  }

  function LoadEmotions(fs: FileSystem): Option<seq<AnalyzedDialogue>> {
    match LoadData(fs, EmotionsFile)
    case Some(Parsed(EmotionsDoc(d))) => Some(d)
    case _ => None
  }

  function LoadVoices(fs: FileSystem): Option<map<string, VoiceAssignment>> {
    match LoadData(fs, VoiceMappingFile)
    case Some(Parsed(VoicesDoc(d))) => Some(d)
    case _ => None
  }

  function LoadAudioManifest(fs: FileSystem): Option<AudioManifest> {
    match LoadData(fs, ManifestFile)
    case Some(Parsed(AudioManifestDoc(d))) => Some(d)
    case _ => None
  }

  function LoadEffectsManifest(fs: FileSystem): Option<EffectsManifest> {
    match LoadData(fs, SoundEffectsFile)
    case Some(Parsed(EffectsManifestDoc(d))) => Some(d)
    case _ => None
  }

  /** Each checkpoint the pipeline saves is read back as saved. */
  lemma CheckpointsReadBack(fs: FileSystem, text: string, s: SequentialData, c: CharacterData,
                            e: seq<AnalyzedDialogue>, v: map<string, VoiceAssignment>,
                            a: AudioManifest, x: EffectsManifest)
    ensures LoadText(SaveText(fs, TextExtractionFile, text)) == Some(text)
    ensures LoadSegments(SaveDoc(fs, SequentialSegmentsFile, SegmentsDoc(s))) == Some(s)
    ensures LoadCharacters(SaveDoc(fs, CharactersFile, CharactersDoc(c))) == Some(c)
    ensures LoadEmotions(SaveDoc(fs, EmotionsFile, EmotionsDoc(e))) == Some(e)
    ensures LoadVoices(SaveDoc(fs, VoiceMappingFile, VoicesDoc(v))) == Some(v)
    ensures LoadAudioManifest(SaveDoc(fs, ManifestFile, AudioManifestDoc(a))) == Some(a)
    ensures LoadEffectsManifest(SaveDoc(fs, SoundEffectsFile, EffectsManifestDoc(x))) == Some(x)
  {
    LoadSavedText(fs, TextExtractionFile, text);
    LoadSavedDoc(fs, SequentialSegmentsFile, SegmentsDoc(s));
    LoadSavedDoc(fs, CharactersFile, CharactersDoc(c));
    LoadSavedDoc(fs, EmotionsFile, EmotionsDoc(e));
    LoadSavedDoc(fs, VoiceMappingFile, VoicesDoc(v));
    LoadSavedDoc(fs, ManifestFile, AudioManifestDoc(a));
    LoadSavedDoc(fs, SoundEffectsFile, EffectsManifestDoc(x));
  }
}
