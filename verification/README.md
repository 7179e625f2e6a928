# Staged audiobook pipeline, modelled in Dafny

This project models the deterministic core of a command-line tool that turns
one chapter of a novel into an audiobook. The tool works in eight resumable
stages:

1. extract the chapter text;
2. split it into ordered narration/dialogue segments with a language model;
3. extract the characters;
4. analyse the emotion of every dialogue line;
5. assign a voice to every character;
6. synthesise one audio file per segment;
7. concatenate the files with an external tool;
8. detect and generate ambient sound effects.

Each stage saves a JSON (or text) checkpoint. A later run returns that
checkpoint instead of recomputing unless the stage is forced. The command line
chooses the first stage to run, the stages to force and the stages to skip.

The model is split into these modules:

- `Cli` (`cli.dfy`): the argument loop and the options it produces.
- `Checkpoints` (`checkpoints.dfy`): the checkpoint directory as a map from
  file name to content, with `loadData`/`saveData` over it.
- `Pipeline` (`pipeline.dfy`): `generateAudiobook` and `step1`–`step8`.
  - Every stage is an imperative method over a `Progress` value: the directory, the action
    taken by each stage so far, and every request made of an external service.
  - `Tracks` is the invariant of a run. It says three things:
    - each stage took the action the options and the starting directory dictate;
    - every request was made by a stage that computed;
    - only the files of computed stages differ from the start.
- `Voices` (`voice_mapper.dfy`): the voice table, the rule chain choosing a voice per character,
  the alias dictionary built by the `VoiceMapper` class, and the emotion
  adjustment of voice settings. Settings are integer hundredths (0.65 is 65).
- `Audio` (`audio_generator.dfy`): the `AudioGenerator` class and its
  append-only segment list, the concatenation list file and the manifest.
- `Effects` (`sound_effects.dfy`): the keyword scan for effects, the merge of
  effects into the segment list, and the `SoundEffectsGenerator` class with its
  append-only effect list.
- `TextProcessing` (`text_processor.dfy`): reply parsing and the per-dialogue emotion
  loop.
- `Text` (`text.dfy`), `Sorting` (`sorting.dfy`), `Records` (`records.dfy`) and
  `Wrappers` (`wrappers.dfy`): the JavaScript string operations used, a stable
  sort by key, the records the stages exchange, and `Option`/`Result`.

The language model, the speech service, the effect service, the
concatenation tool, the chapter file and the PDF extractor are oracles. They are
collected in a `World` value: a reply per request, a delivered or failed outcome
per speech or effect request, success or failure of the tool. Timestamps come
from the speech and effect outcomes.

The warning at src/audioGenerator.js:21 says a speaker with no voice
assignment is given the narrator voice, but line 22 returns `null`, so the
line is dropped from the audio. The model follows the code.

## Model

| member | source | states |
|---|---|---|
| Cli.StartStep | src/modularMain.js:401-402 | `parseInt(arg) \|\| 1`: the start step is never 0, and a missing argument gives 1 |
| Cli.StepValue | src/modularMain.js:404 | a trimmed piece of a step list gives at most one number: none when it is NaN, its parsed value otherwise |
| Cli.Numbers | src/modularMain.js:404 | the parsed step list is never longer than the list of pieces; which pieces contribute, and where, is stated by NumbersAppend, NaNPieceDropped and NumericPieceKept |
| Cli.NumbersAppend | src/modularMain.js:404 | the step list of concatenated pieces is the concatenation of their step lists: `map`/`filter` keep order |
| Cli.NaNPieceDropped | src/modularMain.js:404 | a NaN piece anywhere in the list (such as `x` in `1,x,3`) is dropped and the others keep their steps in order |
| Cli.NumericPieceKept | src/modularMain.js:404 | a numeric piece anywhere in the list contributes its number at its place |
| Cli.ParseArgs | src/modularMain.js:398-440 | the imperative argument loop computes exactly the left-to-right reading `ParseFrom` of the arguments from the defaults: run options, help, or a crash on a list flag with no value |
| Cli.StartStepNeverZero | src/modularMain.js:401-402 | whatever the arguments, a run never starts from step 0 |
| Cli.StartStepReadsNumber | src/modularMain.js:401-402 | a printed step number n is read back as n, except that 0 becomes 1 |
| Cli.PrintedStepReadsBack | src/modularMain.js:404 | a printed number survives trim and parse as itself |
| Cli.NothingIsNaN | src/modularMain.js:404 | an empty piece is NaN and is filtered out |
| Cli.EmptyStepList | src/modularMain.js:404 | an empty list argument gives no steps |
| Cli.StepListRoundTrip | src/modularMain.js:403-408 | a comma-separated list of step numbers reads back as exactly those steps, in order |
| Cli.RepeatedFlagReplaces | src/modularMain.js:401-408 | a flag given again at the end replaces what the earlier occurrence set; a list flag's new list is not merged with the old one |
| Checkpoints.StepFilesAreOwn | src/modularMain.js:17-25 | each stage's checkpoint is written by that stage and no other |
| Checkpoints.LoadData | src/modularMain.js:37-45 | `loadData` never fails: it gives something only for a file present in the directory, parses exactly the `.json` names, and returns other names as text |
| Checkpoints.LoadSavedText | src/modularMain.js:37-50 | text saved under a non-JSON name loads back as that text |
| Checkpoints.LoadSavedDoc | src/modularMain.js:37-50 | a document saved under a `.json` name loads back as that document |
| Checkpoints.LoadSavedMisshapen | src/modularMain.js:37-50 | a saved reply of the wrong shape leaves the checkpoint present, but it loads as null |
| Checkpoints.SaveLeavesOthers | src/modularMain.js:47-50 | saving one file changes what loads from no other file |
| Checkpoints.CheckpointsReadBack | src/modularMain.js:17-50 | each of the seven checkpoints the stages save reads back as the artifact saved |
| Pipeline.PlanFollowsOptions | src/modularMain.js:311-369 | a gated and forced stage computes; a gated, unforced stage whose checkpoint existed at the start returns it; only gated stages compute; a gated-off stage 1–6 loads its artifact and a gated-off stage 7 or 8 does nothing |
| Pipeline.CacheCheckSeesStart | src/modularMain.js:55-63 | when stage n checks for its checkpoint, the file is present exactly when it was present at the start of the run |
| Pipeline.Advance | src/modularMain.js:305-378 | a stage that takes its planned action, makes requests only if it computes, and writes only its own files keeps the run invariant `Tracks` |
| Pipeline.QuietStage | src/modularMain.js:305-378 | a stage that did not compute has made no request, and its checkpoint is as it was at the start of the run |
| Pipeline.NumPagesIsCeiling | src/modularMain.js:60 | the page count of a text-file chapter is the ceiling of its length over 2000, and 0 only for an empty text |
| Pipeline.Step1 | src/modularMain.js:52-98 | gated off: the stored text without a page count; cached: the stored text with its page count; computed: the chapter file if present, else the PDF extraction; a failure when neither exists; the text is saved |
| Pipeline.Step2 | src/modularMain.js:100-118 | not computed: the stored segments, no request; computed without an OpenAI key: the key error, no request; otherwise one segmentation request: a parsed document is saved and returned, a reply of the wrong shape is saved and then fails with a TypeError, and a failed or unparsable reply propagates with nothing saved |
| Pipeline.Step3 | src/modularMain.js:120-134 | not computed: the stored characters; computed: one request: a parsed document is saved and returned, a reply of the wrong shape is saved and then fails with a TypeError, and a failed or unparsable reply propagates with nothing saved |
| Pipeline.MisshapenReplyIsCached | src/modularMain.js:103-106 | a wrong-shaped reply saved by stage 2 or 3 is found by every later run that neither skips nor forces the stage: it is a cache hit that loads as null, so the stage does not ask again |
| Pipeline.DialogueRequestsCount | src/modularMain.js:145-151 | one emotion request per dialogue segment, never more than the segments |
| Pipeline.AllDialogueRequested | src/modularMain.js:145-151 | when every segment is dialogue, the requests are the segments' speaker, text and `Segment <order> in the sequence` context, in list order |
| Pipeline.NarrationAsksNothing | src/modularMain.js:145 | narration segments make no emotion request |
| Pipeline.EmotionCalls | src/textProcessor.js:66-96 | one emotion call per dialogue, in order |
| Pipeline.Step4 | src/modularMain.js:136-157 | not computed: the stored analysis; computed without segments: a TypeError; otherwise one request per dialogue segment, the analysis with neutral fallbacks is saved and returned |
| Pipeline.CachedVoiceDataAsWritten | src/modularMain.js:162-165 | the cached branch of stage 5 as written hands on no `voiceAssignments` |
| Pipeline.CachedVoiceDataMatchesFresh | src/modularMain.js:159-173 | after stage 5 saved its assignments, the corrected cached branch hands on exactly the assignments a fresh run hands on, and the branch as written does not |
| Pipeline.Step5 | src/modularMain.js:159-173 | cached: the stored assignments as a `{voiceAssignments, voiceMapper}` pair, the corrected branch of the finding below; gated off: the same pair; computed without characters: a TypeError; otherwise the mapper's dictionary with the Narrator entry is saved and handed on |
| Pipeline.FindEmotionFirstMatch | src/modularMain.js:209-219 | the first analysed record with the same text and speaker gives the emotion |
| Pipeline.FindEmotionNoMatch | src/modularMain.js:209-219 | with no such record the emotion is neutral/medium/normal |
| Pipeline.SpeakKeepsShape | src/modularMain.js:204-231 | one segment through the generator keeps `audioSegments[i].index == i` and makes at most one speech request |
| Pipeline.VoicingShape | src/modularMain.js:204-234 | after n segments: positional indices, at most one request per segment, at most one audio file per request |
| Pipeline.SpeakDelivered | src/modularMain.js:208-231 | with a dictionary holding the Narrator and the speaker, a delivered request appends exactly one file for that segment's text and keeps the earlier ones |
| Pipeline.EverySegmentVoiced | src/modularMain.js:199-234 | when every speaker is mapped and every request is delivered, the n sorted segments give n requests and n files, file i carrying the text of sorted segment i |
| Pipeline.NoDictionaryStopsAtFirstSegment | src/audioGenerator.js:16-18 | with no voice dictionary the first segment ends the loop with a TypeError, before any request |
| Pipeline.CachedVoicesBreakStep6AsWritten | src/modularMain.js:162-165 | after the cached stage 5 as written, a fresh stage 6 over at least one segment fails |
| Pipeline.VoiceFailureSticks | src/modularMain.js:204-234 | once a segment fails, nothing later runs: the state is that of the failure |
| Pipeline.SpeechCalls | src/modularMain.js:204-231 | one speech call per request, in order |
| Pipeline.SpeakSegment | src/modularMain.js:208-231 | one iteration of the loop: the generator's list and the requests become those of `Speak` |
| Pipeline.VoiceStep | src/modularMain.js:204-234 | while no segment has failed, the loop advances by one `Speak` |
| Pipeline.VoiceNext | src/modularMain.js:204-234 | one iteration takes the loop state after i segments to the state after i + 1 |
| Pipeline.VoiceSegments | src/modularMain.js:198-234 | the loop over the sorted segments leaves the fresh generator with exactly the files, requests and failure of `VoiceUpTo` over all segments |
| Pipeline.Step6 | src/modularMain.js:175-239 | cached: the manifest reloaded with positional indices and `output/` paths; gated off: the manifest's entries as stored (a TypeError if there is none); computed: a missing key or missing segments fail with no request; otherwise the segments are voiced in `order`, and the manifest is saved only when every segment succeeded |
| Pipeline.Step7 | src/modularMain.js:241-259 | not computed: nothing; computed: no segments is an error with no request, otherwise the list file is written, the tool is called once with it, and the audiobook exists exactly when the tool succeeds |
| Pipeline.AmbientShape | src/soundEffects.js:141-180 | the effect list after n proposals is positional, at most n long, and exactly n long when every clip is delivered |
| Pipeline.EffectCalls | src/modularMain.js:285-291 | one ambient request per proposal, in order |
| Pipeline.GenerateEffects | src/modularMain.js:282-291 | the loop makes one ambient request per proposal with the `*description*` text, and leaves the effect list of `AmbientUpTo` |
| Pipeline.Step8 | src/modularMain.js:261-296 | not run: nothing; cached: the stored effects (a TypeError if unreadable); computed: a missing key or missing segments fail; otherwise one request per detected proposal, and the effects manifest is saved |
| Pipeline.FrontStages | src/modularMain.js:305-336 | stages 1–4 keep the run invariant, and all four were reached when none failed |
| Pipeline.BackStages | src/modularMain.js:338-378 | stages 5–8 keep the run invariant, and all eight were reached when none failed |
| Pipeline.GenerateAudiobook | src/modularMain.js:298-384 | every stage reached took its planned action, every request came from a computing stage, and only computed stages' files changed; success means all eight stages ran; the summary is printed exactly when stage 8 is gated in |
| Voices.BankVoice | src/voiceMapper.js:143-158 | the heuristic picks from the female bank exactly on a female signal, testing young before mature, else middle |
| Voices.SelectVoiceForCharacter | src/voiceMapper.js:113-170 | the protagonist rule wins over the robot rule, which wins over the heuristic; each with its fixed settings |
| Voices.FemaleVoiceExactlyForFemaleSignal | src/voiceMapper.js:143-169 | for a character neither protagonist nor robot, the voice is a female voice exactly when the text carries a female signal |
| Voices.Put | src/voiceMapper.js:66-95 | binding keys adds exactly those keys, sets them, and keeps every other entry |
| Voices.AssignFromKeys | src/voiceMapper.js:58-95 | a key is in the dictionary exactly when it was there before or some character's name or alias gives it |
| Voices.AssignFromLastWins | src/voiceMapper.js:58-95 | a key holds the selection of the last character that binds it |
| Voices.AssignFromKeepsUnbound | src/voiceMapper.js:58-95 | an entry no character binds keeps its value |
| Voices.EveryCharacterIsBound | src/voiceMapper.js:58-67 | every input character's name is a key |
| Voices.VoiceMapper.constructor | src/voiceMapper.js:2-53 | the character map starts empty |
| Voices.VoiceMapper.AssignVoicesToCharacters | src/voiceMapper.js:55-111 | the returned dictionary is the alias dictionary with the Narrator entry set last, and `characterVoiceMap` gains the same bindings without the Narrator |
| Voices.AdjustFollowsEmotion | src/voiceMapper.js:172-205 | only stability and style change; stability is raised to at least 30 (angry/excited), 40 (sad), 35 (anxious) and lowered to at most 95 (calm); style is capped at 100 after high intensity and floored at 20 after low; an unknown emotion at medium intensity leaves the settings unchanged |
| Voices.AdjustStaysInRange | src/voiceMapper.js:176-202 | settings in the table's ranges stay within stability 30–95 and style 0–100 |
| Voices.TableSettingsStayInRange | src/voiceMapper.js:99-170 | every voice the mapper can assign, the Narrator included, stays in range under every emotion |
| TextProcessing.ParseReply | src/textProcessor.js:56-60 | a failed call and malformed JSON are the only errors, both propagated; anything that parses is handed back unchecked, as the document exactly when it has the document's shape |
| TextProcessing.AnalyzeEmotions | src/textProcessor.js:63-118 | one request per dialogue, in input order; one record per dialogue, in order, with the dialogue's fields kept; the emotion is the parsed reply, or neutral when the call or the parse failed |
| Audio.DialogueFilenameCarriesIndex | src/audioGenerator.js:41-44 | a dialogue file name starts `segment_` followed by its index, which reads back |
| Audio.NarrationFilenameCarriesIndex | src/audioGenerator.js:87-90 | a narration file name starts `segment_` followed by its index, which reads back |
| Audio.DistinctIndicesDistinctFilenames | src/audioGenerator.js:41-90 | segments with different indices never share a file name |
| Audio.DialogueRequestShape | src/audioGenerator.js:16-72 | a request is made exactly when the speaker has a voice; it uses that voice with the emotion-adjusted settings; an unmapped speaker gives `null` and no request; no dictionary at all is a TypeError; a segment comes back exactly when the request is delivered, and a failed request is rethrown as a service error |
| Audio.NarrationRequestShape | src/audioGenerator.js:74-117 | a request is made exactly when a Narrator voice exists, using it with its settings unchanged, and a TypeError otherwise; success exactly when delivered, success always carries a segment, and a failed request is rethrown as a service error |
| Audio.DialogueSegmentShape | src/audioGenerator.js:40-66 | a produced dialogue segment has the given index, type dialogue, the speaker, text, emotion, `segment_<index>_<speaker>_<time>.mp3` and its `output/` path |
| Audio.NarrationSegmentShape | src/audioGenerator.js:86-111 | a produced narration segment has the given index, type narration, speaker Narrator, no emotion, `segment_<index>_narrator_<time>.mp3` and its `output/` path |
| Audio.GenerateKeepsPositional | src/audioGenerator.js:42-110 | appending what a generate call produced at the list's length keeps `audioSegments[i].index == i` |
| Audio.FileLines | src/audioGenerator.js:129-131 | one `file '<name>'` line per segment, in the given order |
| Audio.FileListLines | src/audioGenerator.js:124-133 | the list file splits back into one line per segment of a stably index-sorted permutation of the list, with no trailing newline |
| Audio.FileListOfPositional | src/audioGenerator.js:125-131 | for a positional list the sort changes nothing: the lines follow list order |
| Audio.ManifestOf | src/audioGenerator.js:173-190 | the manifest counts its entries and holds each segment without its path, in list order |
| Audio.Reload | src/modularMain.js:184-188 | the reloaded list has one segment per entry, with index reset to its position and path `output/<filename>` |
| Audio.Restore | src/modularMain.js:356-360 | the gated-off stage 6 takes the manifest's entries as they are, with no path |
| Audio.RestoreSavedManifest | src/modularMain.js:356-360 | a skipped stage 6 over a manifest saved from a list gets every segment back without its path, and for a positional list stage 7 writes the same list file as the run that saved it |
| Audio.ReloadSavedManifest | src/modularMain.js:178-192 | a positional list with `output/` paths survives a save and a cached reload unchanged |
| Audio.AudioGenerator.constructor | src/audioGenerator.js:9-14 | the segment list starts empty |
| Audio.AudioGenerator.GenerateAudioForDialogue | src/audioGenerator.js:16-72 | the call's outcome is that of the dialogue model at index = old length, and the list gains exactly the produced segment (nothing on `null` or failure) |
| Audio.AudioGenerator.GenerateAudioForNarration | src/audioGenerator.js:74-117 | the same for narration |
| Audio.AudioGenerator.CombineAudioSegments | src/audioGenerator.js:119-161 | an empty list is an error with no list file; otherwise the list file is the index-sorted file list, and the result is the output path or a tool failure |
| Effects.PromptsForFollowsTable | src/soundEffects.js:20-77 | the proposals for one segment are those of the rules that fire on its lower-cased text, in table order |
| Effects.PromptsForShape | src/soundEffects.js:22-76 | at most six proposals per segment, all aimed after that segment's position |
| Effects.AnalysisShape | src/soundEffects.js:17-80 | at most six proposals per segment, each aimed at a valid position, in non-decreasing position order |
| Effects.AnalyzeForSoundEffects | src/soundEffects.js:17-80 | the scan loop produces exactly the proposals of the rule table, segment by segment |
| Effects.EffectsAfter | src/soundEffects.js:196 | the filter keeps only proposals aimed after the given position |
| Effects.EnhancedShape | src/soundEffects.js:183-211 | every entry's enhanced index is its position; an original carries its input position; an effect entry has original index -1 and comes from a proposal aimed at a valid position |
| Effects.EnhancedKeepsOriginals | src/soundEffects.js:187-193 | the originals of the merged list are the input segments, each once, in order |
| Effects.EnhancedBlock | src/soundEffects.js:187-208 | in the merged list, segment i's original entry comes after the entries of the earlier segments and is directly followed by the effects proposed after position i, in proposal order |
| Effects.EnhancedEffects | src/soundEffects.js:189-207 | the effect entries are the proposals grouped by position in prompt order; proposals aimed at no position are dropped |
| Effects.AnalysisSurvivesMerge | src/soundEffects.js:17-211 | merging the scan's own proposals keeps every one of them, in order |
| Effects.AppendEffects | src/soundEffects.js:196-206 | the inner loop appends one effect entry per proposal, numbered from the list length |
| Effects.CreateEnhancedSegmentsList | src/soundEffects.js:183-211 | the merge loop produces exactly the merged list `Enhanced` |
| Effects.EffectFilenameShape | src/soundEffects.js:110 | the description part of an effect file name is the sanitised description, of the same length, with only letters, digits and underscores |
| Effects.EffectsManifestOf | src/soundEffects.js:214-224 | the effects manifest counts exactly the listed effects |
| Effects.SoundEffectsGenerator.constructor | src/soundEffects.js:9-14 | the effect list starts empty |
| Effects.SoundEffectsGenerator.GenerateSoundEffect | src/soundEffects.js:83-138 | the request text uses the duration phrase; no clip gives `null` and an unchanged list; a clip appends exactly one record whose index is the old length |
| Effects.SoundEffectsGenerator.GenerateAmbientEffect | src/soundEffects.js:141-180 | the request is `*description*` with the ambient voice; no clip gives `null` and an unchanged list; a clip appends exactly one record whose index is the old length |
| Effects.AppendKeepsPositional | src/soundEffects.js:109-131 | appending a record numbered with the list length keeps `effectSegments[i].index == i` |
| Text.Lower | src/soundEffects.js:22 | lower-casing keeps the length and folds each character |
| Text.SplitJoin | src/modularMain.js:404 | splitting a joined list of comma-free pieces gives the pieces back |
| Text.JoinSplit | src/modularMain.js:404 | joining the pieces of a split restores the text |
| Text.SplitPiecesAvoidSeparator | src/modularMain.js:404 | no piece of a split holds the separator |
| Text.Trim | src/modularMain.js:404 | a trimmed piece starts and ends with no whitespace |
| Text.ParseIntReadsLeadingNumber | src/modularMain.js:402 | a number followed by non-digits parses to that number |
| Text.ParseIntOfNatToString | src/modularMain.js:402 | a printed number parses back to itself |
| Text.UnderscoreWhitespace | src/audioGenerator.js:43 | the speaker part of a file name has no whitespace |
| Text.UnderscoreWhitespaceKeepsPlainText | src/audioGenerator.js:43 | a speaker name without whitespace is kept as is |
| Text.Sanitize | src/soundEffects.js:110 | the length is kept, and a character is replaced by `_` exactly when it is not an ASCII letter or digit |
| Text.SanitizeIdempotent | src/soundEffects.js:159 | sanitising twice is sanitising once, and the result holds only letters, digits and underscores |
| Sorting.SortByOrders | src/modularMain.js:199 | the sorted copy is ordered by the key and is a permutation of the input |
| Sorting.SortByStable | src/audioGenerator.js:125 | the sort is stable: entries with equal keys keep their relative order |
| Sorting.SortBySorted | src/audioGenerator.js:125 | an already ordered list is left as it is |

## Left out

- The PDF extractors (src/pdfExtractor.js and its two siblings) are not part of this model. Their result is an oracle `Extracted(text, numpages)` in `World`.
- src/main.js is not part of this model. Its segment sort and emotion lookup are the same as those of stage 6.
- The language model, the speech and effect services and the concatenation tool are oracles. Prompt texts, stream piping and the spawned process are not modelled.
- Stage 3 and stage 4 check no API key. A missing key therefore surfaces in the model only as failed calls in the oracle. Client construction throwing is not modelled.
- `Date.now()` is not modelled. Timestamps in file names come from the service outcomes. `generatedAt` in the manifests is not modelled.
- The `setTimeout` delays, console output, `process.exit` and the JSON text format are not modelled. A JSON checkpoint is kept as the document `JSON.parse` would make of it, or as none.
- A checkpoint that parses but has the wrong shape is read as null, like one that does not parse. A language-model reply of the wrong shape is modelled as saved and then failing. The model does not keep which wrong value it was. The `manifest.segments || []` and `manifest.effects || []` fallbacks for a manifest without that field are therefore not exercised.
- Pipeline.Step5: a cache hit hands on the corrected `{voiceAssignments, voiceMapper}` pair (`CachedVoiceData`), not the stored object that src/modularMain.js:164 returns. So `GenerateAudiobook` does not reproduce the stage-6 TypeError after a cached stage 5. That behaviour as written is modelled on its own by `CachedVoiceDataAsWritten` and `CachedVoicesBreakStep6AsWritten`; see "## Findings".
- `fileExists` and `fs.access` are key lookups in the directory map. Read errors other than absence are not modelled.
- The mp3 files written by the generate calls are not entries in the directory map. Only the checkpoints, the list file and the final audiobook are.
- Voice settings are integer hundredths, not IEEE doubles. JavaScript's rounding drift (0.65 − 0.2) is not reproduced.
- Text operations use ASCII case folding and whitespace only.
- `parseInt` is simplified: it skips leading ASCII whitespace, reads an optional sign and decimal digits, else NaN. It has no radix or `0x` handling.
- `Object.entries` order is taken as the order of the given character sequence. JavaScript's integer-key-first ordering is not modelled.
- The `voiceMapper` argument of `generateAudioForDialogue` is not modelled. The model calls the pure `AdjustVoiceSettingsForEmotion` directly, which is all the method uses.
- The fixed voice settings in the sound-effect request bodies are not modelled.
- `cleanupSegments` (src/audioGenerator.js:163-171) is not modelled. It is never called and only deletes files.
- The printed summary's counts are computed but carry no contract. The model states only when the summary is printed.
- Audio.DialogueOutcome and Audio.NarrationOutcome: their properties are stated in the `*RequestShape` and `*SegmentShape` lemmas rather than on the functions.
- Voices.AdjustVoiceSettingsForEmotion: its properties are stated in `AdjustFollowsEmotion` rather than on the function.

## Findings

| source | as written | input that shows it | evidently intended | confidence | as-written member | corrected member |
|---|---|---|---|---|---|---|
| src/modularMain.js:162-165 | a stage-5 cache hit returns the stored assignments object itself, while a fresh run returns `{voiceAssignments, voiceMapper}` (line 172); stage 6 then reads `voiceData.voiceAssignments` (line 352), which is `undefined`, and `voiceMapping[speaker]` throws | `voice_assignments.json` present, `audiobook_manifest.json` absent, stage 5 not forced, stage 6 gated in, at least one segment | return `{voiceAssignments: <loaded>, voiceMapper: new VoiceMapper()}`, as the gated-off branch does at lines 342-344; `Pipeline.Step5` and the whole run use this corrected branch | high; not executed | Pipeline.CachedVoicesBreakStep6AsWritten | Pipeline.CachedVoiceDataMatchesFresh |
