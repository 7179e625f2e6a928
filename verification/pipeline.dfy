/** The staged run of `generateAudiobook`: eight stages, each gated by the
    options, each returning a cached checkpoint unless forced, threading
    their results through mutable locals. The language model, the speech
    service, the concatenation tool and the chapter source are oracles
    collected in a `World`; every request made of them is recorded as a
    `Call`, and the checkpoint directory is a `FileSystem`. */
module Pipeline {
  import opened Wrappers
  import opened Text
  import opened Sorting
  import opened Records
  import opened Voices
  import opened TextProcessing
  import opened Audio
  import opened Effects
  import opened Checkpoints
  import opened Cli

  // ----- gating and the plan of a run -----

  /** Stage n runs when the run starts at or before it and does not skip it. */
  predicate Gate(opts: Options, n: int) {
    opts.startFromStep <= n && n !in opts.skipSteps
  }

  predicate Forced(opts: Options, n: int) {
    n in opts.forceRerunSteps
  }

  /** What a stage does: computes its result (and saves it), returns its
      cached checkpoint, loads the stored artifact because it is gated off,
      or (stages 7 and 8) does nothing at all. */
  datatype Action = Computed | CacheHit | FromDisk | NotRun

  /** The action of stage n, decided by the options and by whether its own
      checkpoint existed when the run began. */
  function PlannedAction(opts: Options, fs0: FileSystem, n: int): Action
    requires 1 <= n <= 8
  {
    if Gate(opts, n) then
      if !Forced(opts, n) && StepFile(n) in fs0 then CacheHit else Computed
    else if n <= 6 then FromDisk
    else NotRun
  }

  /** A forced stage that runs always recomputes; an unforced one with a
      checkpoint never does; a gated-off stage never computes, and stages 7
      and 8 then do nothing. */
  lemma PlanFollowsOptions(opts: Options, fs0: FileSystem, n: int)
    requires 1 <= n <= 8
    ensures Gate(opts, n) && Forced(opts, n) ==> PlannedAction(opts, fs0, n) == Computed
    ensures Gate(opts, n) && !Forced(opts, n) && StepFile(n) in fs0 ==> PlannedAction(opts, fs0, n) == CacheHit
    ensures PlannedAction(opts, fs0, n) == Computed ==> Gate(opts, n)
    ensures !Gate(opts, n) ==> PlannedAction(opts, fs0, n) == (if n <= 6 then FromDisk else NotRun)
  {
  }

  // ----- the oracles and the record of a run -----

  /** What the PDF extractor chain yields when one of its extractors works. */
  datatype Extracted = Extracted(text: string, numpages: nat)

  /** Everything outside the pipeline: the environment's keys, the chapter
      as a text file in the working directory and as extracted from the PDF,
      the language model's replies, the speech service's outcomes for the
      k-th request of each kind, and the concatenation tool. A missing entry
      of a sequence is a failed call. */
  datatype World = World(
    openAiKey: bool,
    elevenLabsKey: bool,
    chapterFile: Option<string>,
    pdf: Option<Extracted>,
    segmentation: Reply<SequentialData>,
    characterReply: Reply<CharacterData>,
    emotionReplies: seq<Option<Emotion>>,
    speech: seq<SpeechOutcome>,
    concatSucceeds: bool,
    clips: seq<ClipOutcome>)

  /** A request made of an external service. */
  datatype Call =
    | SegmentationCall(chapter: Option<string>)
    | CharacterCall(chapterText: Option<string>)
    | EmotionCall(dialogue: Dialogue)
    | SpeechCall(request: SpeechRequest)
    | ConcatCall(fileList: string)
    | EffectCall(effect: EffectRequest)

  /** The stage that makes each kind of request. */
  function StageOf(c: Call): int {
    match c
    case SegmentationCall(_) => 2
    case CharacterCall(_) => 3
    case EmotionCall(_) => 4
    case SpeechCall(_) => 6
    case ConcatCall(_) => 7
    case EffectCall(_) => 8
  }

  /** The state of a run between stages: the directory, the actions of the
      stages reached so far, and the requests made. */
  datatype Progress = Progress(fs: FileSystem, actions: seq<Action>, calls: seq<Call>)

  /** The files the computed stages among the first |actions| may write. */
  function Written(actions: seq<Action>): set<string>
    requires |actions| <= 8
    decreases |actions|
  {
    if actions == [] then {}
    else
      var n := |actions|;
      Written(actions[..n - 1]) + (if actions[n - 1] == Computed then FilesOf(n) else {})
  }

  /** The run so far follows the plan: each stage reached took its planned
      action, every request came from a stage that computed, and no file
      outside what computed stages write has changed. */
  ghost predicate Tracks(opts: Options, fs0: FileSystem, p: Progress) {
    |p.actions| <= 8 &&
    (forall i :: 0 <= i < |p.actions| ==> p.actions[i] == PlannedAction(opts, fs0, i + 1)) &&
    (forall i :: 0 <= i < |p.calls| ==>
      1 <= StageOf(p.calls[i]) <= |p.actions| && p.actions[StageOf(p.calls[i]) - 1] == Computed) &&
    (forall name :: name !in Written(p.actions) ==> Lookup(p.fs, name) == Lookup(fs0, name))
  }

  /** A stage's own checkpoint is only written by that stage. */
  lemma {:induction false} WrittenOnlyByOwner(actions: seq<Action>, n: int)
    requires |actions| <= 8 && 1 <= n <= 8
    requires n > |actions| || actions[n - 1] != Computed
    ensures StepFile(n) !in Written(actions)
    decreases |actions|
  {
    if actions != [] {
      var m := |actions|;
      WrittenOnlyByOwner(actions[..m - 1], n);
      if m != n {
        StepFilesAreOwn(n, m);
      }
    }
  }

  /** When stage n begins, its checkpoint is as it was when the run began,
      so the cache decision taken then is the planned one. */
  lemma CacheCheckSeesStart(opts: Options, fs0: FileSystem, p: Progress, n: int)
    requires 1 <= n <= 8 && |p.actions| == n - 1 && Tracks(opts, fs0, p)
    ensures StepFile(n) in p.fs <==> StepFile(n) in fs0
  {
    WrittenOnlyByOwner(p.actions, n);
    assert Lookup(p.fs, StepFile(n)) == Lookup(fs0, StepFile(n));
  }

  /** One stage more: its planned action, its requests and its writes keep
      the run on plan. */
  lemma Advance(opts: Options, fs0: FileSystem, p: Progress, n: int, newCalls: seq<Call>, fs: FileSystem)
    requires 1 <= n <= 8 && |p.actions| == n - 1 && Tracks(opts, fs0, p)
    requires forall i :: 0 <= i < |newCalls| ==> StageOf(newCalls[i]) == n
    requires |newCalls| > 0 ==> PlannedAction(opts, fs0, n) == Computed
    requires PlannedAction(opts, fs0, n) != Computed ==> fs == p.fs
    requires forall name :: name !in FilesOf(n) ==> Lookup(fs, name) == Lookup(p.fs, name)
    ensures Tracks(opts, fs0, Progress(fs, p.actions + [PlannedAction(opts, fs0, n)], p.calls + newCalls))
  {
    var action := PlannedAction(opts, fs0, n);
    var actions := p.actions + [action];
    AdvancePlan(opts, fs0, p.actions, n);
    AdvanceCalls(p.actions, action, p.calls, newCalls);
    WrittenSnoc(p.actions, action);
    forall name | name !in Written(actions)
      ensures Lookup(fs, name) == Lookup(fs0, name)
    {
      assert name !in Written(p.actions);
    }
  }

  /** The files written after one stage more: the earlier ones, and this
      stage's own when it computed. */
  lemma WrittenSnoc(actions: seq<Action>, a: Action)
    requires |actions| < 8
    ensures forall name :: name in Written(actions + [a]) <==>
      name in Written(actions) || (a == Computed && name in FilesOf(|actions| + 1))
  {
    var next := actions + [a];
    assert next[..|actions|] == actions;
    assert next[|actions|] == a;
  }

  lemma AdvancePlan(opts: Options, fs0: FileSystem, actions: seq<Action>, n: int)
    requires 1 <= n <= 8 && |actions| == n - 1
    requires forall i :: 0 <= i < |actions| ==> actions[i] == PlannedAction(opts, fs0, i + 1)
    ensures var next := actions + [PlannedAction(opts, fs0, n)];
      forall i :: 0 <= i < |next| ==> next[i] == PlannedAction(opts, fs0, i + 1)
  {
  }

  lemma AdvanceCalls(actions: seq<Action>, action: Action, calls: seq<Call>, newCalls: seq<Call>)
    requires |actions| < 8
    requires forall i :: 0 <= i < |calls| ==> 1 <= StageOf(calls[i]) <= |actions| && actions[StageOf(calls[i]) - 1] == Computed
    requires forall i :: 0 <= i < |newCalls| ==> StageOf(newCalls[i]) == |actions| + 1
    requires |newCalls| > 0 ==> action == Computed
    ensures var next := actions + [action]; var all := calls + newCalls;
      forall i :: 0 <= i < |all| ==> 1 <= StageOf(all[i]) <= |next| && next[StageOf(all[i]) - 1] == Computed
  {
    var next := actions + [action];
    var all := calls + newCalls;
    forall i | 0 <= i < |all|
      ensures 1 <= StageOf(all[i]) <= |next| && next[StageOf(all[i]) - 1] == Computed
    {
      if i < |calls| {
        assert all[i] == calls[i];
      } else {
        assert all[i] == newCalls[i - |calls|];
      }
    }
  }

  /** On a run that follows the plan, a stage that did not compute made no
      request and left its checkpoint as it was. */
  lemma QuietStage(opts: Options, fs0: FileSystem, p: Progress, n: int)
    requires 1 <= n <= 8 && Tracks(opts, fs0, p)
    requires n > |p.actions| || PlannedAction(opts, fs0, n) != Computed
    ensures forall i :: 0 <= i < |p.calls| ==> StageOf(p.calls[i]) != n
    ensures Lookup(p.fs, StepFile(n)) == Lookup(fs0, StepFile(n))
  {
    WrittenOnlyByOwner(p.actions, n);
  }

  // ----- stage 1: the chapter text -----

  /** `textData`: its `text` (None: null) and page count, when known. */
  datatype TextData = TextData(text: Option<string>, numpages: Option<nat>)

  /** `Math.ceil(text.length / 2000)`. */
  function NumPages(text: string): nat {
    (|text| + 1999) / 2000
  }

  /** The page count is the least multiple of 2000 characters that holds
      the text. */
  lemma NumPagesIsCeiling(text: string)
    ensures 2000 * NumPages(text) >= |text|
    ensures NumPages(text) > 0 ==> 2000 * (NumPages(text) - 1) < |text|
    ensures NumPages(text) == 0 <==> |text| == 0
  {
  }

  /** Where fresh text comes from: the text file when it exists, otherwise
      the PDF extractor chain; None when every extractor throws. */
  function SourceText(world: World): Option<TextData> {
    match world.chapterFile
    case Some(t) => Some(TextData(Some(t), Some(NumPages(t))))
    case None =>
      match world.pdf
      case Some(e) => Some(TextData(Some(e.text), Some(e.numpages)))
      case None => None
  }

  method Step1(opts: Options, fs0: FileSystem, world: World, p: Progress)
    returns (textData: TextData, q: Progress, failure: Option<Failure>)
    requires |p.actions| == 0 && Tracks(opts, fs0, p)
    ensures Tracks(opts, fs0, q) && |q.actions| == 1 && q.calls == p.calls
    ensures PlannedAction(opts, fs0, 1) == FromDisk ==>
      failure == None && textData == TextData(LoadText(p.fs), None) && q.fs == p.fs
    ensures PlannedAction(opts, fs0, 1) == CacheHit ==>
      q.fs == p.fs &&
      (failure == None <==> LoadText(p.fs).Some?) &&
      (failure == None ==> textData == TextData(LoadText(p.fs), Some(NumPages(LoadText(p.fs).value))))
    ensures PlannedAction(opts, fs0, 1) == Computed ==>
      (failure == None <==> SourceText(world).Some?) &&
      (failure == None ==> textData == SourceText(world).value &&
                           q.fs == SaveText(p.fs, TextExtractionFile, textData.text.value)) &&
      (failure != None ==> q.fs == p.fs)
  {
    var action := PlannedAction(opts, fs0, 1);
    CacheCheckSeesStart(opts, fs0, p, 1);
    var fs := p.fs;
    failure := None;
    textData := TextData(None, None);
    if Gate(opts, 1) {
      if !Forced(opts, 1) && TextExtractionFile in p.fs {
        var text := LoadText(p.fs);
        if text.None? {
          failure := Some(TypeError("text"));
        } else {
          textData := TextData(text, Some(NumPages(text.value)));
        }
      } else {
        var source := SourceText(world);
        if source.None? {
          failure := Some(ExtractionFailed);
        } else {
          textData := source.value;
          fs := SaveText(p.fs, TextExtractionFile, textData.text.value);
        }
      }
    } else {
      textData := TextData(LoadText(p.fs), None);
    }
    Advance(opts, fs0, p, 1, [], fs);
    q := Progress(fs, p.actions + [action], p.calls + []);
    assert p.calls + [] == p.calls;
  }

  // ----- stages 2 and 3: the language model's two documents -----

  method Step2(opts: Options, fs0: FileSystem, world: World, p: Progress, textData: TextData)
    returns (sequentialData: Option<SequentialData>, q: Progress, failure: Option<Failure>)
    requires |p.actions| == 1 && Tracks(opts, fs0, p)
    ensures Tracks(opts, fs0, q) && |q.actions| == 2
    ensures PlannedAction(opts, fs0, 2) != Computed ==>
      failure == None && sequentialData == LoadSegments(p.fs) && q.fs == p.fs && q.calls == p.calls
    ensures PlannedAction(opts, fs0, 2) == Computed && !world.openAiKey ==>
      failure == Some(MissingApiKey("OPENAI_API_KEY")) && q.fs == p.fs && q.calls == p.calls
    ensures PlannedAction(opts, fs0, 2) == Computed && world.openAiKey ==>
      var parsed := ParseReply(world.segmentation);
      q.calls == p.calls + [SegmentationCall(textData.text)] &&
      (parsed.Ok? && parsed.value.Some? ==>
         failure == None && sequentialData == Some(parsed.value.value) &&
         q.fs == SaveDoc(p.fs, SequentialSegmentsFile, SegmentsDoc(parsed.value.value))) &&
      (parsed.Ok? && parsed.value.None? ==>
         failure == Some(TypeError("sequentialData.segments")) &&
         q.fs == SaveMisshapen(p.fs, SequentialSegmentsFile)) &&
      (parsed.Err? ==> failure == Some(parsed.error) && q.fs == p.fs)
  {
    var action := PlannedAction(opts, fs0, 2);
    CacheCheckSeesStart(opts, fs0, p, 2);
    var fs := p.fs;
    var calls: seq<Call> := [];
    failure := None;
    sequentialData := None;
    if action == Computed {
      if !world.openAiKey {
        failure := Some(MissingApiKey("OPENAI_API_KEY"));
      } else {
        calls := [SegmentationCall(textData.text)];
        var parsed := ParseReply(world.segmentation);
        if parsed.Err? {
          failure := Some(parsed.error);
        } else if parsed.value.None? {
          // saved first, then `sequentialData.segments.length` throws
          fs := SaveMisshapen(p.fs, SequentialSegmentsFile);
          failure := Some(TypeError("sequentialData.segments"));
        } else {
          sequentialData := parsed.value;
          fs := SaveDoc(p.fs, SequentialSegmentsFile, SegmentsDoc(parsed.value.value));
        }
      }
    } else {
      sequentialData := LoadSegments(p.fs);
    }
    Advance(opts, fs0, p, 2, calls, fs);
    q := Progress(fs, p.actions + [action], p.calls + calls);
    assert p.calls + [] == p.calls;
  }

  /** Stage 3 checks no key of its own: a missing key surfaces as a failed
      call. */
  method Step3(opts: Options, fs0: FileSystem, world: World, p: Progress, textData: TextData)
    returns (extractedData: Option<CharacterData>, q: Progress, failure: Option<Failure>)
    requires |p.actions| == 2 && Tracks(opts, fs0, p)
    ensures Tracks(opts, fs0, q) && |q.actions| == 3
    ensures PlannedAction(opts, fs0, 3) != Computed ==>
      failure == None && extractedData == LoadCharacters(p.fs) && q.fs == p.fs && q.calls == p.calls
    ensures PlannedAction(opts, fs0, 3) == Computed ==>
      var parsed := ParseReply(world.characterReply);
      q.calls == p.calls + [CharacterCall(textData.text)] &&
      (parsed.Ok? && parsed.value.Some? ==>
         failure == None && extractedData == Some(parsed.value.value) &&
         q.fs == SaveDoc(p.fs, CharactersFile, CharactersDoc(parsed.value.value))) &&
      (parsed.Ok? && parsed.value.None? ==>
         failure == Some(TypeError("extractedData.characters")) &&
         q.fs == SaveMisshapen(p.fs, CharactersFile)) &&
      (parsed.Err? ==> failure == Some(parsed.error) && q.fs == p.fs)
  {
    var action := PlannedAction(opts, fs0, 3);
    CacheCheckSeesStart(opts, fs0, p, 3);
    var fs := p.fs;
    var calls: seq<Call> := [];
    failure := None;
    extractedData := None;
    if action == Computed {
      calls := [CharacterCall(textData.text)];
      var parsed := ParseReply(world.characterReply);
      if parsed.Err? {
        failure := Some(parsed.error);
      } else if parsed.value.None? {
        // saved first, then `Object.keys(extractedData.characters)` throws
        fs := SaveMisshapen(p.fs, CharactersFile);
        failure := Some(TypeError("extractedData.characters"));
      } else {
        extractedData := parsed.value;
        fs := SaveDoc(p.fs, CharactersFile, CharactersDoc(parsed.value.value));
      }
    } else {
      extractedData := LoadCharacters(p.fs);
    }
    Advance(opts, fs0, p, 3, calls, fs);
    q := Progress(fs, p.actions + [action], p.calls + calls);
    assert p.calls + [] == p.calls;
  }

  /** A wrong-shaped reply that stage 2 or 3 saved is found by every later
      run that neither skips nor forces that stage: the stage returns its
      checkpoint, which loads as null, instead of asking again. */
  lemma MisshapenReplyIsCached(opts: Options, fs: FileSystem)
    ensures Gate(opts, 2) && !Forced(opts, 2) ==>
      PlannedAction(opts, SaveMisshapen(fs, SequentialSegmentsFile), 2) == CacheHit &&
      LoadSegments(SaveMisshapen(fs, SequentialSegmentsFile)) == None
    ensures Gate(opts, 3) && !Forced(opts, 3) ==>
      PlannedAction(opts, SaveMisshapen(fs, CharactersFile), 3) == CacheHit &&
      LoadCharacters(SaveMisshapen(fs, CharactersFile)) == None
  {
    LoadSavedMisshapen(fs, SequentialSegmentsFile);
    LoadSavedMisshapen(fs, CharactersFile);
  }

  // ----- stage 4: emotions -----

  /** The context line sent with a dialogue. */
  function ContextOf(order: int): string {
    "Segment " + IntToString(order) + " in the sequence"
  }

  /** The dialogue segments, in list order, as requests for the analysis. */
  function DialogueRequests(segments: seq<Segment>): seq<Dialogue>
    decreases |segments|
  {
    if segments == [] then []
    else
      (if segments[0].kind == "dialogue"
       then [Dialogue(segments[0].speaker, segments[0].text, ContextOf(segments[0].order))]
       else [])
      + DialogueRequests(segments[1..])
  }

  /** The number of dialogue segments. */
  function CountDialogue(segments: seq<Segment>): nat
    decreases |segments|
  {
    if segments == [] then 0
    else (if segments[0].kind == "dialogue" then 1 else 0) + CountDialogue(segments[1..])
  }

  /** One request per dialogue segment, never more requests than
      segments. */
  lemma {:induction false} DialogueRequestsCount(segments: seq<Segment>)
    ensures |DialogueRequests(segments)| == CountDialogue(segments) <= |segments|
    decreases |segments|
  {
    if segments != [] {
      DialogueRequestsCount(segments[1..]);
    }
  }

  /** A list of dialogue alone asks for each segment, in order, with its
      speaker, text and context line. */
  lemma {:induction false} AllDialogueRequested(segments: seq<Segment>)
    requires forall i :: 0 <= i < |segments| ==> segments[i].kind == "dialogue"
    ensures var requests := DialogueRequests(segments);
      |requests| == |segments| &&
      forall i :: 0 <= i < |segments| ==>
        requests[i] == Dialogue(segments[i].speaker, segments[i].text, ContextOf(segments[i].order))
    decreases |segments|
  {
    if segments != [] {
      var tail := segments[1..];
      AllDialogueRequested(tail);
      var head := Dialogue(segments[0].speaker, segments[0].text, ContextOf(segments[0].order));
      var requests := [head] + DialogueRequests(tail);
      assert DialogueRequests(segments) == requests;
      forall i | 0 <= i < |segments|
        ensures requests[i] == Dialogue(segments[i].speaker, segments[i].text, ContextOf(segments[i].order))
      {
        if i > 0 {
          assert requests[i] == DialogueRequests(tail)[i - 1] && segments[i] == tail[i - 1];
        }
      }
    }
  }

  /** A list of narration alone asks nothing. */
  lemma {:induction false} NarrationAsksNothing(segments: seq<Segment>)
    requires forall i :: 0 <= i < |segments| ==> segments[i].kind != "dialogue"
    ensures DialogueRequests(segments) == []
    decreases |segments|
  {
    if segments != [] {
      NarrationAsksNothing(segments[1..]);
    }
  }

  function EmotionCalls(dialogues: seq<Dialogue>): (calls: seq<Call>)
    ensures |calls| == |dialogues|
    ensures forall i :: 0 <= i < |calls| ==> calls[i] == EmotionCall(dialogues[i])
  {
    seq(|dialogues|, i requires 0 <= i < |dialogues| => EmotionCall(dialogues[i]))
  }

  method Step4(opts: Options, fs0: FileSystem, world: World, p: Progress, sequentialData: Option<SequentialData>)
    returns (analyzedDialogues: Option<seq<AnalyzedDialogue>>, q: Progress, failure: Option<Failure>)
    requires |p.actions| == 3 && Tracks(opts, fs0, p)
    ensures Tracks(opts, fs0, q) && |q.actions| == 4
    ensures PlannedAction(opts, fs0, 4) != Computed ==>
      failure == None && analyzedDialogues == LoadEmotions(p.fs) && q.fs == p.fs && q.calls == p.calls
    ensures PlannedAction(opts, fs0, 4) == Computed && sequentialData.None? ==>
      failure == Some(TypeError("sequentialData")) && q.fs == p.fs && q.calls == p.calls
    ensures PlannedAction(opts, fs0, 4) == Computed && sequentialData.Some? ==>
      var requests := DialogueRequests(sequentialData.value.segments);
      var analyzed := EmotionsFor(requests, world.emotionReplies);
      failure == None && analyzedDialogues == Some(analyzed) &&
      q.calls == p.calls + EmotionCalls(requests) &&
      q.fs == SaveDoc(p.fs, EmotionsFile, EmotionsDoc(analyzed))
  {
    var action := PlannedAction(opts, fs0, 4);
    CacheCheckSeesStart(opts, fs0, p, 4);
    var fs := p.fs;
    var calls: seq<Call> := [];
    failure := None;
    analyzedDialogues := None;
    if action == Computed {
      if sequentialData.None? {
        failure := Some(TypeError("sequentialData"));
      } else {
        var dialogueSegments := DialogueRequests(sequentialData.value.segments);
        var analyzed, requests := AnalyzeEmotions(dialogueSegments, world.emotionReplies);
        calls := EmotionCalls(requests);
        analyzedDialogues := Some(analyzed);
        fs := SaveDoc(p.fs, EmotionsFile, EmotionsDoc(analyzed));
      }
    } else {
      analyzedDialogues := LoadEmotions(p.fs);
    }
    Advance(opts, fs0, p, 4, calls, fs);
    q := Progress(fs, p.actions + [action], p.calls + calls);
    assert p.calls + [] == p.calls;
  }

  // ----- stage 5: voices -----

  /** What stage 5 hands on. A fresh run returns the pair
      `{voiceAssignments, voiceMapper}`; the cached branch returns the stored
      assignments object itself. */
  datatype VoiceData =
    | VoicePair(assignments: Option<map<string, VoiceAssignment>>)
    | StoredObject(stored: Option<map<string, VoiceAssignment>>)

  /** `voiceData.voiceAssignments`: the stored object is a dictionary keyed
      by character names, so the property is undefined on it. */
  function VoiceAssignmentsOf(v: VoiceData): VoiceMapping {
    match v
    case VoicePair(a) => a
    case StoredObject(_) => None
  }

  /** The cached branch of stage 5 as written: the loaded object itself. */
  function CachedVoiceDataAsWritten(fs: FileSystem): (v: VoiceData)
    ensures VoiceAssignmentsOf(v) == None
  {
    StoredObject(LoadVoices(fs))
  }

  /** The cached branch as evidently intended: the same shape as a fresh
      run, holding the stored assignments. */
  function CachedVoiceData(fs: FileSystem): VoiceData {
    VoicePair(LoadVoices(fs))
  }

  /** After stage 5 has saved its assignments, the corrected cached branch
      hands on exactly what the fresh run handed on; the branch as written
      loses them. */
  lemma CachedVoiceDataMatchesFresh(fs: FileSystem, assignments: map<string, VoiceAssignment>)
    ensures var saved := SaveDoc(fs, VoiceMappingFile, VoicesDoc(assignments));
      VoiceAssignmentsOf(CachedVoiceData(saved)) == VoiceAssignmentsOf(VoicePair(Some(assignments))) &&
      VoiceAssignmentsOf(CachedVoiceDataAsWritten(saved)) != VoiceAssignmentsOf(VoicePair(Some(assignments)))
  {
    CheckpointsReadBack(fs, "", SequentialData([]), CharacterData([], []), [], assignments,
                        AudioManifest(0, []), EffectsManifest(0, []));
  }

  method Step5(opts: Options, fs0: FileSystem, p: Progress, extractedData: Option<CharacterData>)
    returns (voiceData: VoiceData, q: Progress, failure: Option<Failure>)
    requires |p.actions| == 4 && Tracks(opts, fs0, p)
    ensures Tracks(opts, fs0, q) && |q.actions| == 5 && q.calls == p.calls
    ensures PlannedAction(opts, fs0, 5) == CacheHit ==>
      failure == None && voiceData == CachedVoiceData(p.fs) && q.fs == p.fs
    ensures PlannedAction(opts, fs0, 5) == FromDisk ==>
      failure == None && voiceData == VoicePair(LoadVoices(p.fs)) && q.fs == p.fs
    ensures PlannedAction(opts, fs0, 5) == Computed && extractedData.None? ==>
      failure == Some(TypeError("extractedData")) && q.fs == p.fs
    ensures PlannedAction(opts, fs0, 5) == Computed && extractedData.Some? ==>
      var assignments := AssignFrom(map[], extractedData.value.characters)["Narrator" := NarratorAssignment];
      failure == None && voiceData == VoicePair(Some(assignments)) &&
      q.fs == SaveDoc(p.fs, VoiceMappingFile, VoicesDoc(assignments))
  {
    var action := PlannedAction(opts, fs0, 5);
    CacheCheckSeesStart(opts, fs0, p, 5);
    var fs := p.fs;
    failure := None;
    voiceData := VoicePair(None);
    if action == Computed {
      if extractedData.None? {
        failure := Some(TypeError("extractedData"));
      } else {
        var voiceMapper := new VoiceMapper();
        var voiceAssignments := voiceMapper.AssignVoicesToCharacters(extractedData.value.characters);
        fs := SaveDoc(p.fs, VoiceMappingFile, VoicesDoc(voiceAssignments));
        voiceData := VoicePair(Some(voiceAssignments));
      }
    } else if action == CacheHit {
      voiceData := CachedVoiceData(p.fs);
    } else {
      voiceData := VoicePair(LoadVoices(p.fs));
    }
    Advance(opts, fs0, p, 5, [], fs);
    q := Progress(fs, p.actions + [action], p.calls + []);
    assert p.calls + [] == p.calls;
  }

  // ----- stage 6: speech -----

  function OrderKey(s: Segment): int {
    s.order
  }

  /** `analyzedDialogues.find(d => d.text === text && d.speaker === speaker)`,
      its emotion, or the neutral record when nothing matches. */
  function FindEmotion(dialogues: seq<AnalyzedDialogue>, text: string, speaker: string): Emotion
    decreases |dialogues|
  {
    if dialogues == [] then Neutral
    else if dialogues[0].text == text && dialogues[0].speaker == speaker then dialogues[0].emotion
    else FindEmotion(dialogues[1..], text, speaker)
  }

  predicate Matches(d: AnalyzedDialogue, text: string, speaker: string) {
    d.text == text && d.speaker == speaker
  }

  /** The first record with the same text and speaker decides the emotion. */
  lemma {:induction false} FindEmotionFirstMatch(dialogues: seq<AnalyzedDialogue>, text: string, speaker: string, i: nat)
    requires i < |dialogues| && Matches(dialogues[i], text, speaker)
    requires forall j :: 0 <= j < i ==> !Matches(dialogues[j], text, speaker)
    ensures FindEmotion(dialogues, text, speaker) == dialogues[i].emotion
    decreases i
  {
    if i > 0 {
      assert !Matches(dialogues[0], text, speaker);
      FindEmotionFirstMatch(dialogues[1..], text, speaker, i - 1);
    }
  }

  /** With no matching record the line is spoken as neutral. */
  lemma {:induction false} FindEmotionNoMatch(dialogues: seq<AnalyzedDialogue>, text: string, speaker: string)
    requires forall j :: 0 <= j < |dialogues| ==> !Matches(dialogues[j], text, speaker)
    ensures FindEmotion(dialogues, text, speaker) == Neutral
    decreases |dialogues|
  {
    if dialogues != [] {
      assert !Matches(dialogues[0], text, speaker);
      FindEmotionNoMatch(dialogues[1..], text, speaker);
    }
  }

  /** The speech loop so far: the requests made, the segments kept, and the
      failure that stopped it, if any. */
  datatype Voicing = Voicing(requests: seq<SpeechRequest>, segments: seq<AudioSegment>, failure: Option<Failure>)

  /** The outcome the service gives to the k-th request. */
  function SpeechOutcomeAt(speech: seq<SpeechOutcome>, k: nat): SpeechOutcome {
    if k < |speech| then speech[k] else Failed
  }

  /** The request a generate call made, if any. */
  function Requested(g: Generated): seq<SpeechRequest> {
    if g.request.Some? then [g.request.value] else []
  }

  /** One segment of the sorted list through the generator. */
  function Speak(v: Voicing, segment: Segment, dialogues: Option<seq<AnalyzedDialogue>>,
                 mapping: VoiceMapping, speech: seq<SpeechOutcome>): Voicing
  {
    var outcome := SpeechOutcomeAt(speech, |v.requests|);
    if segment.kind == "dialogue" then
      if dialogues.None? then v.(failure := Some(TypeError("analyzedDialogues")))
      else
        var line := SpokenLine(segment.speaker, segment.text, FindEmotion(dialogues.value, segment.text, segment.speaker));
        var g := DialogueOutcome(|v.segments|, line, mapping, outcome);
        Voicing(v.requests + Requested(g), v.segments + Added(g), if g.result.Err? then Some(g.result.error) else None)
    else
      var g := NarrationOutcome(|v.segments|, segment.text, mapping, outcome);
      Voicing(v.requests + Requested(g), v.segments + Added(g), if g.result.Err? then Some(g.result.error) else None)
  }

  /** The loop over the first n sorted segments; it stops at the first
      failure. */
  function VoiceUpTo(sorted: seq<Segment>, dialogues: Option<seq<AnalyzedDialogue>>,
                     mapping: VoiceMapping, speech: seq<SpeechOutcome>, n: nat): Voicing
    requires n <= |sorted|
    decreases n
  {
    if n == 0 then Voicing([], [], None)
    else
      var prev := VoiceUpTo(sorted, dialogues, mapping, speech, n - 1);
      if prev.failure.Some? then prev else Speak(prev, sorted[n - 1], dialogues, mapping, speech)
  }

  /** One segment through the generator keeps the list positional, adds
      at most one segment and makes at most one request. */
  lemma SpeakKeepsShape(v: Voicing, segment: Segment, dialogues: Option<seq<AnalyzedDialogue>>,
                        mapping: VoiceMapping, speech: seq<SpeechOutcome>)
    requires Audio.Positional(v.segments) && |v.segments| <= |v.requests|
    ensures var w := Speak(v, segment, dialogues, mapping, speech);
      Audio.Positional(w.segments) && |w.segments| <= |w.requests| <= |v.requests| + 1
  {
    var outcome := SpeechOutcomeAt(speech, |v.requests|);
    if segment.kind == "dialogue" && dialogues.Some? {
      var line := SpokenLine(segment.speaker, segment.text, FindEmotion(dialogues.value, segment.text, segment.speaker));
      GenerateKeepsPositional(v.segments, line, segment.text, mapping, outcome);
    } else {
      GenerateKeepsPositional(v.segments, SpokenLine("", "", Neutral), segment.text, mapping, outcome);
    }
  }

  /** Every kept segment's index is its position; there are never more
      segments than requests, nor more requests than segments visited. */
  lemma {:induction false} VoicingShape(sorted: seq<Segment>, dialogues: Option<seq<AnalyzedDialogue>>,
                                        mapping: VoiceMapping, speech: seq<SpeechOutcome>, n: nat)
    requires n <= |sorted|
    ensures var v := VoiceUpTo(sorted, dialogues, mapping, speech, n);
      Audio.Positional(v.segments) && |v.segments| <= |v.requests| <= n
    decreases n
  {
    if n > 0 {
      VoicingShape(sorted, dialogues, mapping, speech, n - 1);
      var prev := VoiceUpTo(sorted, dialogues, mapping, speech, n - 1);
      if prev.failure.None? {
        SpeakKeepsShape(prev, sorted[n - 1], dialogues, mapping, speech);
        assert VoiceUpTo(sorted, dialogues, mapping, speech, n) == Speak(prev, sorted[n - 1], dialogues, mapping, speech);
      } else {
        assert VoiceUpTo(sorted, dialogues, mapping, speech, n) == prev;
      }
    }
  }

  /** A segment whose speaker has a voice, spoken while the service
      delivers, adds one request and one segment with its text. */
  lemma SpeakDelivered(v: Voicing, segment: Segment, dialogues: seq<AnalyzedDialogue>,
                       m: map<string, VoiceAssignment>, speech: seq<SpeechOutcome>)
    requires "Narrator" in m
    requires segment.kind == "dialogue" ==> segment.speaker in m
    requires SpeechOutcomeAt(speech, |v.requests|).Delivered?
    ensures var w := Speak(v, segment, Some(dialogues), Some(m), speech);
      w.failure == None && |w.requests| == |v.requests| + 1 &&
      |w.segments| == |v.segments| + 1 && w.segments[|v.segments|].text == segment.text &&
      forall i :: 0 <= i < |v.segments| ==> w.segments[i] == v.segments[i]
  {
  }

  /** After n segments every one has been voiced, in order. */
  predicate AllVoiced(v: Voicing, sorted: seq<Segment>, n: nat)
    requires n <= |sorted|
  {
    v.failure == None && |v.requests| == n && |v.segments| == n &&
    forall i :: 0 <= i < n ==> v.segments[i].text == sorted[i].text
  }

  /** Every segment voiced: when every speaker and the narrator have a
      voice and the service delivers, the loop makes exactly one request
      per segment and keeps one audio segment per segment, in sorted order,
      each with its segment's text. */
  lemma {:induction false} EverySegmentVoiced(sorted: seq<Segment>, dialogues: seq<AnalyzedDialogue>,
                                              m: map<string, VoiceAssignment>, speech: seq<SpeechOutcome>, n: nat)
    requires n <= |sorted| && n <= |speech|
    requires "Narrator" in m
    requires forall i :: 0 <= i < n && sorted[i].kind == "dialogue" ==> sorted[i].speaker in m
    requires forall i :: 0 <= i < n ==> speech[i].Delivered?
    ensures AllVoiced(VoiceUpTo(sorted, Some(dialogues), Some(m), speech, n), sorted, n)
    decreases n
  {
    if n > 0 {
      EverySegmentVoiced(sorted, dialogues, m, speech, n - 1);
      VoicedStep(sorted, dialogues, m, speech, n);
    } else {
      assert VoiceUpTo(sorted, Some(dialogues), Some(m), speech, 0) == Voicing([], [], None);
    }
  }

  /** One more delivered segment keeps every segment voiced. */
  lemma VoicedStep(sorted: seq<Segment>, dialogues: seq<AnalyzedDialogue>,
                   m: map<string, VoiceAssignment>, speech: seq<SpeechOutcome>, n: nat)
    requires 0 < n <= |sorted| && n <= |speech|
    requires "Narrator" in m
    requires sorted[n - 1].kind == "dialogue" ==> sorted[n - 1].speaker in m
    requires speech[n - 1].Delivered?
    requires AllVoiced(VoiceUpTo(sorted, Some(dialogues), Some(m), speech, n - 1), sorted, n - 1)
    ensures AllVoiced(VoiceUpTo(sorted, Some(dialogues), Some(m), speech, n), sorted, n)
  {
    var prev := VoiceUpTo(sorted, Some(dialogues), Some(m), speech, n - 1);
    assert SpeechOutcomeAt(speech, |prev.requests|) == speech[n - 1];
    var w := Speak(prev, sorted[n - 1], Some(dialogues), Some(m), speech);
    SpeakDelivered(prev, sorted[n - 1], dialogues, m, speech);
    assert VoiceUpTo(sorted, Some(dialogues), Some(m), speech, n) == w;
    forall i | 0 <= i < n
      ensures w.segments[i].text == sorted[i].text
    {
      if i < n - 1 {
        assert w.segments[i] == prev.segments[i];
      }
    }
  }


  /** With no voice dictionary the first segment already throws, before any
      request is made. */
  lemma NoDictionaryStopsAtFirstSegment(sorted: seq<Segment>, dialogues: Option<seq<AnalyzedDialogue>>,
                                        speech: seq<SpeechOutcome>)
    requires |sorted| >= 1
    ensures var v := VoiceUpTo(sorted, dialogues, None, speech, 1);
      v.failure.Some? && v.failure.value.TypeError? && v.requests == [] && v.segments == []
  {
    assert VoiceUpTo(sorted, dialogues, None, speech, 0) == Voicing([], [], None);
  }

  /** Resuming with the stored voices as written: a cached stage 5 followed
      by a fresh stage 6 over any non-empty list throws at the first
      segment. */
  lemma CachedVoicesBreakStep6AsWritten(fs: FileSystem, sorted: seq<Segment>,
                                        dialogues: Option<seq<AnalyzedDialogue>>, speech: seq<SpeechOutcome>)
    requires |sorted| >= 1
    ensures VoiceUpTo(sorted, dialogues, VoiceAssignmentsOf(CachedVoiceDataAsWritten(fs)), speech, |sorted|).failure.Some?
  {
    NoDictionaryStopsAtFirstSegment(sorted, dialogues, speech);
    VoiceFailureSticks(sorted, dialogues, None, speech, 1, |sorted|);
  }

  /** Once the loop has failed it stays failed. */
  lemma {:induction false} VoiceFailureSticks(sorted: seq<Segment>, dialogues: Option<seq<AnalyzedDialogue>>,
                                              mapping: VoiceMapping, speech: seq<SpeechOutcome>, n: nat, m: nat)
    requires n <= m <= |sorted|
    requires VoiceUpTo(sorted, dialogues, mapping, speech, n).failure.Some?
    ensures VoiceUpTo(sorted, dialogues, mapping, speech, m) == VoiceUpTo(sorted, dialogues, mapping, speech, n)
    decreases m - n
  {
    if m > n {
      VoiceFailureSticks(sorted, dialogues, mapping, speech, n, m - 1);
      var prev := VoiceUpTo(sorted, dialogues, mapping, speech, m - 1);
      assert prev.failure.Some?;
      assert VoiceUpTo(sorted, dialogues, mapping, speech, m) == prev;
    }
  }

  function SpeechCalls(requests: seq<SpeechRequest>): (calls: seq<Call>)
    ensures |calls| == |requests|
    ensures forall i :: 0 <= i < |calls| ==> calls[i] == SpeechCall(requests[i])
  {
    seq(|requests|, i requires 0 <= i < |requests| => SpeechCall(requests[i]))
  }

  /** One pass of the loop body: the segment through the generator, the
      request it made, and the error that ends the loop, if any. */
  method SpeakSegment(audioGenerator: AudioGenerator, segment: Segment, dialogues: Option<seq<AnalyzedDialogue>>,
                      mapping: VoiceMapping, speech: seq<SpeechOutcome>, requests: seq<SpeechRequest>)
    returns (newRequests: seq<SpeechRequest>, failure: Option<Failure>)
    modifies audioGenerator
    ensures Voicing(newRequests, audioGenerator.audioSegments, failure)
      == Speak(Voicing(requests, old(audioGenerator.audioSegments), None), segment, dialogues, mapping, speech)
  {
    var outcome := SpeechOutcomeAt(speech, |requests|);
    var g;
    if segment.kind == "dialogue" {
      if dialogues.None? {
        return requests, Some(TypeError("analyzedDialogues"));
      }
      var line := SpokenLine(segment.speaker, segment.text, FindEmotion(dialogues.value, segment.text, segment.speaker));
      g := audioGenerator.GenerateAudioForDialogue(line, mapping, outcome);
    } else {
      g := audioGenerator.GenerateAudioForNarration(segment.text, mapping, outcome);
    }
    newRequests := requests + Requested(g);
    failure := if g.result.Err? then Some(g.result.error) else None;
  }

  /** The loop goes one segment further while nothing has failed. */
  lemma VoiceStep(sorted: seq<Segment>, dialogues: Option<seq<AnalyzedDialogue>>,
                  mapping: VoiceMapping, speech: seq<SpeechOutcome>, i: nat)
    requires i < |sorted|
    requires VoiceUpTo(sorted, dialogues, mapping, speech, i).failure == None
    ensures VoiceUpTo(sorted, dialogues, mapping, speech, i + 1)
      == Speak(VoiceUpTo(sorted, dialogues, mapping, speech, i), sorted[i], dialogues, mapping, speech)
  {
  }

  /** One pass of the loop: the next segment through the generator, taking
      the run from i segments voiced to i + 1. */
  method VoiceNext(audioGenerator: AudioGenerator, sorted: seq<Segment>, dialogues: Option<seq<AnalyzedDialogue>>,
                   mapping: VoiceMapping, speech: seq<SpeechOutcome>, i: nat, requests: seq<SpeechRequest>)
    returns (newRequests: seq<SpeechRequest>, failure: Option<Failure>)
    requires i < |sorted|
    requires Voicing(requests, audioGenerator.audioSegments, None) == VoiceUpTo(sorted, dialogues, mapping, speech, i)
    modifies audioGenerator
    ensures Voicing(newRequests, audioGenerator.audioSegments, failure) == VoiceUpTo(sorted, dialogues, mapping, speech, i + 1)
  {
    VoiceStep(sorted, dialogues, mapping, speech, i);
    newRequests, failure := SpeakSegment(audioGenerator, sorted[i], dialogues, mapping, speech, requests);
  }

  /** The fresh loop: the list sorted by `order`, each segment through the
      generator in turn, stopping at the first failure. */
  method VoiceSegments(sorted: seq<Segment>, dialogues: Option<seq<AnalyzedDialogue>>,
                       mapping: VoiceMapping, speech: seq<SpeechOutcome>)
    returns (audioGenerator: AudioGenerator, requests: seq<SpeechRequest>, failure: Option<Failure>)
    ensures fresh(audioGenerator)
    ensures Voicing(requests, audioGenerator.audioSegments, failure) == VoiceUpTo(sorted, dialogues, mapping, speech, |sorted|)
  {
    audioGenerator := new AudioGenerator();
    requests := [];
    failure := None;
    var i := 0;
    assert VoiceUpTo(sorted, dialogues, mapping, speech, 0) == Voicing([], [], None);
    while i < |sorted| && failure == None
      invariant 0 <= i <= |sorted|
      invariant Voicing(requests, audioGenerator.audioSegments, failure) == VoiceUpTo(sorted, dialogues, mapping, speech, i)
    {
      requests, failure := VoiceNext(audioGenerator, sorted, dialogues, mapping, speech, i, requests);
      i := i + 1;
    }
    if i < |sorted| {
      VoiceFailureSticks(sorted, dialogues, mapping, speech, i, |sorted|);
    }
  }

  method Step6(opts: Options, fs0: FileSystem, world: World, p: Progress, sequentialData: Option<SequentialData>,
               analyzedDialogues: Option<seq<AnalyzedDialogue>>, voiceAssignments: VoiceMapping)
    returns (audioGenerator: AudioGenerator, q: Progress, failure: Option<Failure>)
    requires |p.actions| == 5 && Tracks(opts, fs0, p)
    ensures fresh(audioGenerator)
    ensures Tracks(opts, fs0, q) && |q.actions| == 6
    ensures PlannedAction(opts, fs0, 6) != Computed ==> q.fs == p.fs && q.calls == p.calls
    ensures PlannedAction(opts, fs0, 6) != Computed ==>
      (failure == None <==> LoadAudioManifest(p.fs).Some?) &&
      (failure == None ==>
        audioGenerator.audioSegments == (if PlannedAction(opts, fs0, 6) == CacheHit
                                         then Reload(LoadAudioManifest(p.fs).value)
                                         else Restore(LoadAudioManifest(p.fs).value)))
    ensures PlannedAction(opts, fs0, 6) == Computed && (!world.elevenLabsKey || sequentialData.None?) ==>
      failure.Some? && q.fs == p.fs && q.calls == p.calls
    ensures PlannedAction(opts, fs0, 6) == Computed && world.elevenLabsKey && sequentialData.Some? ==>
      var sorted := SortBy(sequentialData.value.segments, OrderKey);
      var v := VoiceUpTo(sorted, analyzedDialogues, voiceAssignments, world.speech, |sorted|);
      failure == v.failure && audioGenerator.audioSegments == v.segments &&
      q.calls == p.calls + SpeechCalls(v.requests) &&
      q.fs == (if v.failure == None then SaveDoc(p.fs, ManifestFile, AudioManifestDoc(ManifestOf(v.segments))) else p.fs)
  {
    var action := PlannedAction(opts, fs0, 6);
    CacheCheckSeesStart(opts, fs0, p, 6);
    var fs := p.fs;
    var calls: seq<Call> := [];
    failure := None;
    if action == Computed {
      if !world.elevenLabsKey {
        audioGenerator := new AudioGenerator();
        failure := Some(MissingApiKey("ELEVENLABS_API_KEY"));
      } else if sequentialData.None? {
        audioGenerator := new AudioGenerator();
        failure := Some(TypeError("sequentialData"));
      } else {
        var sortedSegments := SortBy(sequentialData.value.segments, OrderKey);
        var requests;
        audioGenerator, requests, failure := VoiceSegments(sortedSegments, analyzedDialogues, voiceAssignments, world.speech);
        calls := SpeechCalls(requests);
        if failure == None {
          fs := SaveDoc(p.fs, ManifestFile, AudioManifestDoc(ManifestOf(audioGenerator.audioSegments)));
        }
      }
    } else {
      audioGenerator := new AudioGenerator();
      var manifest := LoadAudioManifest(p.fs);
      if manifest.None? {
        failure := Some(TypeError("manifest"));
      } else if action == CacheHit {
        audioGenerator.audioSegments := Reload(manifest.value);
      } else {
        audioGenerator.audioSegments := Restore(manifest.value);
      }
    }
    Advance(opts, fs0, p, 6, calls, fs);
    q := Progress(fs, p.actions + [action], p.calls + calls);
    assert p.calls + [] == p.calls;
  }

  // ----- stage 7: the concatenation -----

  method Step7(opts: Options, fs0: FileSystem, world: World, p: Progress, audioGenerator: AudioGenerator)
    returns (q: Progress, failure: Option<Failure>)
    requires |p.actions| == 6 && Tracks(opts, fs0, p)
    ensures Tracks(opts, fs0, q) && |q.actions| == 7
    ensures PlannedAction(opts, fs0, 7) != Computed ==> failure == None && q.fs == p.fs && q.calls == p.calls
    ensures PlannedAction(opts, fs0, 7) == Computed && |audioGenerator.audioSegments| == 0 ==>
      failure == Some(NothingToCombine) && q.fs == p.fs && q.calls == p.calls
    ensures PlannedAction(opts, fs0, 7) == Computed && |audioGenerator.audioSegments| > 0 ==>
      var list := FileList(audioGenerator.audioSegments);
      var listed := SaveText(p.fs, SegmentListFile, list);
      q.calls == p.calls + [ConcatCall(list)] &&
      (world.concatSucceeds ==> failure == None && q.fs == listed[FinalAudioFile := AudioFile]) &&
      (!world.concatSucceeds ==> failure == Some(ToolFailed) && q.fs == listed)
  {
    var action := PlannedAction(opts, fs0, 7);
    CacheCheckSeesStart(opts, fs0, p, 7);
    var fs := p.fs;
    var calls: seq<Call> := [];
    failure := None;
    if action == Computed {
      var listFile, result := audioGenerator.CombineAudioSegments(FinalAudioFile, world.concatSucceeds);
      if listFile.Some? {
        fs := SaveText(p.fs, SegmentListFile, listFile.value);
        calls := [ConcatCall(listFile.value)];
      }
      if result.Err? {
        failure := Some(result.error);
      } else {
        fs := fs[FinalAudioFile := AudioFile];
      }
    }
    Advance(opts, fs0, p, 7, calls, fs);
    q := Progress(fs, p.actions + [action], p.calls + calls);
    assert p.calls + [] == p.calls;
  }

  // ----- stage 8: sound effects -----

  function AmbientRequest(description: string): EffectRequest {
    EffectRequest(AmbientVoiceId, "*" + description + "*")
  }

  function ClipAt(clips: seq<ClipOutcome>, k: nat): ClipOutcome {
    if k < |clips| then clips[k] else NoClip
  }

  /** The effect list after the first n proposals: a record for each
      delivered clip, numbered by its place in the list. */
  function AmbientUpTo(prompts: seq<EffectPrompt>, clips: seq<ClipOutcome>, n: nat): seq<EffectRecord>
    requires n <= |prompts|
    decreases n
  {
    if n == 0 then []
    else
      var prev := AmbientUpTo(prompts, clips, n - 1);
      match ClipAt(clips, n - 1)
      case NoClip => prev
      case Clip(timestamp) =>
        var description := prompts[n - 1].description;
        var filename := EffectFilename("ambient", |prev|, description, timestamp);
        prev + [EffectRecord(|prev|, Ambient, description, None, filename, "output/" + filename)]
  }

  /** The effect list is positional and holds at most one record per
      proposal, exactly one when every clip is delivered. */
  lemma {:induction false} AmbientShape(prompts: seq<EffectPrompt>, clips: seq<ClipOutcome>, n: nat)
    requires n <= |prompts|
    ensures Effects.Positional(AmbientUpTo(prompts, clips, n))
    ensures |AmbientUpTo(prompts, clips, n)| <= n
    ensures (forall i :: 0 <= i < n ==> ClipAt(clips, i).Clip?) ==> |AmbientUpTo(prompts, clips, n)| == n
    decreases n
  {
    if n > 0 {
      AmbientShape(prompts, clips, n - 1);
    }
  }

  function EffectCalls(prompts: seq<EffectPrompt>): (calls: seq<Call>)
    ensures |calls| == |prompts|
    ensures forall i :: 0 <= i < |calls| ==> calls[i] == EffectCall(AmbientRequest(prompts[i].description))
  {
    seq(|prompts|, i requires 0 <= i < |prompts| => EffectCall(AmbientRequest(prompts[i].description)))
  }

  /** The fresh loop: one ambient request per proposal, in order; a failed
      clip is skipped and the loop goes on. */
  method GenerateEffects(prompts: seq<EffectPrompt>, clips: seq<ClipOutcome>)
    returns (soundEffects: SoundEffectsGenerator, requests: seq<EffectRequest>)
    ensures fresh(soundEffects)
    ensures soundEffects.effectSegments == AmbientUpTo(prompts, clips, |prompts|)
    ensures |requests| == |prompts|
    ensures forall i :: 0 <= i < |prompts| ==> requests[i] == AmbientRequest(prompts[i].description)
  {
    soundEffects := new SoundEffectsGenerator();
    requests := [];
    var i := 0;
    while i < |prompts|
      invariant 0 <= i <= |prompts|
      invariant soundEffects.effectSegments == AmbientUpTo(prompts, clips, i)
      invariant |requests| == i
      invariant forall k :: 0 <= k < i ==> requests[k] == AmbientRequest(prompts[k].description)
    {
      var request, _ := soundEffects.GenerateAmbientEffect(prompts[i].description, ClipAt(clips, i));
      requests := requests + [request];
      i := i + 1;
    }
  }

  method Step8(opts: Options, fs0: FileSystem, world: World, p: Progress, sequentialData: Option<SequentialData>)
    returns (effects: Option<seq<EffectRecord>>, q: Progress, failure: Option<Failure>)
    requires |p.actions| == 7 && Tracks(opts, fs0, p)
    ensures Tracks(opts, fs0, q) && |q.actions| == 8
    ensures PlannedAction(opts, fs0, 8) == NotRun ==> failure == None && effects == None && q.fs == p.fs && q.calls == p.calls
    ensures PlannedAction(opts, fs0, 8) == CacheHit ==>
      q.fs == p.fs && q.calls == p.calls &&
      (failure == None <==> LoadEffectsManifest(p.fs).Some?) &&
      (failure == None ==> effects == Some(LoadEffectsManifest(p.fs).value.effects))
    ensures PlannedAction(opts, fs0, 8) == Computed && (!world.elevenLabsKey || sequentialData.None?) ==>
      failure.Some? && q.fs == p.fs && q.calls == p.calls
    ensures PlannedAction(opts, fs0, 8) == Computed && world.elevenLabsKey && sequentialData.Some? ==>
      var prompts := Analysis(sequentialData.value.segments);
      var records := AmbientUpTo(prompts, world.clips, |prompts|);
      failure == None && effects == Some(records) &&
      q.calls == p.calls + EffectCalls(prompts) &&
      q.fs == SaveDoc(p.fs, SoundEffectsFile, EffectsManifestDoc(EffectsManifestOf(records)))
  {
    var action := PlannedAction(opts, fs0, 8);
    CacheCheckSeesStart(opts, fs0, p, 8);
    var fs := p.fs;
    var calls: seq<Call> := [];
    failure := None;
    effects := None;
    if action == CacheHit {
      var manifest := LoadEffectsManifest(p.fs);
      if manifest.None? {
        failure := Some(TypeError("manifest"));
      } else {
        effects := Some(manifest.value.effects);
      }
    } else if action == Computed {
      if !world.elevenLabsKey {
        failure := Some(MissingApiKey("ELEVENLABS_API_KEY"));
      } else if sequentialData.None? {
        failure := Some(TypeError("sequentialData"));
      } else {
        var effectPrompts := AnalyzeForSoundEffects(sequentialData.value.segments);
        var soundEffects, requests := GenerateEffects(effectPrompts, world.clips);
        calls := EffectCalls(effectPrompts);
        effects := Some(soundEffects.effectSegments);
        fs := SaveDoc(p.fs, SoundEffectsFile, EffectsManifestDoc(EffectsManifestOf(soundEffects.effectSegments)));
      }
    }
    Advance(opts, fs0, p, 8, calls, fs);
    q := Progress(fs, p.actions + [action], p.calls + calls);
    assert p.calls + [] == p.calls;
  }

  // ----- the whole run -----

  /** The closing summary, printed only when stage 8 runs. */
  datatype Summary = Summary(characters: nat, totalSegments: nat, audioFiles: nat, soundEffects: nat)

  /** How a run ends: its progress, and either the summary (None when stage
      8 was gated off) or the error that ended it with exit code 1. */
  datatype RunResult = RunResult(progress: Progress, result: Result<Option<Summary>, Failure>)

  /** What stages 1 to 4 hand on to the later stages. */
  datatype Front = Front(textData: TextData, sequentialData: Option<SequentialData>,
                         extractedData: Option<CharacterData>, analyzedDialogues: Option<seq<AnalyzedDialogue>>)

  /** Stages 1 to 4, stopping at the first failure. */
  method FrontStages(opts: Options, fs0: FileSystem, world: World)
    returns (front: Front, p: Progress, failure: Option<Failure>)
    ensures Tracks(opts, fs0, p)
    ensures failure == None ==> |p.actions| == 4
  {
    p := Progress(fs0, [], []);
    var textData, sequentialData, extractedData, analyzedDialogues;
    textData, p, failure := Step1(opts, fs0, world, p);
    front := Front(textData, None, None, None);
    if failure.Some? {
      return;
    }
    sequentialData, p, failure := Step2(opts, fs0, world, p, textData);
    if failure.Some? {
      return;
    }
    extractedData, p, failure := Step3(opts, fs0, world, p, textData);
    if failure.Some? {
      return;
    }
    analyzedDialogues, p, failure := Step4(opts, fs0, world, p, sequentialData);
    front := Front(textData, sequentialData, extractedData, analyzedDialogues);
  }

  /** Stages 5 to 8 on what the first four handed on, stopping at the first
      failure; the number of effects when stage 8 ran. */
  method BackStages(opts: Options, fs0: FileSystem, world: World, front: Front, p0: Progress)
    returns (audioFiles: nat, effects: Option<seq<EffectRecord>>, p: Progress, failure: Option<Failure>)
    requires Tracks(opts, fs0, p0) && |p0.actions| == 4
    ensures Tracks(opts, fs0, p)
    ensures failure == None ==> |p.actions| == 8
  {
    p := p0;
    audioFiles := 0;
    effects := None;
    var voiceData;
    voiceData, p, failure := Step5(opts, fs0, p, front.extractedData);
    if failure.Some? {
      return;
    }
    var audioGenerator;
    audioGenerator, p, failure := Step6(opts, fs0, world, p, front.sequentialData, front.analyzedDialogues,
                                        VoiceAssignmentsOf(voiceData));
    if failure.Some? {
      return;
    }
    audioFiles := |audioGenerator.audioSegments|;
    p, failure := Step7(opts, fs0, world, p, audioGenerator);
    if failure.Some? {
      return;
    }
    effects, p, failure := Step8(opts, fs0, world, p, front.sequentialData);
  }

  /** `generateAudiobook`: the stages in order; any failure ends the run
      with the error, and the summary is printed only when stage 8 runs. */
  method GenerateAudiobook(opts: Options, fs0: FileSystem, world: World) returns (run: RunResult)
    ensures Tracks(opts, fs0, run.progress)
    ensures run.result.Ok? ==> |run.progress.actions| == 8
    ensures run.result.Ok? ==> (run.result.value.Some? <==> Gate(opts, 8))
  {
    var front, p, failure := FrontStages(opts, fs0, world);
    if failure.Some? {
      return RunResult(p, Err(failure.value));
    }
    var audioFiles, effects;
    audioFiles, effects, p, failure := BackStages(opts, fs0, world, front, p);
    if failure.Some? {
      return RunResult(p, Err(failure.value));
    }
    if Gate(opts, 8) {
      var characters := if front.extractedData.Some? then |front.extractedData.value.characters| else 0;
      var totalSegments := if front.sequentialData.Some? then |front.sequentialData.value.segments| else 0;
      var soundEffects := if effects.Some? then |effects.value| else 0;
      run := RunResult(p, Ok(Some(Summary(characters, totalSegments, audioFiles, soundEffects))));
    } else {
      run := RunResult(p, Ok(None));
    }
  }
}
