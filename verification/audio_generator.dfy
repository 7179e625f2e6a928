/** The audio generator: an append-only list of synthesised segments, the
    file list handed to the concatenation tool, and the saved manifest. The
    synthesis service is an oracle whose outcome for each request is given;
    a delivered clip carries the clock reading used in its file name. */
module Audio {
  import opened Wrappers
  import opened Text
  import opened Sorting
  import opened Records
  import opened Voices

  datatype AudioKind = DialogueAudio | NarrationAudio

  /** One entry of `audioSegments`. Narration has no emotion; a segment
      restored from the manifest without its step has no file path. */
  datatype AudioSegment = AudioSegment(
    index: int, kind: AudioKind, speaker: string, text: string,
    emotion: Option<Emotion>, filename: string, filepath: Option<string>)

  /** What is sent to the text-to-speech service. */
  datatype SpeechRequest = SpeechRequest(voiceId: string, text: string, settings: VoiceSettings)

  /** The service's answer to one request (stream and file write together). */
  datatype SpeechOutcome = Delivered(timestamp: nat) | Failed

  /** A line of dialogue together with the emotion chosen for it. */
  datatype SpokenLine = SpokenLine(speaker: string, text: string, emotion: Emotion)

  /** What one generate call asks of the service and what it yields: a new
      segment, nothing at all, or a failure that is rethrown. */
  datatype Generated = Generated(request: Option<SpeechRequest>, result: Result<Option<AudioSegment>, Failure>)

  /** The voice dictionary handed to the generator; None when it is
      undefined or null. */
  type VoiceMapping = Option<map<string, VoiceAssignment>>

  // ----- file names -----

  function DialogueFilename(index: nat, speaker: string, timestamp: nat): string {
    "segment_" + NatToString(index) + "_" + UnderscoreWhitespace(speaker) + "_" + NatToString(timestamp) + ".mp3"
  }

  function NarrationFilename(index: nat, timestamp: nat): string {
    "segment_" + NatToString(index) + "_narrator_" + NatToString(timestamp) + ".mp3"
  }

  function OutputPath(filename: string): string {
    "output/" + filename
  }

  /** A name of the form "segment_<index><rest>" carries its index right
      after the prefix, where `parseInt` reads it back. */
  lemma {:induction false} PrefixedIndexReadsBack(index: nat, rest: string)
    requires |rest| > 0 && rest[0] == '_'
    ensures var f := "segment_" + NatToString(index) + rest;
      |f| >= 8 && f[..8] == "segment_" && ParseInt(f[8..]) == Some(index)
  {
    var f := "segment_" + NatToString(index) + rest;
    assert f[8..] == NatToString(index) + rest;
    ParseIntReadsLeadingNumber(index, rest);
  }

  /** A dialogue file name starts with "segment_" and carries its index
      right after it. */
  lemma DialogueFilenameCarriesIndex(index: nat, speaker: string, timestamp: nat)
    ensures var f := DialogueFilename(index, speaker, timestamp);
      |f| >= 8 && f[..8] == "segment_" && ParseInt(f[8..]) == Some(index)
  {
    var rest := "_" + UnderscoreWhitespace(speaker) + "_" + NatToString(timestamp) + ".mp3";
    var f := DialogueFilename(index, speaker, timestamp);
    assert f == "segment_" + NatToString(index) + rest;
    PrefixedIndexReadsBack(index, rest);
  }

  /** So does a narration file name. */
  lemma NarrationFilenameCarriesIndex(index: nat, timestamp: nat)
    ensures var f := NarrationFilename(index, timestamp);
      |f| >= 8 && f[..8] == "segment_" && ParseInt(f[8..]) == Some(index)
  {
    var rest := "_narrator_" + NatToString(timestamp) + ".mp3";
    var f := NarrationFilename(index, timestamp);
    assert f == "segment_" + NatToString(index) + rest;
    PrefixedIndexReadsBack(index, rest);
  }

  /** Segments made at different list positions never share a file name,
      whatever their speakers and clock readings. */
  lemma DistinctIndicesDistinctFilenames(i: nat, j: nat, f: string, g: string, speakerI: string, speakerJ: string, tI: nat, tJ: nat)
    requires i != j
    requires f == DialogueFilename(i, speakerI, tI) || f == NarrationFilename(i, tI)
    requires g == DialogueFilename(j, speakerJ, tJ) || g == NarrationFilename(j, tJ)
    ensures f != g
  {
    DialogueFilenameCarriesIndex(i, speakerI, tI);
    NarrationFilenameCarriesIndex(i, tI);
    DialogueFilenameCarriesIndex(j, speakerJ, tJ);
    NarrationFilenameCarriesIndex(j, tJ);
  }

  // ----- one generate call -----

  /** `generateAudioForDialogue` as a value: no request when the speaker
      has no voice (there is no fallback to the narrator); otherwise one
      request with the speaker's voice and the emotion-adjusted copy of its
      settings, which yields a dialogue segment at `index` or a failure. */
  function DialogueOutcome(index: nat, line: SpokenLine, voiceMapping: VoiceMapping, outcome: SpeechOutcome): (g: Generated)
  {
    match voiceMapping
    case None => Generated(None, Err(TypeError("voiceMapping")))
    case Some(m) =>
      if line.speaker !in m then Generated(None, Ok(None))
      else
        var config := m[line.speaker];
        var request := SpeechRequest(config.voiceId, line.text,
                                     AdjustVoiceSettingsForEmotion(config.voiceSettings, line.emotion));
        match outcome
        case Failed => Generated(Some(request), Err(ServiceError))
        case Delivered(timestamp) =>
          var filename := DialogueFilename(index, line.speaker, timestamp);
          Generated(Some(request), Ok(Some(AudioSegment(index, DialogueAudio, line.speaker, line.text,
                                                       Some(line.emotion), filename, Some(OutputPath(filename))))))
  }

  /** `generateAudioForNarration` as a value: one request with the
      narrator's voice and its settings unchanged, when there is a narrator;
      the segment is narration spoken by "Narrator" with no emotion. */
  function NarrationOutcome(index: nat, text: string, voiceMapping: VoiceMapping, outcome: SpeechOutcome): (g: Generated)
  {
    if voiceMapping.None? || "Narrator" !in voiceMapping.value then
      Generated(None, Err(TypeError("voiceConfig")))
    else
      var config := voiceMapping.value["Narrator"];
      var request := SpeechRequest(config.voiceId, text, config.voiceSettings);
      match outcome
      case Failed => Generated(Some(request), Err(ServiceError))
      case Delivered(timestamp) =>
        var filename := NarrationFilename(index, timestamp);
        Generated(Some(request), Ok(Some(AudioSegment(index, NarrationAudio, "Narrator", text,
                                                     None, filename, Some(OutputPath(filename))))))
  }

  /** A dialogue line is requested exactly when its speaker has a voice; it
      yields a segment exactly when it was requested and the audio came
      back; an unmapped speaker gives null rather than an error. The request
      carries the speaker's voice, the line's text, and the speaker's
      settings adjusted for the line's emotion. */
  lemma DialogueRequestShape(index: nat, line: SpokenLine, voiceMapping: VoiceMapping, outcome: SpeechOutcome)
    ensures var g := DialogueOutcome(index, line, voiceMapping, outcome);
      (g.request.Some? <==> voiceMapping.Some? && line.speaker in voiceMapping.value) &&
      (g.result.Ok? && g.result.value.Some? <==> g.request.Some? && outcome.Delivered?) &&
      (g.request.None? && voiceMapping.Some? ==> g.result == Ok(None)) &&
      (voiceMapping.None? ==> g.result.Err? && g.result.error.TypeError?) &&
      (g.request.Some? && outcome.Failed? ==> g.result == Err(ServiceError))
    ensures var g := DialogueOutcome(index, line, voiceMapping, outcome);
      g.request.Some? ==>
        var a := voiceMapping.value[line.speaker];
        g.request.value == SpeechRequest(a.voiceId, line.text, AdjustVoiceSettingsForEmotion(a.voiceSettings, line.emotion))
  {
  }

  /** Narration is requested exactly when there is a narrator, and yields a
      segment exactly when it was requested and the audio came back; the
      request carries the narrator's voice and settings, unchanged, with
      the text. */
  lemma NarrationRequestShape(index: nat, text: string, voiceMapping: VoiceMapping, outcome: SpeechOutcome)
    ensures var g := NarrationOutcome(index, text, voiceMapping, outcome);
      (g.request.Some? <==> voiceMapping.Some? && "Narrator" in voiceMapping.value) &&
      (g.result.Ok? <==> g.request.Some? && outcome.Delivered?) &&
      (g.result.Ok? ==> g.result.value.Some?) &&
      (g.request.None? ==> g.result.Err? && g.result.error.TypeError?) &&
      (g.request.Some? && outcome.Failed? ==> g.result == Err(ServiceError))
    ensures var g := NarrationOutcome(index, text, voiceMapping, outcome);
      g.request.Some? ==>
        var a := voiceMapping.value["Narrator"];
        g.request.value == SpeechRequest(a.voiceId, text, a.voiceSettings)
  {
  }

  /** The segment a delivered dialogue line yields: at `index`, spoken by
      its speaker with its text and emotion, saved under the dialogue file
      name in `output/`. */
  lemma DialogueSegmentShape(index: nat, line: SpokenLine, voiceMapping: VoiceMapping, outcome: SpeechOutcome)
    ensures var g := DialogueOutcome(index, line, voiceMapping, outcome);
      g.result.Ok? && g.result.value.Some? ==>
        var s := g.result.value.value;
        s.index == index && s.kind == DialogueAudio && s.speaker == line.speaker && s.text == line.text &&
        s.emotion == Some(line.emotion) && s.filename == DialogueFilename(index, line.speaker, outcome.timestamp) &&
        s.filepath == Some(OutputPath(s.filename))
  {
  }

  /** The segment delivered narration yields: at `index`, spoken by
      "Narrator" with no emotion, saved under the narration file name in
      `output/`. */
  lemma NarrationSegmentShape(index: nat, text: string, voiceMapping: VoiceMapping, outcome: SpeechOutcome)
    ensures var g := NarrationOutcome(index, text, voiceMapping, outcome);
      g.result.Ok? && g.result.value.Some? ==>
        var s := g.result.value.value;
        s.index == index && s.kind == NarrationAudio && s.speaker == "Narrator" && s.text == text &&
        s.emotion == None && s.filename == NarrationFilename(index, outcome.timestamp) &&
        s.filepath == Some(OutputPath(s.filename))
  {
  }

  /** The segments a call adds to the list: its new segment, if any. */
  function Added(g: Generated): seq<AudioSegment> {
    if g.result.Ok? && g.result.value.Some? then [g.result.value.value] else []
  }

  /** Every segment's index is its position in the list. */
  predicate Positional(segments: seq<AudioSegment>) {
    forall i :: 0 <= i < |segments| ==> segments[i].index == i
  }

  /** A generate call keeps the list positional: what it adds sits at the
      old length. */
  lemma GenerateKeepsPositional(segments: seq<AudioSegment>, line: SpokenLine, text: string, voiceMapping: VoiceMapping, outcome: SpeechOutcome)
    requires Positional(segments)
    ensures Positional(segments + Added(DialogueOutcome(|segments|, line, voiceMapping, outcome)))
    ensures Positional(segments + Added(NarrationOutcome(|segments|, text, voiceMapping, outcome)))
  {
    DialogueSegmentShape(|segments|, line, voiceMapping, outcome);
    NarrationSegmentShape(|segments|, text, voiceMapping, outcome);
  }

  // ----- the file list -----

  function IndexKey(s: AudioSegment): int {
    s.index
  }

  function FileLine(filename: string): string {
    "file '" + filename + "'"
  }

  function FileLines(segments: seq<AudioSegment>): (lines: seq<string>)
    ensures |lines| == |segments|
    ensures forall i :: 0 <= i < |segments| ==> lines[i] == FileLine(segments[i].filename)
  {
    seq(|segments|, i requires 0 <= i < |segments| => FileLine(segments[i].filename))
  }

  /** The list-file text: a copy of the list sorted by index, one line per
      segment, joined by newlines. */
  function FileList(segments: seq<AudioSegment>): string {
    Join(FileLines(SortBy(segments, IndexKey)), "\n")
  }

  lemma {:induction false} JoinEndsWithLast(parts: seq<string>, sep: string)
    requires |parts| >= 1
    ensures EndsWith(Join(parts, sep), parts[|parts| - 1])
    decreases |parts|
  {
    if |parts| > 1 {
      JoinEndsWithLast(parts[1..], sep);
      var rest := Join(parts[1..], sep);
      var last := parts[|parts| - 1];
      assert parts[1..][|parts| - 2] == last;
      assert Join(parts, sep) == parts[0] + sep + rest;
      assert (parts[0] + sep + rest)[|parts[0] + sep + rest| - |last|..] == rest[|rest| - |last|..];
    }
  }

  /** When no file name holds a newline, the list file has one line per
      segment, line k naming the k-th segment of the index-sorted copy;
      that copy is in ascending index order and holds the same segments;
      and the text does not end with a newline. */
  lemma FileListLines(segments: seq<AudioSegment>)
    requires |segments| >= 1
    requires forall i :: 0 <= i < |segments| ==> '\n' !in segments[i].filename
    ensures var sorted := SortBy(segments, IndexKey);
      Split(FileList(segments), '\n') == FileLines(sorted) &&
      SortedBy(sorted, IndexKey) && multiset(sorted) == multiset(segments)
    ensures FileList(segments)[|FileList(segments)| - 1] == '\''
  {
    var sorted := SortBy(segments, IndexKey);
    SortByOrders(segments, IndexKey);
    var lines := FileLines(sorted);
    forall p | p in lines ensures '\n' !in p {
      var k :| 0 <= k < |lines| && lines[k] == p;
      assert sorted[k] in multiset(segments);
      var j :| 0 <= j < |segments| && segments[j] == sorted[k];
      assert p == "file '" + segments[j].filename + "'";
    }
    SplitJoin(lines, '\n');
    JoinEndsWithLast(lines, "\n");
    var last := lines[|lines| - 1];
    assert last[|last| - 1] == '\'';
  }

  /** On a positional list the sort changes nothing, so line k names the
      k-th segment of the list itself. */
  lemma FileListOfPositional(segments: seq<AudioSegment>)
    requires Positional(segments)
    ensures FileList(segments) == Join(FileLines(segments), "\n")
  {
    SortBySorted(segments, IndexKey);
  }

  // ----- the manifest -----

  /** A manifest entry: the segment without its file path. */
  datatype ManifestEntry = ManifestEntry(index: int, kind: AudioKind, speaker: string, text: string,
                                         emotion: Option<Emotion>, filename: string)

  datatype AudioManifest = AudioManifest(totalSegments: nat, segments: seq<ManifestEntry>)

  function EntryOf(s: AudioSegment): ManifestEntry {
    ManifestEntry(s.index, s.kind, s.speaker, s.text, s.emotion, s.filename)
  }

  /** `saveManifest`'s document: the count and each segment projected, in
      list order. */
  function ManifestOf(segments: seq<AudioSegment>): (m: AudioManifest)
    ensures m.totalSegments == |m.segments| == |segments|
    ensures forall i :: 0 <= i < |segments| ==> m.segments[i] == EntryOf(segments[i])
  {
    AudioManifest(|segments|, seq(|segments|, i requires 0 <= i < |segments| => EntryOf(segments[i])))
  }

  /** The cached step 6: every entry back as a segment, its index reset to
      its position and its path rebuilt under the output directory. */
  function Reload(m: AudioManifest): (segments: seq<AudioSegment>)
    ensures |segments| == |m.segments|
    ensures Positional(segments)
    ensures forall i :: 0 <= i < |segments| ==>
      var e := m.segments[i];
      segments[i] == AudioSegment(i, e.kind, e.speaker, e.text, e.emotion, e.filename, Some(OutputPath(e.filename)))
  {
    seq(|m.segments|, i requires 0 <= i < |m.segments| =>
      var e := m.segments[i];
      AudioSegment(i, e.kind, e.speaker, e.text, e.emotion, e.filename, Some(OutputPath(e.filename))))
  }

  /** Step 6 skipped: the stored entries as they are, without file paths. */
  function Restore(m: AudioManifest): (segments: seq<AudioSegment>)
    ensures |segments| == |m.segments|
    ensures forall i :: 0 <= i < |segments| ==>
      var e := m.segments[i];
      segments[i] == AudioSegment(e.index, e.kind, e.speaker, e.text, e.emotion, e.filename, None)
  {
    seq(|m.segments|, i requires 0 <= i < |m.segments| =>
      var e := m.segments[i];
      AudioSegment(e.index, e.kind, e.speaker, e.text, e.emotion, e.filename, None))
  }

  /** Saving a list the generator built and loading it back as the cached
      step does gives the same list. */
  lemma ReloadSavedManifest(segments: seq<AudioSegment>)
    requires Positional(segments)
    requires forall i :: 0 <= i < |segments| ==> segments[i].filepath == Some(OutputPath(segments[i].filename))
    ensures Reload(ManifestOf(segments)) == segments
  {
  }

  /** A run that skips step 6 over a manifest saved from a positional list
      gets the saved segments back without their paths, and stage 7 writes
      the same list file as the run that saved the manifest. */
  lemma RestoreSavedManifest(segments: seq<AudioSegment>)
    ensures |Restore(ManifestOf(segments))| == |segments|
    ensures forall i :: 0 <= i < |segments| ==> Restore(ManifestOf(segments))[i] == segments[i].(filepath := None)
    ensures Positional(segments) ==> FileList(Restore(ManifestOf(segments))) == FileList(segments)
  {
    var r := Restore(ManifestOf(segments));
    if Positional(segments) {
      assert Positional(r);
      FileListOfPositional(r);
      FileListOfPositional(segments);
      assert FileLines(r) == FileLines(segments);
    }
  }

  /** The generator: `audioSegments` only ever grows by one segment at the
      end of a successful call. */
  class AudioGenerator {
    var audioSegments: seq<AudioSegment>

    constructor ()
      ensures audioSegments == []
    {
      audioSegments := [];
    }

    method GenerateAudioForDialogue(line: SpokenLine, voiceMapping: VoiceMapping, outcome: SpeechOutcome) returns (g: Generated)
      modifies this
      ensures g == DialogueOutcome(|old(audioSegments)|, line, voiceMapping, outcome)
      ensures audioSegments == old(audioSegments) + Added(g)
    {
      g := DialogueOutcome(|audioSegments|, line, voiceMapping, outcome);
      if g.result.Ok? && g.result.value.Some? {
        audioSegments := audioSegments + [g.result.value.value];
      }
    }

    method GenerateAudioForNarration(text: string, voiceMapping: VoiceMapping, outcome: SpeechOutcome) returns (g: Generated)
      modifies this
      ensures g == NarrationOutcome(|old(audioSegments)|, text, voiceMapping, outcome)
      ensures audioSegments == old(audioSegments) + Added(g)
    {
      g := NarrationOutcome(|audioSegments|, text, voiceMapping, outcome);
      NarrationRequestShape(|audioSegments|, text, voiceMapping, outcome);
      if g.result.Ok? {
        audioSegments := audioSegments + [g.result.value.value];
      }
    }

    /** Refuses an empty list; otherwise writes the file list (returned as
        `listFile`) and runs the concatenation tool, whose success is
        `toolSucceeds`. The list itself is not reordered. */
    method CombineAudioSegments(outputFilename: string, toolSucceeds: bool)
      returns (listFile: Option<string>, result: Result<string, Failure>)
      ensures |audioSegments| == 0 ==> listFile == None && result == Err(NothingToCombine)
      ensures |audioSegments| > 0 ==> listFile == Some(FileList(audioSegments))
      ensures |audioSegments| > 0 ==>
        result == (if toolSucceeds then Ok(OutputPath(outputFilename)) else Err(ToolFailed))
    {
      if |audioSegments| == 0 {
        return None, Err(NothingToCombine);
      }
      var sortedSegments := SortBy(audioSegments, IndexKey);
      listFile := Some(Join(FileLines(sortedSegments), "\n"));
      if toolSucceeds {
        result := Ok(OutputPath(outputFilename));
      } else {
        result := Err(ToolFailed);
      }
    }
  }
}
