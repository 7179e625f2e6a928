/** The voice table: choosing a synthesis voice for a character, building
    the dictionary of assignments with its aliases and the narrator, and
    bending a voice's settings to fit an emotion. */
module Voices {
  import opened Wrappers
  import opened Text
  import opened Records

  datatype Voice = Voice(id: string, name: string)

  const MaleDeep := Voice("pNInz6obpgDQGcFmaJgB", "Adam")
  const MaleMiddle := Voice("VR6AewLTigWG4xSOukaG", "Arnold")
  const MaleYoung := Voice("ErXwobaYiN019PkySvjV", "Antoni")
  const FemaleMature := Voice("MF3mGyEYCl7XYWbV9V6O", "Elli")
  const FemaleMiddle := Voice("XrExE9yKIg1WjnnlVkGX", "Matilda")
  const FemaleYoung := Voice("21m00Tcm4TlvDq8ikWAM", "Rachel")
  const NarratorVoice := Voice("EXAVITQu4vr4xnSDxMaL", "Bella")
  const RoboticVoice := Voice("nPczCjzI2devNBz1zQrb", "Brian")

  const FemaleVoices := {FemaleYoung, FemaleMature, FemaleMiddle}
  const MaleVoices := {MaleYoung, MaleDeep, MaleMiddle}

  /** Settings in hundredths: stability, similarity boost, style, speaker boost. */
  const ProtagonistSettings := VoiceSettings(65, 75, 60, true)
  const RoboticSettings := VoiceSettings(95, 85, 20, false)
  const StandardSettings := VoiceSettings(75, 75, 50, true)

  function Assign(v: Voice, settings: VoiceSettings): VoiceAssignment {
    VoiceAssignment(v.id, v.name, settings)
  }

  const NarratorAssignment := Assign(NarratorVoice, StandardSettings)

  // ----- choosing a voice -----

  predicate IsProtagonist(name: string) {
    Contains(Lower(name), "elijah") || Contains(Lower(name), "baley")
  }

  predicate IsRobot(name: string, description: string, role: string) {
    Contains(Lower(name), "daneel") || Contains(Lower(name), "r.")
    || Contains(Lower(description), "robot") || Contains(Lower(role), "robot")
  }

  predicate SoundsYoung(description: string) {
    Contains(Lower(description), "young") || Contains(Lower(description), "youth")
  }

  predicate SoundsMature(description: string) {
    Contains(Lower(description), "old") || Contains(Lower(description), "mature")
    || Contains(Lower(description), "senior")
  }

  predicate SoundsFemale(description: string) {
    Contains(Lower(description), "woman") || Contains(Lower(description), "female")
    || Contains(Lower(description), "she") || Contains(Lower(description), "her")
  }

  /** The gender-by-age heuristic for everybody else. */
  function BankVoice(description: string): (v: Voice)
    ensures v in (if SoundsFemale(description) then FemaleVoices else MaleVoices)
    ensures SoundsYoung(description) ==> v == (if SoundsFemale(description) then FemaleYoung else MaleYoung)
    ensures !SoundsYoung(description) && SoundsMature(description) ==>
      v == (if SoundsFemale(description) then FemaleMature else MaleDeep)
    ensures !SoundsYoung(description) && !SoundsMature(description) ==>
      v == (if SoundsFemale(description) then FemaleMiddle else MaleMiddle)
  {
    if SoundsFemale(description) then
      if SoundsYoung(description) then FemaleYoung
      else if SoundsMature(description) then FemaleMature
      else FemaleMiddle
    else
      if SoundsYoung(description) then MaleYoung
      else if SoundsMature(description) then MaleDeep
      else MaleMiddle
  }

  /** The rules in their fixed order: the protagonist, then robots, then the
      heuristic bank with standard settings. The personality plays no part. */
  function SelectVoiceForCharacter(name: string, description: string, personality: string, role: string): (a: VoiceAssignment)
    ensures IsProtagonist(name) ==> a == Assign(MaleMiddle, ProtagonistSettings)
    ensures !IsProtagonist(name) && IsRobot(name, description, role) ==> a == Assign(RoboticVoice, RoboticSettings)
    ensures !IsProtagonist(name) && !IsRobot(name, description, role) ==>
      a.voiceSettings == StandardSettings &&
      a == Assign(BankVoice(description), StandardSettings)
  {
    if IsProtagonist(name) then Assign(MaleMiddle, ProtagonistSettings)
    else if IsRobot(name, description, role) then Assign(RoboticVoice, RoboticSettings)
    else Assign(BankVoice(description), StandardSettings)
  }

  /** A female voice is chosen exactly when neither special rule applies and
      the description carries a female signal. */
  lemma FemaleVoiceExactlyForFemaleSignal(name: string, description: string, personality: string, role: string)
    ensures var a := SelectVoiceForCharacter(name, description, personality, role);
      (exists v :: v in FemaleVoices && a.voiceId == v.id)
      <==> !IsProtagonist(name) && !IsRobot(name, description, role) && SoundsFemale(description)
  {
    var a := SelectVoiceForCharacter(name, description, personality, role);
    if !IsProtagonist(name) && !IsRobot(name, description, role) && SoundsFemale(description) {
      assert BankVoice(description) in FemaleVoices;
    }
  }

  // ----- the dictionary of assignments -----

  /** The fixed aliases a character's name brings with it (case-sensitive
      substring tests), in the order they are written. */
  function Aliases(name: string): seq<string> {
    (if Contains(name, "Baley") then ["Baley", "Lije"] else [])
    + (if Contains(name, "Enderby") then ["Enderby", "Commissioner"] else [])
    + (if Contains(name, "Daneel") then ["Daneel", "R. Daneel Olivaw"] else [])
    + (if Contains(name, "Simpson") then ["Simpson"] else [])
    + (if Contains(name, "R. Sammy") then ["R. Sammy"] else [])
  }

  /** Every key under which one character's assignment is stored. */
  function Keys(name: string): seq<string> {
    [name] + Aliases(name)
  }

  /** Writes a to every key of keys, one after another. */
  function Put(m: map<string, VoiceAssignment>, keys: seq<string>, a: VoiceAssignment): (r: map<string, VoiceAssignment>)
    ensures forall k :: k in r <==> k in m || k in keys
    ensures forall k :: k in keys ==> r[k] == a
    ensures forall k :: k in m && k !in keys ==> r[k] == m[k]
    decreases |keys|
  {
    if keys == [] then m else Put(m[keys[0] := a], keys[1..], a)
  }

  /** The writes for one character: its own name, then each alias its name
      triggers, all to the same assignment. */
  function BindVoice(m: map<string, VoiceAssignment>, name: string, a: VoiceAssignment): map<string, VoiceAssignment> {
    Put(m, Keys(name), a)
  }

  function SelectFor(entry: (string, CharacterInfo)): VoiceAssignment {
    SelectVoiceForCharacter(entry.0, entry.1.description, entry.1.personality, entry.1.role)
  }

  /** The dictionary after binding the character entries one after another,
      starting from m. */
  function AssignFrom(m: map<string, VoiceAssignment>, characters: seq<(string, CharacterInfo)>): map<string, VoiceAssignment>
    decreases |characters|
  {
    if characters == [] then m
    else
      var n := |characters| - 1;
      BindVoice(AssignFrom(m, characters[..n]), characters[n].0, SelectFor(characters[n]))
  }

  /** Some character of the list binds k. */
  predicate BoundBy(characters: seq<(string, CharacterInfo)>, k: string)
    decreases |characters|
  {
    characters != [] &&
    (BoundBy(characters[..|characters| - 1], k) || k in Keys(characters[|characters| - 1].0))
  }

  /** A character that binds k makes the list bind it. */
  lemma {:induction false} BoundByWitness(characters: seq<(string, CharacterInfo)>, k: string, i: nat)
    requires i < |characters| && k in Keys(characters[i].0)
    ensures BoundBy(characters, k)
    decreases |characters|
  {
    var n := |characters| - 1;
    if i < n {
      var prefix := characters[..n];
      assert prefix[i] == characters[i];
      BoundByWitness(prefix, k, i);
    }
  }

  /** A list that binds k has a character that binds it. */
  lemma {:induction false} BoundByIndex(characters: seq<(string, CharacterInfo)>, k: string) returns (i: nat)
    requires BoundBy(characters, k)
    ensures i < |characters| && k in Keys(characters[i].0)
    decreases |characters|
  {
    var n := |characters| - 1;
    var prefix := characters[..n];
    if BoundBy(prefix, k) {
      i := BoundByIndex(prefix, k);
      assert prefix[i] == characters[i];
    } else {
      i := n;
    }
  }

  lemma BoundByMeans(characters: seq<(string, CharacterInfo)>, k: string)
    ensures BoundBy(characters, k) <==> exists i :: 0 <= i < |characters| && k in Keys(characters[i].0)
  {
    if BoundBy(characters, k) {
      var i := BoundByIndex(characters, k);
    }
    if exists i :: 0 <= i < |characters| && k in Keys(characters[i].0) {
      var i :| 0 <= i < |characters| && k in Keys(characters[i].0);
      BoundByWitness(characters, k, i);
    }
  }

  lemma {:induction false} AssignFromBound(m: map<string, VoiceAssignment>, characters: seq<(string, CharacterInfo)>, k: string)
    ensures k in AssignFrom(m, characters) <==> k in m || BoundBy(characters, k)
    decreases |characters|
  {
    if characters != [] {
      AssignFromBound(m, characters[..|characters| - 1], k);
      DomainStep(m, characters, k);
    }
  }

  /** A key is in the dictionary exactly when it was there before or some
      character binds it. */
  lemma AssignFromKeys(m: map<string, VoiceAssignment>, characters: seq<(string, CharacterInfo)>, k: string)
    ensures k in AssignFrom(m, characters) <==>
      k in m || exists i :: 0 <= i < |characters| && k in Keys(characters[i].0)
  {
    AssignFromBound(m, characters, k);
    BoundByMeans(characters, k);
  }

  /** The last character adds exactly its own keys to the dictionary. */
  lemma DomainStep(m: map<string, VoiceAssignment>, characters: seq<(string, CharacterInfo)>, k: string)
    requires |characters| > 0
    ensures k in AssignFrom(m, characters) <==>
      k in AssignFrom(m, characters[..|characters| - 1]) || k in Keys(characters[|characters| - 1].0)
  {
  }

  /** The last character that binds a key decides its assignment: later
      characters overwrite earlier ones. */
  lemma {:induction false} AssignFromLastWins(m: map<string, VoiceAssignment>, characters: seq<(string, CharacterInfo)>, k: string, i: nat)
    requires i < |characters| && k in Keys(characters[i].0)
    requires forall j :: i < j < |characters| ==> k !in Keys(characters[j].0)
    ensures k in AssignFrom(m, characters) && AssignFrom(m, characters)[k] == SelectFor(characters[i])
    decreases |characters|
  {
    var n := |characters| - 1;
    if i < n {
      var prefix := characters[..n];
      assert prefix[i] == characters[i];
      forall j | i < j < n ensures k !in Keys(prefix[j].0) {
        assert prefix[j] == characters[j];
      }
      AssignFromLastWins(m, prefix, k, i);
      LaterBindingKeeps(m, characters, k, SelectFor(characters[i]));
    } else {
      LastBindingWrites(m, characters, k);
    }
  }

  /** The last character's writes leave a key it does not bind alone. */
  lemma LaterBindingKeeps(m: map<string, VoiceAssignment>, characters: seq<(string, CharacterInfo)>, k: string, v: VoiceAssignment)
    requires |characters| > 0 && k !in Keys(characters[|characters| - 1].0)
    requires var prev := AssignFrom(m, characters[..|characters| - 1]); k in prev && prev[k] == v
    ensures k in AssignFrom(m, characters) && AssignFrom(m, characters)[k] == v
  {
    var n := |characters| - 1;
    PutReads(AssignFrom(m, characters[..n]), Keys(characters[n].0), SelectFor(characters[n]), k, v);
  }

  /** A key the last character binds holds that character's assignment. */
  lemma LastBindingWrites(m: map<string, VoiceAssignment>, characters: seq<(string, CharacterInfo)>, k: string)
    requires |characters| > 0 && k in Keys(characters[|characters| - 1].0)
    ensures k in AssignFrom(m, characters) && AssignFrom(m, characters)[k] == SelectFor(characters[|characters| - 1])
  {
    var n := |characters| - 1;
    var a := SelectFor(characters[n]);
    PutReads(AssignFrom(m, characters[..n]), Keys(characters[n].0), a, k, a);
  }

  /** What a key holds after the writes of `Put`: the written value for a
      written key, the old one otherwise. */
  lemma PutReads(prev: map<string, VoiceAssignment>, keys: seq<string>, a: VoiceAssignment, k: string, v: VoiceAssignment)
    requires (k in keys && v == a) || (k !in keys && k in prev && prev[k] == v)
    ensures k in Put(prev, keys, a) && Put(prev, keys, a)[k] == v
  {
  }

  /** A key no character binds keeps the value it had before. */
  lemma {:induction false} AssignFromKeepsUnbound(m: map<string, VoiceAssignment>, characters: seq<(string, CharacterInfo)>, k: string)
    requires k in m
    requires forall j :: 0 <= j < |characters| ==> k !in Keys(characters[j].0)
    ensures k in AssignFrom(m, characters) && AssignFrom(m, characters)[k] == m[k]
    decreases |characters|
  {
    if characters != [] {
      var n := |characters| - 1;
      forall j | 0 <= j < n ensures k !in Keys(characters[..n][j].0) {
        assert characters[..n][j] == characters[j];
      }
      AssignFromKeepsUnbound(m, characters[..n], k);
    }
  }

  /** The object that remembers every binding it has made across calls. */
  class VoiceMapper {
    var characterVoiceMap: map<string, VoiceAssignment>

    constructor ()
      ensures characterVoiceMap == map[]
    {
      characterVoiceMap := map[];
    }

    /** Binds every character (and its aliases) to its chosen voice, in
        entry order, in a fresh dictionary and in `characterVoiceMap`; the
        returned dictionary also gets the narrator, which overwrites any
        character of that name. */
    method AssignVoicesToCharacters(characters: seq<(string, CharacterInfo)>) returns (voiceAssignments: map<string, VoiceAssignment>)
      modifies this
      ensures voiceAssignments == AssignFrom(map[], characters)["Narrator" := NarratorAssignment]
      ensures characterVoiceMap == AssignFrom(old(characterVoiceMap), characters)
    {
      voiceAssignments := map[];
      var i := 0;
      while i < |characters|
        invariant 0 <= i <= |characters|
        invariant voiceAssignments == AssignFrom(map[], characters[..i])
        invariant characterVoiceMap == AssignFrom(old(characterVoiceMap), characters[..i])
      {
        var (characterName, characterInfo) := characters[i];
        var assignment := SelectVoiceForCharacter(characterName, characterInfo.description,
                                                  characterInfo.personality, characterInfo.role);
        assert characters[..i + 1][..i] == characters[..i];
        voiceAssignments := BindVoice(voiceAssignments, characterName, assignment);
        characterVoiceMap := BindVoice(characterVoiceMap, characterName, assignment);
        i := i + 1;
      }
      assert characters[..i] == characters;
      voiceAssignments := voiceAssignments["Narrator" := NarratorAssignment];
    }
  }

  /** Every character name is a key of the dictionary the characters build. */
  lemma EveryCharacterIsBound(characters: seq<(string, CharacterInfo)>, i: nat)
    requires i < |characters|
    ensures characters[i].0 in AssignFrom(map[], characters)
  {
    var name := characters[i].0;
    assert name in Keys(characters[i].0);
    AssignFromKeys(map[], characters, name);
  }

  // ----- emotion -----

  function Max(a: int, b: int): int {
    if a >= b then a else b
  }

  function Min(a: int, b: int): int {
    if a <= b then a else b
  }

  const AdjustedEmotions := {"angry", "sad", "excited", "anxious", "calm"}

  /** A copy of the settings with stability and style moved for the
      emotion and then for its intensity, each move clamped on one side. */
  function AdjustVoiceSettingsForEmotion(base: VoiceSettings, emotion: Emotion): VoiceSettings
  {
    var s := base;
    var s :=
      if emotion.primaryEmotion == "angry" then
        s.(stability := Max(30, s.stability - 20), style := Min(100, s.style + 30))
      else if emotion.primaryEmotion == "sad" then
        s.(stability := Max(40, s.stability - 10), style := Max(20, s.style - 20))
      else if emotion.primaryEmotion == "excited" then
        s.(stability := Max(30, s.stability - 20), style := Min(100, s.style + 20))
      else if emotion.primaryEmotion == "anxious" then
        s.(stability := Max(35, s.stability - 15))
      else if emotion.primaryEmotion == "calm" then
        s.(stability := Min(95, s.stability + 10), style := Max(30, s.style - 10))
      else s;
    if emotion.intensity == "high" then s.(style := Min(100, s.style + 10))
    else if emotion.intensity == "low" then s.(style := Max(20, s.style - 10))
    else s
  }

  /** What each emotion does to a copy of the settings: similarity and
      speaker boost never change; the tense emotions lower stability to no
      less than their floor, calm raises it to no more than 95; high
      intensity keeps style at most 100, low at least 20; any other emotion
      at any other intensity leaves the settings as they are. */
  lemma AdjustFollowsEmotion(base: VoiceSettings, emotion: Emotion)
    ensures var r := AdjustVoiceSettingsForEmotion(base, emotion);
      r.similarityBoost == base.similarityBoost && r.useSpeakerBoost == base.useSpeakerBoost &&
      (emotion.primaryEmotion in {"angry", "excited"} ==> 30 <= r.stability <= Max(30, base.stability)) &&
      (emotion.primaryEmotion == "sad" ==> 40 <= r.stability <= Max(40, base.stability)) &&
      (emotion.primaryEmotion == "anxious" ==> 35 <= r.stability <= Max(35, base.stability)) &&
      (emotion.primaryEmotion == "calm" ==> Min(95, base.stability) <= r.stability <= 95) &&
      (emotion.primaryEmotion !in AdjustedEmotions ==> r.stability == base.stability) &&
      (emotion.intensity == "high" ==> r.style <= 100) &&
      (emotion.intensity == "low" ==> r.style >= 20) &&
      (emotion.primaryEmotion !in AdjustedEmotions && emotion.intensity != "high" && emotion.intensity != "low" ==>
        r == base)
  {
  }

  /** Settings whose stability lies in [30, 95] and whose style lies in
      [0, 100] stay there under every emotion. */
  lemma AdjustStaysInRange(base: VoiceSettings, emotion: Emotion)
    requires 30 <= base.stability <= 95 && 0 <= base.style <= 100
    ensures var r := AdjustVoiceSettingsForEmotion(base, emotion);
      30 <= r.stability <= 95 && 0 <= r.style <= 100
  {
  }

  /** Every assignment the table hands out, the narrator's included, keeps
      stability within [30, 95] and style within [0, 100] after any
      emotion. */
  lemma TableSettingsStayInRange(name: string, description: string, personality: string, role: string, emotion: Emotion)
    ensures var r := AdjustVoiceSettingsForEmotion(SelectVoiceForCharacter(name, description, personality, role).voiceSettings, emotion);
      30 <= r.stability <= 95 && 0 <= r.style <= 100
    ensures var r := AdjustVoiceSettingsForEmotion(NarratorAssignment.voiceSettings, emotion);
      30 <= r.stability <= 95 && 0 <= r.style <= 100
  {
    AdjustStaysInRange(SelectVoiceForCharacter(name, description, personality, role).voiceSettings, emotion);
    AdjustStaysInRange(NarratorAssignment.voiceSettings, emotion);
  }
}
