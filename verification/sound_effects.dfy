/** Sound effects: a keyword scan that proposes effects after segments, the
    merge of those proposals into the segment list, and the append-only
    list of generated effect clips. */
module Effects {
  import opened Wrappers
  import opened Text
  import opened Records

  /** A proposal to play an effect after the segment at `afterSegment`. */
  datatype EffectPrompt = EffectPrompt(afterSegment: int, description: string, duration: string)

  // ----- detection -----

  /** One detection rule: any of its keywords in the lower-cased text fires
      it, and it proposes its description and duration. */
  datatype Rule = Rule(keywords: seq<string>, description: string, duration: string)

  const Door := Rule(["door", "stepped in", "entered"], "door opening or closing", "short")
  const Footsteps := Rule(["walked", "stepped", "paced"], "footsteps on hard floor", "short")
  const Rain := Rule(["rain", "raining", "water dropping"], "gentle rain on window", "medium")
  const Tension := Rule(["murder", "died", "killed"], "ominous tension, dramatic pause", "short")
  const Technology := Rule(["tape reeled", "instrument searched"], "futuristic computer processing sounds", "short")
  const Glass := Rule(["window", "glass", "transparent"], "subtle glass or window sound", "short")

  /** The rules in the order they are tried on each segment. */
  const Rules: seq<Rule> := [Door, Footsteps, Rain, Tension, Technology, Glass]

  /** Some keyword occurs in the text. */
  predicate Mentions(lowered: string, keywords: seq<string>)
    decreases |keywords|
  {
    |keywords| > 0 && (Contains(lowered, keywords[0]) || Mentions(lowered, keywords[1..]))
  }

  /** The prompt a rule proposes after segment `index`, if it fires. */
  function Fire(rule: Rule, index: int, lowered: string): seq<EffectPrompt> {
    if Mentions(lowered, rule.keywords) then [EffectPrompt(index, rule.description, rule.duration)] else []
  }

  /** The proposals for the segment at `index`: each rule tried once, in
      rule order, with no deduplication across rules. */
  function PromptsFor(index: int, text: string): seq<EffectPrompt> {
    var t := Lower(text);
    Fire(Door, index, t) + (Fire(Footsteps, index, t) + (Fire(Rain, index, t)
    + (Fire(Tension, index, t) + (Fire(Technology, index, t) + Fire(Glass, index, t)))))
  }

  /** An independent reading of the rule table: the rules that fire, in
      table order. */
  function FiredRules(rules: seq<Rule>, index: int, lowered: string): seq<EffectPrompt>
    decreases |rules|
  {
    if rules == [] then []
    else Fire(rules[0], index, lowered) + FiredRules(rules[1..], index, lowered)
  }

  /** The proposals for a segment are exactly the firing rules, in the
      order of the table. */
  lemma PromptsForFollowsTable(index: int, text: string)
    ensures PromptsFor(index, text) == FiredRules(Rules, index, Lower(text))
  {
    var t := Lower(text);
    var r5 := [Glass];
    var r4 := [Technology] + r5;
    var r3 := [Tension] + r4;
    var r2 := [Rain] + r3;
    var r1 := [Footsteps] + r2;
    assert Rules == [Door] + r1;
    assert FiredRules(r5, index, t) == Fire(Glass, index, t) + FiredRules([], index, t);
    assert Fire(Glass, index, t) + [] == Fire(Glass, index, t);
    assert FiredRules(r4, index, t) == Fire(Technology, index, t) + FiredRules(r5, index, t);
    assert FiredRules(r3, index, t) == Fire(Tension, index, t) + FiredRules(r4, index, t);
    assert FiredRules(r2, index, t) == Fire(Rain, index, t) + FiredRules(r3, index, t);
    assert FiredRules(r1, index, t) == Fire(Footsteps, index, t) + FiredRules(r2, index, t);
    assert FiredRules(Rules, index, t) == Fire(Door, index, t) + FiredRules(r1, index, t);
  }

  /** Each rule proposes at most one effect, aimed at the segment scanned. */
  lemma {:induction false} FiredRulesShape(rules: seq<Rule>, index: int, lowered: string)
    ensures var prompts := FiredRules(rules, index, lowered);
      |prompts| <= |rules| &&
      forall i :: 0 <= i < |prompts| ==> prompts[i].afterSegment == index
    decreases |rules|
  {
    if rules != [] {
      FiredRulesShape(rules[1..], index, lowered);
      var head := Fire(rules[0], index, lowered);
      var tail := FiredRules(rules[1..], index, lowered);
      var prompts: seq<EffectPrompt> := head + tail;
      forall i | 0 <= i < |prompts|
        ensures prompts[i].afterSegment == index
      {
        if i >= |head| {
          assert prompts[i] == tail[i - |head|];
        }
      }
    }
  }

  /** At most six proposals for one segment, all aimed at it. */
  lemma PromptsForShape(index: int, text: string)
    ensures var prompts := PromptsFor(index, text);
      |prompts| <= 6 &&
      forall i :: 0 <= i < |prompts| ==> prompts[i].afterSegment == index
  {
    PromptsForFollowsTable(index, text);
    FiredRulesShape(Rules, index, Lower(text));
  }

  /** The scan over the whole list: the proposals of each segment, by
      array position, one segment after another. */
  function Analysis(segments: seq<Segment>): seq<EffectPrompt>
    decreases |segments|
  {
    if segments == [] then []
    else
      var n := |segments| - 1;
      Analysis(segments[..n]) + PromptsFor(n, segments[n].text)
  }

  /** Proposals below position n followed by proposals at n: still in
      order, and all below n + 1. */
  lemma AppendAtPosition(before: seq<EffectPrompt>, here: seq<EffectPrompt>, n: nat)
    requires forall i :: 0 <= i < |before| ==> 0 <= before[i].afterSegment < n
    requires forall i, j :: 0 <= i < j < |before| ==> before[i].afterSegment <= before[j].afterSegment
    requires forall i :: 0 <= i < |here| ==> here[i].afterSegment == n
    ensures var prompts := before + here;
      (forall i :: 0 <= i < |prompts| ==> 0 <= prompts[i].afterSegment < n + 1) &&
      (forall i, j :: 0 <= i < j < |prompts| ==> prompts[i].afterSegment <= prompts[j].afterSegment)
  {
    var prompts := before + here;
    forall i | 0 <= i < |prompts|
      ensures 0 <= prompts[i].afterSegment < n + 1
    {
      if i >= |before| {
        assert prompts[i] == here[i - |before|];
      }
    }
    forall i, j | 0 <= i < j < |prompts|
      ensures prompts[i].afterSegment <= prompts[j].afterSegment
    {
      if j >= |before| {
        assert prompts[j] == here[j - |before|];
        if i >= |before| {
          assert prompts[i] == here[i - |before|];
        }
      }
    }
  }

  /** At most six proposals per segment; each names a real position; and
      they come in segment order. */
  lemma {:induction false} AnalysisShape(segments: seq<Segment>)
    ensures var prompts := Analysis(segments);
      |prompts| <= 6 * |segments| &&
      (forall i :: 0 <= i < |prompts| ==> 0 <= prompts[i].afterSegment < |segments|) &&
      (forall i, j :: 0 <= i < j < |prompts| ==> prompts[i].afterSegment <= prompts[j].afterSegment)
    decreases |segments|
  {
    if segments != [] {
      var n := |segments| - 1;
      AnalysisShape(segments[..n]);
      PromptsForShape(n, segments[n].text);
      AppendAtPosition(Analysis(segments[..n]), PromptsFor(n, segments[n].text), n);
    }
  }

  method AnalyzeForSoundEffects(segments: seq<Segment>) returns (effectPrompts: seq<EffectPrompt>)
    ensures effectPrompts == Analysis(segments)
  {
    effectPrompts := [];
    var index := 0;
    while index < |segments|
      invariant 0 <= index <= |segments|
      invariant effectPrompts == Analysis(segments[..index])
    {
      assert segments[..index + 1][..index] == segments[..index];
      effectPrompts := effectPrompts + PromptsFor(index, segments[index].text);
      index := index + 1;
    }
    assert segments[..index] == segments;
  }

  // ----- the enhanced list -----

  /** An entry of the enhanced list: an original segment with its position
      in the input, or an effect (whose original index is -1). */
  datatype EnhancedEntry =
    | Original(segment: Segment, originalIndex: int, enhancedIndex: int)
    | EffectEntry(description: string, duration: string, originalIndex: int, enhancedIndex: int, effectPrompt: EffectPrompt)

  /** `effectPrompts.filter(ep => ep.afterSegment === i)`. */
  function EffectsAfter(prompts: seq<EffectPrompt>, i: int): (r: seq<EffectPrompt>)
    ensures |r| <= |prompts|
    ensures forall k :: 0 <= k < |r| ==> r[k].afterSegment == i
    decreases |prompts|
  {
    if prompts == [] then []
    else (if prompts[0].afterSegment == i then [prompts[0]] else []) + EffectsAfter(prompts[1..], i)
  }

  /** The filter only keeps proposals it was given. */
  lemma {:induction false} EffectsAfterFrom(prompts: seq<EffectPrompt>, i: int)
    ensures forall p :: p in EffectsAfter(prompts, i) ==> p in prompts
    decreases |prompts|
  {
    if prompts != [] {
      EffectsAfterFrom(prompts[1..], i);
    }
  }

  /** The effect entries for `effects`, numbered from `start`. */
  function EffectEntries(effects: seq<EffectPrompt>, start: int): seq<EnhancedEntry>
  {
    seq(|effects|, k requires 0 <= k < |effects| =>
      EffectEntry(effects[k].description, effects[k].duration, -1, start + k, effects[k]))
  }

  /** The effect entries for `effects`, one more than those for its
      prefix of length k. */
  lemma EffectEntriesSnoc(effects: seq<EffectPrompt>, start: int, k: nat)
    requires k < |effects|
    ensures EffectEntries(effects[..k + 1], start)
      == EffectEntries(effects[..k], start)
         + [EffectEntry(effects[k].description, effects[k].duration, -1, start + k, effects[k])]
  {
  }

  /** The merge of the first n segments: each original segment, followed
      directly by the effects proposed after its position, in proposal
      order. */
  function Merged(segments: seq<Segment>, prompts: seq<EffectPrompt>, n: nat): seq<EnhancedEntry>
    requires n <= |segments|
    decreases n
  {
    if n == 0 then []
    else
      var before := Merged(segments, prompts, n - 1);
      before + [Original(segments[n - 1], n - 1, |before|)] + EffectEntries(EffectsAfter(prompts, n - 1), |before| + 1)
  }

  /** The merge of the whole list. */
  function Enhanced(segments: seq<Segment>, prompts: seq<EffectPrompt>): seq<EnhancedEntry> {
    Merged(segments, prompts, |segments|)
  }

  /** The shape of a merge of the first n segments: every entry's enhanced
      index is its position; an original entry carries its input position;
      an effect entry has original index -1 and comes from a proposal aimed
      at one of those n positions. */
  predicate WellShaped(r: seq<EnhancedEntry>, segments: seq<Segment>, n: nat, prompts: seq<EffectPrompt>)
    requires n <= |segments|
  {
    |r| >= n &&
    (forall j :: 0 <= j < |r| ==> r[j].enhancedIndex == j) &&
    (forall j :: 0 <= j < |r| && r[j].Original? ==>
      0 <= r[j].originalIndex < n && r[j].segment == segments[r[j].originalIndex]) &&
    (forall j :: 0 <= j < |r| && r[j].EffectEntry? ==>
      r[j].originalIndex == -1 && r[j].effectPrompt in prompts && 0 <= r[j].effectPrompt.afterSegment < n)
  }

  /** Adding one segment's block keeps the shape. */
  lemma BlockKeepsShape(before: seq<EnhancedEntry>, segments: seq<Segment>, n: nat, prompts: seq<EffectPrompt>, effects: seq<EffectPrompt>)
    requires n < |segments|
    requires WellShaped(before, segments, n, prompts)
    requires forall k :: 0 <= k < |effects| ==> effects[k] in prompts && effects[k].afterSegment == n
    ensures WellShaped(before + [Original(segments[n], n, |before|)] + EffectEntries(effects, |before| + 1),
                       segments, n + 1, prompts)
  {
    var r := before + [Original(segments[n], n, |before|)] + EffectEntries(effects, |before| + 1);
    forall j | 0 <= j < |r|
      ensures r[j].enhancedIndex == j
      ensures r[j].Original? ==> 0 <= r[j].originalIndex < n + 1 && r[j].segment == segments[r[j].originalIndex]
      ensures r[j].EffectEntry? ==>
        r[j].originalIndex == -1 && r[j].effectPrompt in prompts && 0 <= r[j].effectPrompt.afterSegment < n + 1
    {
      if j < |before| {
        assert r[j] == before[j];
      } else if j > |before| {
        assert r[j] == EffectEntries(effects, |before| + 1)[j - |before| - 1];
      }
    }
  }

  lemma {:induction false} MergedShape(segments: seq<Segment>, prompts: seq<EffectPrompt>, n: nat)
    requires n <= |segments|
    ensures WellShaped(Merged(segments, prompts, n), segments, n, prompts)
    decreases n
  {
    if n > 0 {
      var effects := EffectsAfter(prompts, n - 1);
      MergedShape(segments, prompts, n - 1);
      EffectsAfterFrom(prompts, n - 1);
      forall k | 0 <= k < |effects| ensures effects[k] in prompts && effects[k].afterSegment == n - 1 {
        assert effects[k] in effects;
      }
      BlockKeepsShape(Merged(segments, prompts, n - 1), segments, n - 1, prompts, effects);
    }
  }

  /** The merged list has an entry per segment and more; every entry's
      enhanced index is its position; originals carry their input position
      and effects carry -1 and a proposal aimed at a real position. */
  lemma EnhancedShape(segments: seq<Segment>, prompts: seq<EffectPrompt>)
    ensures WellShaped(Enhanced(segments, prompts), segments, |segments|, prompts)
  {
    MergedShape(segments, prompts, |segments|);
  }

  /** The original entries, in order. */
  function OriginalsOf(entries: seq<EnhancedEntry>): seq<Segment>
    decreases |entries|
  {
    if entries == [] then []
    else
      var n := |entries| - 1;
      OriginalsOf(entries[..n]) + (if entries[n].Original? then [entries[n].segment] else [])
  }

  /** The effect prompts of the effect entries, in order. */
  function EffectsOf(entries: seq<EnhancedEntry>): seq<EffectPrompt>
    decreases |entries|
  {
    if entries == [] then []
    else
      var n := |entries| - 1;
      EffectsOf(entries[..n]) + (if entries[n].EffectEntry? then [entries[n].effectPrompt] else [])
  }

  lemma {:induction false} OriginalsOfAppend(a: seq<EnhancedEntry>, b: seq<EnhancedEntry>)
    ensures OriginalsOf(a + b) == OriginalsOf(a) + OriginalsOf(b)
    decreases |b|
  {
    if b == [] {
      assert a + b == a;
    } else {
      var n := |b| - 1;
      assert (a + b)[..|a + b| - 1] == a + b[..n];
      OriginalsOfAppend(a, b[..n]);
    }
  }

  lemma {:induction false} EffectsOfAppend(a: seq<EnhancedEntry>, b: seq<EnhancedEntry>)
    ensures EffectsOf(a + b) == EffectsOf(a) + EffectsOf(b)
    decreases |b|
  {
    if b == [] {
      assert a + b == a;
    } else {
      var n := |b| - 1;
      assert (a + b)[..|a + b| - 1] == a + b[..n];
      EffectsOfAppend(a, b[..n]);
    }
  }

  lemma {:induction false} EffectEntriesContent(effects: seq<EffectPrompt>, start: int)
    ensures OriginalsOf(EffectEntries(effects, start)) == []
    ensures EffectsOf(EffectEntries(effects, start)) == effects
    decreases |effects|
  {
    if effects != [] {
      var n := |effects| - 1;
      assert EffectEntries(effects, start)[..n] == EffectEntries(effects[..n], start);
      EffectEntriesContent(effects[..n], start);
      assert effects == effects[..n] + [effects[n]];
    }
  }

  /** A block contributes its original segment to the originals and its
      effects to the effects. */
  lemma BlockContent(before: seq<EnhancedEntry>, entry: EnhancedEntry, effects: seq<EffectPrompt>, start: int)
    requires entry.Original?
    ensures OriginalsOf(before + [entry] + EffectEntries(effects, start)) == OriginalsOf(before) + [entry.segment]
    ensures EffectsOf(before + [entry] + EffectEntries(effects, start)) == EffectsOf(before) + effects
  {
    var tail := EffectEntries(effects, start);
    OriginalsOfAppend(before + [entry], tail);
    OriginalsOfAppend(before, [entry]);
    EffectsOfAppend(before + [entry], tail);
    EffectsOfAppend(before, [entry]);
    assert [entry][..0] == [];
    EffectEntriesContent(effects, start);
  }

  /** Segment n adds its own entry to the originals and the proposals
      aimed at it to the effects. */
  lemma MergedLast(segments: seq<Segment>, prompts: seq<EffectPrompt>, n: nat)
    requires n < |segments|
    ensures OriginalsOf(Merged(segments, prompts, n + 1)) == OriginalsOf(Merged(segments, prompts, n)) + [segments[n]]
    ensures EffectsOf(Merged(segments, prompts, n + 1)) == EffectsOf(Merged(segments, prompts, n)) + EffectsAfter(prompts, n)
  {
    var before := Merged(segments, prompts, n);
    var entry := Original(segments[n], n, |before|);
    var effects := EffectsAfter(prompts, n);
    assert Merged(segments, prompts, n + 1) == before + [entry] + EffectEntries(effects, |before| + 1);
    BlockContent(before, entry, effects, |before| + 1);
  }

  lemma PrefixSnoc<T>(s: seq<T>, n: nat)
    requires n < |s|
    ensures s[..n + 1] == s[..n] + [s[n]]
  {
  }

  lemma {:induction false} MergedOriginals(segments: seq<Segment>, prompts: seq<EffectPrompt>, n: nat)
    requires n <= |segments|
    ensures OriginalsOf(Merged(segments, prompts, n)) == segments[..n]
    decreases n
  {
    if n > 0 {
      MergedOriginals(segments, prompts, n - 1);
      MergedLast(segments, prompts, n - 1);
      PrefixSnoc(segments, n - 1);
    }
  }

  /** Every original segment appears exactly once, in input order. */
  lemma EnhancedKeepsOriginals(segments: seq<Segment>, prompts: seq<EffectPrompt>)
    ensures OriginalsOf(Enhanced(segments, prompts)) == segments
  {
    MergedOriginals(segments, prompts, |segments|);
    assert segments[..|segments|] == segments;
  }

  /** The effects the merge places after each position, position by
      position. */
  function EffectsByPosition(prompts: seq<EffectPrompt>, n: nat): seq<EffectPrompt>
    decreases n
  {
    if n == 0 then [] else EffectsByPosition(prompts, n - 1) + EffectsAfter(prompts, n - 1)
  }

  lemma {:induction false} MergedEffects(segments: seq<Segment>, prompts: seq<EffectPrompt>, n: nat)
    requires n <= |segments|
    ensures EffectsOf(Merged(segments, prompts, n)) == EffectsByPosition(prompts, n)
    decreases n
  {
    if n > 0 {
      MergedEffects(segments, prompts, n - 1);
      MergedLast(segments, prompts, n - 1);
      assert EffectsByPosition(prompts, n) == EffectsByPosition(prompts, n - 1) + EffectsAfter(prompts, n - 1);
    }
  }

  /** The effect entries are the proposals grouped by position: a proposal
      whose position matches no segment is dropped. */
  lemma EnhancedEffects(segments: seq<Segment>, prompts: seq<EffectPrompt>)
    ensures EffectsOf(Enhanced(segments, prompts)) == EffectsByPosition(prompts, |segments|)
  {
    MergedEffects(segments, prompts, |segments|);
  }

  /** One more segment only appends to the merge. */
  lemma MergedExtends(segments: seq<Segment>, prompts: seq<EffectPrompt>, m: nat)
    requires 0 < m <= |segments|
    ensures |Merged(segments, prompts, m - 1)| < |Merged(segments, prompts, m)|
    ensures Merged(segments, prompts, m)[..|Merged(segments, prompts, m - 1)|] == Merged(segments, prompts, m - 1)
  {
    var b := Merged(segments, prompts, m - 1);
    var tail := [Original(segments[m - 1], m - 1, |b|)] + EffectEntries(EffectsAfter(prompts, m - 1), |b| + 1);
    assert Merged(segments, prompts, m) == b + tail;
    assert (b + tail)[..|b|] == b;
  }

  /** Merging more segments only extends the list. */
  lemma {:induction false} MergedPrefix(segments: seq<Segment>, prompts: seq<EffectPrompt>, n: nat, m: nat)
    requires n <= m <= |segments|
    ensures |Merged(segments, prompts, n)| <= |Merged(segments, prompts, m)|
    ensures Merged(segments, prompts, m)[..|Merged(segments, prompts, n)|] == Merged(segments, prompts, n)
    decreases m - n
  {
    if n < m {
      MergedPrefix(segments, prompts, n, m - 1);
      MergedExtends(segments, prompts, m);
      var a := Merged(segments, prompts, n);
      var b := Merged(segments, prompts, m - 1);
      var c := Merged(segments, prompts, m);
      assert c[..|a|] == c[..|b|][..|a|];
    }
  }

  /** In the whole merged list, the entries of the segments before i come
      first, then segment i's original entry, directly followed by the
      effects proposed after position i, in proposal order; the next
      segment's entry comes only after them. */
  lemma EnhancedBlock(segments: seq<Segment>, prompts: seq<EffectPrompt>, i: nat)
    requires i < |segments|
    ensures var before := Merged(segments, prompts, i);
      var block := [Original(segments[i], i, |before|)] + EffectEntries(EffectsAfter(prompts, i), |before| + 1);
      |before| + |block| <= |Enhanced(segments, prompts)| &&
      Enhanced(segments, prompts)[..|before| + |block|] == before + block
  {
    var before := Merged(segments, prompts, i);
    var block := [Original(segments[i], i, |before|)] + EffectEntries(EffectsAfter(prompts, i), |before| + 1);
    assert Merged(segments, prompts, i + 1) == before + block;
    MergedPrefix(segments, prompts, i + 1, |segments|);
  }

  lemma {:induction false} EffectsAfterAppend(a: seq<EffectPrompt>, b: seq<EffectPrompt>, i: int)
    ensures EffectsAfter(a + b, i) == EffectsAfter(a, i) + EffectsAfter(b, i)
    decreases |a|
  {
    if a == [] {
      assert a + b == b;
    } else {
      assert (a + b)[1..] == a[1..] + b;
      EffectsAfterAppend(a[1..], b, i);
    }
  }

  lemma {:induction false} EffectsAfterNone(prompts: seq<EffectPrompt>, i: int)
    requires forall k :: 0 <= k < |prompts| ==> prompts[k].afterSegment != i
    ensures EffectsAfter(prompts, i) == []
    decreases |prompts|
  {
    if prompts != [] {
      assert prompts[0].afterSegment != i;
      EffectsAfterNone(prompts[1..], i);
    }
  }

  lemma {:induction false} EffectsAfterAll(prompts: seq<EffectPrompt>, i: int)
    requires forall k :: 0 <= k < |prompts| ==> prompts[k].afterSegment == i
    ensures EffectsAfter(prompts, i) == prompts
    decreases |prompts|
  {
    if prompts != [] {
      assert prompts[0].afterSegment == i;
      EffectsAfterAll(prompts[1..], i);
      assert prompts == [prompts[0]] + prompts[1..];
    }
  }

  /** Grouping only looks at the positions below n. */
  lemma {:induction false} EffectsByPositionIgnoresLater(prompts: seq<EffectPrompt>, later: seq<EffectPrompt>, n: nat)
    requires forall k :: 0 <= k < |later| ==> later[k].afterSegment >= n
    ensures EffectsByPosition(prompts + later, n) == EffectsByPosition(prompts, n)
    decreases n
  {
    if n > 0 {
      EffectsByPositionIgnoresLater(prompts, later, n - 1);
      EffectsAfterAppend(prompts, later, n - 1);
      EffectsAfterNone(later, n - 1);
      var all := prompts + later;
      var here := EffectsAfter(prompts, n - 1);
      assert EffectsAfter(all, n - 1) == here + [];
      assert EffectsByPosition(all, n) == EffectsByPosition(all, n - 1) + EffectsAfter(all, n - 1);
      assert here + [] == here;
    }
  }

  /** Grouping a list already grouped below n, extended by proposals at n,
      gives the extended list. */
  lemma GroupedAppend(before: seq<EffectPrompt>, here: seq<EffectPrompt>, n: nat)
    requires EffectsByPosition(before, n) == before
    requires forall k :: 0 <= k < |before| ==> before[k].afterSegment < n
    requires forall k :: 0 <= k < |here| ==> here[k].afterSegment == n
    ensures EffectsByPosition(before + here, n + 1) == before + here
  {
    EffectsByPositionIgnoresLater(before, here, n);
    EffectsAfterAppend(before, here, n);
    EffectsAfterNone(before, n);
    EffectsAfterAll(here, n);
    assert EffectsByPosition(before + here, n + 1) == EffectsByPosition(before + here, n) + EffectsAfter(before + here, n);
    assert [] + here == here;
  }

  /** Merging the scan's own proposals drops none of them and keeps their
      order: the effect entries are exactly the proposals. */
  lemma {:induction false} AnalysisSurvivesMerge(segments: seq<Segment>)
    ensures EffectsOf(Enhanced(segments, Analysis(segments))) == Analysis(segments)
  {
    EnhancedEffects(segments, Analysis(segments));
    AnalysisGroups(segments);
  }

  lemma {:induction false} AnalysisGroups(segments: seq<Segment>)
    ensures EffectsByPosition(Analysis(segments), |segments|) == Analysis(segments)
    decreases |segments|
  {
    if segments != [] {
      var n := |segments| - 1;
      AnalysisGroups(segments[..n]);
      AnalysisShape(segments[..n]);
      PromptsForShape(n, segments[n].text);
      GroupedAppend(Analysis(segments[..n]), PromptsFor(n, segments[n].text), n);
    }
  }

  /** The inner loop: each effect placed after a segment, as an entry
      numbered on from the list's length. */
  method AppendEffects(entries: seq<EnhancedEntry>, effects: seq<EffectPrompt>)
    returns (extended: seq<EnhancedEntry>)
    ensures extended == entries + EffectEntries(effects, |entries|)
  {
    extended := entries;
    var k := 0;
    while k < |effects|
      invariant 0 <= k <= |effects|
      invariant extended == entries + EffectEntries(effects[..k], |entries|)
    {
      var effectPrompt := effects[k];
      EffectEntriesSnoc(effects, |entries|, k);
      extended := extended + [EffectEntry(effectPrompt.description, effectPrompt.duration, -1, |extended|, effectPrompt)];
      k := k + 1;
    }
    assert effects[..k] == effects;
  }

  /** The merge built with `push`, one original and then its effects. */
  method CreateEnhancedSegmentsList(originalSegments: seq<Segment>, effectPrompts: seq<EffectPrompt>)
    returns (enhancedSegments: seq<EnhancedEntry>)
    ensures enhancedSegments == Enhanced(originalSegments, effectPrompts)
  {
    enhancedSegments := [];
    var index := 0;
    while index < |originalSegments|
      invariant 0 <= index <= |originalSegments|
      invariant enhancedSegments == Merged(originalSegments, effectPrompts, index)
    {
      var withOriginal := enhancedSegments + [Original(originalSegments[index], index, |enhancedSegments|)];
      var effectsForThisSegment := EffectsAfter(effectPrompts, index);
      assert Merged(originalSegments, effectPrompts, index + 1)
        == withOriginal + EffectEntries(effectsForThisSegment, |enhancedSegments| + 1);
      enhancedSegments := AppendEffects(withOriginal, effectsForThisSegment);
      index := index + 1;
    }
  }

  // ----- generated effects -----

  datatype EffectKind = SoundEffect | Ambient

  /** One entry of `effectSegments`; only a sound effect records its
      duration. */
  datatype EffectRecord = EffectRecord(index: int, kind: EffectKind, description: string,
                                       duration: Option<string>, filename: string, filepath: string)

  /** What is sent to the speech service for an effect. */
  datatype EffectRequest = EffectRequest(voiceId: string, text: string)

  /** The service's answer: a clip with its clock reading, or a failure. */
  datatype ClipOutcome = Clip(timestamp: nat) | NoClip

  function DurationPhrase(duration: string): string {
    if duration == "short" then "2-3 seconds"
    else if duration == "medium" then "4-5 seconds"
    else if duration == "long" then "6-8 seconds"
    else "undefined"
  }

  function EffectFilename(prefix: string, index: nat, description: string, timestamp: nat): string {
    prefix + "_" + NatToString(index) + "_" + Sanitize(description) + "_" + NatToString(timestamp) + ".mp3"
  }

  /** The sanitised description sits in the file name with its length
      kept and only letters, digits and underscores in it. */
  lemma EffectFilenameShape(prefix: string, index: nat, description: string, timestamp: nat)
    ensures var f := EffectFilename(prefix, index, description, timestamp);
      var start := |prefix| + 1 + |NatToString(index)| + 1;
      f[start..start + |description|] == Sanitize(description) &&
      forall i :: start <= i < start + |description| ==> IsAsciiAlnum(f[i]) || f[i] == '_'
  {
    var f := EffectFilename(prefix, index, description, timestamp);
    var start := |prefix| + 1 + |NatToString(index)| + 1;
    var head := prefix + "_" + NatToString(index) + "_";
    assert f == head + Sanitize(description) + ("_" + NatToString(timestamp) + ".mp3");
    assert |head| == start;
  }

  const EffectVoiceId := "pNInz6obpgDQGcFmaJgB"
  const AmbientVoiceId := "EXAVITQu4vr4xnSDxMaL"

  datatype EffectsManifest = EffectsManifest(totalEffects: nat, effects: seq<EffectRecord>)

  /** `saveEffectsManifest`'s document: the whole list and its length. */
  function EffectsManifestOf(records: seq<EffectRecord>): (m: EffectsManifest)
    ensures m.totalEffects == |m.effects| && m.effects == records
  {
    EffectsManifest(|records|, records)
  }

  /** Every record's index is its position in the list. */
  predicate Positional(records: seq<EffectRecord>) {
    forall i :: 0 <= i < |records| ==> records[i].index == i
  }

  /** The effect generator: `effectSegments` only ever grows by one record
      at the end of a successful call; a failure is swallowed. */
  class SoundEffectsGenerator {
    var effectSegments: seq<EffectRecord>

    constructor ()
      ensures effectSegments == []
    {
      effectSegments := [];
    }

    method GenerateSoundEffect(description: string, duration: string, outcome: ClipOutcome)
      returns (request: EffectRequest, effectSegment: Option<EffectRecord>)
      modifies this
      ensures request == EffectRequest(EffectVoiceId,
        "Generate a realistic " + description + " sound effect lasting approximately "
        + DurationPhrase(duration) + ". Make it subtle and appropriate for an audiobook.")
      ensures outcome.NoClip? ==> effectSegment == None && effectSegments == old(effectSegments)
      ensures outcome.Clip? ==>
        var index := |old(effectSegments)|;
        var filename := EffectFilename("effect", index, description, outcome.timestamp);
        effectSegment == Some(EffectRecord(index, SoundEffect, description, Some(duration), filename, "output/" + filename)) &&
        effectSegments == old(effectSegments) + [effectSegment.value]
    {
      request := EffectRequest(EffectVoiceId,
        "Generate a realistic " + description + " sound effect lasting approximately "
        + DurationPhrase(duration) + ". Make it subtle and appropriate for an audiobook.");
      match outcome {
        case NoClip =>
          effectSegment := None;
        case Clip(timestamp) =>
          var index := |effectSegments|;
          var filename := EffectFilename("effect", index, description, timestamp);
          var record := EffectRecord(index, SoundEffect, description, Some(duration), filename, "output/" + filename);
          effectSegments := effectSegments + [record];
          effectSegment := Some(record);
      }
    }

    method GenerateAmbientEffect(description: string, outcome: ClipOutcome)
      returns (request: EffectRequest, effectSegment: Option<EffectRecord>)
      modifies this
      ensures request == EffectRequest(AmbientVoiceId, "*" + description + "*")
      ensures outcome.NoClip? ==> effectSegment == None && effectSegments == old(effectSegments)
      ensures outcome.Clip? ==>
        var index := |old(effectSegments)|;
        var filename := EffectFilename("ambient", index, description, outcome.timestamp);
        effectSegment == Some(EffectRecord(index, Ambient, description, None, filename, "output/" + filename)) &&
        effectSegments == old(effectSegments) + [effectSegment.value]
    {
      request := EffectRequest(AmbientVoiceId, "*" + description + "*");
      match outcome {
        case NoClip =>
          effectSegment := None;
        case Clip(timestamp) =>
          var index := |effectSegments|;
          var filename := EffectFilename("ambient", index, description, timestamp);
          var record := EffectRecord(index, Ambient, description, None, filename, "output/" + filename);
          effectSegments := effectSegments + [record];
          effectSegment := Some(record);
      }
    }
  }

  /** Appending at the old length keeps the list positional. */
  lemma AppendKeepsPositional(records: seq<EffectRecord>, r: EffectRecord)
    requires Positional(records) && r.index == |records|
    ensures Positional(records + [r])
  {
  }
}
