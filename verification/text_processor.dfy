/** The three requests to the language model. The model itself is an
    oracle: each request's reply is given, already through `JSON.parse`. */
module TextProcessing {
  import opened Wrappers
  import opened Records

  /** Segmentation and character extraction: what `JSON.parse` handed
      back (Some document, or None for a value of the wrong shape, which is
      returned unchecked), or the failure rethrown (a failed call, or a reply
      that does not parse). */
  function ParseReply<T>(reply: Reply<T>): (r: Result<Option<T>, Failure>)
    ensures r.Err? <==> reply.CallFailed? || reply.Unparsable?
    ensures reply.CallFailed? ==> r == Err(ServiceError)
    ensures reply.Unparsable? ==> r == Err(MalformedJson)
    ensures r.Ok? ==> (r.value.Some? <==> reply.Replied?)
    ensures reply.Replied? ==> r == Ok(Some(reply.document))
  {
    match reply
    case CallFailed => Err(ServiceError)
    case Unparsable => Err(MalformedJson)
    case Misshapen => Ok(None)
    case Replied(document) => Ok(Some(document))
  }

  /** The emotion the analysis settles on for the i-th dialogue: the i-th
      reply when there is one that parsed, otherwise the neutral record. */
  function EmotionReply(replies: seq<Option<Emotion>>, i: nat): Emotion {
    if i < |replies| && replies[i].Some? then replies[i].value else Neutral
  }

  function WithEmotion(d: Dialogue, e: Emotion): AnalyzedDialogue {
    AnalyzedDialogue(d.speaker, d.text, d.context, e)
  }

  /** The records the analysis returns: each dialogue with the emotion
      settled on for it, in input order. */
  function EmotionsFor(dialogues: seq<Dialogue>, replies: seq<Option<Emotion>>): seq<AnalyzedDialogue> {
    seq(|dialogues|, i requires 0 <= i < |dialogues| => WithEmotion(dialogues[i], EmotionReply(replies, i)))
  }

  /** One request per dialogue, awaited in turn: replies[i] answers the
      i-th request (None when the call or the parse failed, or when no
      reply is left). Every dialogue comes back once, in input order, with
      its own fields and an emotion; a failure never stops the loop. The
      requests made are the dialogues themselves, in order. */
  method AnalyzeEmotions(dialogues: seq<Dialogue>, replies: seq<Option<Emotion>>)
    returns (analyzedDialogues: seq<AnalyzedDialogue>, requests: seq<Dialogue>)
    ensures requests == dialogues
    ensures analyzedDialogues == EmotionsFor(dialogues, replies)
    ensures |analyzedDialogues| == |dialogues|
    ensures forall i :: 0 <= i < |dialogues| ==>
      analyzedDialogues[i].speaker == dialogues[i].speaker &&
      analyzedDialogues[i].text == dialogues[i].text &&
      analyzedDialogues[i].context == dialogues[i].context
    ensures forall i :: 0 <= i < |dialogues| ==>
      analyzedDialogues[i].emotion == (if i < |replies| && replies[i].Some? then replies[i].value else Neutral)
  {
    analyzedDialogues := [];
    requests := [];
    var k := 0;
    while k < |dialogues|
      invariant 0 <= k <= |dialogues|
      invariant requests == dialogues[..k]
      invariant |analyzedDialogues| == k
      invariant forall i :: 0 <= i < k ==> analyzedDialogues[i] == WithEmotion(dialogues[i], EmotionReply(replies, i))
    {
      var dialogue := dialogues[k];
      requests := requests + [dialogue];
      var reply := if k < |replies| then replies[k] else None;
      match reply {
        case Some(emotion) =>
          analyzedDialogues := analyzedDialogues + [WithEmotion(dialogue, emotion)];
        case None =>
          analyzedDialogues := analyzedDialogues + [WithEmotion(dialogue, Neutral)];
      }
      k := k + 1;
    }
    assert dialogues[..k] == dialogues;
  }
}
