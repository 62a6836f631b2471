/** The chat back end's mood reading: the keyword fallback used when the
    language model is unavailable, the extraction of a JSON object from the
    model's reply, and the canned reply chosen by mood. */
module Sentiment {
  import opened Wrappers
  import opened Strings

  const HappyWords: seq<string> := ["happy", "excited", "great", "awesome", "love", "enjoy"]
  const StressedWords: seq<string> := ["stressed", "busy", "work", "study", "quiet", "peaceful"]
  const SocialWords: seq<string> := ["friends", "meet", "social", "fun", "party", "group"]
  const FocusedWords: seq<string> := ["study", "work", "focus", "quiet", "concentration"]
  const CheapWords: seq<string> := ["cheap", "affordable", "budget"]
  const PremiumWords: seq<string> := ["expensive", "luxury", "premium"]
  const CalmVibeWords: seq<string> := ["cozy", "quiet", "peaceful"]
  const LivelyVibeWords: seq<string> := ["trendy", "vibrant", "lively"]

  /** The moods the keyword fallback can produce. */
  const FallbackMoods: set<string> := {"happy", "stressed", "social", "focused", "neutral"}

  /** What the analysis hands back: a mood, a confidence and a preference
      dictionary. */
  datatype Analysis = Analysis(sentiment: string, confidence: real, preferences: map<string, string>)

  /** First matching keyword group wins, in the order happy, stressed,
      social, focused; otherwise neutral. `t` is already lower-cased. */
  function Mood(t: string): (mood: string)
    ensures mood in FallbackMoods
    ensures mood == "happy" <==> ContainsAny(t, HappyWords)
    ensures mood == "stressed" <==> !ContainsAny(t, HappyWords) && ContainsAny(t, StressedWords)
    ensures mood == "social" <==>
      !ContainsAny(t, HappyWords) && !ContainsAny(t, StressedWords) && ContainsAny(t, SocialWords)
    ensures mood == "neutral" <==>
      !ContainsAny(t, HappyWords) && !ContainsAny(t, StressedWords)
      && !ContainsAny(t, SocialWords) && !ContainsAny(t, FocusedWords)
  {
    if ContainsAny(t, HappyWords) then "happy"
    else if ContainsAny(t, StressedWords) then "stressed"
    else if ContainsAny(t, SocialWords) then "social"
    else if ContainsAny(t, FocusedWords) then "focused"
    else "neutral"
  }

  /** Budget: cheap words beat premium words; medium otherwise. */
  function Budget(t: string): (b: string)
    ensures b in {"low", "high", "medium"}
    ensures b == "low" <==> ContainsAny(t, CheapWords)
    ensures b == "high" <==> !ContainsAny(t, CheapWords) && ContainsAny(t, PremiumWords)
  {
    if ContainsAny(t, CheapWords) then "low"
    else if ContainsAny(t, PremiumWords) then "high"
    else "medium"
  }

  /** Vibe: calm words beat lively words; neutral otherwise. */
  function Vibe(t: string): (v: string)
    ensures v in {"quiet", "trendy", "neutral"}
    ensures v == "quiet" <==> ContainsAny(t, CalmVibeWords)
    ensures v == "trendy" <==> !ContainsAny(t, CalmVibeWords) && ContainsAny(t, LivelyVibeWords)
  {
    if ContainsAny(t, CalmVibeWords) then "quiet"
    else if ContainsAny(t, LivelyVibeWords) then "trendy"
    else "neutral"
  }

  /** `fallback_sentiment_analysis`: keyword matching on the lower-cased
      text, fixed confidence 0.6, location "anywhere", no special needs. */
  function Fallback(text: string): (a: Analysis)
    ensures a.sentiment in FallbackMoods
    ensures a.confidence == 0.6
    ensures a.preferences.Keys == {"budget", "vibe", "location", "special_needs"}
    ensures a.preferences["location"] == "anywhere" && a.preferences["special_needs"] == "none"
    ensures a.preferences["budget"] in {"low", "medium", "high"}
    ensures a.preferences["vibe"] in {"quiet", "trendy", "neutral"}
  {
    var t := Lower(text);
    Analysis(Mood(t), 0.6, map["budget" := Budget(t), "vibe" := Vibe(t), "location" := "anywhere", "special_needs" := "none"])
  }

  /** The fallback depends only on the lower-cased text. */
  lemma FallbackCaseInsensitive(text: string)
    ensures Fallback(Lower(text)) == Fallback(text)
  {
    LowerIdempotent(text);
  }

  /** Two texts that agree up to letter case get the same analysis. */
  lemma FallbackSameUpToCase(a: string, b: string)
    requires Lower(a) == Lower(b)
    ensures Fallback(a) == Fallback(b)
  {
  }

  /** "study", "work" and "quiet" are also stress words, which are tried
      first: such text is never "focused", and "stressed" unless a happy
      word is present. */
  lemma WorkWordsMeanStressed(text: string, w: string)
    requires w in ["study", "work", "quiet"] && Contains(Lower(text), w)
    ensures Fallback(text).sentiment == (if ContainsAny(Lower(text), HappyWords) then "happy" else "stressed")
  {
    var t := Lower(text);
    if w == "study" {
      ContainsAnyWitness(t, StressedWords, 3);
    } else if w == "work" {
      ContainsAnyWitness(t, StressedWords, 2);
    } else {
      ContainsAnyWitness(t, StressedWords, 4);
    }
  }

  /** "focused" needs "focus" or "concentration" in the text. */
  lemma FocusedNeedsFocusWord(text: string)
    ensures Fallback(text).sentiment == "focused" ==>
      Contains(Lower(text), "focus") || Contains(Lower(text), "concentration")
  {
    var t := Lower(text);
    if Fallback(text).sentiment == "focused" {
      assert !ContainsAny(t, StressedWords);
      var i :| 0 <= i < |FocusedWords| && Contains(t, FocusedWords[i]);
      if i == 0 {
        ContainsAnyWitness(t, StressedWords, 3);
      } else if i == 1 {
        ContainsAnyWitness(t, StressedWords, 2);
      } else if i == 3 {
        ContainsAnyWitness(t, StressedWords, 4);
      }
    }
  }

  /** Cheap words win over premium words. */
  lemma CheapBeatsPremium(text: string)
    requires Contains(Lower(text), "budget") || Contains(Lower(text), "cheap") || Contains(Lower(text), "affordable")
    ensures Fallback(text).preferences["budget"] == "low"
  {
    var t := Lower(text);
    if Contains(t, "cheap") {
      ContainsAnyWitness(t, CheapWords, 0);
    } else if Contains(t, "affordable") {
      ContainsAnyWitness(t, CheapWords, 1);
    } else {
      ContainsAnyWitness(t, CheapWords, 2);
    }
  }

  // ---- JSON span ---------------------------------------------------------

  /** The candidate JSON text in a model reply: from the first '{' through
      the last '}', tried only when both occur. A '}' before the first '{'
      gives Python's empty slice. */
  function JsonSpan(reply: string): (span: Option<string>)
    ensures span.None? <==> '{' !in reply || '}' !in reply
    ensures span.Some? && span.value != [] ==>
      && span.value[0] == '{' && span.value[|span.value| - 1] == '}'
      && (exists i, j :: 0 <= i <= j <= |reply| && span.value == reply[i..j])
  {
    if '{' !in reply || '}' !in reply then None
    else
      var start := IndexOf(reply, '{');
      var end := LastIndexOf(reply, '}') + 1;
      if start <= end then Some(reply[start..end]) else Some([])
  }

  /** A reply made of brace-free chatter around one object yields exactly
      that object. */
  lemma JsonSpanOfObject(before: string, body: string, after: string)
    requires '{' !in before && '}' !in after
    ensures JsonSpan(before + "{" + body + "}" + after) == Some("{" + body + "}")
  {
    var reply := before + "{" + body + "}" + after;
    var k := |before| + 1 + |body|;
    assert reply[|before|] == '{';
    assert reply[..|before|] == before;
    IndexOfUnique(reply, '{', |before|);
    assert reply[k] == '}';
    assert reply[k + 1..] == after;
    LastIndexOfUnique(reply, '}', k);
    assert reply[|before|..k + 1] == "{" + body + "}";
  }

  /** What the model's JSON object supplies; each field may be missing. */
  datatype Parsed = Parsed(sentiment: Option<string>, confidence: Option<real>, preferences: Option<map<string, string>>)

  /** `analyze_sentiment_with_ollama`: `reply` is the model's text, or None
      when the request failed or did not answer 200; `parse` stands for
      `json.loads` together with the `.get` calls (None when either raises).
      A parsed object supplies the fields with defaults neutral, 0.5 and an
      empty dictionary; anything else falls back to the keyword analysis. */
  function Analyze(text: string, reply: Option<string>, parse: string -> Option<Parsed>): (a: Analysis)
    ensures reply.None? ==> a == Fallback(text)
    ensures reply.Some? && JsonSpan(reply.value).None? ==> a == Fallback(text)
    ensures reply.Some? && JsonSpan(reply.value).Some? ==>
      match parse(JsonSpan(reply.value).value)
      case None => a == Fallback(text)
      case Some(p) =>
        && a.sentiment == p.sentiment.GetOr("neutral")
        && a.confidence == p.confidence.GetOr(0.5)
        && a.preferences == p.preferences.GetOr(map[])
  {
    if reply.None? then Fallback(text)
    else
      match JsonSpan(reply.value)
      case None => Fallback(text)
      case Some(span) =>
        match parse(span)
        case None => Fallback(text)
        case Some(p) => Analysis(p.sentiment.GetOr("neutral"), p.confidence.GetOr(0.5), p.preferences.GetOr(map[]))
  }

  /** A reply without braces always means the keyword analysis. */
  lemma BracelessReplyFallsBack(text: string, reply: string, parse: string -> Option<Parsed>)
    requires forall i :: 0 <= i < |reply| ==> reply[i] != '{'
    ensures Analyze(text, Some(reply), parse) == Fallback(text)
  {
  }

  // ---- canned replies ----------------------------------------------------

  const NeutralReply := "I'd love to help you find the perfect matcha café! Let me search for some great options that might interest you."

  const MoodReplies: map<string, string> := map[
    "happy" := "I can see you're in a great mood! Let me find you a vibrant, exciting matcha spot that matches your energy.",
    "excited" := "Your enthusiasm is contagious! I'll look for a lively, fun café that can keep up with your excitement.",
    "calm" := "I understand you're looking for a peaceful experience. Let me find you a serene, calming matcha café.",
    "stressed" := "I can sense you need a peaceful place right now. Let me find you a quiet, relaxing café where you can unwind.",
    "social" := "Perfect! You're looking for a great place to meet friends. I'll find you a social, welcoming café with great atmosphere.",
    "focused" := "I see you need a place to concentrate. Let me find you a quiet, focused environment perfect for work or study.",
    "neutral" := NeutralReply
  ]

  /** `generate_fallback_response`: the reply for the mood, the neutral
      reply for any mood outside the table. */
  function FallbackReply(sentiment: string): (reply: string)
    ensures reply in MoodReplies.Values
    ensures sentiment !in MoodReplies ==> reply == NeutralReply
    ensures sentiment in MoodReplies ==> reply == MoodReplies[sentiment]
  {
    if sentiment in MoodReplies then MoodReplies[sentiment] else MoodReplies["neutral"]
  }

  /** Every mood the keyword fallback produces has its own entry, so only a
      neutral reading gets the neutral reply. */
  lemma FallbackMoodsHaveReplies(text: string)
    ensures Fallback(text).sentiment in MoodReplies
    ensures FallbackReply(Fallback(text).sentiment) == NeutralReply <==> Fallback(text).sentiment == "neutral"
  {
  }
}
