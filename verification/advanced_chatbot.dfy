/**
 * The backend conversational engine (`AdvancedChatbot`): keyword-count
 * emotion detection, regular-expression intent confidence with a context
 * boost and a follow-up fallback, response decoration by tone, follow-up
 * and proactive suggestion, a bounded per-user conversation memory, a
 * trimmed per-user interaction log and the per-user insight summary.
 *
 * Confidences are `real`s (the source's floating point without rounding).
 * Every intent pattern of the source has the form `\b(alt|alt|...)\b`
 * searched in lower-cased text; it is modelled exactly as "one of the
 * alternatives occurs with a word boundary on either side". The random
 * choice of a base response is an index parameter, and timestamps are
 * dropped.
 */
module AdvancedChatbot {
  import opened Wrappers
  import opened Text
  import opened Tally

  // ---------------------------------------------------------------------
  // First maximum

  /** Index of the first largest score: Python's `max(d, key=d.get)` over a dict in insertion order. */
  function ArgMax(xs: seq<real>): (i: nat)
    requires |xs| >= 1
    ensures i < |xs|
    ensures forall j :: 0 <= j < |xs| ==> xs[j] <= xs[i]
    ensures forall j :: 0 <= j < i ==> xs[j] < xs[i]
  {
    if |xs| == 1 then 0
    else
      var k := ArgMax(xs[..|xs| - 1]);
      if xs[|xs| - 1] > xs[k] then |xs| - 1 else k
  }

  // ---------------------------------------------------------------------
  // Emotion

  datatype Emotion = Positive | Negative | Neutral

  /** The emotions in the order of the keyword dictionary. */
  const Emotions: seq<Emotion> := [Positive, Negative, Neutral]

  const PositiveKeywords: seq<string> := ["happy", "excited", "great", "wonderful", "amazing", "fantastic", "love", "like"]
  const NegativeKeywords: seq<string> := ["sad", "worried", "confused", "frustrated", "angry", "disappointed", "hate", "difficult"]
  const NeutralKeywords: seq<string> := ["okay", "fine", "alright", "normal", "regular", "standard"]

  function EmotionKeywords(e: Emotion): seq<string>
  {
    match e
    case Positive => PositiveKeywords
    case Negative => NegativeKeywords
    case Neutral => NeutralKeywords
  }

  /** How many of `keywords` occur as plain substrings of `lowered`. */
  function KeywordScore(lowered: string, keywords: seq<string>): (n: nat)
    ensures n <= |keywords|
  {
    if keywords == [] then 0
    else
      KeywordScore(lowered, keywords[..|keywords| - 1])
      + (if Contains(lowered, keywords[|keywords| - 1]) then 1 else 0)
  }

  /** The score is zero exactly when no keyword occurs. */
  lemma {:induction false} KeywordScoreZero(lowered: string, keywords: seq<string>)
    ensures KeywordScore(lowered, keywords) == 0 <==> forall k :: 0 <= k < |keywords| ==> !Contains(lowered, keywords[k])
  {
    if keywords != [] {
      var init := keywords[..|keywords| - 1];
      KeywordScoreZero(lowered, init);
      assert forall k :: 0 <= k < |init| ==> init[k] == keywords[k];
    }
  }

  /** The keyword score of emotion `e` for a message. */
  function Score(text: string, e: Emotion): nat
  {
    KeywordScore(Lower(text), EmotionKeywords(e))
  }

  /** Position of an emotion in the keyword dictionary. */
  function EmotionIndex(e: Emotion): (k: nat)
    ensures k < |Emotions| && Emotions[k] == e
  {
    match e
    case Positive => 0
    case Negative => 1
    case Neutral => 2
  }

  function EmotionScores(text: string): (s: seq<real>)
    ensures |s| == |Emotions|
    ensures forall k :: 0 <= k < |Emotions| ==> s[k] == Score(text, Emotions[k]) as real
  {
    [Score(text, Positive) as real, Score(text, Negative) as real, Score(text, Neutral) as real]
  }

  /** `detect_emotion` as a value: the first emotion with the largest score, or neutral when every score is zero. */
  function EmotionOf(text: string): (e: Emotion)
    ensures forall x: Emotion :: Score(text, x) <= Score(text, e)
    ensures (forall x: Emotion :: Score(text, x) == 0) ==> e == Neutral
  {
    var s := EmotionScores(text);
    assert forall x: Emotion :: s[EmotionIndex(x)] == Score(text, x) as real;
    var best := ArgMax(s);
    if s[best] == 0.0 then Neutral else Emotions[best]
  }

  /**
   * `detect_emotion` answers neutral when no keyword occurs at all;
   * otherwise an emotion with the largest keyword score, ties going to the
   * earliest of positive, negative, neutral.
   */
  lemma EmotionOfProps(text: string)
    ensures (forall x: Emotion :: Score(text, x) == 0) ==> EmotionOf(text) == Neutral
    ensures forall x: Emotion :: Score(text, x) <= Score(text, EmotionOf(text))
    ensures (exists x: Emotion :: Score(text, x) > 0) ==>
      forall x: Emotion :: EmotionIndex(x) < EmotionIndex(EmotionOf(text)) ==> Score(text, x) < Score(text, EmotionOf(text))
  {
    var s := EmotionScores(text);
    assert forall x: Emotion :: s[EmotionIndex(x)] == Score(text, x) as real;
  }

  /** The source's loop over the keyword dictionary, followed by the first maximum. */
  method DetectEmotion(text: string) returns (e: Emotion)
    ensures e == EmotionOf(text)
  {
    var scores: seq<real> := [];
    var i := 0;
    while i < |Emotions|
      invariant 0 <= i <= |Emotions|
      invariant scores == EmotionScores(text)[..i]
    {
      scores := scores + [KeywordScore(Lower(text), EmotionKeywords(Emotions[i])) as real];
      i := i + 1;
    }
    assert scores == EmotionScores(text);
    var best := ArgMax(scores);
    if scores[best] == 0.0 {
      e := Neutral;
    } else {
      e := Emotions[best];
    }
  }

  // ---------------------------------------------------------------------
  // Patterns

  /** A regular-expression word character (letters, digits, underscore; ASCII). */
  predicate IsWordChar(c: char)
  {
    'a' <= c <= 'z' || 'A' <= c <= 'Z' || '0' <= c <= '9' || c == '_'
  }

  predicate WordCharAt(s: string, i: int)
  {
    0 <= i < |s| && IsWordChar(s[i])
  }

  /** `\b` at position `i`: a word character on exactly one side. */
  predicate Boundary(s: string, i: int)
  {
    WordCharAt(s, i - 1) != WordCharAt(s, i)
  }

  /** `alt` occurs at `i` with a word boundary before and after it. */
  predicate WordMatchAt(s: string, alt: string, i: int)
  {
    OccursAt(s, alt, i) && Boundary(s, i) && Boundary(s, i + |alt|)
  }

  /** `re.search(r'\b(alt|alt|...)\b', s)` finds a match. */
  predicate PatternMatches(s: string, alts: seq<string>)
  {
    exists k, i | 0 <= k < |alts| && 0 <= i <= |s| :: WordMatchAt(s, alts[k], i)
  }

  // ---------------------------------------------------------------------
  // Intents

  datatype Intent = Greeting | Colleges | Scholarships | CareerGuidance | EmotionalSupport

  /** The intents in the order of the pattern dictionary. */
  const Intents: seq<Intent> := [Greeting, Colleges, Scholarships, CareerGuidance, EmotionalSupport]

  function IntentName(intent: Intent): string
  {
    match intent
    case Greeting => "greeting"
    case Colleges => "colleges"
    case Scholarships => "scholarships"
    case CareerGuidance => "career_guidance"
    case EmotionalSupport => "emotional_support"
  }

  /** Position of an intent in the pattern dictionary. */
  function IntentIndex(intent: Intent): (k: nat)
    ensures k < |Intents| && Intents[k] == intent
  {
    match intent
    case Greeting => 0
    case Colleges => 1
    case Scholarships => 2
    case CareerGuidance => 3
    case EmotionalSupport => 4
  }

  /** Each pattern is the list of alternatives inside `\b(...)\b`. */
  const GreetingPatterns: seq<seq<string>> := [
    ["hello", "hi", "hey", "good morning", "good afternoon", "good evening"],
    ["how are you", "how do you do"],
    ["nice to meet you", "pleased to meet you"]]
  const CollegePatterns: seq<seq<string>> := [
    ["college", "university", "institution", "admission", "courses", "degree"],
    ["engineering", "medical", "arts", "commerce", "science"],
    ["jammu", "srinagar", "kashmir", "district"],
    ["undergraduate", "postgraduate", "bachelor", "master"]]
  const ScholarshipPatterns: seq<seq<string>> := [
    ["scholarship", "financial aid", "funding", "grant", "money", "tuition"],
    ["merit", "need-based", "government", "private"],
    ["afford", "expensive", "cost", "fee"]]
  const CareerPatterns: seq<seq<string>> := [
    ["career", "job", "profession", "future", "what should i do"],
    ["aptitude", "quiz", "test", "guidance", "counseling"],
    ["confused", "unsure", "don't know", "help me decide"]]
  const SupportPatterns: seq<seq<string>> := [
    ["stressed", "anxious", "worried", "nervous", "scared"],
    ["difficult", "hard", "challenging", "struggling"],
    ["help", "support", "advice", "guidance"]]

  function Patterns(intent: Intent): (ps: seq<seq<string>>)
    ensures |ps| >= 1
  {
    match intent
    case Greeting => GreetingPatterns
    case Colleges => CollegePatterns
    case Scholarships => ScholarshipPatterns
    case CareerGuidance => CareerPatterns
    case EmotionalSupport => SupportPatterns
  }

  function Weight(intent: Intent): (w: real)
    ensures 0.0 < w <= 1.0
  {
    match intent
    case Greeting => 0.9
    case EmotionalSupport => 0.7
    case _ => 0.8
  }

  const GreetingResponses: seq<string> := [
    "Hello! I'm your advanced AI assistant. How can I help you today?",
    "Hi there! I'm here to assist you with career guidance and educational planning.",
    "Welcome! I can help you with colleges, scholarships, and career advice."]
  const CollegeResponses: seq<string> := [
    "I can help you find the perfect college! What field of study interests you?",
    "Let me assist you with college information. Are you looking for specific courses or locations?",
    "I have detailed information about colleges across J&K. What would you like to know?"]
  const ScholarshipResponses: seq<string> := [
    "I can help you find scholarships! What's your current education level?",
    "Let me search for funding opportunities. Are you looking for merit-based or need-based scholarships?",
    "I have information about various scholarship programs. What field of study are you pursuing?"]
  const CareerResponses: seq<string> := [
    "I can help you discover your career path! Let's start with your interests and strengths.",
    "Career planning is exciting! What subjects or activities do you enjoy most?",
    "I'll help you find the perfect career match. Are you ready to take our aptitude test?"]
  const SupportResponses: seq<string> := [
    "I understand this can be overwhelming. You're not alone - I'm here to help you through this.",
    "It's completely normal to feel this way. Let's take it one step at a time.",
    "I'm here to support you. What specific aspect would you like help with?"]

  /** The three canned responses of each intent. */
  function Responses(intent: Intent): (rs: seq<string>)
    ensures |rs| == 3
  {
    match intent
    case Greeting => GreetingResponses
    case Colleges => CollegeResponses
    case Scholarships => ScholarshipResponses
    case CareerGuidance => CareerResponses
    case EmotionalSupport => SupportResponses
  }

  /** How many of `patterns` match `lowered`. */
  function MatchCount(lowered: string, patterns: seq<seq<string>>): (n: nat)
    ensures n <= |patterns|
  {
    if patterns == [] then 0
    else
      MatchCount(lowered, patterns[..|patterns| - 1])
      + (if PatternMatches(lowered, patterns[|patterns| - 1]) then 1 else 0)
  }

  /** No pattern matches exactly when the match count is zero. */
  lemma {:induction false} MatchCountZero(lowered: string, patterns: seq<seq<string>>)
    ensures MatchCount(lowered, patterns) == 0 <==> forall k :: 0 <= k < |patterns| ==> !PatternMatches(lowered, patterns[k])
  {
    if patterns != [] {
      var init := patterns[..|patterns| - 1];
      MatchCountZero(lowered, init);
      assert forall k :: 0 <= k < |init| ==> init[k] == patterns[k];
    }
  }

  /**
   * The confidence formula: the matched fraction, raised by a fifth when
   * more than one pattern matched, scaled by the weight and capped at 1.
   */
  function Confidence(matches: nat, total: nat, weight: real): (c: real)
    requires matches <= total && total >= 1 && 0.0 < weight <= 1.0
    ensures 0.0 <= c <= 1.0
    ensures c == 0.0 <==> matches == 0
    ensures matches == 1 ==> c == weight / total as real
  {
    FractionBounds(matches, total);
    ScaledPositive(Boosted(matches, total), weight);
    Cap(Boosted(matches, total) * weight)
  }

  /** The matched fraction, raised by a fifth when more than one pattern matched. */
  function Boosted(matches: nat, total: nat): real
    requires total >= 1
  {
    var base := matches as real / total as real;
    if matches > 1 then base * 1.2 else base
  }

  /** `min(x, 1.0)`. */
  function Cap(x: real): real
  {
    if 1.0 < x then 1.0 else x
  }

  lemma FractionBounds(m: nat, t: nat)
    requires m <= t && t >= 1
    ensures 0.0 <= m as real / t as real <= 1.0
    ensures m >= 1 ==> m as real / t as real > 0.0
    ensures m == 1 ==> m as real / t as real <= 1.0 && 1.0 / t as real == m as real / t as real
  {
    var q := m as real / t as real;
    assert q * t as real == m as real;
  }

  lemma ScaledPositive(b: real, w: real)
    requires b >= 0.0 && w > 0.0
    ensures b * w >= 0.0
    ensures b * w == 0.0 <==> b == 0.0
  {
  }

  /** A larger match count never lowers the confidence. */
  lemma ConfidenceMonotone(m1: nat, m2: nat, total: nat, weight: real)
    requires m1 <= m2 <= total && total >= 1 && 0.0 < weight <= 1.0
    ensures Confidence(m1, total, weight) <= Confidence(m2, total, weight)
  {
    BoostedMonotone(m1, m2, total);
    ScaleMonotone(Boosted(m1, total), Boosted(m2, total), weight);
    var x1 := Boosted(m1, total) * weight;
    var x2 := Boosted(m2, total) * weight;
    assert x1 <= x2;
    assert Confidence(m1, total, weight) == Cap(x1);
    assert Confidence(m2, total, weight) == Cap(x2);
  }

  /** Boosting keeps the order of the match counts. */
  lemma BoostedMonotone(m1: nat, m2: nat, total: nat)
    requires m1 <= m2 <= total && total >= 1
    ensures 0.0 <= Boosted(m1, total) <= Boosted(m2, total)
  {
    var b1 := m1 as real / total as real;
    var b2 := m2 as real / total as real;
    FractionMonotone(m1, m2, total);
    FractionBounds(m1, total);
    FractionBounds(m2, total);
    if m1 > 1 {
      ScaleMonotone(b1, b2, 1.2);
    } else if m2 > 1 {
      assert b2 <= b2 * 1.2;
    }
  }

  lemma FractionMonotone(m1: nat, m2: nat, total: nat)
    requires m1 <= m2 && total >= 1
    ensures m1 as real / total as real <= m2 as real / total as real
  {
    var t := total as real;
    var b1 := m1 as real / t;
    var b2 := m2 as real / t;
    assert b1 * t == m1 as real;
    assert b2 * t == m2 as real;
    ScaleMonotone(b1, b2, t);
  }

  lemma ScaleMonotone(a: real, b: real, w: real)
    requires w > 0.0
    ensures a <= b <==> a * w <= b * w
  {
    if a <= b {
      assert (b - a) * w >= 0.0;
    } else {
      assert (a - b) * w > 0.0;
    }
  }

  /** `calculate_intent_confidence` as a value. */
  function IntentConfidence(text: string, intent: Intent): (c: real)
    ensures 0.0 <= c <= 1.0
  {
    Confidence(MatchCount(Lower(text), Patterns(intent)), |Patterns(intent)|, Weight(intent))
  }

  /**
   * The confidence of an intent is zero exactly when none of its patterns
   * matches, and its weight divided by its number of patterns when exactly
   * one does.
   */
  lemma IntentConfidenceCases(text: string, intent: Intent)
    ensures IntentConfidence(text, intent) == 0.0 <==>
      forall k :: 0 <= k < |Patterns(intent)| ==> !PatternMatches(Lower(text), Patterns(intent)[k])
    ensures MatchCount(Lower(text), Patterns(intent)) == 1 ==>
      IntentConfidence(text, intent) == Weight(intent) / |Patterns(intent)| as real
  {
    MatchCountZero(Lower(text), Patterns(intent));
  }

  /** `calculate_intent_confidence`: counts the matching patterns one by one. */
  method CalculateIntentConfidence(text: string, intent: Intent) returns (c: real)
    ensures c == IntentConfidence(text, intent)
  {
    var patterns := Patterns(intent);
    var lowered := Lower(text);
    var matches := 0;
    var i := 0;
    while i < |patterns|
      invariant 0 <= i <= |patterns|
      invariant matches == MatchCount(lowered, patterns[..i])
    {
      assert patterns[..i + 1][..i] == patterns[..i];
      if PatternMatches(lowered, patterns[i]) {
        matches := matches + 1;
      }
      i := i + 1;
    }
    assert patterns[..|patterns|] == patterns;
    c := Confidence(matches, |patterns|, Weight(intent));
  }

  // ---------------------------------------------------------------------
  // Context

  /** One conversation-memory entry; `intent` is absent for an entry that records none. */
  datatype Turn = Turn(message: string, intent: Option<Intent>, confidence: real, emotion: Emotion)

  /** `_extract_intent_from_history` applied to the latest entry. */
  function LastRecorded(history: seq<Turn>): Option<Intent>
  {
    if history == [] then None else history[|history| - 1].intent
  }

  /** The intent of the latest entry that records one. */
  function MostRecentIntent(history: seq<Turn>): Option<Intent>
  {
    if history == [] then None
    else if history[|history| - 1].intent.Some? then history[|history| - 1].intent
    else MostRecentIntent(history[..|history| - 1])
  }

  /**
   * There is a most recent intent exactly when some entry records one, and
   * it is recorded by an entry after which no entry records any.
   */
  lemma {:induction false} MostRecentIntentProps(history: seq<Turn>)
    ensures MostRecentIntent(history).None? <==> forall k :: 0 <= k < |history| ==> history[k].intent.None?
    ensures MostRecentIntent(history).Some? ==>
      exists k :: 0 <= k < |history| && history[k].intent == MostRecentIntent(history) &&
        (forall j :: k < j < |history| ==> history[j].intent.None?)
  {
    if history != [] && history[|history| - 1].intent.None? {
      var init := history[..|history| - 1];
      MostRecentIntentProps(init);
      assert forall k :: 0 <= k < |init| ==> init[k] == history[k];
      if MostRecentIntent(init).Some? {
        var k :| 0 <= k < |init| && init[k].intent == MostRecentIntent(init) &&
          (forall j :: k < j < |init| ==> init[j].intent.None?);
        assert history[k].intent == MostRecentIntent(history);
      }
    }
  }

  const FollowUpWords: seq<string> := ["also", "and", "what about", "how about", "tell me more", "more about"]

  /** A follow-up word occurs anywhere in the lower-cased message (plain substring test). */
  predicate HasFollowUpWord(text: string)
  {
    exists k | 0 <= k < |FollowUpWords| :: Contains(Lower(text), FollowUpWords[k])
  }

  /** `_infer_from_context` as a value. */
  function ContextIntent(text: string, history: seq<Turn>): Option<Intent>
  {
    if HasFollowUpWord(text) then MostRecentIntent(history) else None
  }

  /**
   * The context supplies an intent exactly when the message holds a
   * follow-up word and some earlier entry recorded an intent; it is then
   * the most recently recorded one.
   */
  lemma ContextIntentProps(text: string, history: seq<Turn>)
    ensures ContextIntent(text, history).Some? <==>
      HasFollowUpWord(text) && exists k :: 0 <= k < |history| && history[k].intent.Some?
    ensures ContextIntent(text, history).Some? ==> ContextIntent(text, history) == MostRecentIntent(history)
  {
    MostRecentIntentProps(history);
  }

  /** `_infer_from_context`: scans the history from the newest entry backwards. */
  method InferFromContext(text: string, history: seq<Turn>) returns (r: Option<Intent>)
    ensures r == ContextIntent(text, history)
  {
    r := None;
    if HasFollowUpWord(text) {
      var k := |history|;
      assert history[..k] == history;
      while k > 0
        invariant 0 <= k <= |history|
        invariant MostRecentIntent(history[..k]) == MostRecentIntent(history)
      {
        k := k - 1;
        assert history[..k + 1][..k] == history[..k];
        if history[k].intent.Some? {
          return history[k].intent;
        }
      }
    }
  }

  /** The confidence for `intent` after the context boost of the latest entry. */
  function BoostedScore(text: string, history: seq<Turn>, intent: Intent): real
  {
    var c := IntentConfidence(text, intent);
    if LastRecorded(history) == Some(intent) then c * 1.3 else c
  }

  /** Only the intent recorded by the latest entry is boosted, and by exactly 1.3. */
  lemma OnlyLastIntentBoosted(text: string, history: seq<Turn>, intent: Intent)
    ensures LastRecorded(history) == Some(intent) ==> BoostedScore(text, history, intent) == 1.3 * IntentConfidence(text, intent)
    ensures LastRecorded(history) != Some(intent) ==> BoostedScore(text, history, intent) == IntentConfidence(text, intent)
    ensures 0.0 <= BoostedScore(text, history, intent) <= 1.3
  {
  }

  function IntentScores(text: string, history: seq<Turn>): (s: seq<real>)
  {
    seq(|Intents|, k requires 0 <= k < |Intents| => BoostedScore(text, history, Intents[k]))
  }

  datatype Detection = Detection(intent: Intent, confidence: real)

  /** The fallback fires: weak best score, some history, and a context intent. */
  predicate FallsBack(text: string, history: seq<Turn>)
  {
    var s := IntentScores(text, history);
    s[ArgMax(s)] < 0.3 && history != [] && ContextIntent(text, history).Some?
  }

  /**
   * `detect_intent_advanced`: the first intent with the largest boosted
   * score, unless that score is below 0.3, there is history and the message
   * is a follow-up of an earlier intent, in which case that intent with 0.6.
   */
  function DetectIntent(text: string, history: seq<Turn>): (d: Detection)
    ensures 0.0 <= d.confidence <= 1.3
  {
    var s := IntentScores(text, history);
    var best := ArgMax(s);
    OnlyLastIntentBoosted(text, history, Intents[best]);
    if FallsBack(text, history) then Detection(ContextIntent(text, history).value, 0.6)
    else Detection(Intents[best], s[best])
  }

  /**
   * `detect_intent_advanced` answers the follow-up intent with 0.6 exactly
   * when it falls back; otherwise the first intent with the largest boosted
   * score, and that score.
   */
  lemma DetectIntentProps(text: string, history: seq<Turn>)
    ensures FallsBack(text, history) ==> DetectIntent(text, history) == Detection(ContextIntent(text, history).value, 0.6)
    ensures !FallsBack(text, history) ==>
      var d := DetectIntent(text, history);
      d.confidence == BoostedScore(text, history, d.intent) &&
      (forall x: Intent :: BoostedScore(text, history, x) <= d.confidence) &&
      (forall x: Intent :: IntentIndex(x) < IntentIndex(d.intent) ==> BoostedScore(text, history, x) < d.confidence)
  {
    var s := IntentScores(text, history);
    assert forall x: Intent :: s[IntentIndex(x)] == BoostedScore(text, history, x);
  }

  /** `detect_intent_advanced`: scores every intent in dictionary order, then picks. */
  method DetectIntentAdvanced(text: string, history: seq<Turn>) returns (d: Detection)
    ensures d == DetectIntent(text, history)
  {
    var scores: seq<real> := [];
    var i := 0;
    while i < |Intents|
      invariant 0 <= i <= |Intents|
      invariant scores == IntentScores(text, history)[..i]
    {
      var c := CalculateIntentConfidence(text, Intents[i]);
      if history != [] && history[|history| - 1].intent == Some(Intents[i]) {
        c := c * 1.3;
      }
      scores := scores + [c];
      i := i + 1;
    }
    assert scores == IntentScores(text, history);
    var best := ArgMax(scores);
    d := Detection(Intents[best], scores[best]);
    if scores[best] < 0.3 && history != [] {
      var context := InferFromContext(text, history);
      if context.Some? {
        d := Detection(context.value, 0.6);
      }
    }
  }

  // ---------------------------------------------------------------------
  // Response decoration

  function TonePrefix(emotion: Emotion): string
  {
    match emotion
    case Negative => "I understand this might be challenging. "
    case Positive => "That's exciting! "
    case Neutral => ""
  }

  /** Follow-up templates, keyed by name; the career one is keyed "career". */
  const FollowUps: map<string, string> := map[
    "colleges" := "Based on our previous discussion about colleges, would you like to know about admission requirements or specific courses?",
    "scholarships" := "Since we talked about scholarships, are you interested in application deadlines or eligibility criteria?",
    "career" := "Following up on our career discussion, would you like to explore specific job opportunities or skill requirements?"]

  /** The follow-up sentence appended when the latest entry recorded the same intent. */
  function FollowUpPart(intent: Intent, history: seq<Turn>): string
  {
    if LastRecorded(history) == Some(intent) && IntentName(intent) in FollowUps
    then " " + FollowUps[IntentName(intent)]
    else ""
  }

  /**
   * A follow-up is appended exactly when the latest entry recorded the same
   * intent and that intent is colleges or scholarships: the career template
   * is never reached, since its key is not an intent name.
   */
  lemma FollowUpWhen(intent: Intent, history: seq<Turn>)
    ensures FollowUpPart(intent, history) != "" <==>
      history != [] && LastRecorded(history) == Some(intent) && (intent == Colleges || intent == Scholarships)
    ensures FollowUpPart(CareerGuidance, history) == ""
  {
    assert IntentName(CareerGuidance) !in FollowUps;
    assert IntentName(Greeting) !in FollowUps;
    assert IntentName(EmotionalSupport) !in FollowUps;
  }

  const CollegeSuggestion: string := "scholarship opportunities for your chosen field"
  const ScholarshipSuggestion: string := "career guidance to help you plan your future"
  const CareerSuggestion: string := "specific colleges that offer programs in your area of interest"

  function ProactiveSuggestion(intent: Intent): Option<string>
  {
    match intent
    case Colleges => Some(CollegeSuggestion)
    case Scholarships => Some(ScholarshipSuggestion)
    case CareerGuidance => Some(CareerSuggestion)
    case _ => None
  }

  function ProactivePart(intent: Intent): string
  {
    match ProactiveSuggestion(intent)
    case Some(s) => " Based on what you've told me, I think you might also be interested in " + s + "."
    case None => ""
  }

  /** The proactive suggestion is appended exactly for colleges, scholarships and career guidance. */
  lemma ProactiveWhen(intent: Intent)
    ensures ProactivePart(intent) != "" <==> intent in {Colleges, Scholarships, CareerGuidance}
  {
    if ProactiveSuggestion(intent).Some? {
      assert |ProactivePart(intent)| > 0;
    }
  }

  /**
   * `generate_contextual_response` with the randomly chosen base response
   * given as `base`: the tone prefix, the base response, then the follow-up
   * and the proactive suggestion when they apply.
   */
  function ContextualResponse(intent: Intent, base: string, history: seq<Turn>, emotion: Emotion): (r: string)
    ensures StartsWith(r, TonePrefix(emotion) + base)
    ensures EndsWith(r, ProactivePart(intent))
    ensures |r| == |TonePrefix(emotion)| + |base| + |FollowUpPart(intent, history)| + |ProactivePart(intent)|
    ensures r[|TonePrefix(emotion) + base|..|r| - |ProactivePart(intent)|] == FollowUpPart(intent, history)
  {
    PartsShape(TonePrefix(emotion) + base, FollowUpPart(intent, history), ProactivePart(intent));
    TonePrefix(emotion) + base + FollowUpPart(intent, history) + ProactivePart(intent)
  }

  /** A text made of three parts starts with the first and ends with the last. */
  lemma PartsShape(head: string, middle: string, tail: string)
    ensures StartsWith(head + middle + tail, head)
    ensures EndsWith(head + middle + tail, tail)
  {
    var r := head + middle + tail;
    assert r[..|head|] == head;
    assert r[|r| - |tail|..] == tail;
  }

  // ---------------------------------------------------------------------
  // Bounded histories

  /** The last `n` elements of `s` (all of it when shorter), oldest first. */
  function KeepLast<T>(s: seq<T>, n: nat): (r: seq<T>)
    ensures |r| == if |s| < n then |s| else n
    ensures r == s[|s| - |r|..]
  {
    if |s| > n then s[|s| - n..] else s
  }

  /**
   * Appending to an already trimmed buffer and trimming again keeps the same
   * elements as trimming the whole history: a bounded deque or a re-sliced
   * list holds the most recent entries of everything ever appended.
   */
  lemma KeepLastAppend<T>(s: seq<T>, x: T, n: nat)
    requires n >= 1
    ensures KeepLast(KeepLast(s, n) + [x], n) == KeepLast(s + [x], n)
  {
    var k := KeepLast(s, n);
    var a := KeepLast(k + [x], n);
    var b := KeepLast(s + [x], n);
    assert |a| == |b|;
    forall i | 0 <= i < |a| ensures a[i] == b[i] {
      if i == |a| - 1 {
      } else {
        assert a[i] == k[|k| + 1 - |a| + i];
      }
    }
  }

  /** One entry of the interaction log (the timestamp is not modelled). */
  datatype Interaction = Interaction(userMessage: string, botResponse: string, intent: Intent, confidence: real)

  datatype PersonalizedResponse = PersonalizedResponse(
    response: string, intent: Intent, confidence: real, emotion: Emotion, contextAware: bool)

  datatype Insights =
    | NoData
    | Insights(totalInteractions: nat, topInterests: seq<Entry<Intent>>, recentEmotions: seq<Emotion>, conversationLength: nat)

  const MemorySize: nat := 10
  const LogSize: nat := 50
  const TopInterests: nat := 3
  const RecentEmotionCount: nat := 5

  function IntentsOf(log: seq<Interaction>): (ks: seq<Intent>)
    ensures |ks| == |log|
    ensures forall i :: 0 <= i < |log| ==> ks[i] == log[i].intent
  {
    seq(|log|, i requires 0 <= i < |log| => log[i].intent)
  }

  function EmotionsOf(turns: seq<Turn>): (es: seq<Emotion>)
    ensures |es| == |turns|
    ensures forall i :: 0 <= i < |turns| ==> es[i] == turns[i].emotion
  {
    seq(|turns|, i requires 0 <= i < |turns| => turns[i].emotion)
  }

  class AdvancedChatbot {
    /** Per user, the latest conversation entries (a deque of length at most 10). */
    var conversationMemory: map<string, seq<Turn>>
    /** Per user, the latest interactions (re-sliced to the last 50). */
    var learningData: map<string, seq<Interaction>>

    /** Each memory holds at most 10 entries; a log exists once something was logged and holds at most 50. */
    ghost predicate Valid()
      reads this
    {
      (forall u | u in conversationMemory :: |conversationMemory[u]| <= MemorySize) &&
      (forall u | u in learningData :: 1 <= |learningData[u]| <= LogSize)
    }

    /** `conversation_memory[user]`, which a defaultdict reads as empty for a new user. */
    function Memory(user: string): seq<Turn>
      reads this
    {
      if user in conversationMemory then conversationMemory[user] else []
    }

    function Log(user: string): seq<Interaction>
      reads this
    {
      if user in learningData then learningData[user] else []
    }

    constructor()
      ensures Valid()
      ensures conversationMemory == map[] && learningData == map[]
    {
      conversationMemory := map[];
      learningData := map[];
    }

    /**
     * `learn_from_interaction`: append to the user's log, then keep its last
     * 50 entries; no other user's log changes.
     */
    method LearnFromInteraction(user: string, userMessage: string, botResponse: string, intent: Intent, confidence: real)
      requires Valid()
      modifies this`learningData
      ensures Valid()
      ensures learningData == old(learningData)[user := KeepLast(old(Log(user)) + [Interaction(userMessage, botResponse, intent, confidence)], LogSize)]
    {
      var interaction := Interaction(userMessage, botResponse, intent, confidence);
      var log := Log(user) + [interaction];
      if |log| > LogSize {
        log := log[|log| - LogSize..];
      }
      learningData := learningData[user := log];
    }

    /**
     * `get_personalized_response` with the base response chosen by index:
     * detect the emotion and intent against the user's memory so far,
     * decorate the response, append the entry to the memory (dropping the
     * oldest beyond 10), log the interaction, and report whether the memory
     * now holds more than one entry.
     */
    method GetPersonalizedResponse(user: string, text: string, choice: nat) returns (r: PersonalizedResponse)
      requires Valid() && choice < 3
      modifies this
      ensures Valid()
      ensures r.emotion == EmotionOf(text)
      ensures Detection(r.intent, r.confidence) == DetectIntent(text, old(Memory(user)))
      ensures r.response == ContextualResponse(r.intent, Responses(r.intent)[choice], old(Memory(user)), r.emotion)
      ensures conversationMemory == old(conversationMemory)[user :=
        KeepLast(old(Memory(user)) + [Turn(text, Some(r.intent), r.confidence, r.emotion)], MemorySize)]
      ensures learningData == old(learningData)[user :=
        KeepLast(old(Log(user)) + [Interaction(text, r.response, r.intent, r.confidence)], LogSize)]
      ensures r.contextAware <==> |old(Memory(user))| >= 1
    {
      var response, detection, emotion := Respond(text, Memory(user), choice);
      Remember(user, text, response, detection, emotion);
      r := PersonalizedResponse(response, detection.intent, detection.confidence, emotion, |Memory(user)| > 1);
    }

    /**
     * The bookkeeping of one reply: the entry goes at the end of the user's
     * memory (dropping the oldest beyond 10) and the interaction is logged;
     * no other user's memory or log changes.
     */
    method Remember(user: string, text: string, response: string, detection: Detection, emotion: Emotion)
      requires Valid()
      modifies this
      ensures Valid()
      ensures conversationMemory == old(conversationMemory)[user :=
        KeepLast(old(Memory(user)) + [Turn(text, Some(detection.intent), detection.confidence, emotion)], MemorySize)]
      ensures learningData == old(learningData)[user :=
        KeepLast(old(Log(user)) + [Interaction(text, response, detection.intent, detection.confidence)], LogSize)]
      ensures |Memory(user)| > 1 <==> |old(Memory(user))| >= 1
    {
      var entry := Turn(text, Some(detection.intent), detection.confidence, emotion);
      conversationMemory := conversationMemory[user := KeepLast(Memory(user) + [entry], MemorySize)];
      LearnFromInteraction(user, text, response, detection.intent, detection.confidence);
    }

    /** The reply to one message, its detected intent and its emotion, before any state changes. */
    static method Respond(text: string, history: seq<Turn>, choice: nat) returns (response: string, detection: Detection, emotion: Emotion)
      requires choice < 3
      ensures emotion == EmotionOf(text)
      ensures detection == DetectIntent(text, history)
      ensures response == ContextualResponse(detection.intent, Responses(detection.intent)[choice], history, emotion)
    {
      emotion := DetectEmotion(text);
      detection := DetectIntentAdvanced(text, history);
      response := ContextualResponse(detection.intent, Responses(detection.intent)[choice], history, emotion);
    }

    /**
     * `get_user_insights` as written: the log entries carry no emotion, so
     * reading one for the recent emotions fails with a key error whenever
     * the user has any logged interaction.
     */
    function GetUserInsightsAsWritten(user: string): (r: Result<Insights, string>)
      reads this
      ensures user !in learningData ==> r == Ok(NoData)
      ensures user in learningData && Log(user) != [] ==> r.Err?
    {
      if user !in learningData then Ok(NoData)
      else
        var log := learningData[user];
        if KeepLast(log, RecentEmotionCount) == [] then
          Ok(Insights(0, [], [], |Memory(user)|))
        else
          Err("KeyError: 'emotion'")
    }

    /** In every reachable state, the insights of any user with a log fail. */
    lemma AsWrittenInsightsFail(user: string)
      requires Valid() && user in learningData
      ensures GetUserInsightsAsWritten(user).Err?
    {
    }

    /**
     * `get_user_insights` with the recent emotions read from the
     * conversation memory, where they are recorded: the interaction count,
     * the three most frequent intents (ties in first-seen order), the last
     * five emotions and the memory length.
     */
    method GetUserInsights(user: string) returns (r: Insights)
      ensures r.NoData? <==> user !in learningData
      ensures r.Insights? ==>
        r.totalInteractions == |Log(user)| &&
        r.topInterests == Top(BumpAll([], IntentsOf(Log(user))), TopInterests) &&
        |r.topInterests| <= TopInterests &&
        NonIncreasing(r.topInterests) &&
        (forall e | e in r.topInterests :: e.count == Occurrences(IntentsOf(Log(user)), e.key) && e.count >= 1) &&
        r.recentEmotions == EmotionsOf(KeepLast(Memory(user), RecentEmotionCount)) &&
        r.conversationLength == |Memory(user)|
    {
      if user !in learningData {
        return NoData;
      }
      var interactions := learningData[user];
      var counts: seq<Entry<Intent>> := [];
      var i := 0;
      while i < |interactions|
        invariant 0 <= i <= |interactions|
        invariant counts == BumpAll([], IntentsOf(interactions[..i]))
      {
        assert IntentsOf(interactions[..i + 1]) == IntentsOf(interactions[..i]) + [interactions[i].intent];
        BumpAllSnoc([], IntentsOf(interactions[..i]), interactions[i].intent);
        counts := Bump(counts, interactions[i].intent);
        i := i + 1;
      }
      assert interactions[..|interactions|] == interactions;
      var top := Top(counts, TopInterests);
      TopProps(counts, TopInterests);
      TopOfTallyCounts(IntentsOf(interactions), TopInterests);
      var memory := Memory(user);
      r := Insights(|interactions|, top, EmotionsOf(KeepLast(memory, RecentEmotionCount)), |memory|);
    }
  }
}
