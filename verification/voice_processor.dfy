/**
 * The voice interaction adapter of the web front end (`AdvancedVoiceProcessor`):
 * recognition bookkeeping (success and failure counters, a word-frequency
 * table), the two-bucket choice of how many alternative transcripts to ask
 * for, the speech-rate slow-down on silence, per-utterance prosody derived
 * from an emotion tag, the punctuation-pause transform, learning statistics
 * and the preference merge.
 *
 * Speech rate, pitch and volume are kept in integer tenths (0.9 is 9), so the
 * clamps are exact. The platform's recognition and synthesis objects are
 * reduced to whether they exist, the list of voice names, and whether the
 * platform accepts a start request.
 */
module VoiceProcessor {
  import opened Wrappers
  import opened Text
  import opened Tally

  const DefaultRate: int := 9
  const DefaultPitch: int := 10
  const DefaultVolume: int := 8
  /** Floor of the rate reached through repeated `no-speech` errors. */
  const MinRate: int := 7
  /** Only words longer than this many characters are counted. */
  const MinWordLength: nat := 3
  /** Results below this confidence trigger the sensitivity adjustment. */
  const LowConfidence: real := 0.7
  /** How many phrases the statistics report. */
  const TopPhrases: nat := 10

  /** Rate, pitch and volume in tenths, and the chosen voice's name. */
  datatype VoiceSettings = VoiceSettings(rate: int, pitch: int, volume: int, voice: Option<string>)

  datatype Prosody = Prosody(rate: int, pitch: int, volume: int)

  /** What the synthesis platform would be handed for one `speak` call. */
  datatype Utterance = Utterance(text: string, prosody: Prosody, voice: Option<string>)

  datatype RecognitionOutcome = RecognitionOutcome(transcript: string, confidence: real)

  datatype LearningStats = LearningStats(successRate: real, totalInteractions: nat, commonPhrases: seq<Entry<string>>)

  function Min(a: int, b: int): (m: int)
    ensures m <= a && m <= b && (m == a || m == b)
  {
    if a <= b then a else b
  }

  function Max(a: int, b: int): (m: int)
    ensures m >= a && m >= b && (m == a || m == b)
  {
    if a >= b then a else b
  }

  // ---------------------------------------------------------------------
  // Voice selection

  const PreferredVoiceMarks: seq<string> := ["Female", "Woman", "Samantha", "Karen"]

  /** The voice name contains one of the female-voice marks (case-sensitive). */
  predicate IsPreferredVoice(name: string)
  {
    exists m | m in PreferredVoiceMarks :: Contains(name, m)
  }

  /** Index of the first preferred voice, or `|voices|` when there is none. */
  function FirstPreferred(voices: seq<string>): (i: nat)
    ensures i <= |voices|
    ensures i < |voices| ==> IsPreferredVoice(voices[i])
    ensures forall k :: 0 <= k < i ==> !IsPreferredVoice(voices[k])
  {
    if voices == [] then 0
    else if IsPreferredVoice(voices[0]) then 0
    else 1 + FirstPreferred(voices[1..])
  }

  /**
   * `loadVoices`: the first voice whose name carries a female-voice mark,
   * otherwise the first voice, otherwise none.
   */
  function SelectVoice(voices: seq<string>): (r: Option<string>)
    ensures r.None? <==> voices == []
    ensures forall i :: (0 <= i < |voices| && IsPreferredVoice(voices[i]) &&
      forall k :: 0 <= k < i ==> !IsPreferredVoice(voices[k])) ==> r == Some(voices[i])
    ensures (forall k :: 0 <= k < |voices| ==> !IsPreferredVoice(voices[k])) && voices != [] ==>
      r == Some(voices[0])
  {
    var i := FirstPreferred(voices);
    if i < |voices| then Some(voices[i])
    else if voices != [] then Some(voices[0])
    else None
  }

  // ---------------------------------------------------------------------
  // Word counting

  /** `transcript.toLowerCase().split(' ')`. */
  function Words(transcript: string): seq<string>
  {
    Split(Lower(transcript), ' ')
  }

  /** The words that are counted, in order: those longer than three characters. */
  function Meaningful(ws: seq<string>): (r: seq<string>)
    ensures forall k :: 0 <= k < |r| ==> |r[k]| > MinWordLength
  {
    if ws == [] then []
    else Meaningful(ws[..|ws| - 1]) + (if |ws[|ws| - 1]| > MinWordLength then [ws[|ws| - 1]] else [])
  }

  lemma MeaningfulSnoc(ws: seq<string>, w: string)
    ensures Meaningful(ws + [w]) == Meaningful(ws) + (if |w| > MinWordLength then [w] else [])
  {
    assert (ws + [w])[..|ws|] == ws;
  }

  lemma {:induction false} MeaningfulOccurrences(ws: seq<string>, v: string)
    ensures Occurrences(Meaningful(ws), v) == if |v| > MinWordLength then Occurrences(ws, v) else 0
  {
    if ws != [] {
      MeaningfulOccurrences(ws[..|ws| - 1], v);
      assert ws == ws[..|ws| - 1] + [ws[|ws| - 1]];
    }
  }

  /**
   * Learning from one transcript adds to each word's count exactly the
   * number of times it occurs among the transcript's lower-cased words when
   * it is longer than three characters, and changes no other count. Empty
   * tokens from repeated spaces are therefore never counted.
   */
  lemma LearnedCount(t: seq<Entry<string>>, transcript: string, v: string)
    ensures Lookup(BumpAll(t, Meaningful(Words(transcript))), v) ==
      Lookup(t, v) + (if |v| > MinWordLength then Occurrences(Words(transcript), v) else 0)
  {
    BumpAllLookup(t, Meaningful(Words(transcript)), v);
    MeaningfulOccurrences(Words(transcript), v);
  }

  // ---------------------------------------------------------------------
  // Success rate and sensitivity

  /** `successful / (successful + failed) || 0`. */
  function SuccessRate(successes: nat, failures: nat): (r: real)
    ensures 0.0 <= r <= 1.0
    ensures successes + failures == 0 ==> r == 0.0
    ensures successes + failures > 0 ==> r * (successes + failures) as real == successes as real
  {
    if successes + failures == 0 then 0.0 else successes as real / (successes + failures) as real
  }

  /**
   * The sensitivity rule: one alternative when the success rate is below
   * one half, three otherwise. With no attempts the JavaScript division
   * gives NaN, which is not below one half, hence three.
   */
  function MaxAlternativesFor(successes: nat, failures: nat): (m: nat)
    ensures m == 1 || m == 3
    ensures m == 1 <==> successes < failures
  {
    if successes + failures == 0 then 3
    else
      var rate := successes as real / (successes + failures) as real;
      BelowHalf(successes as real, (successes + failures) as real);
      if rate < 0.5 then 1 else 3
  }

  lemma BelowHalf(x: real, d: real)
    requires d > 0.0
    ensures x / d < 0.5 <==> 2.0 * x < d
  {
    var q := x / d;
    assert q * d == x;
    if q < 0.5 {
      assert (0.5 - q) * d > 0.0;
    } else {
      assert (q - 0.5) * d >= 0.0;
    }
  }

  /** The rate after a `no-speech` error: one tenth slower, but never below the floor. */
  function NoSpeechRate(rate: int): (r: int)
    ensures r >= MinRate && r >= rate - 1
    ensures r == MinRate || r == rate - 1
  {
    Max(MinRate, rate - 1)
  }

  // ---------------------------------------------------------------------
  // Prosody

  /**
   * The one-shot overrides `speak` applies for an emotion tag; an unknown
   * tag, like `neutral`, keeps the baseline.
   */
  function EmotionProsody(base: VoiceSettings, emotion: string): (p: Prosody)
    ensures emotion == "positive" ==>
      p.rate <= 12 && p.pitch <= 13 && p.volume <= 10 &&
      p.rate == Min(12, base.rate + 2) && p.pitch == Min(13, base.pitch + 3) && p.volume == Min(10, base.volume + 1)
    ensures emotion == "negative" ==>
      p.rate >= 6 && p.pitch >= 7 && p.volume >= 6 &&
      p.rate == Max(6, base.rate - 2) && p.pitch == Max(7, base.pitch - 2) && p.volume == Max(6, base.volume - 1)
    ensures emotion == "excited" ==>
      p.rate <= 13 && p.pitch <= 14 && p.volume == base.volume &&
      p.rate == Min(13, base.rate + 3) && p.pitch == Min(14, base.pitch + 4)
    ensures emotion !in {"positive", "negative", "excited"} ==>
      p == Prosody(base.rate, base.pitch, base.volume)
  {
    match emotion
    case "positive" => Prosody(Min(12, base.rate + 2), Min(13, base.pitch + 3), Min(10, base.volume + 1))
    case "negative" => Prosody(Max(6, base.rate - 2), Max(7, base.pitch - 2), Max(6, base.volume - 1))
    case "excited" => Prosody(Min(13, base.rate + 3), Min(14, base.pitch + 4), base.volume)
    case _ => Prosody(base.rate, base.pitch, base.volume)
  }

  /**
   * From any baseline the adapter can be in (rate 0.7 to 0.9, pitch 1.0,
   * volume 0.8), a positive tag speeds up and raises, a negative one slows
   * down and lowers, and an excited one speeds up and raises at the same
   * volume, each within its clamp.
   */
  lemma ProsodyDirection(base: VoiceSettings)
    requires MinRate <= base.rate <= DefaultRate && base.pitch == DefaultPitch && base.volume == DefaultVolume
    ensures var p := EmotionProsody(base, "positive");
      base.rate < p.rate <= 12 && base.pitch < p.pitch <= 13 && base.volume < p.volume <= 10
    ensures var p := EmotionProsody(base, "negative");
      6 <= p.rate < base.rate && 7 <= p.pitch < base.pitch && 6 <= p.volume < base.volume
    ensures var p := EmotionProsody(base, "excited");
      base.rate < p.rate <= 13 && base.pitch < p.pitch <= 14 && p.volume == base.volume
  {
  }

  // ---------------------------------------------------------------------
  // Natural pauses

  predicate IsPausePunctuation(c: char)
  {
    c == '.' || c == '?' || c == '!' || c == ',' || c == ';'
  }

  /** `s.replace(/c/g, by)` for a single character `c`. */
  function ReplaceAll(s: string, c: char, with: string): string
  {
    if s == [] then [] else (if s[0] == c then with else [s[0]]) + ReplaceAll(s[1..], c, with)
  }

  /** `addNaturalPauses`, as the five replacements the source chains. */
  function AddNaturalPauses(text: string): string
  {
    ReplaceAll(ReplaceAll(ReplaceAll(ReplaceAll(ReplaceAll(
      text, '.', ". "), '?', "? "), '!', "! "), ',', ", "), ';', "; ")
  }

  /** Reference definition: one pass that writes a space after each pause mark. */
  function PauseAfter(s: string): string
  {
    if s == [] then []
    else (if IsPausePunctuation(s[0]) then [s[0], ' '] else [s[0]]) + PauseAfter(s[1..])
  }

  /** Number of pause marks in `s`. */
  function PunctuationCount(s: string): nat
  {
    if s == [] then 0 else (if IsPausePunctuation(s[0]) then 1 else 0) + PunctuationCount(s[1..])
  }

  lemma {:induction false} ReplaceAllAppend(a: string, b: string, c: char, with: string)
    ensures ReplaceAll(a + b, c, with) == ReplaceAll(a, c, with) + ReplaceAll(b, c, with)
  {
    if a != [] {
      ReplaceAllAppend(a[1..], b, c, with);
      assert (a + b)[1..] == a[1..] + b;
    } else {
      assert a + b == b;
    }
  }

  lemma AddNaturalPausesAppend(a: string, b: string)
    ensures AddNaturalPauses(a + b) == AddNaturalPauses(a) + AddNaturalPauses(b)
  {
    var s1a, s1b := ReplaceAll(a, '.', ". "), ReplaceAll(b, '.', ". ");
    ReplaceAllAppend(a, b, '.', ". ");
    var s2a, s2b := ReplaceAll(s1a, '?', "? "), ReplaceAll(s1b, '?', "? ");
    ReplaceAllAppend(s1a, s1b, '?', "? ");
    var s3a, s3b := ReplaceAll(s2a, '!', "! "), ReplaceAll(s2b, '!', "! ");
    ReplaceAllAppend(s2a, s2b, '!', "! ");
    var s4a, s4b := ReplaceAll(s3a, ',', ", "), ReplaceAll(s3b, ',', ", ");
    ReplaceAllAppend(s3a, s3b, ',', ", ");
    ReplaceAllAppend(s4a, s4b, ';', "; ");
  }

  lemma ReplaceAllSingle(x: char, c: char, with: string)
    ensures ReplaceAll([x], c, with) == if x == c then with else [x]
  {
    assert [x][1..] == [];
  }

  /** On a string with no `c`, replacing `c` changes nothing. */
  lemma ReplaceAllAbsent(s: string, c: char, with: string)
    requires c !in s
    ensures ReplaceAll(s, c, with) == s
  {
  }

  lemma AddNaturalPausesChar(x: char)
    ensures AddNaturalPauses([x]) == if IsPausePunctuation(x) then [x, ' '] else [x]
  {
    var s := [x];
    var s1 := ReplaceAll(s, '.', ". ");
    ReplaceAllSingle(x, '.', ". ");
    var s2 := ReplaceAll(s1, '?', "? ");
    if x == '.' { ReplaceAllAbsent(s1, '?', "? "); } else { ReplaceAllSingle(x, '?', "? "); }
    assert s2 == if x == '?' then "? " else s1;
    var s3 := ReplaceAll(s2, '!', "! ");
    if x == '.' || x == '?' { ReplaceAllAbsent(s2, '!', "! "); } else { ReplaceAllSingle(x, '!', "! "); }
    assert s3 == if x == '!' then "! " else s2;
    var s4 := ReplaceAll(s3, ',', ", ");
    if x == '.' || x == '?' || x == '!' { ReplaceAllAbsent(s3, ',', ", "); } else { ReplaceAllSingle(x, ',', ", "); }
    assert s4 == if x == ',' then ", " else s3;
    if IsPausePunctuation(x) && x != ';' { ReplaceAllAbsent(s4, ';', "; "); } else { ReplaceAllSingle(x, ';', "; "); }
  }

  /**
   * The chain of five replacements is the one-pass transform: each `.`,
   * `?`, `!`, `,` and `;` gets exactly one space after it and every other
   * character stays, in order. (The inserted spaces are never themselves
   * replaced, so the order of the chain does not matter.)
   */
  lemma {:induction false} AddNaturalPausesIsPauseAfter(s: string)
    ensures AddNaturalPauses(s) == PauseAfter(s)
  {
    if s != [] {
      AddNaturalPausesIsPauseAfter(s[1..]);
      assert s == [s[0]] + s[1..];
      AddNaturalPausesAppend([s[0]], s[1..]);
      AddNaturalPausesChar(s[0]);
    }
  }

  /** The output is as long as the input plus one per pause mark. */
  lemma {:induction false} AddNaturalPausesLength(s: string)
    ensures |AddNaturalPauses(s)| == |s| + PunctuationCount(s)
  {
    AddNaturalPausesIsPauseAfter(s);
    PauseAfterLength(s);
  }

  lemma {:induction false} PauseAfterLength(s: string)
    ensures |PauseAfter(s)| == |s| + PunctuationCount(s)
  {
    if s != [] {
      PauseAfterLength(s[1..]);
    }
  }

  /** The transform is not idempotent: a second pass adds a second space after a full stop. */
  lemma AddNaturalPausesNotIdempotent()
    ensures AddNaturalPauses(".") == ". "
    ensures AddNaturalPauses(AddNaturalPauses(".")) == ".  "
  {
    AddNaturalPausesIsPauseAfter(".");
    AddNaturalPausesIsPauseAfter(". ");
    assert PauseAfter(". ") == ". " + PauseAfter(" ");
  }

  // ---------------------------------------------------------------------
  // The adapter object

  class AdvancedVoiceProcessor {
    /** Whether the platform offers speech recognition and speech synthesis. */
    const hasRecognition: bool
    const hasSynthesis: bool
    var isListening: bool
    var voiceSettings: VoiceSettings
    /** The recognizer's `maxAlternatives`. */
    var maxAlternatives: nat
    var successfulRecognitions: nat
    var failedRecognitions: nat
    var userPreferences: map<string, string>
    /** The `commonPhrases` map, in insertion order. */
    var commonPhrases: seq<Entry<string>>

    /**
     * The rate stays between its floor and the default, pitch and volume
     * keep their defaults, the recognizer asks for one or three
     * alternatives, and the phrase table holds distinct words longer than
     * three characters with positive counts.
     */
    ghost predicate Valid()
      reads this
    {
      && MinRate <= voiceSettings.rate <= DefaultRate
      && voiceSettings.pitch == DefaultPitch
      && voiceSettings.volume == DefaultVolume
      && (maxAlternatives == 1 || maxAlternatives == 3)
      && DistinctKeys(commonPhrases)
      && Positive(commonPhrases)
      && forall i :: 0 <= i < |commonPhrases| ==> |commonPhrases[i].key| > MinWordLength
    }

    /** `constructor` and `init`, with `loadVoices` run when synthesis exists. */
    constructor (hasRecognition: bool, hasSynthesis: bool, voices: seq<string>)
      ensures Valid()
      ensures this.hasRecognition == hasRecognition && this.hasSynthesis == hasSynthesis
      ensures !isListening
      ensures voiceSettings == VoiceSettings(DefaultRate, DefaultPitch, DefaultVolume,
        if hasSynthesis then SelectVoice(voices) else None)
      ensures maxAlternatives == 3
      ensures successfulRecognitions == 0 && failedRecognitions == 0
      ensures userPreferences == map[] && commonPhrases == []
    {
      this.hasRecognition := hasRecognition;
      this.hasSynthesis := hasSynthesis;
      isListening := false;
      voiceSettings := VoiceSettings(DefaultRate, DefaultPitch, DefaultVolume,
        if hasSynthesis then SelectVoice(voices) else None);
      maxAlternatives := 3;
      successfulRecognitions := 0;
      failedRecognitions := 0;
      userPreferences := map[];
      commonPhrases := [];
    }

    /** The recognizer's `onstart` callback. */
    method OnStart()
      modifies this`isListening
      ensures isListening
    {
      isListening := true;
    }

    /** The recognizer's `onend` callback. */
    method OnEnd()
      modifies this`isListening
      ensures !isListening
    {
      isListening := false;
    }

    /**
     * A finalized recognition result: one more success, every word of the
     * transcript longer than three characters counted, and, when the
     * confidence is below 0.7, the alternatives count re-derived from the
     * success rate (which now has at least one attempt behind it).
     */
    method HandleRecognitionResult(transcript: string, confidence: real) returns (outcome: RecognitionOutcome)
      requires Valid()
      modifies this
      ensures Valid()
      ensures outcome == RecognitionOutcome(transcript, confidence)
      ensures successfulRecognitions == old(successfulRecognitions) + 1
      ensures failedRecognitions == old(failedRecognitions)
      ensures commonPhrases == BumpAll(old(commonPhrases), Meaningful(Words(transcript)))
      ensures maxAlternatives == if confidence < LowConfidence
        then MaxAlternativesFor(successfulRecognitions, failedRecognitions)
        else old(maxAlternatives)
      ensures voiceSettings == old(voiceSettings) && userPreferences == old(userPreferences)
      ensures isListening == old(isListening)
    {
      successfulRecognitions := successfulRecognitions + 1;
      LearnPhrases(Split(Lower(transcript), ' '));
      if confidence < LowConfidence {
        AdjustRecognitionSensitivity();
      }
      outcome := RecognitionOutcome(transcript, confidence);
    }

    /** The `forEach` over the words: each word longer than three characters is counted once more. */
    method LearnPhrases(words: seq<string>)
      requires DistinctKeys(commonPhrases) && Positive(commonPhrases)
      requires forall i :: 0 <= i < |commonPhrases| ==> |commonPhrases[i].key| > MinWordLength
      modifies this`commonPhrases
      ensures commonPhrases == BumpAll(old(commonPhrases), Meaningful(words))
      ensures DistinctKeys(commonPhrases) && Positive(commonPhrases)
      ensures forall i :: 0 <= i < |commonPhrases| ==> |commonPhrases[i].key| > MinWordLength
    {
      ghost var start := commonPhrases;
      var i := 0;
      while i < |words|
        invariant 0 <= i <= |words|
        invariant commonPhrases == BumpAll(start, Meaningful(words[..i]))
      {
        var word := words[i];
        assert words[..i + 1] == words[..i] + [word];
        LearnStep(start, words[..i], word);
        if |word| > MinWordLength {
          commonPhrases := Bump(commonPhrases, word);
        }
        i := i + 1;
      }
      assert words[..|words|] == words;
      PhrasesStayValid(old(commonPhrases), Meaningful(words));
    }

    /** Learning one more word bumps it when it is long enough and changes nothing otherwise. */
    static lemma LearnStep(t: seq<Entry<string>>, ws: seq<string>, w: string)
      ensures BumpAll(t, Meaningful(ws + [w])) ==
        if |w| > MinWordLength then Bump(BumpAll(t, Meaningful(ws)), w) else BumpAll(t, Meaningful(ws))
    {
      MeaningfulSnoc(ws, w);
      if |w| > MinWordLength {
        BumpAllSnoc(t, Meaningful(ws), w);
      } else {
        assert Meaningful(ws + [w]) == Meaningful(ws);
      }
    }

    /** The table after learning still holds distinct, positive, long words. */
    static lemma PhrasesStayValid(t: seq<Entry<string>>, ws: seq<string>)
      requires DistinctKeys(t) && Positive(t)
      requires forall i :: 0 <= i < |t| ==> |t[i].key| > MinWordLength
      requires forall k :: 0 <= k < |ws| ==> |ws[k]| > MinWordLength
      ensures DistinctKeys(BumpAll(t, ws)) && Positive(BumpAll(t, ws))
      ensures forall i :: 0 <= i < |BumpAll(t, ws)| ==> |BumpAll(t, ws)[i].key| > MinWordLength
    {
      BumpAllDistinct(t, ws);
      BumpAllPositive(t, ws);
      BumpAllKeys(t, ws);
      var r := BumpAll(t, ws);
      forall i | 0 <= i < |r| ensures |r[i].key| > MinWordLength {
        assert r[i].key == KeysOf(r)[i];
        assert r[i].key in KeysOf(t) || r[i].key in ws;
      }
    }

    /** A recognition error: one more failure; `no-speech` slows the rate down to its floor. */
    method HandleRecognitionError(error: string)
      requires Valid()
      modifies this
      ensures Valid()
      ensures failedRecognitions == old(failedRecognitions) + 1
      ensures successfulRecognitions == old(successfulRecognitions)
      ensures voiceSettings == if error == "no-speech"
        then old(voiceSettings).(rate := NoSpeechRate(old(voiceSettings).rate))
        else old(voiceSettings)
      ensures commonPhrases == old(commonPhrases) && maxAlternatives == old(maxAlternatives)
      ensures userPreferences == old(userPreferences) && isListening == old(isListening)
    {
      failedRecognitions := failedRecognitions + 1;
      match error {
        case "no-speech" =>
          voiceSettings := voiceSettings.(rate := Max(MinRate, voiceSettings.rate - 1));
        case "audio-capture" =>
        case "not-allowed" =>
        case _ =>
      }
    }

    /** `adjustRecognitionSensitivity`. */
    method AdjustRecognitionSensitivity()
      modifies this`maxAlternatives
      ensures maxAlternatives == MaxAlternativesFor(successfulRecognitions, failedRecognitions)
    {
      var successes, failures := successfulRecognitions, failedRecognitions;
      if successes + failures > 0 && successes as real / (successes + failures) as real < 0.5 {
        maxAlternatives := 1;
      } else {
        maxAlternatives := 3;
      }
    }

    /**
     * `startListening`: a start request reaches the platform only when a
     * recognizer exists and is not already listening; the result is whether
     * the platform accepted it.
     */
    method StartListening(platformAccepts: bool) returns (started: bool)
      ensures started <==> hasRecognition && !isListening && platformAccepts
    {
      if hasRecognition && !isListening {
        started := platformAccepts;
      } else {
        started := false;
      }
    }

    /** `stopListening`: whether a stop request is sent to the platform. */
    method StopListening() returns (stopRequested: bool)
      ensures stopRequested <==> hasRecognition && isListening
    {
      stopRequested := hasRecognition && isListening;
    }

    /**
     * `speak`: nothing without synthesis; otherwise the utterance carries the
     * paused text, the emotion's prosody over the baseline and the selected
     * voice. The baseline settings are left as they are.
     */
    method Speak(text: string, emotion: string) returns (u: Option<Utterance>)
      ensures u.None? <==> !hasSynthesis
      ensures u.Some? ==> u.value.text == PauseAfter(text)
      ensures u.Some? ==> u.value.prosody == EmotionProsody(voiceSettings, emotion)
      ensures u.Some? ==> u.value.voice == voiceSettings.voice
    {
      if !hasSynthesis {
        return None;
      }
      var prosody := EmotionProsody(voiceSettings, emotion);
      AddNaturalPausesIsPauseAfter(text);
      u := Some(Utterance(AddNaturalPauses(text), prosody, voiceSettings.voice));
    }

    /**
     * `getLearningStats`: the success rate (0 with no attempts), the number
     * of attempts, and at most ten phrases, most frequent first, ties in
     * insertion order, none left out more frequent than one kept.
     */
    function GetLearningStats(): (s: LearningStats)
      reads this
      ensures s.totalInteractions == successfulRecognitions + failedRecognitions
      ensures s.totalInteractions == 0 ==> s.successRate == 0.0
      ensures s.totalInteractions > 0 ==>
        s.successRate * s.totalInteractions as real == successfulRecognitions as real
      ensures |s.commonPhrases| <= TopPhrases
      ensures |s.commonPhrases| == if |commonPhrases| < TopPhrases then |commonPhrases| else TopPhrases
      ensures NonIncreasing(s.commonPhrases)
      ensures multiset(s.commonPhrases) <= multiset(commonPhrases)
      ensures forall e, i | e in multiset(commonPhrases) - multiset(s.commonPhrases) && 0 <= i < |s.commonPhrases| ::
        s.commonPhrases[i].count >= e.count
      ensures forall c: nat :: WithCount(s.commonPhrases, c) <= WithCount(commonPhrases, c)
    {
      TopProps(commonPhrases, TopPhrases);
      LearningStats(
        SuccessRate(successfulRecognitions, failedRecognitions),
        successfulRecognitions + failedRecognitions,
        Top(commonPhrases, TopPhrases))
    }

    /** `updateUserPreferences`: given keys are overwritten or added, no key is removed. */
    method UpdateUserPreferences(preferences: map<string, string>)
      modifies this`userPreferences
      ensures userPreferences.Keys == old(userPreferences).Keys + preferences.Keys
      ensures forall k :: k in preferences ==> userPreferences[k] == preferences[k]
      ensures forall k :: k in old(userPreferences) && k !in preferences ==>
        userPreferences[k] == old(userPreferences)[k]
    {
      userPreferences := userPreferences + preferences;
    }

    /** `isSupported`: both recognition and synthesis are present. */
    predicate IsSupported()
      ensures IsSupported() <==> hasRecognition && hasSynthesis
    {
      hasRecognition && hasSynthesis
    }
  }
}
