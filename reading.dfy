/** The reading-assessment page of app/reading-assessment/page.tsx: the
    language table, the recording flags and timer, the browser's media
    recorders, the analysis with its fixed fallback result, and the `m:ss`
    time format. */
module Reading {
  import opened Text
  import opened Outcomes

  // ------------------------------------------------------------ languages

  datatype Language = Hindi | Marathi | Tamil | Telugu | Gujarati | Bengali | Kannada | Malayalam | English

  /** The selector's entries, in order. */
  const Languages: seq<Language> := [Hindi, Marathi, Tamil, Telugu, Gujarati, Bengali, Kannada, Malayalam, English]

  /** The `value` string of a language entry. */
  function Value(l: Language): string
  {
    match l
    case Hindi => "hindi"
    case Marathi => "marathi"
    case Tamil => "tamil"
    case Telugu => "telugu"
    case Gujarati => "gujarati"
    case Bengali => "bengali"
    case Kannada => "kannada"
    case Malayalam => "malayalam"
    case English => "english"
  }

  function Label(l: Language): string
  {
    match l
    case Hindi => "हिंदी (Hindi)"
    case Marathi => "मराठी (Marathi)"
    case Tamil => "தமிழ் (Tamil)"
    case Telugu => "తెలుగు (Telugu)"
    case Gujarati => "ગુજરાતી (Gujarati)"
    case Bengali => "বাংলা (Bengali)"
    case Kannada => "ಕನ್ನಡ (Kannada)"
    case Malayalam => "മലയാളം (Malayalam)"
    case English => "English"
  }

  /** `languages.find((l) => l.value === value)`: the first entry with that
      value. */
  function FindLanguage(value: string): (r: Option<Language>)
    ensures r.Some? ==> Value(r.value) == value
    ensures r.None? ==> forall l :: Value(l) != value
  {
    FindIn(Languages, value)
  }

  function FindIn(ls: seq<Language>, value: string): (r: Option<Language>)
    ensures r.Some? ==> r.value in ls && Value(r.value) == value
    ensures r.None? ==> forall l :: l in ls ==> Value(l) != value
  {
    if ls == [] then None
    else if Value(ls[0]) == value then Some(ls[0])
    else FindIn(ls[1..], value)
  }

  /** Looking a language up by its own value finds that language: the
      values are distinct and every language is in the table. */
  lemma FindLanguageValue(l: Language)
    ensures FindLanguage(Value(l)) == Some(l)
  {
    match l
    case Hindi =>
    case Marathi =>
    case Tamil =>
    case Telugu =>
    case Gujarati =>
    case Bengali =>
    case Kannada =>
    case Malayalam =>
    case English =>
  }

  /** `languages.find(...)?.label` inside a template string: the label, or
      "undefined" when no entry has that value. */
  function LabelOf(value: string): string
  {
    match FindLanguage(value)
    case Some(l) => Label(l)
    case None => "undefined"
  }

  /** The `readingTexts` entry of a language; the passage itself is not part
      of this model. */
  datatype ReadingText = ReadingText(title: string, difficulty: string, expectedWpm: nat)

  function ReadingTextFor(l: Language): ReadingText
  {
    match l
    case Hindi => ReadingText("गांव की कहानी", "Medium", 80)
    case Marathi => ReadingText("शेतकऱ्याची गोष्ट", "Medium", 75)
    case Tamil => ReadingText("விவசாயியின் கதை", "Medium", 70)
    case Telugu => ReadingText("రైతు కథ", "Medium", 75)
    case Gujarati => ReadingText("ખેડૂતની વાર્તા", "Medium", 70)
    case Bengali => ReadingText("কৃষকের গল্প", "Medium", 75)
    case Kannada => ReadingText("ರೈತನ ಕಥೆ", "Medium", 70)
    case Malayalam => ReadingText("കർഷകന്റെ കഥ", "Medium", 70)
    case English => ReadingText("The Farmer's Story", "Easy", 120)
  }

  // -------------------------------------------------------- transcription

  /** A simulated transcript: the sample sentence of the named language. */
  datatype Transcript = SampleOf(language: Language)

  /** The words of each sample; the proofs only need to know which sample
      a transcript is. */
  function SampleText(t: Transcript): string
  {
    match t.language
    case Hindi => "एक छोटे से गांव में राम नाम का एक लड़का रहता था। वह बहुत मेहनती और ईमानदार था।"
    case Marathi => "एका छोट्या गावात रामू नावाचा एक शेतकरी राहत होता. तो खूप मेहनती आणि प्रामाणिक होता."
    case Tamil => "ஒரு சிறிய கிராமத்தில் ராமு என்ற விவசாயி வாழ்ந்து வந்தான். அவன் மிகவும் உழைப்பாளி மற்றும் நேர்மையானவன்."
    case _ => "In a small village, there lived a farmer named Ramu. He was very hardworking and honest."
  }

  /** `sampleTranscriptions[value]`: only four languages have a sample. */
  function TranscriptSample(l: Language): Option<Transcript>
  {
    match l
    case Hindi | Marathi | Tamil | English => Some(SampleOf(l))
    case _ => None
  }

  /** `simulateTranscription`: the language's sample, or the English one. */
  function SimulateTranscription(l: Language): Transcript
  {
    match TranscriptSample(l)
    case Some(t) => t
    case None => TranscriptSample(English).value
  }

  /** Hindi, Marathi, Tamil and English are transcribed as their own sample,
      and every other language as the English sample. */
  lemma TranscriptionFallback(l: Language)
    ensures SimulateTranscription(l) == SampleOf(if TranscriptSample(l).Some? then l else English)
    ensures TranscriptSample(l).Some? <==> l == Hindi || l == Marathi || l == Tamil || l == English
  {
  }

  // ------------------------------------------------------------- analysis

  datatype AssessmentResult = AssessmentResult(
    overallScore: int, fluency: int, pronunciation: int, pace: int, accuracy: int,
    wordsPerMinute: int,
    languageSpecificFeedback: seq<string>, generalFeedback: seq<string>,
    suggestions: seq<string>, strengths: seq<string>, areasForImprovement: seq<string>)

  /** One `analyzeReadingWithLanguage(transcript, language, reference)` call;
      the reference passage is determined by the language. */
  datatype AnalysisCall = AnalysisCall(transcript: Transcript, language: string)

  /** The sample result shown when the analysis fails. */
  function FallbackResult(l: Language): AssessmentResult
  {
    AssessmentResult(
      82, 85, 78, 84, 88,
      ReadingTextFor(l).expectedWpm - 10,
      [ "Good pronunciation of " + LabelOf(Value(l)) + " sounds",
        "Proper intonation maintained throughout",
        "Some difficulty with complex consonant clusters" ],
      ["Excellent reading fluency", "Good pace and rhythm", "Clear articulation of most words"],
      [ "Practice reading complex words slowly",
        "Focus on maintaining consistent pace",
        "Work on specific language sounds" ],
      ["Natural reading flow", "Good comprehension evident", "Confident delivery"],
      [ "Pronunciation of specific sounds",
        "Reading speed consistency",
        "Expression and intonation" ])
  }

  /** The fallback reports an overall score of 82 and a reading rate ten
      words per minute below the language's expected rate (so between 60
      and 110), and its first remark names the selected language's label. */
  lemma FallbackResultFor(l: Language)
    ensures FallbackResult(l).overallScore == 82
    ensures FallbackResult(l).wordsPerMinute + 10 == ReadingTextFor(l).expectedWpm
    ensures 60 <= FallbackResult(l).wordsPerMinute <= 110
    ensures FallbackResult(l).languageSpecificFeedback[0] == "Good pronunciation of " + Label(l) + " sounds"
  {
    FindLanguageValue(l);
  }

  // ------------------------------------------------------------ the timer

  /** `formatTime`: whole minutes, a colon, and the remaining seconds padded
      to two digits. */
  function FormatTime(seconds: nat): string
  {
    NatToString(seconds / 60) + ":" + PadStart2(NatToString(seconds % 60))
  }

  /** The display reads back as the time: a decimal number of minutes, a
      colon, and exactly two digits of seconds below 60. */
  lemma FormatTimeMeaning(seconds: nat)
    ensures var r := FormatTime(seconds);
      && |r| >= 4 && r[|r| - 3] == ':'
      && AllDigits(r[..|r| - 3]) && AllDigits(r[|r| - 2..])
      && ParseDigits(r[|r| - 2..]) < 60
      && ParseDigits(r[..|r| - 3]) * 60 + ParseDigits(r[|r| - 2..]) == seconds
  {
    var mins, secs := NatToString(seconds / 60), NatToString(seconds % 60);
    ParseNatToString(seconds / 60);
    ParseNatToString(seconds % 60);
    if seconds % 60 >= 10 {
      assert |secs| == 2 by {
        assert NatToString(seconds % 60 / 10) == [DigitChar(seconds % 60 / 10)];
      }
    } else {
      ParseDigitsLeadingZero(secs);
    }
    var r := FormatTime(seconds);
    assert r[..|r| - 3] == mins && r[|r| - 2..] == PadStart2(secs);
  }

  /** Distinct times are displayed differently. */
  lemma FormatTimeInjective(s: nat, t: nat)
    requires FormatTime(s) == FormatTime(t)
    ensures s == t
  {
    FormatTimeMeaning(s);
    FormatTimeMeaning(t);
  }

  lemma FormatTimeExamples()
    ensures FormatTime(65) == "1:05" && FormatTime(60) == "1:00" && FormatTime(9) == "0:09"
  {
    assert NatToString(5) == "5";
  }

  // ------------------------------------------------------------- the page

  const MicrophoneError := "Could not access microphone. Please check permissions."

  class ReadingAssessment {
    var selectedLanguage: Language
    var isRecording: bool
    var hasRecording: bool
    var isAnalyzing: bool
    var assessmentResult: Option<AssessmentResult>
    var recordingTime: int
    var error: string
    /** Every `MediaRecorder` the page has created, in creation order: true
        while its state is "recording". */
    var recorders: seq<bool>
    /** The `mediaRecorder` state: which recorder, if any. */
    var mediaRecorder: Option<nat>
    /** The `audioBlob` state: the recorder whose recording it holds. */
    var audioBlob: Option<nat>
    /** The intervals still running, each with the `mediaRecorder` value its
        auto-stop sees: the one of the render that started it. */
    var timers: seq<Option<nat>>

    /** A recorder reference names a recorder that exists. */
    predicate Names(o: Option<nat>)
      reads this
    {
      o.None? || o.value < |recorders|
    }

    /** The timer never shows more than 60 seconds, and every reference
        names an existing recorder. */
    ghost predicate Valid()
      reads this
    {
      && 0 <= recordingTime <= 60
      && Names(mediaRecorder) && Names(audioBlob)
      && forall k :: 0 <= k < |timers| ==> Names(timers[k])
    }

    /** The reference names a recorder whose state is "recording". */
    predicate Live(o: Option<nat>)
      reads this
    {
      o.Some? && o.value < |recorders| && recorders[o.value]
    }

    /** The guard of `handleAnalyzeReading`. */
    predicate CanAnalyze()
      reads this
    {
      hasRecording && audioBlob.Some?
    }

    constructor ()
      ensures Valid()
      ensures selectedLanguage == Hindi && !isRecording && !hasRecording && !isAnalyzing
      ensures assessmentResult == None && recordingTime == 0 && error == ""
      ensures recorders == [] && mediaRecorder == None && audioBlob == None && timers == []
    {
      selectedLanguage := Hindi;
      isRecording, hasRecording, isAnalyzing := false, false, false;
      assessmentResult, recordingTime, error := None, 0, "";
      recorders, mediaRecorder, audioBlob, timers := [], None, None, [];
    }

    /** `handleLanguageChange`: selects the language and clears the flags,
        the result, the time, the error and the blob. The recorder and the
        running timers are left alone. */
    method HandleLanguageChange(language: Language)
      requires Valid()
      modifies this
      ensures Valid()
      ensures selectedLanguage == language
      ensures !isRecording && !hasRecording && assessmentResult == None
      ensures recordingTime == 0 && error == "" && audioBlob == None
      ensures isAnalyzing == old(isAnalyzing) && recorders == old(recorders)
      ensures mediaRecorder == old(mediaRecorder) && timers == old(timers)
    {
      selectedLanguage := language;
      isRecording := false;
      hasRecording := false;
      assessmentResult := None;
      recordingTime := 0;
      error := "";
      audioBlob := None;
    }

    /** `handleStartRecording`. `micFails` says that opening the microphone
        or creating the recorder threw. Otherwise a new recorder starts, it
        becomes `mediaRecorder`, and an interval starts whose auto-stop sees
        `mediaRecorder` as it was before this call. */
    method HandleStartRecording(micFails: bool)
      requires Valid()
      modifies this
      ensures Valid()
      ensures micFails ==>
        && error == MicrophoneError
        && recorders == old(recorders) && timers == old(timers) && mediaRecorder == old(mediaRecorder)
        && isRecording == old(isRecording) && recordingTime == old(recordingTime)
      ensures !micFails ==>
        && error == ""
        && recorders == old(recorders) + [true] && timers == old(timers) + [old(mediaRecorder)]
        && mediaRecorder == Some(|old(recorders)|)
        && isRecording && recordingTime == 0
      ensures selectedLanguage == old(selectedLanguage) && hasRecording == old(hasRecording)
      ensures isAnalyzing == old(isAnalyzing) && assessmentResult == old(assessmentResult)
      ensures audioBlob == old(audioBlob)
    {
      if micFails {
        error := MicrophoneError;
        return;
      }
      var recorder := |recorders|;
      recorders := recorders + [true];
      timers := timers + [mediaRecorder];
      mediaRecorder := Some(recorder);
      isRecording := true;
      recordingTime := 0;
      error := "";
    }

    /** `handleStopRecording` as seen through the `mediaRecorder` value
        `target`: a recorder that is recording is stopped and its `onstop`
        stores its recording as the blob; then the page is not recording
        and has a recording. */
    method StopWith(target: Option<nat>)
      requires Valid() && Names(target)
      modifies this
      ensures Valid()
      ensures old(Live(target)) ==>
        recorders == old(recorders)[target.value := false] && audioBlob == target
      ensures !old(Live(target)) ==>
        recorders == old(recorders) && audioBlob == old(audioBlob)
      ensures !isRecording && hasRecording
      ensures selectedLanguage == old(selectedLanguage) && isAnalyzing == old(isAnalyzing)
      ensures assessmentResult == old(assessmentResult) && recordingTime == old(recordingTime)
      ensures error == old(error) && mediaRecorder == old(mediaRecorder) && timers == old(timers)
    {
      if Live(target) {
        recorders := recorders[target.value := false];
        audioBlob := target;
      }
      isRecording := false;
      hasRecording := true;
    }

    /** `handleStopRecording`, from the current render. */
    method HandleStopRecording()
      requires Valid()
      modifies this
      ensures Valid()
      ensures old(Live(mediaRecorder)) ==>
        recorders == old(recorders[mediaRecorder.value := false]) && audioBlob == old(mediaRecorder)
      ensures !old(Live(mediaRecorder)) ==>
        recorders == old(recorders) && audioBlob == old(audioBlob)
      ensures !isRecording && hasRecording
      ensures selectedLanguage == old(selectedLanguage) && isAnalyzing == old(isAnalyzing)
      ensures assessmentResult == old(assessmentResult) && recordingTime == old(recordingTime)
      ensures error == old(error) && mediaRecorder == old(mediaRecorder) && timers == old(timers)
    {
      StopWith(mediaRecorder);
    }

    /** One second of interval `k`, as written: below 60 the time goes up by
        one; at 60 the interval is cleared and the `handleStopRecording` of
        the render that started it runs, which sees that render's
        `mediaRecorder`. */
    method Tick(k: nat)
      requires Valid() && k < |timers|
      modifies this
      ensures Valid() && recordingTime <= 60
      ensures old(recordingTime) < 60 ==>
        recordingTime == old(recordingTime) + 1 && timers == old(timers)
        && recorders == old(recorders) && audioBlob == old(audioBlob)
        && isRecording == old(isRecording) && hasRecording == old(hasRecording)
      ensures old(recordingTime) >= 60 ==>
        var target := old(timers)[k];
        && recordingTime == old(recordingTime)
        && timers == old(timers)[..k] + old(timers)[k + 1..]
        && !isRecording && hasRecording
        && (old(Live(target)) ==>
              recorders == old(recorders)[target.value := false] && audioBlob == target)
        && (!old(Live(target)) ==>
              recorders == old(recorders) && audioBlob == old(audioBlob))
      ensures selectedLanguage == old(selectedLanguage) && isAnalyzing == old(isAnalyzing)
      ensures assessmentResult == old(assessmentResult) && error == old(error)
      ensures mediaRecorder == old(mediaRecorder)
    {
      if recordingTime >= 60 {
        var target := timers[k];
        timers := timers[..k] + timers[k + 1..];
        StopWith(target);
      } else {
        recordingTime := recordingTime + 1;
      }
    }

    /** The tick the comment "Auto-stop after 60 seconds" describes: at 60
        the interval is cleared and the CURRENT recorder is stopped. */
    method TickLiveStop(k: nat)
      requires Valid() && k < |timers|
      modifies this
      ensures Valid() && recordingTime <= 60
      ensures old(recordingTime) < 60 ==>
        recordingTime == old(recordingTime) + 1 && timers == old(timers)
        && recorders == old(recorders) && audioBlob == old(audioBlob)
        && isRecording == old(isRecording) && hasRecording == old(hasRecording)
      ensures old(recordingTime) >= 60 ==>
        && recordingTime == old(recordingTime)
        && timers == old(timers)[..k] + old(timers)[k + 1..]
        && !isRecording && hasRecording
        && !Live(mediaRecorder)
        && (old(Live(mediaRecorder)) ==>
              recorders == old(recorders[mediaRecorder.value := false]) && audioBlob == old(mediaRecorder))
        && (!old(Live(mediaRecorder)) ==> recorders == old(recorders) && audioBlob == old(audioBlob))
      ensures selectedLanguage == old(selectedLanguage) && isAnalyzing == old(isAnalyzing)
      ensures assessmentResult == old(assessmentResult) && error == old(error)
      ensures mediaRecorder == old(mediaRecorder)
    {
      if recordingTime >= 60 {
        timers := timers[..k] + timers[k + 1..];
        StopWith(mediaRecorder);
      } else {
        recordingTime := recordingTime + 1;
      }
    }

    /** `handleAnalyzeReading`. Without a recording or a blob nothing
        changes. Otherwise the simulated transcript of the selected language
        is sent to the analysis (answered by `analyze`); its result is shown,
        or on failure the error message and the fallback result; either way
        `isAnalyzing` ends false. */
    method HandleAnalyzeReading(analyze: AnalysisCall -> Outcome<AssessmentResult>)
      requires Valid()
      modifies this
      ensures Valid()
      ensures !old(CanAnalyze()) ==>
        isAnalyzing == old(isAnalyzing) && assessmentResult == old(assessmentResult) && error == old(error)
      ensures old(CanAnalyze()) ==> !isAnalyzing
      ensures old(CanAnalyze()) ==>
        var outcome := analyze(AnalysisCall(SimulateTranscription(selectedLanguage), Value(selectedLanguage)));
        match outcome
        case Resolved(result) => assessmentResult == Some(result) && error == ""
        case Rejected(e) =>
          assessmentResult == Some(FallbackResult(selectedLanguage))
          && error == MessageOr(e, "Failed to analyze reading")
      ensures selectedLanguage == old(selectedLanguage) && isRecording == old(isRecording)
      ensures hasRecording == old(hasRecording) && recordingTime == old(recordingTime)
      ensures recorders == old(recorders) && mediaRecorder == old(mediaRecorder)
      ensures audioBlob == old(audioBlob) && timers == old(timers)
    {
      if !hasRecording || audioBlob.None? {
        return;
      }
      isAnalyzing := true;
      error := "";
      var transcript := SimulateTranscription(selectedLanguage);
      var outcome := analyze(AnalysisCall(transcript, Value(selectedLanguage)));
      match outcome {
        case Resolved(result) =>
          assessmentResult := Some(result);
        case Rejected(e) =>
          error := MessageOr(e, "Failed to analyze reading");
          assessmentResult := Some(FallbackResult(selectedLanguage));
      }
      isAnalyzing := false;
    }

    /** `handleReset`: back to the idle page, forgetting the recorder (which
        is not stopped) while the timers keep running. */
    method HandleReset()
      requires Valid()
      modifies this
      ensures Valid()
      ensures !isRecording && !hasRecording && assessmentResult == None
      ensures recordingTime == 0 && error == "" && audioBlob == None && mediaRecorder == None
      ensures selectedLanguage == old(selectedLanguage) && isAnalyzing == old(isAnalyzing)
      ensures recorders == old(recorders) && timers == old(timers)
    {
      isRecording := false;
      hasRecording := false;
      assessmentResult := None;
      recordingTime := 0;
      error := "";
      audioBlob := None;
      mediaRecorder := None;
    }
  }

  // ------------------------------------------------------------- scenarios

  /** The first recording of a fresh page, left to run into the 60-second
      auto-stop, as written: the page shows a finished recording, but the
      recorder is still recording and there is no blob, so analysis is
      refused. */
  method AutoStopAsWritten() returns (page: ReadingAssessment)
    ensures page.Valid() && !page.isRecording && page.hasRecording
    ensures page.recorders == [true] && page.audioBlob == None
    ensures !page.CanAnalyze()
  {
    page := new ReadingAssessment();
    page.HandleStartRecording(false);
    var n := 0;
    while n < 60
      invariant 0 <= n <= 60 && page.Valid()
      invariant page.recordingTime == n && page.timers == [None]
      invariant page.recorders == [true] && page.audioBlob == None && !page.hasRecording
    {
      page.Tick(0);
      n := n + 1;
    }
    page.Tick(0);
  }

  /** The same run with the auto-stop stopping the current recorder: the
      recorder is stopped, its recording is the blob, and analysis may
      proceed. */
  method AutoStopIntended() returns (page: ReadingAssessment)
    ensures page.Valid() && !page.isRecording && page.hasRecording
    ensures page.recorders == [false] && page.audioBlob == Some(0)
    ensures page.CanAnalyze()
  {
    page := new ReadingAssessment();
    page.HandleStartRecording(false);
    var n := 0;
    while n < 60
      invariant 0 <= n <= 60 && page.Valid()
      invariant page.recordingTime == n && page.timers == [None] && page.mediaRecorder == Some(0)
      invariant page.recorders == [true] && page.audioBlob == None && !page.hasRecording
    {
      page.TickLiveStop(0);
      n := n + 1;
    }
    page.TickLiveStop(0);
  }
}
