/** The visual-aid page of app/visual-aid/page.tsx: a placeholder image URL
    built from the topic and the visual type, a generation handler that
    asks the AI client for an image prompt, the download file name and the
    library entry the page saves. */
module VisualAid {
  import opened Text
  import opened Outcomes
  import opened Uri
  import Library

  datatype VisualType = Diagram | Flowchart | Infographic | Illustration | MindMap | Timeline

  /** `visualTypes`, in the order of the select menu. */
  const VisualTypes: seq<VisualType> := [Diagram, Flowchart, Infographic, Illustration, MindMap, Timeline]

  function Value(v: VisualType): string
  {
    match v
    case Diagram => "diagram"
    case Flowchart => "flowchart"
    case Infographic => "infographic"
    case Illustration => "illustration"
    case MindMap => "map"
    case Timeline => "timeline"
  }

  function Label(v: VisualType): string
  {
    match v
    case Diagram => "Educational Diagram"
    case Flowchart => "Process Flowchart"
    case Infographic => "Infographic"
    case Illustration => "Concept Illustration"
    case MindMap => "Mind Map"
    case Timeline => "Timeline"
  }

  function Icon(v: VisualType): string
  {
    match v
    case Diagram => "\U{1F4CA}"
    case Flowchart => "\U{1F504}"
    case Infographic => "\U{1F4C8}"
    case Illustration => "\U{1F3A8}"
    case MindMap => "\U{1F5FA}\U{FE0F}"
    case Timeline => "\U{23F0}"
  }

  /** The bar-chart emoji the URL falls back to. */
  const DefaultEmoji := "\U{1F4CA}"

  /** `visualTypes.find((v) => v.value === type)`. */
  function FindType(value: string): (r: Option<VisualType>)
    ensures r.Some? ==> Value(r.value) == value
    ensures r.None? ==> forall v :: Value(v) != value
  {
    FindIn(VisualTypes, value)
  }

  function FindIn(vs: seq<VisualType>, value: string): (r: Option<VisualType>)
    ensures r.Some? ==> r.value in vs && Value(r.value) == value
    ensures r.None? ==> forall v :: v in vs ==> Value(v) != value
  {
    if vs == [] then None
    else if Value(vs[0]) == value then Some(vs[0])
    else FindIn(vs[1..], value)
  }

  /** `visualTypes.find(...)?.icon || "📊"`. */
  function TypeEmoji(visualType: string): string
  {
    match FindType(visualType)
    case Some(v) => if Icon(v) != "" then Icon(v) else DefaultEmoji
    case None => DefaultEmoji
  }

  /** Every listed type shows its own icon, and any other value the
      bar-chart emoji. */
  lemma TypeEmojiTable(v: VisualType, other: string)
    requires forall w :: Value(w) != other
    ensures TypeEmoji(Value(v)) == Icon(v)
    ensures TypeEmoji(other) == DefaultEmoji
  {
    match v
    case Diagram =>
    case Flowchart =>
    case Infographic =>
    case Illustration =>
    case MindMap =>
    case Timeline =>
  }

  // ------------------------------------------------------- placeholder URL

  const PlaceholderBase := "/placeholder.svg?height=400&width=600&text="

  /** How many code units of the prompt the URL keeps. */
  const PromptUnits := 50

  /** `generatePlaceholderImage` as written: `encodeURIComponent` of
      `prompt.substring(0, 50)`, which counts UTF-16 code units and so can
      end in the first half of a surrogate pair. */
  function PlaceholderAsWritten(prompt: string, visualType: string): Outcome<string>
  {
    match EncodeUnits(Substring(ToUtf16(prompt), PromptUnits))
    case Resolved(encoded) => Resolved(PlaceholderBase + TypeEmoji(visualType) + "+" + encoded)
    case Rejected(e) => Rejected(e)
  }

  /** `generatePlaceholderImage` keeping whole characters: the longest start
      of the prompt that fits in 50 code units, encoded. */
  function PlaceholderImage(prompt: string, visualType: string): string
  {
    PlaceholderBase + TypeEmoji(visualType) + "+" + Encode(Truncate(prompt, PromptUnits))
  }

  /** After the emoji and "+", the URL carries the prompt's first whole
      characters within 50 code units, encoded so that no "&" or "#" ends
      the `text` parameter early, and decoding it gives those characters
      back. */
  lemma PlaceholderReadsBack(prompt: string, visualType: string)
    ensures var url := PlaceholderImage(prompt, visualType);
      var k := |PlaceholderBase| + |TypeEmoji(visualType)| + 1;
      var kept := Truncate(prompt, PromptUnits);
      && |url| >= k && url[..k] == PlaceholderBase + TypeEmoji(visualType) + "+"
      && Decode(url[k..]) == Some(kept)
      && '&' !in url[k..] && '#' !in url[k..]
      && kept == prompt[..|kept|] && |ToUtf16(kept)| <= PromptUnits
  {
    var kept := Truncate(prompt, PromptUnits);
    var url := PlaceholderImage(prompt, visualType);
    var k := |PlaceholderBase| + |TypeEmoji(visualType)| + 1;
    assert url[k..] == Encode(kept);
    DecodeEncode(kept);
    EncodeAlphabet(kept);
  }

  /** Unless the cut at 50 code units splits a surrogate pair, the URL as
      written is the whole-character URL. */
  lemma PlaceholderAgrees(prompt: string, visualType: string)
    requires !SplitsPair(prompt, PromptUnits)
    ensures PlaceholderAsWritten(prompt, visualType) == Resolved(PlaceholderImage(prompt, visualType))
  {
    SubstringCases(prompt, PromptUnits);
    EncodeUnitsWellFormed(Truncate(prompt, PromptUnits));
  }

  /** When the cut splits a surrogate pair, `encodeURIComponent` throws
      "URI malformed" and the URL as written is never built. */
  lemma PlaceholderThrows(prompt: string, visualType: string)
    requires SplitsPair(prompt, PromptUnits)
    ensures PlaceholderAsWritten(prompt, visualType) == Rejected(ErrorObject(UriMalformed))
  {
    var t := Truncate(prompt, PromptUnits);
    SubstringCases(prompt, PromptUnits);
    EncodeUnitsLoneLeading(t, prompt[|t|]);
  }

  /** A prompt inside the Basic Multilingual Plane never splits a pair, and
      the URL keeps its first 50 characters, as `substring` does. */
  lemma PlaceholderBmp(prompt: string)
    requires forall i :: 0 <= i < |prompt| ==> !IsAstral(prompt[i])
    ensures !SplitsPair(prompt, PromptUnits)
    ensures Truncate(prompt, PromptUnits) == prompt[..if PromptUnits < |prompt| then PromptUnits else |prompt|]
  {
    TruncateBmp(prompt, PromptUnits);
  }

  /** A character outside the Basic Multilingual Plane that starts at code
      unit `n - 1` ends the truncation just before it. */
  lemma {:induction false} TruncateAtAstral(t: string, c: char, rest: string, n: nat)
    requires |ToUtf16(t)| == n - 1 && IsAstral(c)
    ensures Truncate(t + [c] + rest, n) == t
  {
    var s := t + [c] + rest;
    if t == [] {
      assert s[0] == c;
    } else {
      assert s[0] == t[0] && s[1..] == t[1..] + [c] + rest;
      TruncateAtAstral(t[1..], c, rest, n - |Utf16(t[0])|);
    }
  }

  /** Forty-nine letters and a globe emoji: the cut at 50 code units keeps
      only the first half of the globe's surrogate pair, so the URL as
      written is never built, while the whole-character URL keeps the
      forty-nine letters. */
  lemma SplitPairExample()
    ensures var letters := seq(49, _ => 'a');
      var prompt := letters + ['\U{1F30D}'];
      && PlaceholderAsWritten(prompt, "diagram") == Rejected(ErrorObject(UriMalformed))
      && Truncate(prompt, PromptUnits) == letters
      && Encode(letters) == letters
  {
    var letters := seq(49, _ => 'a');
    var prompt := letters + ['\U{1F30D}'];
    TruncateBmp(letters, 49);
    TruncateAtAstral(letters, '\U{1F30D}', [], PromptUnits);
    assert prompt == letters + ['\U{1F30D}'] + [];
    PlaceholderThrows(prompt, "diagram");
    EncodeUnreserved(letters);
  }

  // -------------------------------------------------------------- download

  /** `handleDownloadImage`: nothing without an image, otherwise the file
      "visual-aid-<slug of the topic>.png". */
  function DownloadName(topic: string, generatedImage: string): Option<string>
  {
    if generatedImage == "" then None else Some("visual-aid-" + Slug(topic) + ".png")
  }

  /** A download happens exactly when there is an image; its name starts
      with "visual-aid-", ends with ".png" and has no white space, and a
      topic without white space is only lower-cased. */
  lemma DownloadNameShape(topic: string, generatedImage: string)
    ensures DownloadName(topic, generatedImage).Some? <==> generatedImage != ""
    ensures DownloadName(topic, generatedImage).Some? ==>
      var name := DownloadName(topic, generatedImage).value;
      && StartsWith(name, "visual-aid-") && |name| >= 4 && name[|name| - 4..] == ".png"
      && NoSpace(name)
      && (NoSpace(topic) ==> name == "visual-aid-" + ToLower(topic) + ".png")
  {
    if generatedImage != "" {
      var name := "visual-aid-" + Slug(topic) + ".png";
      SlugShape(topic);
      assert name[..11] == "visual-aid-";
      assert name[|name| - 4..] == ".png";
      assert NoSpace("visual-aid-") by {
        forall i | 0 <= i < 11 ensures !IsSpace("visual-aid-"[i]) { }
      }
      assert NoSpace(".png") by {
        forall i | 0 <= i < 4 ensures !IsSpace(".png"[i]) { }
      }
      NoSpaceAppend("visual-aid-", Slug(topic));
      NoSpaceAppend("visual-aid-" + Slug(topic), ".png");
    }
  }

  // ------------------------------------------------------------------ save

  /** `imagePrompt || \`Visual aid for ${topic}\``: the saved content is
      never empty. */
  function SaveContent(imagePrompt: string, topic: string): (r: string)
    ensures r != []
    ensures imagePrompt != [] ==> r == imagePrompt
    ensures imagePrompt == [] ==> r == "Visual aid for " + topic
  {
    if imagePrompt != [] then imagePrompt else "Visual aid for " + topic
  }

  // -------------------------------------------------------------- the page

  class VisualAidPage {
    var topic: string
    var visualType: string
    var generatedImage: string
    var imagePrompt: string
    var isGenerating: bool
    var error: string

    constructor ()
      ensures topic == "" && visualType == Value(Diagram)
      ensures generatedImage == "" && imagePrompt == "" && !isGenerating && error == ""
    {
      topic, visualType := "", "diagram";
      generatedImage, imagePrompt := "", "";
      isGenerating, error := false, "";
    }

    /** `handleGenerateVisualAid`, as written. A blank topic (one whose
        `trim()` is empty, see `TrimEmptyIffAllSpace`) changes nothing.
        Otherwise the error, image and prompt are cleared and `promptFor` is
        asked for an image prompt for "<topic> - <type>". On success the
        prompt is kept and the placeholder is built from the topic (not from
        the AI's prompt): when the cut at 50 code units splits a surrogate
        pair, `encodeURIComponent` throws inside the same `try`, so the
        image stays empty and `error` holds the `URIError`'s message while
        the prompt stays set. When `promptFor` fails, the image and prompt
        stay empty and `error` holds its message. Generation always ends. */
    method HandleGenerateVisualAid(promptFor: string -> Outcome<string>)
      modifies this
      ensures AllSpace(old(topic)) ==>
        && generatedImage == old(generatedImage) && imagePrompt == old(imagePrompt)
        && isGenerating == old(isGenerating) && error == old(error)
      ensures !AllSpace(old(topic)) ==>
        var outcome := promptFor(old(topic) + " - " + old(visualType));
        && !isGenerating
        && (outcome.Resolved? ==>
              && imagePrompt == outcome.value
              && (!SplitsPair(old(topic), PromptUnits) ==>
                    generatedImage == PlaceholderImage(old(topic), old(visualType)) && error == "")
              && (SplitsPair(old(topic), PromptUnits) ==>
                    generatedImage == "" && error == UriMalformed))
        && (outcome.Rejected? ==>
              && imagePrompt == "" && generatedImage == ""
              && error == MessageOr(outcome.reason, "Failed to generate visual aid"))
      ensures topic == old(topic) && visualType == old(visualType)
    {
      if AllSpace(topic) {
        return;
      }
      isGenerating := true;
      error, generatedImage, imagePrompt := "", "", "";
      var outcome := promptFor(topic + " - " + visualType);
      match outcome {
        case Resolved(prompt) =>
          imagePrompt := prompt;
          var built := PlaceholderAsWritten(topic, visualType);
          if SplitsPair(topic, PromptUnits) {
            PlaceholderThrows(topic, visualType);
          } else {
            PlaceholderAgrees(topic, visualType);
          }
          match built {
            case Resolved(imageUrl) =>
              generatedImage := imageUrl;
            case Rejected(e) =>
              error := MessageOr(e, "Failed to generate visual aid");
          }
        case Rejected(e) =>
          error := MessageOr(e, "Failed to generate visual aid");
      }
      isGenerating := false;
    }

    /** `handleGenerateVisualAid` with the placeholder keeping whole
        characters: building the URL can no longer fail, so a resolved
        prompt always yields an image and no error. */
    method HandleGenerateWholeCharacters(promptFor: string -> Outcome<string>)
      modifies this
      ensures AllSpace(old(topic)) ==>
        && generatedImage == old(generatedImage) && imagePrompt == old(imagePrompt)
        && isGenerating == old(isGenerating) && error == old(error)
      ensures !AllSpace(old(topic)) ==>
        var outcome := promptFor(old(topic) + " - " + old(visualType));
        && !isGenerating
        && (outcome.Resolved? ==>
              && imagePrompt == outcome.value
              && generatedImage == PlaceholderImage(old(topic), old(visualType))
              && error == "")
        && (outcome.Rejected? ==>
              && imagePrompt == "" && generatedImage == ""
              && error == MessageOr(outcome.reason, "Failed to generate visual aid"))
      ensures topic == old(topic) && visualType == old(visualType)
    {
      if AllSpace(topic) {
        return;
      }
      isGenerating := true;
      error, generatedImage, imagePrompt := "", "", "";
      var outcome := promptFor(topic + " - " + visualType);
      match outcome {
        case Resolved(prompt) =>
          imagePrompt := prompt;
          var imageUrl := PlaceholderImage(topic, visualType);
          generatedImage := imageUrl;
        case Rejected(e) =>
          error := MessageOr(e, "Failed to generate visual aid");
      }
      isGenerating := false;
    }

    /** `handleSaveVisualAid`: one "visual-aid" item titled
        "Visual Aid: <topic>" with the prompt (or the fallback text) as
        content and the topic, type and image URL as metadata; a failed
        save leaves the store as it was. */
    method HandleSaveVisualAid(store: Library.LibraryStore, idClock: nat, createdAt: int, saveFails: bool)
      modifies store
      ensures !saveFails ==>
        store.storage == old(store.storage) + [Library.SavedItem(
          NatToString(idClock), Library.ItemType.VisualAid, "Visual Aid: " + topic,
          SaveContent(imagePrompt, topic),
          map["topic" := topic, "visualType" := visualType, "imageUrl" := generatedImage],
          createdAt, Library.DefaultUser)]
      ensures saveFails ==> store.storage == old(store.storage)
    {
      if saveFails {
        return;
      }
      var _ := store.SaveToLibrary(Library.ItemType.VisualAid, "Visual Aid: " + topic,
                                   SaveContent(imagePrompt, topic),
                                   map["topic" := topic, "visualType" := visualType, "imageUrl" := generatedImage],
                                   idClock, createdAt);
    }
  }
}
