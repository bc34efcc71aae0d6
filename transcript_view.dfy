/**
 The live transcript view: which of the two interim slots (the user's and
 the AI's) is emphasised, from the two speaking flags and the two interim
 texts, and which blocks are rendered.
 */
module TranscriptView {

  import opened Transcription

  /** The four inputs of one render. */
  datatype ViewInputs = ViewInputs(
    userIsSpeaking: bool,
    aiIsSpeaking: bool,
    currentUserText: string,
    currentAIText: string)

  const Large := "text-4xl"
  const Small := "text-lg"
  const Bright := "text-white"
  const Dim := "text-gray-500"

  /**
   The rule behind `userTextSize` and `userTextColor`: speaking wins; in the
   AI's silence, holding interim text is enough.
   */
  predicate UserFocused(v: ViewInputs)
    ensures v.userIsSpeaking ==> UserFocused(v)
    ensures !v.userIsSpeaking && v.aiIsSpeaking ==> !UserFocused(v)
    ensures !v.userIsSpeaking && !v.aiIsSpeaking ==> (UserFocused(v) <==> v.currentUserText != "")
  {
    v.userIsSpeaking || (!v.aiIsSpeaking && v.currentUserText != "")
  }

  /**
   The rule behind `aiTextSize` and `aiTextColor`: speaking wins; in the
   user's silence, holding interim text is enough.
   */
  predicate AIFocused(v: ViewInputs)
    ensures v.aiIsSpeaking ==> AIFocused(v)
    ensures !v.aiIsSpeaking && v.userIsSpeaking ==> !AIFocused(v)
    ensures !v.aiIsSpeaking && !v.userIsSpeaking ==> (AIFocused(v) <==> v.currentAIText != "")
  {
    v.aiIsSpeaking || (!v.userIsSpeaking && v.currentAIText != "")
  }

  /** The same render with the user's and the AI's roles exchanged. */
  function Mirror(v: ViewInputs): ViewInputs
  {
    ViewInputs(v.aiIsSpeaking, v.userIsSpeaking, v.currentAIText, v.currentUserText)
  }

  /** `userTextSize`: the user slot's size class, written out as the component writes it. */
  function UserTextSize(v: ViewInputs): (r: string)
    ensures r == (if UserFocused(v) then Large else Small)
  {
    if v.userIsSpeaking || (!v.aiIsSpeaking && v.currentUserText != "") then Large else Small
  }

  /** `aiTextSize`: the AI slot's size class, written out as the component writes it. */
  function AITextSize(v: ViewInputs): (r: string)
    ensures r == (if AIFocused(v) then Large else Small)
  {
    if v.aiIsSpeaking || (!v.userIsSpeaking && v.currentAIText != "") then Large else Small
  }

  /** `userTextColor`: the user slot's colour class, written out as the component writes it. */
  function UserTextColor(v: ViewInputs): (r: string)
    ensures r == (if UserFocused(v) then Bright else Dim)
  {
    if v.userIsSpeaking || (!v.aiIsSpeaking && v.currentUserText != "") then Bright else Dim
  }

  /** `aiTextColor`: the AI slot's colour class, written out as the component writes it. */
  function AITextColor(v: ViewInputs): (r: string)
    ensures r == (if AIFocused(v) then Bright else Dim)
  {
    if v.aiIsSpeaking || (!v.userIsSpeaking && v.currentAIText != "") then Bright else Dim
  }

  /** The AI rule is the user rule with the roles exchanged. */
  lemma FocusIsSymmetric(v: ViewInputs)
    ensures AIFocused(v) == UserFocused(Mirror(v))
    ensures UserFocused(v) == AIFocused(Mirror(v))
    ensures Mirror(Mirror(v)) == v
  {
  }

  /**
   The four style expressions all follow the focus rule of their slot, so
   size and colour always agree.
   */
  lemma StylesFollowFocus(v: ViewInputs)
    ensures (UserTextSize(v) == Large <==> UserTextColor(v) == Bright)
         && (UserTextSize(v) == Small <==> UserTextColor(v) == Dim)
    ensures (AITextSize(v) == Large <==> AITextColor(v) == Bright)
         && (AITextSize(v) == Small <==> AITextColor(v) == Dim)
  {
  }

  /** When exactly one side speaks, that side is emphasised and the other is not. */
  lemma OneSpeakerWins(v: ViewInputs)
    requires v.userIsSpeaking != v.aiIsSpeaking
    ensures UserFocused(v) == v.userIsSpeaking
    ensures AIFocused(v) == v.aiIsSpeaking
  {
  }

  /** When both speak, both are emphasised. */
  lemma BothSpeakersFocused(v: ViewInputs)
    requires v.userIsSpeaking && v.aiIsSpeaking
    ensures UserFocused(v) && AIFocused(v)
  {
  }

  /** In silence each slot falls back to whether it holds interim text. */
  lemma SilenceFallsBackToText(v: ViewInputs)
    requires !v.userIsSpeaking && !v.aiIsSpeaking
    ensures UserFocused(v) <==> v.currentUserText != ""
    ensures AIFocused(v) <==> v.currentAIText != ""
  {
  }

  /** One rendered element of the view. */
  datatype Block =
    | UserBlock(size: string, color: string, text: string)
    | AIBlock(size: string, color: string, text: string)
    | Placeholder

  /**
   The user's text block is rendered only while the user slot holds text;
   a rendered user block is emphasised unless the AI is speaking, and a
   hidden one is emphasised only while the user speaks.
   */
  predicate ShowsUserBlock(v: ViewInputs)
    ensures ShowsUserBlock(v) && !v.aiIsSpeaking ==> UserFocused(v)
    ensures !ShowsUserBlock(v) ==> (UserFocused(v) <==> v.userIsSpeaking)
  {
    v.currentUserText != ""
  }

  /**
   The AI's text block is rendered only while the AI slot holds text; a
   rendered AI block is emphasised unless the user is speaking, and a hidden
   one is emphasised only while the AI speaks.
   */
  predicate ShowsAIBlock(v: ViewInputs)
    ensures ShowsAIBlock(v) && !v.userIsSpeaking ==> AIFocused(v)
    ensures !ShowsAIBlock(v) ==> (AIFocused(v) <==> v.aiIsSpeaking)
  {
    v.currentAIText != ""
  }

  /**
   The placeholder is rendered only while both slots are empty; then
   emphasis comes from the speaking flags alone.
   */
  predicate ShowsPlaceholder(v: ViewInputs)
    ensures ShowsPlaceholder(v) ==> (UserFocused(v) <==> v.userIsSpeaking) && (AIFocused(v) <==> v.aiIsSpeaking)
  {
    v.currentUserText == "" && v.currentAIText == ""
  }

  /** The blocks of one render, top to bottom. */
  function Render(v: ViewInputs): (r: seq<Block>)
    // something is always on screen, and never more than the two slots
    ensures 1 <= |r| <= 2
    // the placeholder is shown alone, exactly when both slots are empty
    ensures Placeholder in r <==> v.currentUserText == "" && v.currentAIText == ""
    ensures Placeholder in r ==> r == [Placeholder]
    // a slot's block is shown iff its text is non-empty, styled by its focus
    ensures UserBlock(UserTextSize(v), UserTextColor(v), v.currentUserText) in r <==> v.currentUserText != ""
    ensures AIBlock(AITextSize(v), AITextColor(v), v.currentAIText) in r <==> v.currentAIText != ""
    // no other text block: each block shown is its slot's, for a non-empty text
    ensures forall b :: b in r ==>
      (b.UserBlock? ==> b == UserBlock(UserTextSize(v), UserTextColor(v), v.currentUserText) && v.currentUserText != "") &&
      (b.AIBlock? ==> b == AIBlock(AITextSize(v), AITextColor(v), v.currentAIText) && v.currentAIText != "")
    // the user's block comes first
    ensures |r| == 2 ==> r[0].UserBlock? && r[1].AIBlock?
  {
    (if ShowsUserBlock(v) then [UserBlock(UserTextSize(v), UserTextColor(v), v.currentUserText)] else [])
    + (if ShowsAIBlock(v) then [AIBlock(AITextSize(v), AITextColor(v), v.currentAIText)] else [])
    + (if ShowsPlaceholder(v) then [Placeholder] else [])
  }

  /** The placeholder never appears together with either text block. */
  lemma PlaceholderExclusive(v: ViewInputs)
    ensures ShowsPlaceholder(v) <==> !ShowsUserBlock(v) && !ShowsAIBlock(v)
  {
  }

  /**
   The speaking-activity examples: only the user holding text in silence
   emphasises the user alone; silence with no text emphasises nobody.
   */
  lemma ResolverExamples()
    ensures var v := ViewInputs(false, false, "hi", "");
      UserFocused(v) && !AIFocused(v)
    ensures var v := ViewInputs(false, false, "", "");
      !UserFocused(v) && !AIFocused(v) && Render(v) == [Placeholder]
  {
  }

  /** The view of the hook's state as rendered with the given speaking flags. */
  function ViewOf(t: Transcript, userIsSpeaking: bool, aiIsSpeaking: bool): ViewInputs
  {
    ViewInputs(userIsSpeaking, aiIsSpeaking, t.userText, t.aiText)
  }

  /**
   Once a final batch is handled, that side's block disappears from the view
   and, unless that side is still speaking, it loses the emphasis; the other
   side's block is rendered as before.
   */
  lemma FinalBatchHidesBlock(t: Transcript, e: Event, userIsSpeaking: bool, aiIsSpeaking: bool)
    requires IsFinal(e.segments)
    ensures var v, v' := ViewOf(t, userIsSpeaking, aiIsSpeaking), ViewOf(Ingest(t, e), userIsSpeaking, aiIsSpeaking);
      if e.side == Local then
        !ShowsUserBlock(v') && (UserFocused(v') <==> userIsSpeaking) && ShowsAIBlock(v') == ShowsAIBlock(v)
      else
        !ShowsAIBlock(v') && (AIFocused(v') <==> aiIsSpeaking) && ShowsUserBlock(v') == ShowsUserBlock(v)
  {
  }
}
