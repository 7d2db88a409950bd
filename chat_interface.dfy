/**
 * components/ai/ChatInterface.tsx: the blank-input guard of `handleSend` and
 * `getFallbackResponse`, the canned reply shown when the chat endpoint
 * cannot be reached. The request, the delay and the scrolling belong to
 * the view.
 */
module ChatInterface {
  import opened Wrappers
  import opened Text

  /** The five canned replies. */
  datatype Reply = StreakReply | MoodReply | TipsReply | ThanksReply | DefaultReply

  const STREAK_TEXT: string := "Your streaks are looking great! "
    + "Consistency is key to building lasting habits. Keep up the good work and remember that missing one day doesn't break your progress - it's getting back on track that matters most."
  const MOOD_TEXT: string := "Tracking your mood alongside your habits is a wonderful practice! "
    + "This helps you understand patterns between your emotional state and your ability to maintain habits. Consider how different moods affect your motivation."
  const TIPS_TEXT: string := "Here are a few proven habit-building tips:"
    + "\n\n1. Start small - begin with habits that take less than 2 minutes\n2. Stack habits - attach new habits to existing ones\n3. Focus on consistency over intensity\n4. Celebrate small wins\n\nWhich of these resonates with you?"
  const THANKS_TEXT: string := "You're welcome! "
    + "I'm here to help you on your journey. Remember, building habits is a marathon, not a sprint. Every day is a new opportunity to grow!"
  const DEFAULT_TEXT: string := "That's a great question! "
    + "To give you personalized insights based on your actual habit data, make sure you're consistently tracking your habits and moods. Over time, I'll be able to identify patterns and provide tailored recommendations just for you."

  function ReplyText(r: Reply): (s: string)
    ensures s != []
  {
    match r
    case StreakReply => STREAK_TEXT
    case MoodReply => MOOD_TEXT
    case TipsReply => TIPS_TEXT
    case ThanksReply => THANKS_TEXT
    case DefaultReply => DEFAULT_TEXT
  }

  /** The five replies are five different texts. */
  lemma ReplyTextInjective(a: Reply, b: Reply)
    requires ReplyText(a) == ReplyText(b)
    ensures a == b
  {
    assert ReplyText(a)[3] == ReplyText(b)[3];
  }

  predicate AsksStreak(lower: string) { Contains(lower, "streak") || Contains(lower, "how long") }

  predicate AsksMood(lower: string) { Contains(lower, "mood") || Contains(lower, "feeling") }

  predicate AsksTips(lower: string)
  {
    Contains(lower, "tip") || Contains(lower, "advice") || Contains(lower, "help")
  }

  predicate Thanks(lower: string) { Contains(lower, "thank") }

  /**
   * The reply `getFallbackResponse` picks: the first keyword group found in
   * the lower-cased message, in the order streak, mood, tips, thanks.
   */
  function Classify(message: string): (r: Reply)
    ensures var lower := ToLower(message);
      && (r == StreakReply <==> AsksStreak(lower))
      && (r == MoodReply <==> !AsksStreak(lower) && AsksMood(lower))
      && (r == TipsReply <==> !AsksStreak(lower) && !AsksMood(lower) && AsksTips(lower))
      && (r == ThanksReply <==> !AsksStreak(lower) && !AsksMood(lower) && !AsksTips(lower) && Thanks(lower))
      && (r == DefaultReply <==> !AsksStreak(lower) && !AsksMood(lower) && !AsksTips(lower) && !Thanks(lower))
  {
    var lower := ToLower(message);
    if AsksStreak(lower) then StreakReply
    else if AsksMood(lower) then MoodReply
    else if AsksTips(lower) then TipsReply
    else if Thanks(lower) then ThanksReply
    else DefaultReply
  }

  /** getFallbackResponse. */
  function FallbackResponse(message: string): (s: string)
    ensures s != []
    ensures exists r: Reply :: s == ReplyText(r)
  {
    ReplyText(Classify(message))
  }

  /** Matching ignores the case of ASCII letters: shouting the message picks the same reply. */
  lemma FallbackIgnoresCase(message: string)
    ensures Classify(ToUpper(message)) == Classify(message)
    ensures Classify(ToLower(message)) == Classify(message)
  {
    ToLowerOfUpper(message);
    ToLowerIdempotent(message);
  }

  /** Text with no keyword at all gets the default reply. */
  lemma NoKeywordDefault(message: string)
    requires var lower := ToLower(message);
      !AsksStreak(lower) && !AsksMood(lower) && !AsksTips(lower) && !Thanks(lower)
    ensures FallbackResponse(message) == ReplyText(DefaultReply)
  {
  }

  /**
   * The guard at the top of `handleSend`: nothing is sent while a reply is
   * loading or when the input trims to nothing; otherwise the trimmed text
   * is sent.
   */
  function MessageToSend(input: string, isLoading: bool): (r: Option<string>)
    ensures r.None? <==> isLoading || forall i :: 0 <= i < |input| ==> IsWhiteSpace(input[i])
    ensures r.Some? ==> r.value == Trim(input) && r.value != []
  {
    TrimEmpty(input);
    if Trim(input) == [] || isLoading then None else Some(Trim(input))
  }
}
