/**
 * app/api/chat/route.ts: the canned Chinese replies of `getFallbackResponse`
 * and how the POST handler turns the upstream model's answer, or its
 * failure, into the response. The HTTP exchange itself is a parameter: the
 * request body as parsed and what the upstream call produced.
 */
module ChatRoute {
  import opened Wrappers
  import opened Text

  /** The six canned replies. */
  datatype Reply = StreakReply | HabitReply | MoodReply | TipsReply | ThanksReply | DefaultReply

  const STREAK_TEXT: string := "连续记录天数是坚持的好指标！"
    + "保持连续记录的关键是如果错过一天不要对自己太苛刻。专注于回到正轨，而不是追求完美。你想改进哪个习惯的连续记录？"
  const HABIT_TEXT: string := "养成习惯是从小处开始并保持一致。"
    + "我建议：\n\n1. 刚开始只专注于 1-2 个习惯\n2. 让习惯小到不可能失败\n3. 将它们与现有习惯叠加\n4. 庆祝小小的胜利\n\n你正在培养哪些习惯？"
  const MOOD_TEXT: string := "与习惯一起追踪你的情绪有助于了解模式。"
    + "注意哪些活动能提升你的情绪，哪些会消耗你。这种意识有助于你在一天中做出更好的选择。"
  const TIPS_TEXT: string := "这里是一些经过验证的习惯技巧："
    + "\n\n• 2分钟法则：让习惯开始时间少于2分钟\n• 实施意图：'当[情况]时，我将[习惯]'\n• 环境设计：让好习惯容易养成，坏习惯难以保持\n• 可视化追踪：在日历上标记完成的天数\n\n需要我详细说明其中任何一个吗？"
  const THANKS_TEXT: string := "不客气！"
    + "记住，养成更好的习惯是一段旅程，而不是终点。每一天你尝试都是胜利。继续加油！"
  const DEFAULT_TEXT: string := "这是一个很好的问题！"
    + "为了给你个性化的见解，我建议你持续在应用中记录你的习惯和情绪。随着时间的推移，我可以帮助识别模式并提供量身定制的建议。你想了解习惯养成的哪个具体方面？"

  /** The reply of the catch block. */
  const ERROR_TEXT: string := "抱歉，"
    + "我遇到了一些问题。请稍后再试。"

  function ReplyText(r: Reply): (s: string)
    ensures s != [] && s != ERROR_TEXT
  {
    match r
    case StreakReply => STREAK_TEXT
    case HabitReply => HABIT_TEXT
    case MoodReply => MOOD_TEXT
    case TipsReply => TIPS_TEXT
    case ThanksReply => THANKS_TEXT
    case DefaultReply => DEFAULT_TEXT
  }

  /** The six replies are six different texts. */
  lemma ReplyTextInjective(a: Reply, b: Reply)
    requires ReplyText(a) == ReplyText(b)
    ensures a == b
  {
    assert ReplyText(a)[1] == ReplyText(b)[1];
  }

  predicate AsksStreak(lower: string) { Contains(lower, "streak") || Contains(lower, "连续") }

  predicate AsksHabit(lower: string) { Contains(lower, "habit") || Contains(lower, "习惯") }

  predicate AsksMood(lower: string)
  {
    Contains(lower, "mood") || Contains(lower, "情绪") || Contains(lower, "心情")
  }

  predicate AsksTips(lower: string)
  {
    Contains(lower, "tip") || Contains(lower, "help") || Contains(lower, "建议") || Contains(lower, "帮助")
  }

  predicate Thanks(lower: string)
  {
    Contains(lower, "thank") || Contains(lower, "谢谢") || Contains(lower, "感谢")
  }

  /**
   * The reply `getFallbackResponse` picks: the first keyword group found in
   * the lower-cased message, in the order streak, habit, mood, tips, thanks.
   */
  function Classify(message: string): (r: Reply)
    ensures var lower := ToLower(message);
      && (r == StreakReply <==> AsksStreak(lower))
      && (r == HabitReply <==> !AsksStreak(lower) && AsksHabit(lower))
      && (r == MoodReply <==> !AsksStreak(lower) && !AsksHabit(lower) && AsksMood(lower))
      && (r == TipsReply <==> !AsksStreak(lower) && !AsksHabit(lower) && !AsksMood(lower) && AsksTips(lower))
      && (r == ThanksReply <==>
            !AsksStreak(lower) && !AsksHabit(lower) && !AsksMood(lower) && !AsksTips(lower) && Thanks(lower))
      && (r == DefaultReply <==>
            !AsksStreak(lower) && !AsksHabit(lower) && !AsksMood(lower) && !AsksTips(lower) && !Thanks(lower))
  {
    var lower := ToLower(message);
    if AsksStreak(lower) then StreakReply
    else if AsksHabit(lower) then HabitReply
    else if AsksMood(lower) then MoodReply
    else if AsksTips(lower) then TipsReply
    else if Thanks(lower) then ThanksReply
    else DefaultReply
  }

  /** getFallbackResponse. */
  function FallbackResponse(message: string): (s: string)
    ensures s != [] && s != ERROR_TEXT
    ensures exists r: Reply :: s == ReplyText(r)
  {
    ReplyText(Classify(message))
  }

  /** A message naming both a habit and help gets the habit reply unless it also names a streak. */
  lemma HabitBeatsHelp(message: string)
    requires Contains(ToLower(message), "habit") && Contains(ToLower(message), "help")
    ensures Classify(message) == HabitReply || Classify(message) == StreakReply
    ensures Classify(message) != TipsReply
  {
  }

  /** Matching ignores the case of ASCII letters. */
  lemma FallbackIgnoresCase(message: string)
    ensures Classify(ToUpper(message)) == Classify(message)
  {
    ToLowerOfUpper(message);
  }

  /** The request body as `request.json()` leaves it. */
  datatype Request =
    | Unparsable
      /** `message` is None when it is missing or not a string */
    | Body(message: Option<string>)

  /** What the call to the model produced. */
  datatype Upstream =
    | NoApiKey
      /** a successful response; `text` is the first candidate's text, None when absent */
    | Answered(text: Option<string>)
      /** a non-OK response with its body text */
    | Rejected(errorText: string)
      /** `fetch`, `.text()` or `.json()` threw */
    | Unreachable

  datatype ChatResponse = ChatResponse(message: string, fallback: bool, error: bool, status: int)

  /** The quota test on the upstream error body. */
  predicate IsQuotaError(errorText: string)
  {
    Contains(errorText, "429") || Contains(errorText, "RESOURCE_EXHAUSTED")
  }

  /** The upstream outcomes after which the handler falls back to `getFallbackResponse`. */
  predicate NeedsFallback(upstream: Upstream)
  {
    || upstream.NoApiKey?
    || (upstream.Answered? && (upstream.text.None? || upstream.text.value == []))
    || (upstream.Rejected? && IsQuotaError(upstream.errorText))
  }

  /**
   * The POST handler's response. `getFallbackResponse` on a message that is
   * not a string throws, which lands in the catch block like every other
   * failure: the error reply with status 500.
   */
  function Respond(request: Request, upstream: Upstream): (r: ChatResponse)
    ensures r.error <==> r.status == 500
    ensures r.status == 500 || r.status == 200
    ensures r.error <==>
      || request.Unparsable?
      || upstream.Unreachable?
      || (upstream.Rejected? && !IsQuotaError(upstream.errorText))
      || (request.message.None? && NeedsFallback(upstream))
    ensures r.error ==> r.message == ERROR_TEXT && !r.fallback
    ensures r.fallback <==> !r.error && upstream.Rejected?
    ensures !r.error && NeedsFallback(upstream) ==> r.message == FallbackResponse(request.message.value)
    ensures !r.error && !NeedsFallback(upstream) ==> upstream.Answered? && r.message == upstream.text.value && r.message != []
  {
    var failure := ChatResponse(ERROR_TEXT, false, true, 500);
    match request
    case Unparsable => failure
    case Body(message) =>
      match upstream
      case NoApiKey =>
        if message.None? then failure else ChatResponse(FallbackResponse(message.value), false, false, 200)
      case Rejected(errorText) =>
        if !IsQuotaError(errorText) || message.None? then failure
        else ChatResponse(FallbackResponse(message.value), true, false, 200)
      case Answered(text) =>
        if text.Some? && text.value != [] then ChatResponse(text.value, false, false, 200)
        else if message.None? then failure
        else ChatResponse(FallbackResponse(message.value), false, false, 200)
      case Unreachable => failure
  }

  /**
   * A client can tell the outcomes apart by the message alone: the error
   * reply is none of the canned replies, and a quota rejection of a
   * readable message always yields one of them, flagged as a fallback.
   */
  lemma QuotaYieldsFlaggedFallback(message: string, errorText: string)
    requires IsQuotaError(errorText)
    ensures var r := Respond(Body(Some(message)), Rejected(errorText));
      r.fallback && !r.error && r.message != ERROR_TEXT && exists k: Reply :: r.message == ReplyText(k)
  {
  }

  /** Every response carries a non-empty message: an empty answer from the model falls back. */
  lemma NeverEmpty(request: Request, upstream: Upstream)
    ensures Respond(request, upstream).message != []
  {
  }
}
