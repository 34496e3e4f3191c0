/**
 * The local chat assistant (`local_assistant_reply`): the lowered message is
 * checked against four keyword groups in a fixed order, and the first group
 * with a word in the message picks the reply; a general reply answers a
 * message that mentions none.
 */
module Assistant {
  import opened Text

  const TiredWords: seq<string> := ["tired", "exhausted", "burnt", "burnout", "drained"]
  const StressWords: seq<string> := ["stress", "anxious", "overwhelmed", "panic"]
  const FocusWords: seq<string> := ["focus", "distracted", "procrastinate", "procrastination"]
  const SleepWords: seq<string> := ["sleep", "insomnia", "late"]

  /** The keyword groups in the order they are tried. */
  const Groups: seq<seq<string>> := [TiredWords, StressWords, FocusWords, SleepWords]

  /** The reply for group `g`, and the general reply for `g` past the last group. */
  function ReplyFor(g: nat): string
  {
    match g
    case 0 => "You sound depleted. Try a 12\U{2013}18 minute low-stimulus break, then pick one tiny task to restart momentum. Do you want a breathing or a walk suggestion?"
    case 1 => "Let\U{2019}s downshift: 60 seconds of box breathing (4\U{2011}4\U{2011}4\U{2011}4), then a 5\U{2011}minute screen break. What\U{2019}s the single most urgent task right now?"
    case 2 => "Try a 25\U{2011}minute focus sprint: pick one task, close extra tabs, and set a timer. Want a 2\U{2011}minute reset exercise first?"
    case 3 => "For tonight: dim screens 60 minutes before bed, avoid heavy decisions, and do a 3\U{2011}minute slow-breath routine. What time do you plan to sleep?"
    case _ => "I can help with recovery moves, stress resets, or focus plans. Tell me how you\U{2019}re feeling or what you need right now."
  }

  /** `any(word in msg for word in words)`. */
  predicate MentionsAny(msg: string, words: seq<string>)
  {
    exists i :: 0 <= i < |words| && Contains(msg, words[i])
  }

  /**
   * The first group, from `from` on, that the message mentions, or
   * `|Groups|` when it mentions none of them.
   */
  function FirstGroup(msg: string, from: nat): (g: nat)
    requires from <= |Groups|
    ensures from <= g <= |Groups|
    ensures g < |Groups| ==> MentionsAny(msg, Groups[g])
    ensures forall h :: from <= h < g ==> !MentionsAny(msg, Groups[h])
    decreases |Groups| - from
  {
    if from == |Groups| then from
    else if MentionsAny(msg, Groups[from]) then from
    else FirstGroup(msg, from + 1)
  }

  /**
   * Which reply `local_assistant_reply` gives, tested in the source's order:
   * the first group the lowered message mentions, or the general reply.
   */
  function ReplyChoice(message: string): (g: nat)
    ensures g == FirstGroup(Lower(message), 0)
  {
    var msg := Lower(message);
    if MentionsAny(msg, TiredWords) then 0
    else if MentionsAny(msg, StressWords) then 1
    else if MentionsAny(msg, FocusWords) then 2
    else if MentionsAny(msg, SleepWords) then 3
    else 4
  }

  /**
   * The choice is group `g` exactly when `g` is mentioned and no earlier
   * group is; it is the general reply exactly when no group is mentioned.
   */
  lemma ChoiceIsFirstMatch(message: string, g: nat)
    requires g <= |Groups|
    ensures ReplyChoice(message) == g <==>
      && (g < |Groups| ==> MentionsAny(Lower(message), Groups[g]))
      && (forall h :: 0 <= h < g ==> !MentionsAny(Lower(message), Groups[h]))
  {
  }

  /** `local_assistant_reply`: the text of the chosen reply. */
  function LocalAssistantReply(message: string): (r: string)
    ensures r == ReplyFor(FirstGroup(Lower(message), 0))
  {
    ReplyFor(ReplyChoice(message))
  }

  /**
   * A keyword of group `g` written anywhere in the message in any letter
   * case (`v` lowers to the keyword: "TIRED", "Tired") makes the choice `g`
   * or an earlier group.
   */
  lemma KeywordInAnyCaseWins(message: string, g: nat, i: nat, v: string)
    requires g < |Groups| && i < |Groups[g]|
    requires Lower(v) == Groups[g][i] && Contains(message, v)
    ensures ReplyChoice(message) <= g
  {
    LowerPreservesContains(message, v);
  }

  /** Every keyword is written in small letters, so it is its own lowered form. */
  lemma KeywordsAreLowercase(g: nat, i: nat)
    requires g < |Groups| && i < |Groups[g]|
    ensures Lower(Groups[g][i]) == Groups[g][i]
  {
    LowerOfLowercase(Groups[g][i]);
  }
}
