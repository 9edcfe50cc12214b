/**
 * The chatbot's reply policy: the backend's answer when it gives one, and
 * otherwise a user-facing apology chosen by testing the error message for
 * known phrases in a fixed order.
 */
module Chat {
  import opened Common
  import Text

  /** What the chat backend did: answered, or threw an error carrying an optional message. */
  datatype Outcome = Answered(text: string) | Threw(message: Option<string>)

  const DisabledReply :=
    "AI features are currently disabled. Please configure your Gemini API key in the environment variables."
  const KeyReply := "Invalid API key. Please check your Gemini API key configuration."
  const QuotaReply := "API quota exceeded. Please try again later."
  const BlockedReply := "Content was blocked by safety filters. Please rephrase your question."

  /** The error message contains `phrase`; a missing message contains nothing. */
  predicate Mentions(message: Option<string>, phrase: string) {
    message.Some? && Text.Contains(message.value, phrase)
  }

  /** The fallback reply that quotes the error message. */
  function GenericReply(message: Option<string>): string {
    "Error: " + StringOr(message, "Unknown error occurred") + ". Please check the console for details."
  }

  /**
   * `askAIChatbot`: disabled notice, the answer, or an apology classified by
   * the first of "API key", "quota", "blocked" the message contains.
   */
  function AskChatbot(enabled: bool, outcome: Outcome): (r: string)
    ensures !enabled ==> r == DisabledReply
    ensures enabled && outcome.Answered? ==> r == outcome.text
    ensures enabled && outcome.Threw? ==>
      var m := outcome.message;
      && (Mentions(m, "API key") ==> r == KeyReply)
      && (!Mentions(m, "API key") && Mentions(m, "quota") ==> r == QuotaReply)
      && (!Mentions(m, "API key") && !Mentions(m, "quota") && Mentions(m, "blocked") ==> r == BlockedReply)
      && (!Mentions(m, "API key") && !Mentions(m, "quota") && !Mentions(m, "blocked") ==> r == GenericReply(m))
  {
    if !enabled then DisabledReply
    else match outcome
      case Answered(text) => text
      case Threw(m) =>
        if Mentions(m, "API key") then KeyReply
        else if Mentions(m, "quota") then QuotaReply
        else if Mentions(m, "blocked") then BlockedReply
        else GenericReply(m)
  }

  /** An unclassified error's reply quotes its message right after "Error: ". */
  lemma GenericReplyQuotesMessage(message: string)
    requires message != ""
    requires !Text.Contains(message, "API key") && !Text.Contains(message, "quota") && !Text.Contains(message, "blocked")
    ensures Text.OccursAt(AskChatbot(true, Threw(Some(message))), message, 7)
  {
    var r := AskChatbot(true, Threw(Some(message)));
    assert r == "Error: " + message + ". Please check the console for details.";
    assert r[7..7 + |message|] == message;
  }
}
