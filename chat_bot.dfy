/**
 * The patient's chat screen: a message log that opens with a welcome, a
 * text field, a typing indicator, and the exchange with the generative
 * model service. The service itself is outside the model; what it returns
 * arrives as a `ServiceOutcome`.
 */
module ChatBot {
  import opened Wrappers
  import opened Text
  import opened LanguageContext

  datatype Sender = User | Bot

  /** One bubble of the log. `timestamp` is the clock reading when the message was made. */
  datatype Message = Message(id: string, text: string, sender: Sender, timestamp: nat)

  /** What the service call came back with: a text (possibly empty), or a thrown error. */
  datatype ServiceOutcome = Answered(text: string) | Failed

  /** The reply when the service answers with an empty text. */
  const NotUnderstood: string := "Je n’ai pas compris votre question."

  /** The reply when the service call fails, in the language of the request. */
  function Apology(lang: Language): string
  {
    match lang
    case Fr => "Désolé, une erreur s’est produite. Veuillez réessayer."
    case Ar => "عذرًا، حدث خطأ. يرجى المحاولة مرة أخرى."
  }

  /** The instruction put before the quoted question. */
  function PromptPrefix(lang: Language): string
  {
    match lang
    case Fr => "Tu es un assistant médical francophone. Réponds poliment et clairement à : \""
    case Ar => "أنت مساعد طبي. أجب بلغة عربية واضحة وودودة على: \""
  }

  /** The text sent to the service: the instruction, then the question in double quotes. */
  function Prompt(lang: Language, question: string): (p: string)
    ensures |p| == |PromptPrefix(lang)| + |question| + 1
    ensures p[..|PromptPrefix(lang)|] == PromptPrefix(lang) && p[|p| - 1] == '"'
    ensures p[|PromptPrefix(lang)|..|p| - 1] == question
  {
    PromptPrefix(lang) + question + "\""
  }

  /** Reads the question back out of a prompt of the given language, if it is one. */
  function QuestionOf(lang: Language, prompt: string): Option<string>
  {
    var prefix := PromptPrefix(lang);
    if |prompt| > |prefix| && prompt[..|prefix|] == prefix && prompt[|prompt| - 1] == '"'
    then Some(prompt[|prefix|..|prompt| - 1])
    else None
  }

  /** The question is carried into the prompt unaltered: it can always be read back. */
  lemma PromptRoundTrip(lang: Language, question: string)
    ensures QuestionOf(lang, Prompt(lang, question)) == Some(question)
  {
    var prefix := PromptPrefix(lang);
    var p := Prompt(lang, question);
    assert p[..|prefix|] == prefix;
    assert p[|prefix|..|p| - 1] == question;
  }

  /** Different questions make different prompts. */
  lemma PromptInjective(lang: Language, a: string, b: string)
    requires Prompt(lang, a) == Prompt(lang, b)
    ensures a == b
  {
    PromptRoundTrip(lang, a);
    PromptRoundTrip(lang, b);
  }

  /**
   * `getGeminiResponse`'s result: a non-empty answer as given, the French
   * "not understood" line for an empty one, and an apology in the request's
   * language for a failure. The bot never posts an empty bubble.
   */
  function Reply(lang: Language, outcome: ServiceOutcome): (r: string)
    ensures r != ""
    ensures outcome.Answered? && outcome.text != "" ==> r == outcome.text
    ensures outcome == Answered("") ==> r == NotUnderstood
    ensures outcome.Failed? ==> r == Apology(lang)
  {
    match outcome
    case Answered(text) => if text != "" then text else NotUnderstood
    case Failed => Apology(lang)
  }

  class Conversation {
    var messages: seq<Message>
    var inputValue: string
    var isTyping: bool
    /** The language the request in flight was made in; its reply uses it. */
    var pendingLanguage: Language

    /**
     * Every user bubble has visible text, and while the indicator shows the
     * last bubble is the user's unanswered question.
     */
    predicate Valid()
      reads this
    {
      && (forall i :: 0 <= i < |messages| && messages[i].sender == User ==> !AllWhitespace(messages[i].text))
      && (isTyping ==> |messages| > 0 && messages[|messages| - 1].sender == User)
    }

    /** The screen mounts with an empty log, an empty field and no indicator. */
    constructor ()
      ensures messages == [] && inputValue == "" && !isTyping && Valid()
    {
      messages := [];
      inputValue := "";
      isTyping := false;
      pendingLanguage := Fr;
    }

    /**
     * The welcome effect, given `t("chatbotWelcome")` in the current language:
     * an empty log gets the welcome, with id "1"; a non-empty log (the effect
     * re-running after a language change) is left alone.
     */
    method ShowWelcome(welcome: string, now: nat)
      requires Valid()
      modifies this
      ensures Valid()
      ensures old(messages) == [] ==> messages == [Message("1", welcome, Bot, now)]
      ensures old(messages) != [] ==> messages == old(messages)
      ensures inputValue == old(inputValue) && isTyping == old(isTyping)
    {
      if messages == [] {
        messages := [Message("1", welcome, Bot, now)];
      }
    }

    /** The field accepts typing only while no reply is awaited. */
    method EditInput(text: string)
      requires !isTyping
      modifies this
      ensures inputValue == text && messages == old(messages) && !isTyping
    {
      inputValue := text;
    }

    /** The send button is enabled exactly when the field has a non-blank text and no reply is awaited. */
    function CanSend(): (enabled: bool)
      reads this
      ensures enabled <==> !AllWhitespace(inputValue) && !isTyping
    {
      TrimEmptyIff(inputValue);
      Trim(inputValue) != "" && !isTyping
    }

    /**
     * The first half of `handleSend`: a blank field does nothing; otherwise
     * the text, untrimmed, is posted as the user's bubble (its id the clock
     * reading), the field is cleared, the indicator turns on and the prompt
     * for the service is returned.
     */
    method BeginSend(lang: Language, now: nat) returns (prompt: Option<string>)
      requires Valid() && !isTyping
      modifies this
      ensures Valid()
      ensures prompt.None? <==> AllWhitespace(old(inputValue))
      ensures prompt.Some? <==> old(CanSend())
      ensures prompt.None? ==> messages == old(messages) && inputValue == old(inputValue) && !isTyping
      ensures prompt.Some? ==> prompt.value == Prompt(lang, old(inputValue))
      ensures prompt.Some? ==>
        && messages == old(messages) + [Message(NatToString(now), old(inputValue), User, now)]
        && inputValue == "" && isTyping && pendingLanguage == lang
    {
      var question := inputValue;
      var posted := PostQuestion(lang, now);
      prompt := if posted then Some(Prompt(lang, question)) else None;
    }

    /** The state change of `BeginSend`, apart from composing the prompt. */
    method PostQuestion(lang: Language, now: nat) returns (posted: bool)
      requires Valid() && !isTyping
      modifies this
      ensures Valid()
      ensures posted <==> !AllWhitespace(old(inputValue))
      ensures !posted ==> messages == old(messages) && inputValue == old(inputValue) && !isTyping
      ensures posted ==>
        && messages == old(messages) + [Message(NatToString(now), old(inputValue), User, now)]
        && inputValue == "" && isTyping && pendingLanguage == lang
    {
      TrimEmptyIff(inputValue);
      posted := Trim(inputValue) != "";
      if posted {
        messages := messages + [Message(NatToString(now), inputValue, User, now)];
        inputValue := "";
        isTyping := true;
        pendingLanguage := lang;
      }
    }

    /**
     * The second half of `handleSend`: the reply to the service's outcome,
     * in the language of the request, is posted with id "clock reading + 1",
     * and the indicator turns off.
     */
    method FinishSend(outcome: ServiceOutcome, later: nat)
      requires Valid() && isTyping
      modifies this
      ensures Valid() && !isTyping
      ensures messages == old(messages) + [Message(NatToString(later + 1), Reply(old(pendingLanguage), outcome), Bot, later)]
      ensures inputValue == old(inputValue)
    {
      messages := messages + [Message(NatToString(later + 1), Reply(pendingLanguage, outcome), Bot, later)];
      isTyping := false;
    }

    /**
     * A whole exchange: a non-blank question adds exactly two bubbles, the
     * question and then a non-empty reply; when the clock has not gone back
     * the two ids differ.
     */
    method Send(lang: Language, outcome: ServiceOutcome, now: nat, later: nat) returns (sent: bool)
      requires Valid() && !isTyping
      modifies this
      ensures Valid() && !isTyping
      ensures sent <==> !AllWhitespace(old(inputValue))
      ensures !sent ==> messages == old(messages)
      ensures inputValue == if sent then "" else old(inputValue)
      ensures sent ==>
        && |messages| == |old(messages)| + 2
        && messages[..|old(messages)|] == old(messages)
        && messages[|old(messages)|].sender == User && messages[|old(messages)|].text == old(inputValue)
        && messages[|old(messages)| + 1].sender == Bot && messages[|old(messages)| + 1].text == Reply(lang, outcome)
        && messages[|old(messages)| + 1].text != ""
        && (now <= later ==> messages[|old(messages)|].id != messages[|old(messages)| + 1].id)
    {
      // The prompt goes to the service, whose answer is `outcome`; only the state change matters here.
      sent := PostQuestion(lang, now);
      if sent {
        FinishSend(outcome, later);
        NatToStringInjective(now, later + 1);
      }
    }
  }
}
