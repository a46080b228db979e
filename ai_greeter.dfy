/**
 * The assistant panel: a transcript, an input box, and a reply that is typed out one character
 * per timer tick before the assistant asks the page to scroll to a section.
 */
module AiGreeter {
  import opened Common
  import opened Ascii
  import opened Types
  import opened Data
  import Home

  /** The section name handed to `onNavigationRequest` once the reply is typed out. */
  function NavigationRequest(query: string): (r: Option<string>)
    ensures r == None <==> var q := ToLower(query);
      !Contains(q, "project") && !Contains(q, "skill") && !Contains(q, "contact") && !Contains(q, "resume")
  {
    var q := ToLower(query);
    if Contains(q, "project") then Some("projects")
    else if Contains(q, "skill") then Some("skills")
    else if Contains(q, "contact") then Some("contact")
    else if Contains(q, "resume") then Some("resume")
    else None
  }

  /**
   * Every request the assistant issues names a section the page accepts, chosen in the order
   * project, skill, contact, resume.
   */
  lemma NavigationReachesSection(query: string)
    ensures var q := ToLower(query);
      match NavigationRequest(query)
      case None => true
      case Some(name) =>
        && Home.AiTarget(name).Some?
        && (Contains(q, "project") <==> Home.AiTarget(name) == Some(Home.ProjectsSection))
        && (Home.AiTarget(name) == Some(Home.SkillsSection) ==> !Contains(q, "project") && Contains(q, "skill"))
        && (Home.AiTarget(name) == Some(Home.ContactSection) ==> !Contains(q, "project") && !Contains(q, "skill") && Contains(q, "contact"))
        && (Home.AiTarget(name) == Some(Home.ResumeSection) ==> !Contains(q, "project") && !Contains(q, "skill") && !Contains(q, "contact"))
  {
  }

  /** `prev.slice(0, -1)`: everything but the last entry (nothing when empty). */
  function DropLast(m: seq<AIMessage>): seq<AIMessage> {
    if |m| == 0 then [] else m[..|m| - 1]
  }

  /** The transcript update of one typing tick, as the component performs it. */
  function TickAsWritten(messages: seq<AIMessage>, query: string, partial: string): seq<AIMessage> {
    DropLast(messages) + [AIMessage(User, query), AIMessage(Ai, partial)]
  }

  /** The transcript after the first `k` ticks of typing `reply`, from `start`. */
  function TicksAsWritten(start: seq<AIMessage>, query: string, reply: string, k: nat): seq<AIMessage>
    requires k <= |reply|
  {
    if k == 0 then start else TickAsWritten(TicksAsWritten(start, query, reply, k - 1), query, reply[..k])
  }

  function Repeat(m: AIMessage, n: nat): (r: seq<AIMessage>)
    ensures |r| == n && forall i :: 0 <= i < n ==> r[i] == m
  {
    seq(n, _ => m)
  }

  /**
   * As written, every tick after the first drops the partial reply and appends the user's
   * message again: after `k` ticks the query appears `k` times.
   */
  lemma {:induction false} TicksAsWrittenRepeatQuery(base: seq<AIMessage>, query: string, reply: string, k: nat)
    requires 1 <= k <= |reply|
    ensures TicksAsWritten(base + [AIMessage(User, query)], query, reply, k)
         == base + Repeat(AIMessage(User, query), k) + [AIMessage(Ai, reply[..k])]
  {
    var u := AIMessage(User, query);
    if k == 1 {
      assert DropLast(base + [u]) == base;
    } else {
      TicksAsWrittenRepeatQuery(base, query, reply, k - 1);
      var prev := base + Repeat(u, k - 1) + [AIMessage(Ai, reply[..k - 1])];
      assert DropLast(prev) == base + Repeat(u, k - 1);
      assert Repeat(u, k - 1) + [u] == Repeat(u, k);
    }
  }

  /** Two ticks already show the discrepancy: the user's message is listed twice. */
  lemma TwoTicksDuplicateQuery(base: seq<AIMessage>, query: string, reply: string)
    requires |reply| >= 2
    ensures TicksAsWritten(base + [AIMessage(User, query)], query, reply, 2)
         == base + [AIMessage(User, query), AIMessage(User, query), AIMessage(Ai, reply[..2])]
    ensures TicksIntended(base + [AIMessage(User, query)], reply, 2)
         == base + [AIMessage(User, query), AIMessage(Ai, reply[..2])]
  {
    TicksAsWrittenRepeatQuery(base, query, reply, 2);
    TicksIntendedReplaceReply(base + [AIMessage(User, query)], reply, 2);
    assert Repeat(AIMessage(User, query), 2) == [AIMessage(User, query), AIMessage(User, query)];
  }

  /** The evidently intended update: the reply typed so far replaces the previous partial reply. */
  function IntendedTick(messages: seq<AIMessage>, partial: string): seq<AIMessage> {
    if |messages| > 0 && messages[|messages| - 1].role == Ai then messages[..|messages| - 1] + [AIMessage(Ai, partial)]
    else messages + [AIMessage(Ai, partial)]
  }

  function TicksIntended(start: seq<AIMessage>, reply: string, k: nat): seq<AIMessage>
    requires k <= |reply|
  {
    if k == 0 then start else IntendedTick(TicksIntended(start, reply, k - 1), reply[..k])
  }

  /** With the intended update, after `k` ticks the transcript is the submitted one plus one partial reply. */
  lemma {:induction false} TicksIntendedReplaceReply(submitted: seq<AIMessage>, reply: string, k: nat)
    requires 1 <= k <= |reply|
    requires |submitted| > 0 && submitted[|submitted| - 1].role == User
    ensures TicksIntended(submitted, reply, k) == submitted + [AIMessage(Ai, reply[..k])]
  {
    if k > 1 {
      TicksIntendedReplaceReply(submitted, reply, k - 1);
      var prev := submitted + [AIMessage(Ai, reply[..k - 1])];
      assert prev[..|prev| - 1] == submitted;
    }
  }

  /**
   * The state while a reply is typed out: the reply is the assistant's reply to the query, `text`
   * is its first `k` characters, and the transcript is the one the first `k` ticks produce.
   */
  ghost predicate Typing(base: seq<AIMessage>, query: string, reply: string, text: string, k: nat, messages: seq<AIMessage>) {
    && reply == AIResponse(query)
    && k <= |reply|
    && text == reply[..k]
    && messages == TicksIntended(base + [AIMessage(User, query)], reply, k)
  }

  /** One more tick keeps that state, with one more character. */
  lemma TypingStep(base: seq<AIMessage>, query: string, reply: string, text: string, k: nat, messages: seq<AIMessage>)
    requires Typing(base, query, reply, text, k, messages) && k < |reply|
    ensures Typing(base, query, reply, text + [reply[k]], k + 1, IntendedTick(messages, text + [reply[k]]))
  {
    assert text + [reply[k]] == reply[..k + 1];
  }

  /** Where the reply is in its life: not started, waiting 500 ms, or being typed out. */
  datatype Phase = Idle | Thinking | Streaming

  /** The panel's state, with the typing timer's closure variables as fields. */
  class Greeter {
    var messages: seq<AIMessage>
    var inputValue: string
    var isTyping: bool
    var phase: Phase
    var userQuery: string
    var aiResponse: string
    var responseText: string
    var index: nat
    /** The transcript as it was before the accepted submit. */
    ghost var base: seq<AIMessage>

    ghost predicate Valid()
      reads this
    {
      && (isTyping <==> phase != Idle)
      && (phase == Thinking ==> messages == base + [AIMessage(User, userQuery)])
      && (phase == Streaming ==> Typing(base, userQuery, aiResponse, responseText, index, messages))
    }

    /** The panel opens with the default transcript and an empty input. */
    constructor ()
      ensures Valid()
      ensures messages == DefaultAIMessages && inputValue == "" && !isTyping
    {
      messages := DefaultAIMessages;
      inputValue := "";
      isTyping := false;
      phase := Idle;
      userQuery, aiResponse, responseText, index := "", "", "", 0;
      base := [];
    }

    /** The input's change handler. */
    method Input(value: string)
      requires Valid()
      modifies this
      ensures Valid()
      ensures inputValue == value
      ensures messages == old(messages) && isTyping == old(isTyping) && phase == old(phase)
      ensures userQuery == old(userQuery) && aiResponse == old(aiResponse) && responseText == old(responseText) && index == old(index)
      ensures base == old(base)
    {
      inputValue := value;
    }

    /**
     * `handleSubmit`: ignored while typing or when the input is blank; otherwise the input,
     * untrimmed, is appended as the user's message, typing starts and the input is cleared.
     */
    method Submit()
      requires Valid()
      modifies this
      ensures Valid()
      ensures IsBlank(old(inputValue)) || old(isTyping) ==>
        && messages == old(messages) && inputValue == old(inputValue) && isTyping == old(isTyping) && phase == old(phase)
        && userQuery == old(userQuery) && aiResponse == old(aiResponse) && responseText == old(responseText) && index == old(index)
        && base == old(base)
      ensures !IsBlank(old(inputValue)) && !old(isTyping) ==>
        && messages == old(messages) + [AIMessage(User, old(inputValue))]
        && isTyping && phase == Thinking
        && userQuery == old(inputValue) && inputValue == ""
        && aiResponse == old(aiResponse) && responseText == old(responseText) && index == old(index)
    {
      if IsBlank(inputValue) || isTyping {
        return;
      }
      base := messages;
      messages := messages + [AIMessage(User, inputValue)];
      isTyping := true;
      phase := Thinking;
      userQuery := inputValue;
      inputValue := "";
    }

    /** Enter in the input submits; every other key leaves the panel as it is. */
    method KeyDown(key: string)
      requires Valid()
      modifies this
      ensures Valid()
      ensures key != "Enter" || IsBlank(old(inputValue)) || old(isTyping) ==>
        && messages == old(messages) && inputValue == old(inputValue) && isTyping == old(isTyping) && phase == old(phase)
        && userQuery == old(userQuery) && aiResponse == old(aiResponse) && responseText == old(responseText) && index == old(index)
        && base == old(base)
      ensures key == "Enter" && !IsBlank(old(inputValue)) && !old(isTyping) ==>
        && messages == old(messages) + [AIMessage(User, old(inputValue))]
        && isTyping && phase == Thinking
        && userQuery == old(inputValue) && inputValue == ""
        && aiResponse == old(aiResponse) && responseText == old(responseText) && index == old(index)
    {
      if key == "Enter" {
        Submit();
      }
    }

    /** The 500 ms timeout: the reply is chosen and typing begins from nothing. */
    method StartReply()
      requires Valid() && phase == Thinking
      modifies this
      ensures Valid()
      ensures phase == Streaming && aiResponse == AIResponse(userQuery) && responseText == "" && index == 0
      ensures messages == old(messages) && userQuery == old(userQuery) && inputValue == old(inputValue)
    {
      aiResponse := AIResponse(userQuery);
      responseText := "";
      index := 0;
      phase := Streaming;
    }

    /**
     * One 20 ms tick: while characters remain, the next one is added and the partial reply in
     * the transcript is replaced (the corrected update, see `IntendedTick`); afterwards typing
     * stops and the navigation request, if any, is issued.
     */
    method TypingTick() returns (navigation: Option<string>)
      requires Valid() && phase == Streaming
      modifies this
      ensures Valid()
      ensures userQuery == old(userQuery) && aiResponse == old(aiResponse) && inputValue == old(inputValue)
      ensures old(index) < |aiResponse| ==>
        && phase == Streaming && isTyping && index == old(index) + 1
        && responseText == old(responseText) + [aiResponse[old(index)]]
        && messages == IntendedTick(old(messages), responseText)
        && navigation == None
      ensures old(index) == |aiResponse| ==>
        && phase == Idle && !isTyping && messages == old(messages)
        && responseText == old(responseText) && index == old(index)
        && old(responseText) == AIResponse(userQuery)
        && navigation == NavigationRequest(userQuery)
    {
      if index < |aiResponse| {
        TypeNextCharacter();
        navigation := None;
      } else {
        navigation := FinishTyping();
      }
    }

    /** The tick's first branch: one more character of the reply. */
    method TypeNextCharacter()
      requires Valid() && phase == Streaming && index < |aiResponse|
      modifies this
      ensures Valid()
      ensures userQuery == old(userQuery) && aiResponse == old(aiResponse) && inputValue == old(inputValue)
      ensures phase == Streaming && isTyping && index == old(index) + 1
      ensures responseText == old(responseText) + [aiResponse[old(index)]]
      ensures messages == IntendedTick(old(messages), responseText)
    {
      var next := responseText + [aiResponse[index]];
      TypingStep(base, userQuery, aiResponse, responseText, index, messages);
      responseText, messages, index := next, IntendedTick(messages, next), index + 1;
    }

    /** The tick's second branch: typing stops and the navigation request is made. */
    method FinishTyping() returns (navigation: Option<string>)
      requires Valid() && phase == Streaming && index == |aiResponse|
      modifies this
      ensures Valid()
      ensures userQuery == old(userQuery) && aiResponse == old(aiResponse) && inputValue == old(inputValue)
      ensures phase == Idle && !isTyping && messages == old(messages)
      ensures responseText == old(responseText) && index == old(index)
      ensures old(responseText) == AIResponse(userQuery)
      ensures navigation == NavigationRequest(userQuery)
    {
      assert aiResponse[..index] == aiResponse;
      isTyping := false;
      phase := Idle;
      navigation := NavigationRequest(userQuery);
    }

    /** When typing ends the transcript is the one before the submit, the query once, and the whole reply. */
    lemma FinishedTranscript()
      requires Valid() && phase == Streaming && index == |aiResponse|
      ensures messages == base + [AIMessage(User, userQuery), AIMessage(Ai, AIResponse(userQuery))]
    {
      assert |aiResponse| > 0;
      TicksIntendedReplaceReply(base + [AIMessage(User, userQuery)], aiResponse, index);
      assert aiResponse[..index] == aiResponse;
    }
  }
}
