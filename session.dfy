/** The session state of App.tsx and its one transaction, `handleSendMessage`,
    together with topic selection. A send is one atomic transition; the clock
    readings, the remote calls and the `Math.random() > 0.6` coin are
    parameters. */
module Session {
  import opened Wrappers
  import opened Types
  import Decimal
  import GeminiService
  import Journey

  /** The assistant turn that replaces a failed tutor call. */
  const ErrorReply: string := "I encountered an error. Could you please check your connection and try again?"

  /** The user turn built from the raw text and image; `sentAt` is `Date.now()`. */
  function UserMessage(text: string, image: Option<string>, sentAt: nat): (m: Message)
    ensures m.role == User && m.content == text && m.imageUrl == image
    ensures m.timestamp == sentAt && m.id == Decimal.NatToString(sentAt)
  {
    Message(Decimal.NatToString(sentAt), User, text, sentAt, image, None)
  }

  /** The assistant turn; its id is `Date.now() + 1`, and it carries no image. */
  function AssistantMessage(content: string, repliedAt: nat): (m: Message)
    ensures m.role == Assistant && m.content == content && m.imageUrl == None
    ensures m.timestamp == repliedAt && m.id == Decimal.NatToString(repliedAt + 1)
  {
    Message(Decimal.NatToString(repliedAt + 1), Assistant, content, repliedAt, None, None)
  }

  /** What the assistant turn says: the tutor's text, or the fixed error
      sentence when the call failed. */
  function AssistantContent(reply: Result<string, GeminiService.ServiceError>): (c: string)
    ensures reply.Success? ==> c == reply.value
    ensures reply.Failure? ==> c == ErrorReply
  {
    match reply
    case Success(text) => text
    case Failure(_) => ErrorReply
  }

  /** The log alternates user and assistant turns, beginning with a user turn
      and ending with an assistant turn. */
  predicate Alternating(messages: seq<Message>)
  {
    && |messages| % 2 == 0
    && forall i :: 0 <= i < |messages| ==> messages[i].role == (if i % 2 == 0 then User else Assistant)
  }

  /** Appending a user turn and then an assistant turn keeps the log alternating. */
  lemma AlternatingAppend(messages: seq<Message>, u: Message, a: Message)
    requires Alternating(messages) && u.role == User && a.role == Assistant
    ensures Alternating(messages + [u, a])
  {
    var m := messages + [u, a];
    forall i | 0 <= i < |m| ensures m[i].role == (if i % 2 == 0 then User else Assistant) {
      if i == |messages| {
        assert m[i] == u;
      } else if i == |messages| + 1 {
        assert m[i] == a;
      } else {
        assert m[i] == messages[i];
      }
    }
  }

  /** The steps after a send, from the values captured before it: a first send
      replaces them with the plan; the heuristic then runs only if the tutor
      replied and the captured step list was non-empty, on the latest steps. */
  function StepsAfterSend(priorCount: nat, priorSteps: seq<Step>, plan: seq<string>,
                          replied: bool, coin: bool): (r: seq<Step>)
    ensures |r| == (if priorCount == 0 then |plan| else |priorSteps|)
  {
    var latest := if priorCount == 0 then Journey.StepsFromLabels(plan) else priorSteps;
    if replied && |priorSteps| > 0 then Journey.AdvanceIfDue(latest, priorCount, coin) else latest
  }

  /** The first send puts exactly the mapped plan in place, with no
      advancement, because the heuristic reads the count captured before the
      send. */
  lemma FirstSendSteps(priorSteps: seq<Step>, plan: seq<string>, replied: bool, coin: bool)
    ensures StepsAfterSend(0, priorSteps, plan, replied, coin) == Journey.StepsFromLabels(plan)
  {
    Journey.AdvanceIfDueGate(Journey.StepsFromLabels(plan), 0, coin);
  }

  /** A later send never replaces the steps: it keeps them or advances them; it
      advances them only after a reply, with more than three earlier messages
      and the coin true, and then it does when the captured steps have a
      current step. */
  lemma LaterSendSteps(priorCount: nat, priorSteps: seq<Step>, plan: seq<string>, replied: bool, coin: bool)
    requires priorCount > 0
    ensures var after := StepsAfterSend(priorCount, priorSteps, plan, replied, coin);
      && (after == priorSteps || (replied && priorCount > 3 && coin && after == Journey.Advance(priorSteps)))
      && ((replied && Journey.CurrentIndex(priorSteps) != -1 && priorCount > 3 && coin)
          ==> after == Journey.Advance(priorSteps))
  {
    if replied && Journey.CurrentIndex(priorSteps) != -1 && priorCount > 3 && coin {
      Journey.AdvanceIfDueFires(priorSteps, priorCount, coin);
    }
  }

  /** The steps after any send are well formed and keep all progress, provided
      the session invariant held before it. */
  lemma StepsAfterSendWellFormed(priorCount: nat, priorSteps: seq<Step>, plan: seq<string>, replied: bool, coin: bool)
    requires Journey.WellFormed(priorSteps)
    requires priorCount == 0 ==> priorSteps == []
    ensures Journey.WellFormed(StepsAfterSend(priorCount, priorSteps, plan, replied, coin))
    ensures priorCount > 0 ==> Journey.NoRegression(priorSteps, StepsAfterSend(priorCount, priorSteps, plan, replied, coin))
  {
    if priorCount == 0 {
      Journey.StepsFromLabelsSpec(plan);
      FirstSendSteps(priorSteps, plan, replied, coin);
    } else {
      Journey.AdvanceIfDuePreserves(priorSteps, priorCount, coin);
      if !(replied && |priorSteps| > 0) {
        assert Journey.NoRegression(priorSteps, priorSteps);
      }
    }
  }

  /** The session invariant between sends: the log alternates user and
      assistant turns, the journey is well formed, the steps are empty while
      the log is, and nothing is loading. */
  predicate SessionInvariant(messages: seq<Message>, steps: seq<Step>, isLoading: bool)
  {
    && Alternating(messages)
    && Journey.WellFormed(steps)
    && (messages == [] ==> steps == [])
    && !isLoading
  }

  /** A send from a state that keeps the invariant ends in one that keeps it. */
  lemma SendKeepsInvariant(messages: seq<Message>, steps: seq<Step>, u: Message, a: Message,
                           plan: seq<string>, replied: bool, coin: bool)
    requires SessionInvariant(messages, steps, false)
    requires u.role == User && a.role == Assistant
    ensures SessionInvariant(messages + [u] + [a], StepsAfterSend(|messages|, steps, plan, replied, coin), false)
  {
    AlternatingAppend(messages, u, a);
    assert messages + [u] + [a] == messages + [u, a];
    StepsAfterSendWellFormed(|messages|, steps, plan, replied, coin);
  }

  /** The state of the App component. */
  class ChatSession {
    var messages: seq<Message>
    var isLoading: bool
    var steps: seq<Step>
    var currentTopic: Option<string>

    /** The session invariant holds of the fields. */
    ghost predicate Valid()
      reads this
    {
      SessionInvariant(messages, steps, isLoading)
    }

    /** The initial state: no messages, not loading, no steps, no topic. */
    constructor ()
      ensures Valid()
      ensures messages == [] && !isLoading && steps == [] && currentTopic == None
    {
      messages := [];
      isLoading := false;
      steps := [];
      currentTopic := None;
    }

    /** A click on a topic button: `setCurrentTopic(topic)`. */
    method SelectTopic(topic: string)
      requires Valid()
      modifies this
      ensures Valid()
      ensures currentTopic == Some(topic)
      ensures messages == old(messages) && steps == old(steps) && isLoading == old(isLoading)
    {
      currentTopic := Some(topic);
    }

    /** `handleSendMessage(text, image)`. `transcript` is the log handed to the
        tutor and `loadingDuringCall` the loading flag while that call runs;
        `planRequests` and `tutorRequests` list, in order, the requests sent to
        the planning and the conversation services. */
    method SendMessage(text: string, image: Option<string>, sentAt: nat, repliedAt: nat,
                       planService: string -> GeminiService.PlanReply,
                       parse: string -> Option<seq<string>>,
                       tutorService: seq<GeminiService.Content> -> GeminiService.ServiceReply,
                       coin: bool)
      returns (ghost transcript: seq<Message>, ghost loadingDuringCall: bool,
               ghost planRequests: seq<string>, ghost tutorRequests: seq<seq<GeminiService.Content>>)
      requires Valid()
      modifies this
      ensures Valid()
      ensures transcript == old(messages) + [UserMessage(text, image, sentAt)]
      ensures loadingDuringCall
      ensures planRequests == if |old(messages)| == 0 then [GeminiService.PlanPrompt(text)] else []
      ensures tutorRequests == [GeminiService.FormatContents(transcript)]
      ensures var reply := GeminiService.SendMessageToTutor(transcript, image, tutorService);
        && messages == transcript + [AssistantMessage(AssistantContent(reply), repliedAt)]
        && steps == StepsAfterSend(|old(messages)|, old(steps),
                                   GeminiService.GenerateProblemSteps(text, planService, parse),
                                   reply.Success?, coin)
      ensures !isLoading && currentTopic == old(currentTopic)
    {
      // the values the handler's closure captured
      var priorMessages := messages;
      var priorSteps := steps;
      ghost var plan := GeminiService.GenerateProblemSteps(text, planService, parse);
      var newMessages;
      newMessages, planRequests := BeginSend(text, image, sentAt, planService, parse);
      transcript, loadingDuringCall := newMessages, isLoading;
      tutorRequests := [GeminiService.FormatContents(newMessages)];
      var reply := GeminiService.SendMessageToTutor(newMessages, image, tutorService);
      FinishSend(reply, repliedAt, |priorMessages|, priorSteps, coin, plan);
      SendKeepsInvariant(priorMessages, priorSteps, UserMessage(text, image, sentAt),
                         AssistantMessage(AssistantContent(reply), repliedAt), plan, reply.Success?, coin);
    }

    /** The part of `handleSendMessage` before the tutor call: append the user
        turn, raise the loading flag and, on the first send, install the plan. */
    method BeginSend(text: string, image: Option<string>, sentAt: nat,
                     planService: string -> GeminiService.PlanReply,
                     parse: string -> Option<seq<string>>)
      returns (newMessages: seq<Message>, ghost planRequests: seq<string>)
      modifies this
      ensures newMessages == old(messages) + [UserMessage(text, image, sentAt)]
      ensures planRequests == if |old(messages)| == 0 then [GeminiService.PlanPrompt(text)] else []
      ensures messages == newMessages && isLoading
      ensures steps == if |old(messages)| == 0 then
                         Journey.StepsFromLabels(GeminiService.GenerateProblemSteps(text, planService, parse))
                       else old(steps)
      ensures currentTopic == old(currentTopic)
    {
      var userMessage := UserMessage(text, image, sentAt);
      var wasEmpty := |messages| == 0;
      newMessages := messages + [userMessage];
      messages := newMessages;
      isLoading := true;
      planRequests := [];
      if wasEmpty {
        planRequests := [GeminiService.PlanPrompt(text)];
        var generated := GeminiService.GenerateProblemSteps(text, planService, parse);
        steps := Journey.StepsFromLabels(generated);
      }
    }

    /** The part of `handleSendMessage` after the tutor call: append the reply or
        the error sentence, run the heuristic after a reply when the captured
        steps were non-empty, on the latest steps, and clear the loading flag. */
    method FinishSend(reply: Result<string, GeminiService.ServiceError>, repliedAt: nat,
                      priorCount: nat, priorSteps: seq<Step>, coin: bool, ghost plan: seq<string>)
      requires steps == if priorCount == 0 then Journey.StepsFromLabels(plan) else priorSteps
      modifies this
      ensures messages == old(messages) + [AssistantMessage(AssistantContent(reply), repliedAt)]
      ensures steps == StepsAfterSend(priorCount, priorSteps, plan, reply.Success?, coin)
      ensures !isLoading && currentTopic == old(currentTopic)
    {
      match reply {
        case Success(responseText) =>
          messages := messages + [AssistantMessage(responseText, repliedAt)];
          if |priorSteps| > 0 {
            steps := Journey.AdvanceSteps(steps, priorCount, coin);
          }
        case Failure(_) =>
          messages := messages + [AssistantMessage(ErrorReply, repliedAt)];
      }
      isLoading := false;
    }
  }
}
