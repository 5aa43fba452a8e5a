/** Client code: concrete runs of the session and of the input bar, written
    against the methods' contracts and the functions' definitions. */
module Scenarios {
  import opened Wrappers
  import opened Types
  import GeminiService
  import Journey
  import Session
  import ProblemInput
  import Strings

  /** A first send in an empty session: one planning request, two turns, a
      fresh four-step plan with the first step current, and nothing loading
      afterwards. */
  method FirstSendScenario()
  {
    var s := new Session.ChatSession();
    var labels := ["Understand", "Isolate x", "Solve", "Check"];
    var plan := (p: string) => GeminiService.PlanText(Some("[\"Understand\",\"Isolate x\",\"Solve\",\"Check\"]"));
    var parse := (t: string) => Some(labels);
    var tutor := (c: seq<GeminiService.Content>) => GeminiService.Replied(Some("Great start! What operation removes the 5?"));
    var _, _, planRequests, _ := s.SendMessage("Solve for x in 2x+5=15", None, 1000, 1200, plan, parse, tutor, true);
    assert planRequests == [GeminiService.PlanPrompt("Solve for x in 2x+5=15")];
    assert |s.messages| == 2 && s.messages[0].role == User && s.messages[1].role == Assistant;
    assert s.messages[1].content == "Great start! What operation removes the 5?";
    Session.FirstSendSteps([], labels, true, true);
    assert s.steps == Journey.StepsFromLabels(labels);
    assert s.steps[0].status == Current && s.steps[1].status == Pending;
    assert s.steps[2].status == Pending && s.steps[3].status == Pending;
    assert !s.isLoading;
  }

  /** A failed tutor call still leaves two turns, the second the error sentence. */
  method FailedReplyScenario()
  {
    var s := new Session.ChatSession();
    var plan := (p: string) => GeminiService.PlanFailed;
    var parse := (t: string) => None;
    var tutor := (c: seq<GeminiService.Content>) => GeminiService.CallFailed(GeminiService.ServiceError("offline"));
    var _, _, _, _ := s.SendMessage("Solve for x in 2x+5=15", None, 1000, 1200, plan, parse, tutor, true);
    assert |s.messages| == 2 && s.messages[0].content == "Solve for x in 2x+5=15";
    assert s.messages[1].role == Assistant && s.messages[1].content == Session.ErrorReply;
    Session.FirstSendSteps([], GeminiService.FallbackPlan, false, true);
    assert |s.steps| == 4 && s.steps[0].caption == "Identify Problem";
    assert !s.isLoading;
  }

  /** Selecting two topics in turn leaves the second selected and nothing else changed. */
  method TopicScenario()
  {
    var s := new Session.ChatSession();
    s.SelectTopic("Physics & Mechanics");
    s.SelectTopic("Chemistry");
    assert s.currentTopic == Some("Chemistry") && s.messages == [] && s.steps == [];
  }

  /** A second send keeps the steps the first send produced: with fewer than
      four earlier messages the heuristic cannot fire, the planning service is
      not asked again, and the tutor is asked once. */
  method SecondSendScenario(s: Session.ChatSession, tutor: seq<GeminiService.Content> -> GeminiService.ServiceReply)
    requires s.Valid() && |s.messages| == 2
    modifies s
  {
    var first := s.steps;
    var plan := (p: string) => GeminiService.PlanFailed;
    var parse := (t: string) => None;
    Journey.AdvanceIfDueGate(first, 2, true);
    var transcript, _, planRequests, tutorRequests :=
      s.SendMessage("Subtract 3?", None, 2000, 2200, plan, parse, tutor, true);
    assert |transcript| == 3 && transcript[2].content == "Subtract 3?";
    assert planRequests == [] && |tutorRequests| == 1;
    assert |s.messages| == 4;
    assert s.steps == first;
  }

  /** Blank text is refused and left in place. */
  method BlankSendScenario()
  {
    var bar := new ProblemInput.InputBar();
    bar.Edit("  ");
    ProblemInput.BlankTextIsNotText("  ");
    var refused := bar.HandleSend(false);
    assert refused == None && bar.input == "  ";
  }

  /** A forwarded send passes the raw text and clears the fields. */
  method TextSendScenario()
  {
    var bar := new ProblemInput.InputBar();
    bar.Edit("Hello");
    assert !Strings.IsWhitespace("Hello"[0]);
    ProblemInput.SendAllowedIff("Hello", None, false);
    var sent := bar.HandleSend(false);
    assert sent == Some(ProblemInput.Outgoing("Hello", None));
    assert bar.input == "" && bar.image == None;
  }

  /** Attaching and removing an image; Shift+Enter does not send. */
  method ImageScenario()
  {
    var bar := new ProblemInput.InputBar();
    bar.ImageLoaded("data:image/png;base64,dGVzdA==");
    assert bar.ShowsPreview();
    bar.RemoveImage();
    assert !bar.ShowsPreview() && bar.input == "";
    bar.Edit("line");
    var prevented, none := bar.KeyDown("Enter", true, false);
    assert !prevented && none == None && bar.input == "line";
  }
}
