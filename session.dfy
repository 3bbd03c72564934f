/**
 * A client of the orchestrator, written against the contracts alone: one
 * session in which the assistant asks for a make_review tool call and then
 * completes; the finished run lets the next message through, and a second,
 * queued run blocks the one after.
 */
module Session {
  import opened Wrappers
  import opened GameLookup
  import opened Assistant

  const Request := Message("user", [TextPart("Review Scythe")])
  const Reply := Message("assistant", [TextPart("Great pick!")])
  const Call := ToolCall("call_1", ReviewTool, map[ReviewArg := "A fine review"])

  const FollowUp := Message("user", [TextPart("And Catan?")])

  /**
   * The service's answers: the first run is queued, asks for one make_review
   * call and completes with the reply, then stays completed for two more
   * status requests; the second run is queued.
   */
  const Script := [
    Step([], Queued),
    Step([], RequiresAction(RequiredAction(Some([Call])))),
    Step([Reply], Completed),
    Step([], Completed),
    Step([], Completed),
    Step([], Queued)]

  /** The wait on the script above stops at its completed answer. */
  lemma ScriptEnds()
    ensures HasEnd(Script) && WellFormedUpTo(Script, 3) && EndIndex(Script) == 2
  {
    assert Script[2].status.Ended();
    assert Script[1..][1..] == Script[2..];
    assert EndIndex(Script[2..]) == 0;
  }

  /** Up to and including that answer, only the reply is posted. */
  lemma ScriptThread()
    ensures ThreadAfter([Request], Script, 3) == [Request, Reply]
  {
    assert ThreadAfter([Request], Script, 1) == [Request];
    assert ThreadAfter([Request], Script, 2) == [Request];
  }

  /** Before that answer, the one required action submits the review argument. */
  lemma ScriptSubmitted(catalog: Catalog, encode: Option<map<string, string>> -> string)
    ensures WellFormedUpTo(Script, 2)
    ensures SubmittedAfter([], catalog, encode, Script, 2) == [[ToolOutput("call_1", "A fine review")]]
  {
    assert ToolOutputs(catalog, encode, [Call]) == [ToolOutput("call_1", "A fine review")];
    assert SubmittedAfter([], catalog, encode, Script, 1) == [];
  }

  method ReviewSession(catalog: Catalog, encode: Option<map<string, string>> -> string)
  {
    var service := new AssistantService([], Script);
    var manager := new AssistantManager(service, catalog, encode);
    assert manager.GetReview() == None;

    // No run yet: the message is added without a status request.
    manager.AddMessageToThread("user", "Review Scythe");
    assert service.thread == [Request];
    manager.RunAssistant();
    assert manager.run == Some(Run(0));
    WaitForReview(manager);
  }

  /** The rest of the session, once the request is posted and the run created. */
  method WaitForReview(manager: AssistantManager)
    requires manager.run.Some? && manager.review == None && manager.client.runsCreated == 1
    requires manager.client.thread == [Request] && manager.client.script == Script && manager.client.submitted == []
    modifies manager, manager.client
  {
    var service := manager.client;
    // The tool output is the review argument; the stored review is the final message.
    ScriptEnds();
    ScriptThread();
    ScriptSubmitted(manager.catalog, manager.encode);
    var end := manager.WaitForRunToComplete();
    assert service.submitted == [[ToolOutput("call_1", "A fine review")]];
    assert end == Reviewed;
    assert manager.GetReview() == Some("Great pick!");
    assert service.script == Script[3..];
    FollowUpSession(manager);
  }

  /** After the review: a completed run lets a message in, a queued one keeps it out. */
  method FollowUpSession(manager: AssistantManager)
    requires manager.run.Some? && manager.client.runsCreated == 1
    requires manager.client.thread == [Request, Reply] && manager.client.script == Script[3..]
    modifies manager, manager.client
  {
    var service := manager.client;
    var review := manager.GetReview();
    // The first run stays completed: the follow-up is appended.
    manager.AddMessageToThread("user", "And Catan?");
    assert service.thread == [Request, Reply, FollowUp];
    manager.RunAssistant();
    assert manager.run == Some(Run(1));

    // The second run is queued: the next message is not appended.
    manager.AddMessageToThread("user", "And Carcassonne?");
    assert service.thread == [Request, Reply, FollowUp];
    assert manager.GetReview() == review;
  }
}
