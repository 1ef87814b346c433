/** The chat panel: an append-only transcript, one message in flight at a
    time, and the tasks an assistant reply proposes, created one by one. */
module ChatAssistantView {
  import opened Common
  import opened Text

  datatype Sender = User | Assistant

  /** A transcript entry (its id and timestamp are left out). */
  datatype Message = Message(text: string, sender: Sender)

  const TimedOutText := "Request timed out. Please try again."
  const SendFailedText := "Failed to send message. Please try again."

  /** The path `createTask` posts to. */
  const CreateTaskPath := "/api/tasks"

  /** One entry of the reply's `tasks` array; None stands for a missing or
      `null` field. */
  datatype ProposedTask = ProposedTask(title: Option<string>, description: Option<string>)

  /** The body of one `createTask` request. */
  datatype CreateRequest = CreateRequest(path: string, title: string, description: string, email: string)

  /** The body sent to the chat webhook. */
  datatype ChatRequest = ChatRequest(email: string, message: string)

  /** How one `fetch` by `createTask` ends: a response, ok or not, or a
      thrown error. */
  datatype CallResult = Responded(ok: bool) | Threw

  /** How the call to the chat webhook ends. */
  datatype ChatReply =
    | Aborted                      // the 30 s abort fired (AbortError)
    | Failed                       // a network error, a body that is not JSON, or `null`
    | NotOk(status: int)           // `response.ok` is false
    | Answered(message: Option<string>, tasks: Option<seq<ProposedTask>>)
      // a JSON body; `tasks` is None when missing or not an array

  /** The proposed tasks the reply carries, or none. */
  function Proposed(reply: ChatReply): seq<ProposedTask>
  {
    if reply.Answered? && reply.tasks.Some? then reply.tasks.value else []
  }

  /** The requests the loop sends for `tasks`: one per entry whose title is
      truthy, in the entries' order. */
  function Attempts(email: string, tasks: seq<ProposedTask>): (r: seq<CreateRequest>)
    ensures |r| <= |tasks|
    ensures forall k :: 0 <= k < |r| ==> r[k].path == CreateTaskPath && r[k].email == email && r[k].title != ""
  {
    if tasks == [] then []
    else
      var last := tasks[|tasks| - 1];
      Attempts(email, tasks[..|tasks| - 1])
        + (if TruthyText(last.title) then [CreateRequest(CreateTaskPath, last.title.value, TextOf(last.description), email)] else [])
  }

  /** A single entry is sent exactly when its title is truthy, with that
      title, `description || ''` and the user's email. */
  lemma AttemptsOne(email: string, t: ProposedTask)
    ensures Attempts(email, [t]) ==
      if TruthyText(t.title) then [CreateRequest(CreateTaskPath, t.title.value, TextOf(t.description), email)] else []
  {
    assert [t][..0] == [];
  }

  /** How many entries of `tasks` were attempted and answered ok. */
  function Successes(tasks: seq<ProposedTask>, results: seq<CallResult>): (r: nat)
    requires |results| == |tasks|
    ensures r <= |tasks|
    ensures r == 0 <== forall k :: 0 <= k < |results| ==> results[k] != Responded(true)
  {
    if tasks == [] then 0
    else
      var n := |tasks| - 1;
      Successes(tasks[..n], results[..n]) + (if TruthyText(tasks[n].title) && results[n] == Responded(true) then 1 else 0)
  }

  /** Successes never outnumber attempts. */
  lemma {:induction false} SuccessesBounded(email: string, tasks: seq<ProposedTask>, results: seq<CallResult>)
    requires |results| == |tasks|
    ensures Successes(tasks, results) <= |Attempts(email, tasks)|
  {
    if tasks != [] {
      var n := |tasks| - 1;
      SuccessesBounded(email, tasks[..n], results[..n]);
    }
  }

  /** Every attempt counts when every request is answered ok. */
  lemma {:induction false} AllOkAllCount(email: string, tasks: seq<ProposedTask>, results: seq<CallResult>)
    requires |results| == |tasks|
    requires forall k :: 0 <= k < |results| ==> results[k] == Responded(true)
    ensures Successes(tasks, results) == |Attempts(email, tasks)|
  {
    if tasks != [] {
      var n := |tasks| - 1;
      AllOkAllCount(email, tasks[..n], results[..n]);
    }
  }

  /** Entries are processed in order: the requests for a concatenation are
      those for the first part followed by those for the second. */
  lemma {:induction false} AttemptsConcat(email: string, a: seq<ProposedTask>, b: seq<ProposedTask>)
    ensures Attempts(email, a + b) == Attempts(email, a) + Attempts(email, b)
  {
    if b == [] {
      assert a + b == a;
    } else {
      var n := |b| - 1;
      assert (a + b)[..|a + b| - 1] == a + b[..n];
      AttemptsConcat(email, a, b[..n]);
    }
  }

  /** The transcript entries a finished request adds: one assistant message
      for a missing webhook, an abort (its own text) or any other failure;
      after a reply, its message if that is truthy and nothing otherwise. */
  function ReplyEntries(configured: bool, reply: ChatReply): (r: seq<Message>)
    ensures |r| <= 1
    ensures forall k :: 0 <= k < |r| ==> r[k].sender == Assistant
    ensures !configured || !reply.Answered? ==>
      r == [Message(if configured && reply == Aborted then TimedOutText else SendFailedText, Assistant)]
    ensures configured && reply.Answered? ==>
      (|r| == 1 <==> TruthyText(reply.message)) && (r != [] ==> r[0].text == reply.message.value)
  {
    if !configured then [Message(SendFailedText, Assistant)]
    else match reply
      case Aborted => [Message(TimedOutText, Assistant)]
      case Failed => [Message(SendFailedText, Assistant)]
      case NotOk(_) => [Message(SendFailedText, Assistant)]
      case Answered(m, _) => if TruthyText(m) then [Message(m.value, Assistant)] else []
  }

  /** `createTask`: posts the task with the user's email; true exactly when
      the response is ok, false for a non-ok response or a thrown error. */
  method CreateTask(email: string, title: string, description: string, result: CallResult)
    returns (request: CreateRequest, success: bool)
    ensures request == CreateRequest(CreateTaskPath, title, description, email)
    ensures success <==> result == Responded(true)
  {
    request := CreateRequest(CreateTaskPath, title, description, email);
    match result {
      case Responded(ok) => success := ok;
      case Threw => success := false;
    }
  }

  /** The loop over the proposed tasks: entries without a truthy title are
      skipped, each other entry is sent exactly once and in order, and a
      failure does not stop the loop. `results[i]` is how the request for
      entry `i` ends. */
  method CreateProposedTasks(email: string, tasks: seq<ProposedTask>, results: seq<CallResult>)
    returns (sent: seq<CreateRequest>, successCount: nat)
    requires |results| == |tasks|
    ensures sent == Attempts(email, tasks)
    ensures successCount == Successes(tasks, results) && successCount <= |sent|
  {
    sent := [];
    successCount := 0;
    var i := 0;
    while i < |tasks|
      invariant 0 <= i <= |tasks|
      invariant sent == Attempts(email, tasks[..i])
      invariant successCount == Successes(tasks[..i], results[..i])
    {
      assert tasks[..i + 1][..i] == tasks[..i] && results[..i + 1][..i] == results[..i];
      var entry := tasks[i];
      if TruthyText(entry.title) {
        var request, success := CreateTask(email, entry.title.value, TextOf(entry.description), results[i]);
        sent := sent + [request];
        if success {
          successCount := successCount + 1;
        }
      }
      i := i + 1;
    }
    assert tasks[..i] == tasks && results[..i] == results;
    SuccessesBounded(email, tasks, results);
  }

  class ChatAssistant {
    const userEmail: string
    /** Whether the dashboard passed an `onTaskCreated` listener. */
    const hasListener: bool
    var messages: seq<Message>
    var inputValue: string
    var isSending: bool

    constructor (userEmail: string, hasListener: bool)
      ensures this.userEmail == userEmail && this.hasListener == hasListener
      ensures messages == [] && inputValue == "" && !isSending
    {
      this.userEmail := userEmail;
      this.hasListener := hasListener;
      messages := [];
      inputValue := "";
      isSending := false;
    }

    /** Typing into the input. */
    method SetInput(s: string)
      modifies this
      ensures inputValue == s && messages == old(messages) && isSending == old(isSending)
    {
      inputValue := s;
    }

    /** The part of `handleSendMessage` before the request: nothing happens
        for a blank input or while a send is in flight; otherwise the
        trimmed text is appended as a user message and the input cleared,
        before any network activity. */
    method BeginSend() returns (started: bool, text: string)
      modifies this
      ensures started <==> !Blank(old(inputValue)) && !old(isSending)
      ensures !started ==> messages == old(messages) && inputValue == old(inputValue) && isSending == old(isSending)
      ensures started ==>
        && text == Trim(old(inputValue)) && text != ""
        && messages == old(messages) + [Message(text, User)]
        && inputValue == "" && isSending
    {
      if Blank(inputValue) || isSending {
        return false, "";
      }
      text := Trim(inputValue);
      inputValue := "";
      messages := messages + [Message(text, User)];
      isSending := true;
      started := true;
    }

    /** The part of `handleSendMessage` after the request for `text` was
        issued (or refused for want of a webhook): the transcript only grows,
        proposed tasks are created in order, the listener is scheduled only
        after at least one success, and the send is over afterwards.
        `results` says how each proposed entry's request ends. */
    method FinishSend(text: string, configured: bool, reply: ChatReply, results: seq<CallResult>)
      returns (request: Option<ChatRequest>, sent: seq<CreateRequest>, notified: bool)
      requires isSending
      requires |results| == |Proposed(reply)|
      modifies this
      ensures !isSending && inputValue == old(inputValue)
      ensures messages == old(messages) + ReplyEntries(configured, reply)
      ensures request == if configured then Some(ChatRequest(userEmail, text)) else None
      ensures sent == if configured && reply.Answered? then Attempts(userEmail, Proposed(reply)) else []
      ensures notified <==> configured && reply.Answered? && hasListener && Successes(Proposed(reply), results) > 0
    {
      request := if configured then Some(ChatRequest(userEmail, text)) else None;
      sent, notified := [], false;
      messages := messages + ReplyEntries(configured, reply);
      if configured && reply.Answered? {
        var tasks := Proposed(reply);
        if |tasks| > 0 {
          var successCount;
          sent, successCount := CreateProposedTasks(userEmail, tasks, results);
          notified := successCount > 0 && hasListener;
        }
      }
      isSending := false;
    }

    /** `handleSendMessage` run to completion: the two halves above. */
    method HandleSendMessage(configured: bool, reply: ChatReply, results: seq<CallResult>)
      returns (request: Option<ChatRequest>, sent: seq<CreateRequest>, notified: bool)
      requires |results| == |Proposed(reply)|
      modifies this
      ensures Blank(old(inputValue)) || old(isSending) ==>
        && messages == old(messages) && inputValue == old(inputValue) && isSending == old(isSending)
        && request == None && sent == [] && !notified
      ensures !Blank(old(inputValue)) && !old(isSending) ==>
        && messages == old(messages) + [Message(Trim(old(inputValue)), User)] + ReplyEntries(configured, reply)
        && inputValue == "" && !isSending
        && request == (if configured then Some(ChatRequest(userEmail, Trim(old(inputValue)))) else None)
        && sent == (if configured && reply.Answered? then Attempts(userEmail, Proposed(reply)) else [])
        && (notified <==> configured && reply.Answered? && hasListener && Successes(Proposed(reply), results) > 0)
    {
      var started, text := BeginSend();
      if !started {
        return None, [], false;
      }
      request, sent, notified := FinishSend(text, configured, reply, results);
    }
  }
}
