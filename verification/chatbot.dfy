/**
 The request path of the bot: the webhook validates the inbound message and
 sends an interim notice; processing then records the message in the user's
 history, asks the agent for a reply, and enqueues the reply in chunks.
 The background thread is modelled as running right after the webhook's
 own enqueue; the agent is a parameter that sees only the new message.
 */
module Chatbot {
  import opened Wrappers
  import Chunker
  import History
  import PyStr
  import opened Outbox
  import Ints

  /** Reply used when the agent's final output is empty or `None`. */
  const Fallback: string := "Error generando respuesta"

  /** Interim notice the webhook enqueues for every accepted message. */
  const Processing: string := "Procesando..."

  const StatusOk: int := 200
  const StatusBadRequest: int := 400

  /** What one agent run gives back: its `final_output` (possibly `None`),
      or an exception escaping `get_agent()` / `Runner.run_sync`. */
  datatype AgentRun = Completed(finalOutput: Option<string>) | Raised

  /** The process state the handlers touch: the history map and the outbound queue. */
  datatype State = State(histories: History.Histories, outbox: Outbox)

  /** `res or "Error generando respuesta"`: the agent's output when it is a
      non-empty string, the fallback otherwise. Never empty. */
  function ReplyText(res: Option<string>): (text: string)
    ensures text != []
    ensures res.Some? && res.value != [] ==> text == res.value
    ensures res.None? || res.value == [] ==> text == Fallback
  {
    if res.Some? && res.value != [] then res.value else Fallback
  }

  /** The chunk loop written as the source writes it: start offsets
      `0, ChunkSize, 2 * ChunkSize, ...` below `len(text)`, one enqueue each. */
  method EnqueueChunks(out: Outbox, uid: string, text: string) returns (r: Outbox)
    ensures r == EnqueueAll(out, uid, Chunker.Chunks(text))
    ensures r[..|out|] == out
    ensures AllTo(r[|out|..], uid)
    ensures Chunker.Concat(Bodies(r[|out|..])) == text
  {
    var cs := Chunker.Chunks(text);
    var i := 0;
    var k := 0;
    r := out;
    while i < |text|
      invariant i == k * Chunker.ChunkSize
      invariant k <= |cs|
      invariant k < |cs| <==> i < |text|
      invariant r == EnqueueAll(out, uid, cs[..k])
    {
      Chunker.NumChunksBound(|text|, k);
      r := Enqueue(r, uid, text[i .. Ints.Min(i + Chunker.ChunkSize, |text|)]);
      assert cs[..k + 1] == cs[..k] + [cs[k]];
      EnqueueAllSnoc(out, uid, cs[..k], cs[k]);
      i := i + Chunker.ChunkSize;
      k := k + 1;
      Chunker.NumChunksBound(|text|, k);
    }
    assert cs[..k] == cs;
    EnqueueAllAdds(out, uid, cs);
    Chunker.ConcatChunks(text);
  }

  /** Enqueueing one more body after a batch is enqueueing the longer batch. */
  lemma EnqueueAllSnoc(out: Outbox, uid: string, bodies: seq<string>, b: string)
    ensures Enqueue(EnqueueAll(out, uid, bodies), uid, b) == EnqueueAll(out, uid, bodies + [b])
  {}

  /** `process_input(msg, uid)`: record the message, run the agent on `msg`
      alone, and enqueue the reply (or the fallback) in chunks. If the agent
      raises, the thread ends after recording and nothing is enqueued.
      Otherwise at least one message is enqueued, all to `uid`, each at most
      `ChunkSize` long and all but the last full, and their join is the reply. */
  function ProcessInput(s: State, msg: string, uid: string, agent: string -> AgentRun, memoryLimit: int): (r: State)
    ensures r.histories == History.RecordHistory(s.histories, uid, msg, memoryLimit)
    ensures agent(msg).Raised? ==> r.outbox == s.outbox
    ensures agent(msg).Completed? ==>
      && |r.outbox| > |s.outbox|
      && r.outbox[..|s.outbox|] == s.outbox
      && var added := r.outbox[|s.outbox|..];
      && AllTo(added, uid)
      && Chunker.WellFormed(Bodies(added))
      && Chunker.Concat(Bodies(added)) == ReplyText(agent(msg).finalOutput)
  {
    var recorded := s.(histories := History.RecordHistory(s.histories, uid, msg, memoryLimit));
    match agent(msg)
    case Raised => recorded
    case Completed(res) =>
      var text := ReplyText(res);
      EnqueueAllAdds(s.outbox, uid, Chunker.Chunks(text));
      Chunker.ConcatChunks(text);
      recorded.(outbox := EnqueueAll(s.outbox, uid, Chunker.Chunks(text)))
  }

  /** The reply does not depend on the history: the agent is given only the
      new message, so two states with the same queue get the same messages. */
  lemma ReplyIgnoresHistory(s1: State, s2: State, msg: string, uid: string,
                            agent: string -> AgentRun, memoryLimit: int)
    requires s1.outbox == s2.outbox
    ensures ProcessInput(s1, msg, uid, agent, memoryLimit).outbox
         == ProcessInput(s2, msg, uid, agent, memoryLimit).outbox
  {}

  /** The form fields of a webhook call; a missing field is `None`. */
  datatype Request = Request(body: Option<string>, from: Option<string>)

  /** Work the webhook hands to the background thread. */
  datatype Job = Job(msg: string, uid: string)

  /** What the webhook does before it returns: its status, the state it
      leaves, and the job it starts (if any). */
  datatype IntakeResult = IntakeResult(status: int, state: State, spawned: Option<Job>)

  /** The webhook up to `return`: strip `Body`; an empty result is refused
      with 400 and touches nothing; otherwise "Procesando..." is enqueued
      for the normalized sender and processing is started, with 200. */
  function Intake(s: State, req: Request, normalize: string -> string): (r: IntakeResult)
    ensures r.status == StatusBadRequest <==> PyStr.AllSpace(req.body.GetOr(""))
    ensures r.status == StatusBadRequest ==> r.state == s && r.spawned.None?
    ensures r.status != StatusBadRequest ==>
      var uid := normalize(req.from.GetOr(""));
      && r.status == StatusOk
      && r.state.histories == s.histories
      && r.state.outbox == s.outbox + [Message(uid, Processing)]
      && r.spawned == Some(Job(PyStr.Strip(req.body.GetOr("")), uid))
      && r.spawned.value.msg != []
  {
    var msg := PyStr.Strip(req.body.GetOr(""));
    var uid := normalize(req.from.GetOr(""));
    if msg == [] then IntakeResult(StatusBadRequest, s, None)
    else IntakeResult(StatusOk, s.(outbox := Enqueue(s.outbox, uid, Processing)), Some(Job(msg, uid)))
  }

  /** Outcome of a whole webhook call: its status and the state once the
      started processing has finished. */
  datatype WebhookResult = WebhookResult(status: int, state: State)

  /** A webhook call followed by the processing it starts. A blank body gives
      400 with no message enqueued and no history changed. Otherwise the
      status is 200, the stripped message is recorded, "Procesando..." is the
      first message enqueued whatever the agent does, and the reply chunks
      (if the agent returns) follow it, all to the same user. */
  function Webhook(s: State, req: Request, normalize: string -> string,
                   agent: string -> AgentRun, memoryLimit: int): (r: WebhookResult)
    ensures r.status == StatusBadRequest <==> PyStr.AllSpace(req.body.GetOr(""))
    ensures r.status == StatusBadRequest ==> r.state == s
    ensures r.status != StatusBadRequest ==>
      var msg := PyStr.Strip(req.body.GetOr(""));
      var uid := normalize(req.from.GetOr(""));
      && r.status == StatusOk
      && r.state.histories == History.RecordHistory(s.histories, uid, msg, memoryLimit)
      && |r.state.outbox| > |s.outbox|
      && r.state.outbox[..|s.outbox| + 1] == s.outbox + [Message(uid, Processing)]
      && AllTo(r.state.outbox[|s.outbox|..], uid)
      && (agent(msg).Raised? ==> |r.state.outbox| == |s.outbox| + 1)
      && (agent(msg).Completed? ==>
            |r.state.outbox| > |s.outbox| + 1
            && Bodies(r.state.outbox[|s.outbox| + 1..]) == Chunker.Chunks(ReplyText(agent(msg).finalOutput))
            && Chunker.Concat(Bodies(r.state.outbox[|s.outbox| + 1..])) == ReplyText(agent(msg).finalOutput))
  {
    var i := Intake(s, req, normalize);
    match i.spawned
    case None => WebhookResult(i.status, i.state)
    case Some(job) =>
      var done := ProcessInput(i.state, job.msg, job.uid, agent, memoryLimit);
      var reply := match agent(job.msg) case Completed(res) => ReplyText(res) case Raised => [];
      EnqueueAllAdds(i.state.outbox, job.uid, Chunker.Chunks(reply));
      WebhookPrefix(s.outbox, i.state.outbox, done.outbox, job.uid);
      WebhookResult(i.status, done)
  }

  /** Joining the interim notice and the reply messages, all to one user. */
  lemma WebhookPrefix(out: Outbox, mid: Outbox, fin: Outbox, uid: string)
    requires mid == out + [Message(uid, Processing)]
    requires |fin| >= |mid| && fin[..|mid|] == mid
    requires AllTo(fin[|mid|..], uid)
    ensures fin[..|out| + 1] == mid
    ensures AllTo(fin[|out|..], uid)
  {
    assert fin[..|out| + 1] == fin[..|mid|];
    forall j | 0 <= j < |fin[|out|..]|
      ensures fin[|out|..][j].to == uid
    {
      if j == 0 {
        assert fin[|out|..][0] == fin[..|mid|][|out|];
      } else {
        assert fin[|out|..][j] == fin[|mid|..][j - 1];
      }
    }
  }

  /** Only user turns are ever recorded: no webhook call stores the agent's reply. */
  lemma WebhookOnlyUserTurns(s: State, req: Request, normalize: string -> string,
                             agent: string -> AgentRun, memoryLimit: int)
    requires History.OnlyUserTurns(s.histories)
    ensures History.OnlyUserTurns(Webhook(s, req, normalize, agent, memoryLimit).state.histories)
  {
    var r := Webhook(s, req, normalize, agent, memoryLimit);
    if r.status != StatusBadRequest {
      var msg := PyStr.Strip(req.body.GetOr(""));
      var uid := normalize(req.from.GetOr(""));
      History.RecordOnlyUserTurns(s.histories, uid, msg, memoryLimit);
    }
  }
}
