/** Putting jobs on the bot's task queue: the FIFO `task_queue`, the
    initial cycle, the worker taking jobs off it, and the Telegram webhook
    that queues the essence job on `/essence`. */
module Dispatch {
  import opened PyValues

  /** The functions the bot puts on its queue. */
  datatype Job = FeedCat | GetPrize | PlayGame | ApplyEssencesToPets

  /** `task_queue = Queue()`: jobs waiting, oldest first. */
  class TaskQueue {
    var pending: seq<Job>

    constructor ()
      ensures pending == []
    {
      pending := [];
    }

    /** `task_queue.put(job)` */
    method Put(job: Job)
      modifies this
      ensures pending == old(pending) + [job]
    {
      pending := pending + [job];
    }

    /** `task_queue.get(timeout=1)`: the oldest job, or `None` where the
        call raises `Empty` because nothing was queued. */
    method Get() returns (job: Option<Job>)
      modifies this
      ensures old(pending) == [] ==> job == None && pending == []
      ensures old(pending) != [] ==> job == Some(old(pending)[0]) && pending == old(pending)[1..]
    {
      if pending == [] {
        job := None;
      } else {
        job := Some(pending[0]);
        pending := pending[1..];
      }
    }
  }

  /** The worker taking jobs until the queue is empty: it gets them in the
      order they were put. */
  method Drain(q: TaskQueue) returns (ran: seq<Job>)
    modifies q
    ensures ran == old(q.pending)
    ensures q.pending == []
  {
    ran := [];
    while q.pending != []
      invariant old(q.pending) == ran + q.pending
      decreases |q.pending|
    {
      var job := q.Get();
      ran := ran + [job.value];
    }
  }

  /** `start_initial_cycle`: queue feeding, prizes and games, in that order. */
  method StartInitialCycle(q: TaskQueue)
    modifies q
    ensures q.pending == old(q.pending) + [FeedCat, GetPrize, PlayGame]
  {
    q.Put(FeedCat);
    q.Put(GetPrize);
    q.Put(PlayGame);
  }

  /** On a fresh queue, the worker runs the initial cycle's jobs in order. */
  method InitialCycleRunsInOrder() returns (ran: seq<Job>)
    ensures ran == [FeedCat, GetPrize, PlayGame]
  {
    var q := new TaskQueue();
    StartInitialCycle(q);
    ran := Drain(q);
  }

  /** Whether the webhook queues the essence job for the update `update`
      (the decoded request body, `None` when the body is not JSON), with
      `CHAT_ID = chatId`; `Raised` when handling the update raises. Reading
      `request.json` raises on a body that is not JSON (Flask answers 400 or
      415), and a JSON `null` is a falsy update. */
  function EssenceCommand(update: Option<Json>, chatId: Option<int>): (r: Result<bool>)
    ensures update.None? ==> r == Raised
    ensures update == Some(JNull) ==> r == Ok(false)
    ensures r == Ok(true) ==> update.Some? && update.value.JObj? && "message" in update.value.fields
  {
    if update.None? then Raised
    else if !Truthy(update.value) then Ok(false)
    else
      var data := update.value;
      var hasMessage :- Contains(data, "message");
      if !hasMessage then Ok(false)
      else
        var msg :- Subscript(data, "message");
        var chat :- Get(msg, "chat", JObj(map[]));
        var sender :- Get(chat, "id", JNull);
        var text :- Get(msg, "text", JStr(""));
        if chatId.Some? && !EqualsInt(sender, chatId.value) then Ok(false)
        else Ok(text == JStr("/essence"))
  }

  /** The message of an update can be read: the update is a dict, its
      `message` a dict, and the message's `chat`, when present, a dict. */
  predicate ReadableMessage(data: Json) {
    && data.JObj? && "message" in data.fields
    && var msg := data.fields["message"];
    && msg.JObj?
    && ("chat" !in msg.fields || msg.fields["chat"].JObj?)
  }

  /** The sender's chat id, `None` when the message has no chat or the chat no id. */
  function SenderId(data: Json): Json
    requires ReadableMessage(data)
  {
    var msg := data.fields["message"].fields;
    if "chat" in msg && "id" in msg["chat"].fields then msg["chat"].fields["id"] else JNull
  }

  /** An `/essence` command from the configured chat, or from any chat when
      none is configured. */
  predicate IsEssenceRequest(update: Option<Json>, chatId: Option<int>) {
    && update.Some? && ReadableMessage(update.value)
    && (chatId.None? || EqualsInt(SenderId(update.value), chatId.value))
    && var msg := update.value.fields["message"].fields;
    && "text" in msg && msg["text"] == JStr("/essence")
  }

  /** The webhook queues the essence job exactly for an `/essence` command
      from the configured chat. */
  lemma EssenceCommandExactly(update: Option<Json>, chatId: Option<int>)
    ensures EssenceCommand(update, chatId) == Ok(true) <==> IsEssenceRequest(update, chatId)
  {
  }

  /** Handling an update raises exactly when the body is not JSON, the
      update is a truthy number, or it mentions `message` but the message
      cannot be read. */
  lemma EssenceCommandRaises(update: Option<Json>, chatId: Option<int>)
    ensures EssenceCommand(update, chatId).Raised? <==>
              || update.None?
              || (&& TruthyOpt(update)
                  && (update.value.JInt? || update.value.JBool?
                      || (Contains(update.value, "message") == Ok(true) && !ReadableMessage(update.value))))
  {
  }

  /** The `/webhook` route: replies "ok" unless handling the update raises
      (Flask then answers with an error), and queues the essence job at most
      once, exactly when the update is an `/essence` command from the
      configured chat. */
  method Webhook(q: TaskQueue, update: Option<Json>, chatId: Option<int>) returns (reply: Result<string>)
    modifies q
    ensures reply.Raised? <==> EssenceCommand(update, chatId).Raised?
    ensures reply.Ok? ==> reply.value == "ok"
    ensures q.pending == old(q.pending) + (if IsEssenceRequest(update, chatId) then [ApplyEssencesToPets] else [])
  {
    EssenceCommandExactly(update, chatId);
    var decision := EssenceCommand(update, chatId);
    if decision.Raised? {
      return Raised;
    }
    if decision.value {
      q.Put(ApplyEssencesToPets);
    }
    reply := Ok("ok");
  }
}
