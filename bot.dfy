/**
 * The handler as the program runs it: four process-wide maps updated in place by
 * `isRateLimited`, `initChat`, the `bot.on("message")` callback and the `setTimeout`
 * callback. Each method is proved to leave exactly the snapshot the matching Flow
 * function describes, and to keep Flow.Valid.
 */
module BotHandler {
  import opened Wrappers
  import opened Keys
  import opened RateLimit
  import opened Chunking
  import opened History
  import opened Flow

  /** What `safeReply` sends for an optional reply: nothing when there is no reply. */
  function Delivered(reply: Option<string>): seq<string>
  {
    if reply.Some? then Chunks(reply.value) else []
  }

  class Bot {
    /** `userLastMessageTime`: the last accepted time of each user. */
    var lastTime: map<UserId, int>
    /** `userPendingMessage`: at most one deferred message per user. */
    var pending: map<UserId, Message>
    /** `tempai`: the cached session of each user. */
    var sessions: map<UserId, Session>
    /** The kubitdb store: histories under `history-<id>` keys. */
    var store: map<string, seq<Turn>>

    function Snapshot(): State
      reads this
    {
      State(lastTime, pending, sessions, store)
    }

    ghost predicate Invariant()
      reads this
    {
      Valid(Snapshot())
    }

    /**
     * Process start: the three in-memory maps are empty, and the kubitdb store holds what
     * earlier runs saved on disk, every history of it made of whole pairs.
     */
    constructor (saved: map<string, seq<Turn>>)
      requires StorePaired(saved)
      ensures Snapshot() == Initial.(store := saved) && Invariant()
    {
      lastTime, pending, sessions, store := map[], map[], map[], saved;
      RestartIsValid(saved);
    }

    /** `isRateLimited`: restamps the user on acceptance (result 0), otherwise returns the wait. */
    method IsRateLimited(u: UserId, now: int) returns (wait: int)
      requires Invariant()
      modifies this
      ensures Invariant()
      ensures wait == Wait(Lookup(old(lastTime), u), now)
      ensures lastTime == if wait == 0 then old(lastTime)[u := now] else old(lastTime)
      ensures pending == old(pending) && sessions == old(sessions) && store == old(store)
    {
      if u in lastTime && lastTime[u] != 0 && now - lastTime[u] < Window {
        return Window - (now - lastTime[u]);
      }
      lastTime := lastTime[u := now];
      return 0;
    }

    /** `initChat`: caches a session whose mirror is the stored history, or empty. */
    method InitChat(u: UserId)
      requires Invariant()
      modifies this
      ensures Invariant()
      ensures sessions == old(sessions)[u := Session(Stored(old(store), u))]
      ensures lastTime == old(lastTime) && pending == old(pending) && store == old(store)
    {
      LoadKeepsValid(Snapshot(), u);
      var key := HistoryKey(u);
      var history := if key in store then store[key] else [];
      sessions := sessions[u := Session(history)];
    }

    /** `/newchat`: `db.set(key, [])` and `delete tempai[userId]`. */
    method NewChat(u: UserId) returns (reply: string)
      requires Invariant()
      modifies this
      ensures Invariant()
      ensures Snapshot() == Flow.NewChat(old(Snapshot()), u).state
      ensures Some(reply) == Flow.NewChat(old(Snapshot()), u).reply
    {
      NewChatKeepsValid(Snapshot(), u);
      store := store[HistoryKey(u) := []];
      sessions := sessions - {u};
      return ChatReset;
    }

    /**
     * `popLastMessages` on the mirror and on the stored copy, then `db.set` of the stored
     * copy: both lose their last pair together.
     */
    method PopPair(u: UserId)
      requires Invariant()
      requires u in sessions && |sessions[u].history| >= 2 && |Stored(store, u)| >= 2
      modifies this
      ensures Invariant()
      ensures Snapshot() == Commit(old(Snapshot()), u,
                                   old(sessions[u].history)[..|old(sessions[u].history)| - 2],
                                   Stored(old(store), u)[..|Stored(old(store), u)| - 2])
    {
      PopPairKeepsValid(Snapshot(), u);
      var historyKey := HistoryKey(u);
      var channeldata := if historyKey in store then store[historyKey] else [];
      var history := PopLastMessages(sessions[u].history);
      assert history == old(sessions[u].history)[..|old(sessions[u].history)| - 2];
      sessions := sessions[u := Session(history)];
      channeldata := PopLastMessages(channeldata);
      store := store[historyKey := channeldata];
      assert channeldata == Stored(old(store), u)[..|Stored(old(store), u)| - 2];
    }

    /** `/removelastmsg`, once the session is cached. */
    method RemoveLastMsg(u: UserId) returns (reply: string)
      requires Invariant() && u in sessions
      modifies this
      ensures Invariant()
      ensures Snapshot() == Flow.RemoveLastMsg(old(Snapshot()), u).state
      ensures Some(reply) == Flow.RemoveLastMsg(old(Snapshot()), u).reply
    {
      var chat := sessions[u];
      var historyKey := HistoryKey(u);
      var channeldata := if historyKey in store then store[historyKey] else [];
      if |chat.history| >= 2 && |channeldata| >= 2 {
        PopPair(u);
        return Removed;
      } else {
        return NothingToRemove;
      }
    }

    /** The model call and the two `db.push` calls: the user's input, then the model's answer. */
    method Ask(u: UserId, input: string, model: ModelOutcome) returns (reply: string)
      requires Invariant() && u in sessions
      modifies this
      ensures Invariant()
      ensures Snapshot() == Flow.Ask(old(Snapshot()), u, input, model).state
      ensures Some(reply) == Flow.Ask(old(Snapshot()), u, input, model).reply
    {
      match model
      case Failed =>
        return GenericError;
      case Responded(response) =>
        AskKeepsValid(Snapshot(), u, input, model);
        var historyKey := HistoryKey(u);
        var before := if historyKey in store then store[historyKey] else [];
        store := store[historyKey := before + [Turn(User, input)]];
        store := store[historyKey := store[historyKey] + [Turn(Model, response)]];
        assert (before + [Turn(User, input)]) + [Turn(Model, response)] == AppendPair(before, input, response);
        assert store == old(store)[historyKey := AppendPair(Stored(old(store), u), input, response)];
        return response;
    }

    /** `/resent`, once the session is cached: pop the last pair, then ask the model with its user text. */
    method Resent(u: UserId, model: ModelOutcome) returns (reply: string)
      requires Invariant() && u in sessions
      modifies this
      ensures Invariant()
      ensures Snapshot() == Flow.Resent(old(Snapshot()), u, model).state
      ensures Some(reply) == Flow.Resent(old(Snapshot()), u, model).reply
    {
      var chat := sessions[u];
      var historyKey := HistoryKey(u);
      var channeldata := if historyKey in store then store[historyKey] else [];
      if |chat.history| < 2 || |channeldata| < 2 {
        return NothingToResend;
      }
      var text := chat.history[|chat.history| - 2].text;
      PopPair(u);
      if |sessions[u].history| < 1 {
        return NothingToResend;
      }
      if text == "" {
        return NoValidResend;
      }
      reply := Ask(u, text, model);
    }

    /** The handler's `try` block, for a message the throttle has accepted. */
    method HandleAccepted(msg: Message, model: ModelOutcome) returns (reply: string)
      requires Invariant()
      modifies this
      ensures Invariant()
      ensures Snapshot() == Accepted(old(Snapshot()), msg, model).state
      ensures Some(reply) == Accepted(old(Snapshot()), msg, model).reply
    {
      var u := msg.from;
      var command := Classify(msg.text);
      if command == Reset {
        reply := NewChat(u);
        return;
      }
      if u !in sessions {
        InitChat(u);
      }
      assert Snapshot() == Resolve(old(Snapshot()), u);
      match command
      case RemoveLast =>
        reply := RemoveLastMsg(u);
      case Resend =>
        reply := Resent(u, model);
      case Prompt =>
        reply := Ask(u, msg.text, model);
    }

    /**
     * The `bot.on("message")` callback: ignore a message without text, throttle, park the
     * message in an empty slot or drop it, or run the command; then deliver the reply in chunks.
     */
    method OnMessage(msg: Message, now: int, model: ModelOutcome) returns (reply: Option<string>, sent: seq<string>)
      requires Invariant()
      modifies this
      ensures Invariant()
      ensures Snapshot() == Handle(old(Snapshot()), msg, now, model).state
      ensures reply == Handle(old(Snapshot()), msg, now, model).reply
      ensures sent == Delivered(reply)
    {
      HandleKeepsValid(Snapshot(), msg, now, model);
      if msg.text == "" {
        return None, [];
      }
      var u := msg.from;
      var waitTime := IsRateLimited(u, now);
      if waitTime > 0 {
        if u !in pending {
          pending := pending[u := msg];
          reply := Some(TooFast);
        } else {
          reply := Some(DoNotSpam);
        }
      } else {
        var text := HandleAccepted(msg, model);
        reply := Some(text);
      }
      sent := SafeReply(reply.value);
    }

    /** The `setTimeout` callback for user `u`: empty the slot, then re-enter the handler. */
    method FireTimer(u: UserId, now: int, model: ModelOutcome) returns (reply: Option<string>, sent: seq<string>)
      requires Invariant()
      modifies this
      ensures Invariant()
      ensures Snapshot() == Fire(old(Snapshot()), u, now, model).state
      ensures reply == Fire(old(Snapshot()), u, now, model).reply
      ensures sent == Delivered(reply)
    {
      if u in pending {
        var pendingMsg := pending[u];
        pending := pending - {u};
        reply, sent := OnMessage(pendingMsg, now, model);
      } else {
        reply, sent := None, [];
      }
    }
  }
}
