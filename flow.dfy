/**
 * The per-user flow control of the `bot.on("message")` handler, as functions on a
 * snapshot of the four process-wide maps. The class in BotHandler runs the same
 * steps imperatively and is proved to produce exactly these snapshots.
 */
module Flow {
  import opened Wrappers
  import opened Keys
  import opened RateLimit
  import opened History

  /** An incoming Telegram message: the sender and the text (empty when it has none). */
  datatype Message = Message(from: UserId, text: string)

  /** What `chat.ai.sendMessage` produced: an answer text, or a thrown error. */
  datatype ModelOutcome = Responded(response: string) | Failed

  /** A cached `tempai` entry: the history mirror (the remote chat handle is not modelled). */
  datatype Session = Session(history: seq<Turn>)

  /**
   * The process-wide state: `userLastMessageTime`, `userPendingMessage`, `tempai`
   * and the kubitdb store, which maps keys to histories.
   */
  datatype State = State(
    lastTime: map<UserId, int>,
    pending: map<UserId, Message>,
    sessions: map<UserId, Session>,
    store: map<string, seq<Turn>>)

  /** The state after handling one message, and the text passed to `msg.reply`, if any. */
  datatype Step = Step(state: State, reply: Option<string>)

  const NewChatCommand: string := "/newchat"
  const RemoveCommand: string := "/removelastmsg"
  const ResendCommand: string := "/resent"

  /** The branch of the handler a text takes: one of the three commands, or a prompt for the model. */
  datatype Command = Reset | RemoveLast | Resend | Prompt

  /** The handler's `msg.text === ...` tests: a command only on an exact match. */
  function Classify(text: string): (c: Command)
    ensures c == Reset <==> text == NewChatCommand
    ensures c == RemoveLast <==> text == RemoveCommand
    ensures c == Resend <==> text == ResendCommand
    ensures c == Prompt <==> text !in {NewChatCommand, RemoveCommand, ResendCommand}
  {
    if text == NewChatCommand then Reset
    else if text == RemoveCommand then RemoveLast
    else if text == ResendCommand then Resend
    else Prompt
  }

  const TooFast: string := "You sent a message too fast. Your message will be sent automatically in 5 seconds. Just wait."
  const DoNotSpam: string := "Do not spam, your previous message is in the queue. Please wait."
  const ChatReset: string := "Chat reset."
  const Removed: string := "Last message removed."
  const NothingToRemove: string := "No messages to remove."
  const NothingToResend: string := "No messages to resend."
  const NoValidResend: string := "No valid message to resend."
  const GenericError: string := "An error occurred. Please try again or contact the admin."

  const Initial: State := State(map[], map[], map[], map[])

  /**
   * `db.get(getHistoryKey(u)) || []`: a missing key reads as the empty history, a present
   * one as its value (an empty array is truthy, so it is kept as it is).
   */
  function Stored(store: map<string, seq<Turn>>, u: UserId): (h: seq<Turn>)
    ensures HistoryKey(u) !in store ==> h == []
    ensures HistoryKey(u) in store ==> h == store[HistoryKey(u)]
  {
    if HistoryKey(u) in store then store[HistoryKey(u)] else []
  }

  /** The mirror the handler works on: the cached one, or the one `initChat` loads from the store. */
  function Mirror(s: State, u: UserId): seq<Turn>
  {
    if u in s.sessions then s.sessions[u].history else Stored(s.store, u)
  }

  /** Writes a user's mirror and stored history together (the pops followed by `db.set`). */
  function Commit(s: State, u: UserId, mirror: seq<Turn>, data: seq<Turn>): State
  {
    s.(sessions := s.sessions[u := Session(mirror)], store := s.store[HistoryKey(u) := data])
  }

  /**
   * The invariant the handler keeps: every stored history is made of whole pairs, every
   * cached mirror too and is a prefix of the user's stored history, and each pending slot
   * holds a message of its own user that has a text.
   */
  predicate Valid(s: State)
  {
    StorePaired(s.store) && MirrorsAgree(s.sessions, s.store) && SlotsOwned(s.pending)
  }

  predicate StorePaired(store: map<string, seq<Turn>>)
  {
    forall k :: k in store ==> WellPaired(store[k])
  }

  predicate MirrorsAgree(sessions: map<UserId, Session>, store: map<string, seq<Turn>>)
  {
    forall v :: v in sessions ==> WellPaired(sessions[v].history) && sessions[v].history <= Stored(store, v)
  }

  predicate SlotsOwned(pending: map<UserId, Message>)
  {
    forall v :: v in pending ==> pending[v].from == v && pending[v].text != ""
  }

  /** `/newchat`: the stored history becomes empty and the cached session is evicted. */
  function NewChat(s: State, u: UserId): (r: Step)
    ensures r.state.lastTime == s.lastTime && r.state.pending == s.pending
    ensures Stored(r.state.store, u) == [] && u !in r.state.sessions
  {
    Step(s.(store := s.store[HistoryKey(u) := []], sessions := s.sessions - {u}), Some(ChatReset))
  }

  /** `initChat` when no session is cached: the mirror starts as the stored history. */
  function Resolve(s: State, u: UserId): (r: State)
    ensures u in r.sessions && r.sessions[u].history == Mirror(s, u)
    ensures r.sessions - {u} == s.sessions - {u}
    ensures r.lastTime == s.lastTime && r.pending == s.pending && r.store == s.store
  {
    s.(sessions := s.sessions[u := Session(Mirror(s, u))])
  }

  /** `/removelastmsg` on a resolved session. */
  function RemoveLastMsg(s: State, u: UserId): (r: Step)
    requires u in s.sessions
    ensures r.state.lastTime == s.lastTime && r.state.pending == s.pending
  {
    var mirror, data := s.sessions[u].history, Stored(s.store, u);
    if |mirror| >= 2 && |data| >= 2 then
      Step(Commit(s, u, mirror[..|mirror| - 2], data[..|data| - 2]), Some(Removed))
    else
      Step(s, Some(NothingToRemove))
  }

  /** Model call and commit: on an answer, the (input, answer) pair is pushed to the store. */
  function Ask(s: State, u: UserId, input: string, model: ModelOutcome): (r: Step)
    ensures r.state.lastTime == s.lastTime && r.state.pending == s.pending && r.state.sessions == s.sessions
    ensures model.Failed? ==> r == Step(s, Some(GenericError))
    ensures model.Responded? ==> r.reply == Some(model.response)
    ensures model.Responded? ==>
              Stored(r.state.store, u) == Stored(s.store, u) + [Turn(User, input), Turn(Model, model.response)]
  {
    match model
    case Failed => Step(s, Some(GenericError))
    case Responded(response) =>
      Step(s.(store := s.store[HistoryKey(u) := AppendPair(Stored(s.store, u), input, response)]), Some(response))
  }

  /** `/resent` on a resolved session: pop the last pair, then resubmit its user text. */
  function Resent(s: State, u: UserId, model: ModelOutcome): (r: Step)
    requires u in s.sessions
    ensures r.state.lastTime == s.lastTime && r.state.pending == s.pending
  {
    var mirror, data := s.sessions[u].history, Stored(s.store, u);
    if |mirror| < 2 || |data| < 2 then
      Step(s, Some(NothingToResend))
    else
      Retry(Commit(s, u, mirror[..|mirror| - 2], data[..|data| - 2]), u, mirror[|mirror| - 2].text, model)
  }

  /** The rest of `/resent` once the last pair is popped: the two guards, then the model call. */
  function Retry(popped: State, u: UserId, input: string, model: ModelOutcome): (r: Step)
    requires u in popped.sessions
    ensures r.state.lastTime == popped.lastTime && r.state.pending == popped.pending
  {
    if |popped.sessions[u].history| < 1 then Step(popped, Some(NothingToResend))
    else if input == "" then Step(popped, Some(NoValidResend))
    else Ask(popped, u, input, model)
  }

  /** The body of the handler's `try` block, run once the throttle has accepted the message. */
  function Accepted(s: State, msg: Message, model: ModelOutcome): (r: Step)
    ensures r.state.lastTime == s.lastTime && r.state.pending == s.pending
    ensures r.reply.Some?
  {
    var u := msg.from;
    match Classify(msg.text)
    case Reset => NewChat(s, u)
    case RemoveLast => RemoveLastMsg(Resolve(s, u), u)
    case Resend => Resent(Resolve(s, u), u, model)
    case Prompt => Ask(Resolve(s, u), u, msg.text, model)
  }

  /** The whole handler for one incoming message at time `now` (index.js:93-170). */
  function Handle(s: State, msg: Message, now: int, model: ModelOutcome): (r: Step)
    ensures msg.text == "" ==> r == Step(s, None)
    ensures msg.from in s.pending ==> r.state.pending == s.pending
    ensures r.state.pending == s.pending
         || (msg.from !in s.pending && r.state.pending == s.pending[msg.from := msg] && r.reply == Some(TooFast))
    ensures msg.text != "" && Wait(Lookup(s.lastTime, msg.from), now) > 0 ==>
              && r.state.lastTime == s.lastTime
              && r.state.sessions == s.sessions
              && r.state.store == s.store
              && r.reply == Some(if msg.from in s.pending then DoNotSpam else TooFast)
    ensures msg.text != "" && Wait(Lookup(s.lastTime, msg.from), now) == 0 ==>
              r.state.lastTime == s.lastTime[msg.from := now] && r.state.pending == s.pending
  {
    if msg.text == "" then Step(s, None)
    else
      var u := msg.from;
      if Wait(Lookup(s.lastTime, u), now) > 0 then
        if u !in s.pending then Step(s.(pending := s.pending[u := msg]), Some(TooFast))
        else Step(s, Some(DoNotSpam))
      else
        Accepted(s.(lastTime := s.lastTime[u := now]), msg, model)
  }

  /** The `setTimeout` callback for user `u`: empty the slot first, then re-enter the handler. */
  function Fire(s: State, u: UserId, now: int, model: ModelOutcome): (r: Step)
    ensures u !in s.pending ==> r == Step(s, None)
  {
    if u in s.pending then Handle(s.(pending := s.pending - {u}), s.pending[u], now, model)
    else Step(s, None)
  }

  // ---------------------------------------------------------------------------
  // The invariant

  /** Writing one user's history leaves every other user's history as it was. */
  lemma StoredOfOther(store: map<string, seq<Turn>>, u: UserId, v: UserId, data: seq<Turn>)
    requires u != v
    ensures Stored(store[HistoryKey(u) := data], v) == Stored(store, v)
  {
    HistoryKeyInjective(u, v);
  }

  lemma CommitKeepsValid(s: State, u: UserId, mirror: seq<Turn>, data: seq<Turn>)
    requires Valid(s)
    requires WellPaired(mirror) && WellPaired(data) && mirror <= data
    ensures Valid(Commit(s, u, mirror, data))
  {
    var t := Commit(s, u, mirror, data);
    forall v | v in t.sessions
      ensures WellPaired(t.sessions[v].history) && t.sessions[v].history <= Stored(t.store, v)
    {
      if v != u {
        StoredOfOther(s.store, u, v, data);
      }
    }
  }

  lemma NewChatKeepsValid(s: State, u: UserId)
    requires Valid(s)
    ensures Valid(NewChat(s, u).state)
  {
    var t := NewChat(s, u).state;
    forall v | v in t.sessions
      ensures WellPaired(t.sessions[v].history) && t.sessions[v].history <= Stored(t.store, v)
    {
      StoredOfOther(s.store, u, v, []);
    }
  }

  /** `initChat` run unconditionally: reloading a user's mirror from the store keeps the invariant. */
  lemma LoadKeepsValid(s: State, u: UserId)
    requires Valid(s)
    ensures Valid(s.(sessions := s.sessions[u := Session(Stored(s.store, u))]))
  {
  }

  lemma ResolveKeepsValid(s: State, u: UserId)
    requires Valid(s)
    ensures Valid(Resolve(s, u))
  {
  }

  /** Popping the last pair from both the mirror and the store keeps the invariant. */
  lemma PopPairKeepsValid(s: State, u: UserId)
    requires Valid(s) && u in s.sessions
    requires |s.sessions[u].history| >= 2 && |Stored(s.store, u)| >= 2
    ensures var mirror, data := s.sessions[u].history, Stored(s.store, u);
            Valid(Commit(s, u, mirror[..|mirror| - 2], data[..|data| - 2]))
  {
    var mirror, data := s.sessions[u].history, Stored(s.store, u);
    DropPairKeepsPaired(mirror);
    DropPairKeepsPaired(data);
    DropPairKeepsPrefix(mirror, data);
    CommitKeepsValid(s, u, mirror[..|mirror| - 2], data[..|data| - 2]);
  }

  lemma RemoveLastMsgKeepsValid(s: State, u: UserId)
    requires Valid(s) && u in s.sessions
    ensures Valid(RemoveLastMsg(s, u).state)
  {
    if |s.sessions[u].history| >= 2 && |Stored(s.store, u)| >= 2 {
      PopPairKeepsValid(s, u);
    }
  }

  lemma AskKeepsValid(s: State, u: UserId, input: string, model: ModelOutcome)
    requires Valid(s) && u in s.sessions
    ensures Valid(Ask(s, u, input, model).state)
  {
    if model.Responded? {
      var data := AppendPair(Stored(s.store, u), input, model.response);
      assert s.sessions[u := s.sessions[u]] == s.sessions;
      assert Ask(s, u, input, model).state == Commit(s, u, s.sessions[u].history, data);
      CommitKeepsValid(s, u, s.sessions[u].history, data);
    }
  }

  lemma RetryKeepsValid(popped: State, u: UserId, input: string, model: ModelOutcome)
    requires Valid(popped) && u in popped.sessions
    ensures Valid(Retry(popped, u, input, model).state)
  {
    if |popped.sessions[u].history| >= 1 && input != "" {
      AskKeepsValid(popped, u, input, model);
    }
  }

  /** Past the first guard, `/resent` is the retry on the popped state. */
  lemma ResentIsRetry(s: State, u: UserId, model: ModelOutcome)
    requires u in s.sessions && |s.sessions[u].history| >= 2 && |Stored(s.store, u)| >= 2
    ensures var mirror, data := s.sessions[u].history, Stored(s.store, u);
            Resent(s, u, model)
            == Retry(Commit(s, u, mirror[..|mirror| - 2], data[..|data| - 2]), u, mirror[|mirror| - 2].text, model)
  {
  }

  lemma ResentKeepsValid(s: State, u: UserId, model: ModelOutcome)
    requires Valid(s) && u in s.sessions
    ensures Valid(Resent(s, u, model).state)
  {
    var mirror, data := s.sessions[u].history, Stored(s.store, u);
    if |mirror| >= 2 && |data| >= 2 {
      var popped := Commit(s, u, mirror[..|mirror| - 2], data[..|data| - 2]);
      PopPairKeepsValid(s, u);
      ResentIsRetry(s, u, model);
      RetryKeepsValid(popped, u, mirror[|mirror| - 2].text, model);
    }
  }

  lemma AcceptedKeepsValid(s: State, msg: Message, model: ModelOutcome)
    requires Valid(s)
    ensures Valid(Accepted(s, msg, model).state)
  {
    var u := msg.from;
    if Classify(msg.text) == Reset {
      NewChatKeepsValid(s, u);
    } else {
      ResolveKeepsValid(s, u);
      var resolved := Resolve(s, u);
      match Classify(msg.text)
      case RemoveLast => RemoveLastMsgKeepsValid(resolved, u);
      case Resend => ResentKeepsValid(resolved, u, model);
      case Prompt => AskKeepsValid(resolved, u, msg.text, model);
    }
  }

  /** Every message keeps the invariant. */
  lemma HandleKeepsValid(s: State, msg: Message, now: int, model: ModelOutcome)
    requires Valid(s)
    ensures Valid(Handle(s, msg, now, model).state)
  {
    if msg.text != "" && Wait(Lookup(s.lastTime, msg.from), now) == 0 {
      AcceptedKeepsValid(s.(lastTime := s.lastTime[msg.from := now]), msg, model);
    }
  }

  /** Every timer firing keeps the invariant. */
  lemma FireKeepsValid(s: State, u: UserId, now: int, model: ModelOutcome)
    requires Valid(s)
    ensures Valid(Fire(s, u, now, model).state)
  {
    if u in s.pending {
      HandleKeepsValid(s.(pending := s.pending - {u}), s.pending[u], now, model);
    }
  }

  lemma InitialIsValid()
    ensures Valid(Initial)
  {
  }

  /**
   * After a restart the kubitdb store still holds the saved histories while the three
   * in-memory maps start empty; the invariant holds when every saved history is paired.
   */
  lemma RestartIsValid(saved: map<string, seq<Turn>>)
    requires StorePaired(saved)
    ensures Valid(Initial.(store := saved))
  {
  }

  // ---------------------------------------------------------------------------
  // Properties of single commands

  /** The command part of the handler touches only its sender's session and stored history. */
  lemma AcceptedIsolatesUsers(s: State, msg: Message, model: ModelOutcome, v: UserId)
    requires v != msg.from
    ensures var t := Accepted(s, msg, model).state;
            Lookup(t.sessions, v) == Lookup(s.sessions, v) && Stored(t.store, v) == Stored(s.store, v)
  {
    var u := msg.from;
    HistoryKeyInjective(u, v);
    if Classify(msg.text) != Reset {
      var resolved := Resolve(s, u);
      var mirror, data := resolved.sessions[u].history, Stored(resolved.store, u);
      if |mirror| >= 2 && |data| >= 2 {
        var popped := Commit(resolved, u, mirror[..|mirror| - 2], data[..|data| - 2]);
        assert Stored(popped.store, v) == Stored(s.store, v);
        assert Lookup(popped.sessions, v) == Lookup(s.sessions, v);
      }
    }
  }

  /** A message touches only its sender's timestamp, slot, session and history. */
  lemma HandleIsolatesUsers(s: State, msg: Message, now: int, model: ModelOutcome, v: UserId)
    requires v != msg.from
    ensures var t := Handle(s, msg, now, model).state;
            && Lookup(t.lastTime, v) == Lookup(s.lastTime, v)
            && Lookup(t.pending, v) == Lookup(s.pending, v)
            && Lookup(t.sessions, v) == Lookup(s.sessions, v)
            && Stored(t.store, v) == Stored(s.store, v)
  {
    var u := msg.from;
    if msg.text != "" && Wait(Lookup(s.lastTime, u), now) == 0 {
      AcceptedIsolatesUsers(s.(lastTime := s.lastTime[u := now]), msg, model, v);
    }
  }

  /** `/newchat` empties the stored history and evicts the session; a second one changes nothing more. */
  lemma NewChatIdempotent(s: State, u: UserId, m1: ModelOutcome, m2: ModelOutcome)
    ensures var once := Accepted(s, Message(u, NewChatCommand), m1);
            && once.reply == Some(ChatReset)
            && Stored(once.state.store, u) == [] && u !in once.state.sessions
            && once.state.lastTime == s.lastTime && once.state.pending == s.pending
            && Accepted(once.state, Message(u, NewChatCommand), m2) == once
  {
  }

  /**
   * `/removelastmsg` removes exactly the last two entries of the mirror and of the stored
   * history when both hold at least two, and otherwise changes neither.
   */
  lemma RemoveLastMsgEffect(s: State, u: UserId, model: ModelOutcome)
    ensures var mirror, data := Mirror(s, u), Stored(s.store, u);
            var r := Accepted(s, Message(u, RemoveCommand), model);
            && (r.reply == Some(Removed) <==> |mirror| >= 2 && |data| >= 2)
            && (r.reply != Some(Removed) ==> r.reply == Some(NothingToRemove))
            && (r.reply == Some(Removed) ==>
                  && Mirror(r.state, u) + mirror[|mirror| - 2..] == mirror
                  && Stored(r.state.store, u) + data[|data| - 2..] == data
                  && |Mirror(r.state, u)| == |mirror| - 2 && |Stored(r.state.store, u)| == |data| - 2)
            && (r.reply != Some(Removed) ==> Mirror(r.state, u) == mirror && Stored(r.state.store, u) == data)
  {
  }

  /**
   * `/resent` with at least two entries in both the mirror and the store: the last pair is
   * removed from both before anything else, and the user entry of that pair becomes the input.
   * With fewer than two entries in either, nothing changes.
   */
  lemma ResendEffect(s: State, u: UserId, model: ModelOutcome)
    ensures var mirror, data := Mirror(s, u), Stored(s.store, u);
            var r := Accepted(s, Message(u, ResendCommand), model);
            && (|mirror| < 2 || |data| < 2 ==>
                  r.reply == Some(NothingToResend)
                  && Mirror(r.state, u) == mirror && Stored(r.state.store, u) == data)
            && (|mirror| >= 2 && |data| >= 2 ==>
                  && Mirror(r.state, u) == mirror[..|mirror| - 2]
                  && (|mirror| == 2 ==> r.reply == Some(NothingToResend) && Stored(r.state.store, u) == data[..|data| - 2])
                  && (|mirror| > 2 && mirror[|mirror| - 2].text == "" ==>
                        r.reply == Some(NoValidResend) && Stored(r.state.store, u) == data[..|data| - 2])
                  && (|mirror| > 2 && mirror[|mirror| - 2].text != "" ==>
                        r == Ask(Commit(s, u, mirror[..|mirror| - 2], data[..|data| - 2]), u, mirror[|mirror| - 2].text, model)))
  {
    var mirror, data := Mirror(s, u), Stored(s.store, u);
    var resolved := Resolve(s, u);
    assert Accepted(s, Message(u, ResendCommand), model) == Resent(resolved, u, model);
    if |mirror| >= 2 && |data| >= 2 {
      assert Commit(resolved, u, mirror[..|mirror| - 2], data[..|data| - 2])
          == Commit(s, u, mirror[..|mirror| - 2], data[..|data| - 2]);
    }
  }

  /**
   * `/resent` answered `x` whenever the mirror holds more than one pair and its entry at
   * length−2 has a text: that text is resubmitted, the mirror loses its last pair, and the
   * stored history loses its own last pair and gains (text, x), whether or not the mirror
   * lags behind the store.
   */
  lemma ResendAnswered(s: State, u: UserId, x: string)
    requires |Mirror(s, u)| > 2 && |Stored(s.store, u)| >= 2
    requires Mirror(s, u)[|Mirror(s, u)| - 2].text != ""
    ensures var m, d := Mirror(s, u), Stored(s.store, u);
            var r := Accepted(s, Message(u, ResendCommand), Responded(x));
            && r.reply == Some(x)
            && Mirror(r.state, u) == m[..|m| - 2]
            && Stored(r.state.store, u) == d[..|d| - 2] + [Turn(User, m[|m| - 2].text), Turn(Model, x)]
  {
  }

  /**
   * Resend round trip: on a history `[.., U2, M2]` held equally by the mirror and the store,
   * `/resent` resubmits U2's text and, when the model answers `x`, the stored history ends
   * in `[U2, x]` with every earlier entry untouched.
   */
  lemma ResendRoundTrip(s: State, u: UserId, x: string)
    requires Valid(s)
    requires Mirror(s, u) == Stored(s.store, u)
    requires |Stored(s.store, u)| >= 4
    requires Stored(s.store, u)[|Stored(s.store, u)| - 2].text != ""
    ensures var h := Stored(s.store, u);
            var r := Accepted(s, Message(u, ResendCommand), Responded(x));
            && h[|h| - 2].role == User
            && r.reply == Some(x)
            && Stored(r.state.store, u) == h[..|h| - 1] + [Turn(Model, x)]
            && Mirror(r.state, u) == h[..|h| - 2]
            && WellPaired(Stored(r.state.store, u))
  {
    var h := Stored(s.store, u);
    DropPairKeepsPaired(h);
  }

  /**
   * A free-text message: on an answer `x` exactly the pair (text, x) is appended to the
   * stored history, earlier entries untouched; on a model error nothing is stored and the
   * generic error is the reply. The mirror is never appended to by the handler itself.
   */
  lemma TurnAppendsPair(s: State, msg: Message, model: ModelOutcome)
    requires Classify(msg.text) == Prompt
    ensures var u := msg.from;
            var r := Accepted(s, msg, model);
            && Mirror(r.state, u) == Mirror(s, u)
            && (model.Responded? ==>
                  r.reply == Some(model.response)
                  && Stored(r.state.store, u) == Stored(s.store, u) + [Turn(User, msg.text), Turn(Model, model.response)])
            && (model.Failed? ==> r.reply == Some(GenericError) && Stored(r.state.store, u) == Stored(s.store, u))
  {
  }

  /**
   * The handler appends answers to the stored history only, so a cached mirror lags behind
   * it. `/resent` then reads the user text from the mirror and pops one pair from each copy:
   * with the mirror `[U1, M1, U2, M2]` and the store `[U1, M1, U2, M2, U3, M3]`, it
   * resubmits U2's text, drops U3 and M3, and stores `[U1, M1, U2, M2, U2, x]`.
   */
  lemma StaleMirrorResend(s: State, u: UserId, a: string, b: string, c: string, x: string)
    requires b != ""
    requires u in s.sessions
    requires s.sessions[u].history == [Turn(User, a), Turn(Model, a), Turn(User, b), Turn(Model, b)]
    requires Stored(s.store, u) == s.sessions[u].history + [Turn(User, c), Turn(Model, c)]
    ensures var r := Accepted(s, Message(u, ResendCommand), Responded(x));
            && r.reply == Some(x)
            && Mirror(r.state, u) == [Turn(User, a), Turn(Model, a)]
            && Stored(r.state.store, u)
               == [Turn(User, a), Turn(Model, a), Turn(User, b), Turn(Model, b), Turn(User, b), Turn(Model, x)]
  {
  }

  /**
   * For a user with no cached session and no stored history, one answered prompt caches an
   * empty mirror and stores one pair; a `/removelastmsg` right after it finds the mirror
   * too short, replies "No messages to remove." and keeps the stored pair.
   */
  lemma RemoveAfterFirstAnswer(s: State, u: UserId, text: string, x: string, model: ModelOutcome)
    requires u !in s.sessions && Stored(s.store, u) == []
    requires Classify(text) == Prompt
    ensures var first := Accepted(s, Message(u, text), Responded(x));
            var second := Accepted(first.state, Message(u, RemoveCommand), model);
            && first.reply == Some(x)
            && Mirror(first.state, u) == []
            && Stored(first.state.store, u) == [Turn(User, text), Turn(Model, x)]
            && second.reply == Some(NothingToRemove)
            && second.state == first.state
  {
  }

  // ---------------------------------------------------------------------------
  // Throttling and replay

  /**
   * A throttled message whose user has an empty slot is parked there; when the timer fires
   * after the returned delay, the slot is emptied and the message goes through the whole
   * handler, where the throttle now accepts it, and the slot stays empty afterwards.
   */
  lemma ReplayAfterDelayIsAccepted(s: State, msg: Message, now: int, later: int, m1: ModelOutcome, m2: ModelOutcome)
    requires msg.text != "" && msg.from !in s.pending
    requires Wait(Lookup(s.lastTime, msg.from), now) > 0
    requires later >= now + Wait(Lookup(s.lastTime, msg.from), now)
    ensures var u := msg.from;
            var t := Handle(s, msg, now, m1);
            && t.reply == Some(TooFast)
            && t.state == s.(pending := s.pending[u := msg])
            && Fire(t.state, u, later, m2) == Accepted(s.(lastTime := s.lastTime[u := later]), msg, m2)
            && u !in Fire(t.state, u, later, m2).state.pending
  {
    var u := msg.from;
    var t := Handle(s, msg, now, m1);
    WaitElapses(Lookup(s.lastTime, u), now, later);
    assert t.state.(pending := t.state.pending - {u}) == s;
  }

  /**
   * A timer firing for a user whose slot is full takes the message out of the slot and
   * replays it: either it is accepted and the slot stays empty, or it is throttled again and
   * goes back into the now-empty slot. A slot is replayed at most once: a second firing with
   * the slot empty does nothing.
   */
  lemma FireReplaysOnce(s: State, u: UserId, now: int, model: ModelOutcome)
    requires Valid(s) && u in s.pending
    ensures var r := Fire(s, u, now, model);
            var cleared := s.(pending := s.pending - {u});
            && (Wait(Lookup(s.lastTime, u), now) == 0 ==>
                  r == Accepted(cleared.(lastTime := s.lastTime[u := now]), s.pending[u], model)
                  && u !in r.state.pending)
            && (Wait(Lookup(s.lastTime, u), now) > 0 ==> r == Step(s, Some(TooFast)))
            && (u !in r.state.pending ==> Fire(r.state, u, now, model) == Step(r.state, None))
  {
  }

  /** A second throttled message while the slot is full is dropped: only the reply changes. */
  lemma SlotHoldsOne(s: State, msg: Message, now: int, model: ModelOutcome)
    requires msg.text != "" && msg.from in s.pending
    requires Wait(Lookup(s.lastTime, msg.from), now) > 0
    ensures Handle(s, msg, now, model) == Step(s, Some(DoNotSpam))
  {
  }

  /**
   * A first "hello" answered "hi" is stored as one pair; a second message two seconds later
   * is parked with the "too fast" notice and no model call; when its timer fires three
   * seconds later it is accepted and, answered, makes the history four entries long.
   */
  lemma HelloScenario(u: UserId, t: int, answer: string)
    requires t > 0
    ensures var first := Handle(Initial, Message(u, "hello"), t, Responded("hi"));
            var second := Handle(first.state, Message(u, "how are you"), t + 2000, Responded(answer));
            var replay := Fire(second.state, u, t + 5000, Responded(answer));
            && first.reply == Some("hi")
            && Stored(first.state.store, u) == [Turn(User, "hello"), Turn(Model, "hi")]
            && second.reply == Some(TooFast)
            && second.state.store == first.state.store
            && replay.reply == Some(answer)
            && Stored(replay.state.store, u)
               == [Turn(User, "hello"), Turn(Model, "hi"), Turn(User, "how are you"), Turn(Model, answer)]
  {
    var first := Handle(Initial, Message(u, "hello"), t, Responded("hi"));
    assert first.state.lastTime == map[u := t];
    var second := Handle(first.state, Message(u, "how are you"), t + 2000, Responded(answer));
    assert Wait(Lookup(first.state.lastTime, u), t + 2000) == 3000;
    assert second.state == first.state.(pending := map[u := Message(u, "how are you")]);
  }
}
