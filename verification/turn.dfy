/**
 * One turn of a connection, `nextTurn`, as a function of the connection's
 * state, the usage file and the turn's inputs (the day, the provider's answer
 * and whether each ledger write reaches the file), and what holds over any
 * sequence of turns.
 */
module Turn {
  import opened Ledger
  import opened Rotation
  import opened JsText

  datatype Role = System | Assistant

  /** A chat message as sent to the provider. */
  datatype Message = Message(role: Role, content: string)

  /** One `bot-message` emitted to the viewer. */
  datatype Event = Event(speaker: string, text: string)

  /** The provider's answer: the reply text, or an error (network, status, missing content). */
  datatype Reply = Success(text: string) | Failure

  /** The completion provider, given a model id and the messages it is sent. */
  type Provider = (string, seq<Message>) -> Reply

  const LimitNotice: Event :=
    Event("System", "Daily API limit reached (20 calls). Please try again tomorrow to prevent excessive OpenAI API costs.")

  const ErrorNotice: Event :=
    Event("Error", "An error occurred while communicating with the AI. Please try again.")

  /** The status notice sent when a connection opens: the day's count over the limit, 20. */
  function StatusNotice(count: int): (e: Event)
    ensures IsNotice(e) && e.speaker == "System"
    ensures e.text == "API calls today: " + Decimal(count) + "/20"
  {
    Event("System", "API calls today: " + Decimal(count) + "/" + Decimal(DAILY_LIMIT))
  }

  predicate IsNotice(e: Event) {
    e.speaker == "System" || e.speaker == "Error"
  }

  /** The messages sent to the provider: the persona's system prompt, then the whole transcript. */
  function Context(bot: Persona, history: seq<Message>): seq<Message> {
    [Message(System, bot.system)] + history
  }

  /** Everything one turn reads and writes: the connection's closure and the usage file. */
  datatype State = State(turn: nat, history: seq<Message>, outbox: seq<Event>, stored: Option<UsageRecord>)

  /** The inputs of one `start` or `next` trigger. */
  datatype Call = Call(today: Date, provider: Provider, charge: WriteOutcome, rollback: WriteOutcome)

  /** The state a connection starts in: nothing said yet, the status notice sent. */
  function Opened(stored: Option<UsageRecord>, today: Date): State {
    State(0, [], [StatusNotice(ReadUsage(stored, today).count)], stored)
  }

  /** `nextTurn`. */
  function Step(s: State, c: Call): (r: State)
  {
    var usage := ReadUsage(s.stored, c.today);
    if usage.count >= DAILY_LIMIT then
      s.(outbox := s.outbox + [LimitNotice])
    else
      var bot := PersonaFor(s.turn);
      var charged := AfterWrite(s.stored, usage.count + 1, c.today, c.charge);
      match c.provider(bot.model, Context(bot, s.history))
      case Success(raw) =>
        var content := Trim(raw);
        State(s.turn + 1, s.history + [Message(Assistant, content)], s.outbox + [Event(bot.name, content)], charged)
      case Failure =>
        s.(outbox := s.outbox + [ErrorNotice],
           stored := AfterWrite(charged, usage.count, c.today, c.rollback))
  }

  /**
   * Every turn shows the viewer exactly one message, keeps what was shown and
   * said before, and advances the turn exactly when the transcript grows by one.
   */
  lemma StepEmitsOne(s: State, c: Call)
    ensures var r := Step(s, c);
      |r.outbox| == |s.outbox| + 1 && r.outbox[..|s.outbox|] == s.outbox &&
      |s.history| <= |r.history| && r.history[..|s.history|] == s.history &&
      r.turn - s.turn == |r.history| - |s.history| && (r.turn == s.turn || r.turn == s.turn + 1)
  {
  }

  /** Turns taken one after another on the same connection. */
  function Run(s: State, calls: seq<Call>): State
    decreases |calls|
  {
    if calls == [] then s else Run(Step(s, calls[0]), calls[1..])
  }

  /** Over a transcript of replies, the persona's prompt is the only system message in the context. */
  lemma ContextReplaysHistory(bot: Persona, history: seq<Message>)
    requires forall i :: 0 <= i < |history| ==> history[i].role == Assistant
    ensures var ctx := Context(bot, history);
      forall i :: 0 <= i < |ctx| ==> (ctx[i].role == System <==> i == 0)
  {
  }

  /** At or over the limit: one `System` notice, nothing else changes. */
  lemma StepAtLimit(s: State, c: Call)
    requires ReadUsage(s.stored, c.today).count >= DAILY_LIMIT
    ensures Step(s, c) == s.(outbox := s.outbox + [LimitNotice])
  {
  }

  /** At or over the limit the provider is never asked: its answers make no difference. */
  lemma StepAtLimitIgnoresProvider(s: State, c: Call, other: Provider)
    requires ReadUsage(s.stored, c.today).count >= DAILY_LIMIT
    ensures Step(s, c) == Step(s, c.(provider := other))
  {
  }

  /**
   * Below the limit, the provider is asked only for the current persona's
   * model with the context; any provider that answers that one question the
   * same way gives the same turn.
   */
  lemma StepAsksOnlyContext(s: State, c: Call, other: Provider)
    requires ReadUsage(s.stored, c.today).count < DAILY_LIMIT
    requires var bot := PersonaFor(s.turn);
      other(bot.model, Context(bot, s.history)) == c.provider(bot.model, Context(bot, s.history))
    ensures Step(s, c) == Step(s, c.(provider := other))
  {
  }

  /**
   * A successful call: the trimmed reply joins the transcript as an
   * `assistant` message, the turn advances, the reply is shown under the
   * persona's name, and the ledger is charged one call if that write lands.
   */
  lemma StepSucceeds(s: State, c: Call, raw: string)
    requires ReadUsage(s.stored, c.today).count < DAILY_LIMIT
    requires var bot := PersonaFor(s.turn); c.provider(bot.model, Context(bot, s.history)) == Success(raw)
    ensures Step(s, c).turn == s.turn + 1
    ensures Step(s, c).history == s.history + [Message(Assistant, Trim(raw))]
    ensures Step(s, c).outbox == s.outbox + [Event(PersonaFor(s.turn).name, Trim(raw))]
    ensures c.charge == Landed ==> Step(s, c).stored == Some(UsageRecord(ReadUsage(s.stored, c.today).count + 1, c.today))
    ensures c.charge == Refused ==> Step(s, c).stored == s.stored
    ensures c.charge == Torn ==> Step(s, c).stored == None
  {
  }

  /**
   * A failed call: transcript and turn stay, one `Error` notice is shown, and
   * the ledger is written back to the count read at entry (a restore to that
   * snapshot, not a decrement). If only the charge landed, it stays charged.
   */
  lemma StepFails(s: State, c: Call)
    requires ReadUsage(s.stored, c.today).count < DAILY_LIMIT
    requires var bot := PersonaFor(s.turn); c.provider(bot.model, Context(bot, s.history)) == Failure
    ensures var r := Step(s, c); var entry := ReadUsage(s.stored, c.today);
      r.turn == s.turn && r.history == s.history && r.outbox == s.outbox + [ErrorNotice] &&
      (c.rollback == Landed ==> r.stored == Some(entry)) &&
      (c.rollback == Torn ==> r.stored == None) &&
      (c.rollback == Refused && c.charge == Landed ==> r.stored == Some(UsageRecord(entry.count + 1, c.today))) &&
      (c.rollback == Refused && c.charge == Refused ==> r.stored == s.stored) &&
      (c.rollback == Refused && c.charge == Torn ==> r.stored == None)
  {
  }

  /** Every turn keeps the stored count within the daily limit, whichever connection takes it. */
  lemma StepKeepsCap(s: State, c: Call)
    requires Capped(s.stored)
    ensures Capped(Step(s, c).stored)
  {
  }

  /** The same, for the count as read on a given day, when the turn is taken that day. */
  lemma StepKeepsDayCap(s: State, c: Call)
    requires ReadUsage(s.stored, c.today).count <= DAILY_LIMIT
    ensures ReadUsage(Step(s, c).stored, c.today).count <= DAILY_LIMIT
  {
  }

  /** The viewer-visible replies, i.e. the emitted messages that are not notices, in order. */
  function Replies(outbox: seq<Event>): seq<Event>
    decreases |outbox|
  {
    if outbox == [] then []
    else
      var last := outbox[|outbox| - 1];
      Replies(outbox[..|outbox| - 1]) + (if IsNotice(last) then [] else [last])
  }

  lemma RepliesAppend(outbox: seq<Event>, e: Event)
    ensures Replies(outbox + [e]) == Replies(outbox) + (if IsNotice(e) then [] else [e])
  {
    assert (outbox + [e])[..|outbox|] == outbox;
  }

  lemma PersonaIsNoNotice(turn: nat)
    ensures !IsNotice(Event(PersonaFor(turn).name, ""))
  {
    var p := PersonaFor(turn);
    assert p.name[0] == 'G';
  }

  /**
   * What a connection keeps true: the turn number counts the transcript, the
   * transcript holds only `assistant` messages, and the k-th reply shown to
   * the viewer is the k-th transcript entry, spoken by persona k of the rotation.
   */
  ghost predicate Coherent(turn: nat, history: seq<Message>, outbox: seq<Event>) {
    turn == |history| &&
    (forall i :: 0 <= i < |history| ==> history[i].role == Assistant) &&
    |Replies(outbox)| == |history| &&
    (forall k :: 0 <= k < |history| ==> Replies(outbox)[k] == Event(PersonaFor(k).name, history[k].content))
  }

  lemma OpenedIsCoherent(stored: Option<UsageRecord>, today: Date)
    ensures var s := Opened(stored, today); Coherent(s.turn, s.history, s.outbox)
  {
    assert Replies([StatusNotice(ReadUsage(stored, today).count)]) == [] by {
      RepliesAppend([], StatusNotice(ReadUsage(stored, today).count));
    }
  }

  lemma StepKeepsCoherent(s: State, c: Call)
    requires Coherent(s.turn, s.history, s.outbox)
    ensures var r := Step(s, c); Coherent(r.turn, r.history, r.outbox)
  {
    if ReadUsage(s.stored, c.today).count >= DAILY_LIMIT {
      StepAtLimit(s, c);
      NoticeKeepsCoherent(s, Step(s, c), LimitNotice);
    } else {
      var bot := PersonaFor(s.turn);
      match c.provider(bot.model, Context(bot, s.history))
      case Success(raw) =>
        StepSucceeds(s, c, raw);
        ReplyKeepsCoherent(s, Step(s, c), Trim(raw));
      case Failure =>
        StepFails(s, c);
        NoticeKeepsCoherent(s, Step(s, c), ErrorNotice);
    }
  }

  /** Showing a notice keeps a connection coherent. */
  lemma NoticeKeepsCoherent(s: State, r: State, e: Event)
    requires Coherent(s.turn, s.history, s.outbox) && IsNotice(e)
    requires r.turn == s.turn && r.history == s.history && r.outbox == s.outbox + [e]
    ensures Coherent(r.turn, r.history, r.outbox)
  {
    RepliesAppend(s.outbox, e);
  }

  /** Recording and showing the current persona's reply keeps a connection coherent. */
  lemma ReplyKeepsCoherent(s: State, r: State, content: string)
    requires Coherent(s.turn, s.history, s.outbox)
    requires r.turn == s.turn + 1 && r.history == s.history + [Message(Assistant, content)]
    requires r.outbox == s.outbox + [Event(PersonaFor(s.turn).name, content)]
    ensures Coherent(r.turn, r.history, r.outbox)
  {
    var e := Event(PersonaFor(s.turn).name, content);
    RepliesAppend(s.outbox, e);
    PersonaIsNoNotice(s.turn);
    assert Replies(r.outbox) == Replies(s.outbox) + [e];
    forall k | 0 <= k < |r.history|
      ensures Replies(r.outbox)[k] == Event(PersonaFor(k).name, r.history[k].content)
    {
      if k < |s.history| {
        assert r.history[k] == s.history[k];
      }
    }
  }

  /** Over any sequence of turns the stored count stays within the daily limit. */
  lemma {:induction false} RunKeepsCap(s: State, calls: seq<Call>)
    requires Capped(s.stored)
    ensures Capped(Run(s, calls).stored)
    decreases |calls|
  {
    if calls != [] {
      StepKeepsCap(s, calls[0]);
      RunKeepsCap(Step(s, calls[0]), calls[1..]);
    }
  }

  /** Over any sequence of turns the connection stays coherent. */
  lemma {:induction false} RunKeepsCoherent(s: State, calls: seq<Call>)
    requires Coherent(s.turn, s.history, s.outbox)
    ensures var r := Run(s, calls); Coherent(r.turn, r.history, r.outbox)
    decreases |calls|
  {
    if calls != [] {
      StepKeepsCoherent(s, calls[0]);
      RunKeepsCoherent(Step(s, calls[0]), calls[1..]);
    }
  }

  /** Every call is taken on `day` and both of its ledger writes land. */
  predicate SameDayAllLanded(calls: seq<Call>, day: Date) {
    forall i :: 0 <= i < |calls| ==> calls[i].today == day && calls[i].charge == Landed && calls[i].rollback == Landed
  }

  /**
   * On one day, with every write landing, the ledger grows by exactly the
   * number of replies added to the transcript: a failed call costs nothing.
   */
  lemma {:induction false} RunChargesEachReply(s: State, calls: seq<Call>, day: Date)
    requires SameDayAllLanded(calls, day)
    ensures var r := Run(s, calls);
      |s.history| <= |r.history| && r.history[..|s.history|] == s.history &&
      ReadUsage(r.stored, day).count == ReadUsage(s.stored, day).count + (|r.history| - |s.history|)
    decreases |calls|
  {
    if calls != [] {
      var s1 := Step(s, calls[0]);
      assert SameDayAllLanded(calls[1..], day) by {
        forall i | 0 <= i < |calls[1..]| ensures calls[1..][i] == calls[i + 1] { }
      }
      RunChargesEachReply(s1, calls[1..], day);
      var r := Run(s1, calls[1..]);
      assert r.history[..|s.history|] == r.history[..|s1.history|][..|s.history|];
    }
  }

  /** Over any sequence of turns on one day, the count read for that day stays within the limit. */
  lemma {:induction false} RunKeepsDayCap(s: State, calls: seq<Call>, day: Date)
    requires forall i :: 0 <= i < |calls| ==> calls[i].today == day
    requires ReadUsage(s.stored, day).count <= DAILY_LIMIT
    ensures ReadUsage(Run(s, calls).stored, day).count <= DAILY_LIMIT
    decreases |calls|
  {
    if calls != [] {
      StepKeepsDayCap(s, calls[0]);
      assert forall i :: 0 <= i < |calls[1..]| ==> calls[1..][i] == calls[i + 1];
      RunKeepsDayCap(Step(s, calls[0]), calls[1..], day);
    }
  }

  /**
   * The admission control: on one day, with every write landing, a
   * connection adds at most `DAILY_LIMIT - c` replies, `c` being the count at
   * the start.
   */
  lemma DailyReplyBudget(s: State, calls: seq<Call>, day: Date)
    requires SameDayAllLanded(calls, day)
    requires ReadUsage(s.stored, day).count <= DAILY_LIMIT
    ensures |Run(s, calls).history| - |s.history| <= DAILY_LIMIT - ReadUsage(s.stored, day).count
  {
    RunChargesEachReply(s, calls, day);
    RunKeepsDayCap(s, calls, day);
  }

  /** A provider that never fails. */
  ghost predicate AlwaysAnswers(provider: Provider) {
    forall model, messages :: provider(model, messages).Success?
  }

  /**
   * Storage errors fail open: while the usage file cannot be read and no
   * write lands (each one refused or torn), it stays unreadable, so every
   * turn reads the count as 0 and the limit never engages, whatever the
   * provider answers.
   */
  lemma {:induction false} UnreadableLedgerStaysUnread(s: State, calls: seq<Call>)
    requires s.stored == None
    requires forall i :: 0 <= i < |calls| ==> calls[i].charge != Landed && calls[i].rollback != Landed
    ensures Run(s, calls).stored == None
    decreases |calls|
  {
    if calls != [] {
      var c := calls[0];
      var bot := PersonaFor(s.turn);
      match c.provider(bot.model, Context(bot, s.history)) {
        case Success(raw) => StepSucceeds(s, c, raw);
        case Failure => StepFails(s, c);
      }
      assert forall i :: 0 <= i < |calls[1..]| ==> calls[1..][i] == calls[i + 1];
      UnreadableLedgerStaysUnread(Step(s, c), calls[1..]);
    }
  }

  /**
   * With an unreadable file, no write landing and a provider that always
   * answers, every trigger adds a reply: the limit never turns one away.
   */
  lemma {:induction false} UnwritableLedgerNeverLimits(s: State, calls: seq<Call>)
    requires s.stored == None
    requires forall i :: 0 <= i < |calls| ==> calls[i].charge != Landed && calls[i].rollback != Landed
    requires forall i :: 0 <= i < |calls| ==> AlwaysAnswers(calls[i].provider)
    ensures |Run(s, calls).history| == |s.history| + |calls|
    decreases |calls|
  {
    if calls != [] {
      var c := calls[0];
      var bot := PersonaFor(s.turn);
      var reply := c.provider(bot.model, Context(bot, s.history));
      assert AlwaysAnswers(c.provider);
      assert reply.Success?;
      StepSucceeds(s, c, reply.text);
      assert forall i :: 0 <= i < |calls[1..]| ==> calls[1..][i] == calls[i + 1];
      UnwritableLedgerNeverLimits(Step(s, c), calls[1..]);
    }
  }

  /**
   * Two calls left in the day's budget: the first two personas of the
   * rotation answer in turn, taking the count to the limit; the third
   * trigger is turned away without asking the provider.
   */
  lemma LastCallsOfTheDay(day: Date)
    ensures var answer: Provider := (model, messages) => Success(" hi\n");
      var call := Call(day, answer, Landed, Landed);
      var s0 := Opened(Some(UsageRecord(DAILY_LIMIT - 2, day)), day);
      var s1 := Step(s0, call);
      var s2 := Step(s1, call);
      var s3 := Step(s2, call);
      s1.outbox[1] == Event(MODELS[0].name, "hi") && ReadUsage(s1.stored, day).count == DAILY_LIMIT - 1 &&
      s2.outbox[2] == Event(MODELS[1].name, "hi") && ReadUsage(s2.stored, day).count == DAILY_LIMIT &&
      s3.outbox[3] == LimitNotice && s3.stored == s2.stored && s3.turn == 2 &&
      s3.history == [Message(Assistant, "hi"), Message(Assistant, "hi")]
  {
    var answer: Provider := (model, messages) => Success(" hi\n");
    var call := Call(day, answer, Landed, Landed);
    var s0 := Opened(Some(UsageRecord(DAILY_LIMIT - 2, day)), day);
    assert Trim(" hi\n") == "hi";
    StepSucceeds(s0, call, " hi\n");
    var s1 := Step(s0, call);
    StepSucceeds(s1, call, " hi\n");
    var s2 := Step(s1, call);
    StepAtLimit(s2, call);
  }
}
