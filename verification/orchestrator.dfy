/**
 * A viewer's connection: the closure state `turn` and `history` that
 * `nextTurn` updates in place, the stream of `bot-message` events emitted on
 * the connection's socket, and the usage file shared with every other
 * connection. The `start` and `next` triggers both run `NextTurn`.
 */
module Orchestrator {
  import opened Ledger
  import opened Rotation
  import opened JsText
  import opened Turn

  class Connection {
    var turn: nat
    var history: seq<Message>
    /** Every event emitted on this connection's socket, oldest first. */
    var outbox: seq<Event>
    const ledger: UsageFile

    /** The connection and the usage file as one value, for the specification in `Turn`. */
    function Snapshot(): State
      reads this, ledger
    {
      State(turn, history, outbox, ledger.stored)
    }

    /** The connection invariant. It reads only this connection, so a turn on another connection sharing the file keeps it. */
    ghost predicate Valid()
      reads this
    {
      Coherent(turn, history, outbox)
    }

    /** A new connection: no turns yet, and the read-only status notice with today's count. */
    constructor (ledger: UsageFile, today: Date)
      ensures this.ledger == ledger
      ensures turn == 0 && history == []
      ensures outbox == [StatusNotice(ReadUsage(ledger.stored, today).count)]
      ensures Snapshot() == Opened(ledger.stored, today)
      ensures Valid()
    {
      this.ledger := ledger;
      turn := 0;
      history := [];
      var usage := ReadUsage(ledger.stored, today);
      outbox := [StatusNotice(usage.count)];
      new;
      OpenedIsCoherent(ledger.stored, today);
    }

    /**
     * `nextTurn` on `today`, with `provider` answering the completion request
     * and `charge`/`rollback` saying how the two ledger writes end.
     */
    method NextTurn(today: Date, provider: Provider, charge: WriteOutcome, rollback: WriteOutcome)
      requires Valid()
      modifies this, ledger
      ensures Valid()
      ensures Snapshot() == Step(old(Snapshot()), Call(today, provider, charge, rollback))
      ensures old(Capped(ledger.stored)) ==> Capped(ledger.stored)
    {
      ghost var before := Snapshot();
      ghost var call := Call(today, provider, charge, rollback);
      var usage := ReadUsage(ledger.stored, today);
      if usage.count >= DAILY_LIMIT {
        outbox := outbox + [LimitNotice];
        StepAtLimit(before, call);
      } else {
        var bot := PersonaFor(turn);
        var messages := Context(bot, history);
        ledger.Update(usage.count + 1, today, charge);
        match provider(bot.model, messages)
        case Success(raw) =>
          var content := Trim(raw);
          history := history + [Message(Assistant, content)];
          outbox := outbox + [Event(bot.name, content)];
          turn := turn + 1;
          StepSucceeds(before, call, raw);
        case Failure =>
          outbox := outbox + [ErrorNotice];
          ledger.Update(usage.count, today, rollback);
          StepFails(before, call);
      }
      assert Snapshot() == Step(before, call);
      StepKeepsCoherent(before, call);
      if Capped(before.stored) {
        StepKeepsCap(before, call);
      }
    }
  }
}
