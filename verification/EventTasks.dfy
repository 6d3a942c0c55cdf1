/**
 * Queued tasks and replays over the bridge and the dead-letter store: the closing part of a task marks the event or
 * keeps it as a dead letter, and a replay goes through the same handlers.
 */
module EventTasks {
  import opened MessageTable
  import opened Bridge
  import opened Protocol
  import DeadLetters
  import Service

  class FeishuService {
    const bridge: Service.FeishuBridge
    const deadLetters: DeadLetters.Store<Event>

    constructor (opts: Options)
      ensures fresh(bridge) && fresh(deadLetters)
      ensures bridge.opts == opts && bridge.Contents() == EMPTY && bridge.processed == {} && bridge.history == []
      ensures deadLetters.Contents() == DeadLetters.Letters([], 1)
    {
      bridge := new Service.FeishuBridge(opts);
      deadLetters := new DeadLetters.Store<Event>();
    }

    /** The handler an event goes to. */
    method Handle(ev: Event, readOk: bool, env: HandlerEnv) returns (ok: bool)
      requires Valid(bridge.Contents())
      modifies bridge`rows, bridge`nextId, bridge`history
      ensures bridge.Did(Complete(old(bridge.Contents()), bridge.opts, Run(ev, Begin(old(bridge.Contents()), ev, readOk)), env), ok)
    {
      match ev.body
      case Receive(msg) => ok := bridge.HandleFeishuMessage(msg, readOk, env.message);
      case Recall(_, message) => ok := bridge.HandleFeishuMessageRecalled(message, env.recall);
      case ChatChange(_) => ok := bridge.HandleFeishuChatChange(env.chat);
      case Disband(_) => ok := bridge.HandleFeishuChatDisbanded(env.chat);
    }

    /** One queued task, from the handler to the mark or the dead letter. */
    method RunTask(ev: Event, readOk: bool, env: HandlerEnv, markOk: bool, recordOk: bool, error: string, now: int)
      returns (ok: bool)
      requires Valid(bridge.Contents())
      modifies bridge, deadLetters
      ensures bridge.Did(Complete(old(bridge.Contents()), bridge.opts, Run(ev, Begin(old(bridge.Contents()), ev, readOk)), env), ok)
      ensures bridge.processed ==
              if ok && ev.id.Some? && markOk then old(bridge.processed) + {FEISHU_PREFIX + ev.id.value} else old(bridge.processed)
      ensures deadLetters.Contents() ==
              if !ok && recordOk then DeadLetters.Upsert(old(deadLetters.Contents()), Key(ev), ev, error, now)
              else old(deadLetters.Contents())
    {
      ok := Handle(ev, readOk, env);
      if !ok {
        if recordOk {
          deadLetters.CreateDeadLetter(Key(ev), ev, error, now);
        }
        return;
      }
      if ev.id.Some? && markOk {
        bridge.processed := bridge.processed + {FEISHU_PREFIX + ev.id.value};
      }
    }

    /** `replay_dead_letter`, through `replay_dead_letter_payload`, when nobody else is at work. */
    method ReplayDeadLetter(id: nat, rowOk: bool, parsed: bool, readOk: bool, env: HandlerEnv, writeOk: bool,
                            error: string,
                            now: int)
      returns (ok: bool)
      requires Valid(bridge.Contents())
      modifies bridge, deadLetters
      ensures bridge.processed == old(bridge.processed)
      ensures match DeadLetters.IndexOfId(old(deadLetters.rows), id)
              case None => !ok && unchanged(bridge) && unchanged(deadLetters)
              case Some(i) =>
                var row := old(deadLetters.rows)[i];
                if !rowOk then !ok && unchanged(bridge) && unchanged(deadLetters)
                else if row.status == DeadLetters.Replayed then ok && unchanged(bridge) && unchanged(deadLetters)
                else if !parsed then !ok && unchanged(bridge) && unchanged(deadLetters)
                else
                  var o := if Replayable(row.payload.eventType)
                           then Complete(old(bridge.Contents()), bridge.opts,
                                         Run(row.payload, Begin(old(bridge.Contents()), row.payload, readOk)), env)
                           else Failed(old(bridge.Contents()));
                  && bridge.Did(o, o.ok) && ok == (o.ok && writeOk)
                  && deadLetters.Contents() ==
                     (if !writeOk then old(deadLetters.Contents())
                      else DeadLetters.Apply(old(deadLetters.Contents()), DeadLetters.Mark(id, o.ok, error, now)))
    {
      if !rowOk {
        return false;
      }
      var found := DeadLetters.IndexOfId(deadLetters.rows, id);
      if found.None? {
        return false;
      }
      var row := deadLetters.rows[found.value];
      if row.status == DeadLetters.Replayed {
        return true;
      }
      if !parsed {
        return false;
      }
      ok := false;
      if Replayable(row.payload.eventType) {
        ok := Handle(row.payload, readOk, env);
      }
      if !writeOk {
        return false;
      }
      if ok {
        deadLetters.MarkDeadLetterReplayed(id, now);
      } else {
        deadLetters.MarkDeadLetterFailed(id, error, now);
      }
    }
  }
}
