/** What the keys of dead letters tell apart, and that nothing recorded is lost to another event under its key. */
module Keys {
  import opened Wrappers
  import opened MessageTable
  import opened Bridge
  import opened Protocol
  import opened Runs
  import opened Tasks
  import DeadLetters

  /** The id an event goes by: its own, or else that of the message or the chat it is about. */
  function StandIn(ev: Event): string {
    match ev.id
    case Some(id) => id
    case None =>
      match ev.body
      case Receive(msg) => msg.id
      case Recall(_, message) => message
      case ChatChange(chat) => chat
      case Disband(chat) => chat
  }

  predicate SameEvent(a: Event, b: Event) {
    a.eventType == b.eventType && StandIn(a) == StandIn(b)
  }

  predicate NoColon(s: string) {
    ':' !in s
  }

  lemma ReceiveTypesPlain()
    ensures NoColon(RECEIVE_TYPES[0]) && NoColon(RECEIVE_TYPES[1]) && NoColon(RECEIVE_TYPES[2])
  {
  }

  lemma ChangeTypesPlain()
    ensures NoColon(CHANGE_TYPES[0]) && NoColon(CHANGE_TYPES[1]) && NoColon(CHANGE_TYPES[2])
  {
  }

  lemma OtherTypesPlain()
    ensures NoColon("im.message.recalled_v1") && NoColon("im.chat.disbanded_v1")
  {
  }

  lemma TypesPlain(ev: Event)
    requires Dispatchable(ev)
    ensures NoColon(ev.eventType)
  {
    hide NoColon;
    ReceiveTypesPlain();
    ChangeTypesPlain();
    OtherTypesPlain();
  }

  lemma SplitUnique(a: string, x: string, b: string, y: string)
    requires NoColon(a) && NoColon(b) && a + ":" + x == b + ":" + y
    ensures a == b && x == y
  {
    var s, t := a + ":" + x, b + ":" + y;
    assert s[|a|] == ':' && t[|b|] == ':';
    assert forall i | 0 <= i < |a| :: s[i] == a[i] && a[i] in a;
    assert forall i | 0 <= i < |b| :: t[i] == b[i] && b[i] in b;
    assert |a| == |b|;
    assert s[..|a|] == a && t[..|b|] == b && s[|a| + 1..] == x && t[|b| + 1..] == y;
  }

  /** Two accepted events share a key iff they are of one type and go by one id. */
  lemma KeyExact(a: Event, b: Event)
    requires Dispatchable(a) && Dispatchable(b)
    ensures Key(a) == Key(b) <==> SameEvent(a, b)
  {
    hide Dispatchable, NoColon;
    TypesPlain(a);
    TypesPlain(b);
    assert Key(a) == a.eventType + ":" + StandIn(a) && Key(b) == b.eventType + ":" + StandIn(b);
    if Key(a) == Key(b) {
      SplitUnique(a.eventType, StandIn(a), b.eventType, StandIn(b));
    }
  }

  // ----- Only known events are recorded -----

  predicate AllDispatchable(events: seq<Event>) {
    forall k | 0 <= k < |events| :: Dispatchable(events[k])
  }

  lemma NextAccepted(s: State, opts: Options, step: Step)
    requires Valid(s.table) && AllDispatchable(s.accepted)
    ensures AllDispatchable(Next(s, opts, step).accepted)
  {
    hide Complete, Begin, LetterEvent, MatrixIdsOf, FeishuIdsOf, Replayable, Chat, Key, ProcessMatrix, Dispatchable,
      MessageIds;
  }

  lemma {:induction false} AcceptedDispatchable(opts: Options, steps: seq<Step>)
    ensures AllDispatchable(Exec(opts, steps).accepted)
  {
    hide Next;
    if steps != [] {
      AcceptedDispatchable(opts, steps[..|steps| - 1]);
      NextAccepted(Exec(opts, steps[..|steps| - 1]), opts, steps[|steps| - 1]);
    }
  }

  lemma RecordedAccepted(s: State, k: nat)
    requires TasksCounted(s) && k < |s.recorded|
    ensures s.recorded[k] in s.accepted
  {
    hide Open;
    assert s.recorded[k] in multiset(s.recorded);
    assert s.recorded[k] in Ended(s);
    assert s.recorded[k] in multiset(s.accepted);
  }

  /** The latest event under a key is the last one with that key. */
  lemma {:induction false} LatestIsLast(recorded: seq<Event>, k: nat)
    requires k < |recorded| && forall j | k < j < |recorded| :: Key(recorded[j]) != Key(recorded[k])
    ensures Latest(recorded, Key(recorded[k])) == Some(recorded[k])
    decreases |recorded|
  {
    var init := recorded[..|recorded| - 1];
    if k < |init| {
      assert init[k] == recorded[k] && forall j | k < j < |init| :: init[j] == recorded[j];
      LatestIsLast(init, k);
    }
  }

  predicate InALetter(s: State, ev: Event) {
    exists i | 0 <= i < |s.letters.rows| :: s.letters.rows[i].payload == ev
  }

  /**
   * Nothing recorded is lost: until somebody cleans up, every event recorded as a dead letter is itself the payload of a
   * letter, unless the same event, by type and id, was recorded again after it.
   */
  lemma RecordedEventInALetter(opts: Options, steps: seq<Step>, k: nat)
    requires forall j | 0 <= j < |steps| :: !steps[j].CleanStep?
    ensures var s := Exec(opts, steps);
            k < |s.recorded| && (forall j | k < j < |s.recorded| :: !SameEvent(s.recorded[j], s.recorded[k])) ==>
              InALetter(s, s.recorded[k])
  {
    hide Exec, Dispatchable, Key, SameEvent, QueueOk;
    var s := Exec(opts, steps);
    if k < |s.recorded| && (forall j | k < j < |s.recorded| :: !SameEvent(s.recorded[j], s.recorded[k])) {
      AcceptedEventsConserved(opts, steps);
      AcceptedDispatchable(opts, steps);
      RecordedEventsKept(opts, steps);
      LastOfItsKey(s, k);
      LatestIsLast(s.recorded, k);
      LatestInALetter(s, k);
    }
  }

  lemma LastOfItsKey(s: State, k: nat)
    requires QueueOk(s) && AllDispatchable(s.accepted)
    requires k < |s.recorded| && forall j | k < j < |s.recorded| :: !SameEvent(s.recorded[j], s.recorded[k])
    ensures forall j | k < j < |s.recorded| :: Key(s.recorded[j]) != Key(s.recorded[k])
  {
    hide Dispatchable, Key, SameEvent, TasksCounted;
    RecordedAccepted(s, k);
    forall j | k < j < |s.recorded|
      ensures Key(s.recorded[j]) != Key(s.recorded[k])
    {
      RecordedAccepted(s, j);
      KeyExact(s.recorded[j], s.recorded[k]);
    }
  }

  lemma LatestInALetter(s: State, k: nat)
    requires Kept(s.letters, s.recorded) && k < |s.recorded|
    requires Latest(s.recorded, Key(s.recorded[k])) == Some(s.recorded[k])
    ensures InALetter(s, s.recorded[k])
  {
    hide Key, Latest;
    var i := DeadLetters.IndexOfKey(s.letters.rows, Key(s.recorded[k])).value;
    assert s.letters.rows[i].payload == s.recorded[k];
  }
}
