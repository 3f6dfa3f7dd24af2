/**
 * src/pages/OperatorDashboard.jsx: the operator's view of one counter. The pending queue is
 * derived from the queue; calling, completing and marking a no-show rewrite the queue, the
 * counters and the ticket history; every action pushes a notification onto a short list; a
 * background timer occasionally appends a waiting ticket.
 *
 * The updater bodies (`map`/`filter`/`slice` over the previous state) are the pure functions
 * of this module; the class `Dashboard` holds the component's state and runs one method per handler.
 */
module OperatorDashboard {
  import opened Wrappers
  import opened JsBuiltins
  import opened Fixtures
  import Helpers

  datatype NotificationKind = Info | Success | Warning

  /** `{ id: Date.now(), message, type, time: new Date() }`: the id and the time are both the clock reading. */
  datatype Notification = Notification(id: int, message: string, kind: NotificationKind, time: int)

  datatype ActionKind = CallAction | CompleteAction | NoShowAction

  /** `lastAction`: what the operator did last, to which token, and when. */
  datatype LastAction = LastAction(kind: ActionKind, token: string, time: int)

  /** The counter selected when the page opens. */
  const InitialCounter := "counter-1"

  /** `prev.slice(0, 4)`: how many earlier notifications survive a new one. */
  const KeptNotifications := 4

  /** The department the background arrivals join, and the services they ask for. */
  const ArrivalDepartment := "Civil Registration"
  const ArrivalServices := ["Birth Certificate", "Death Certificate", "Marriage Certificate"]

  // ---------------------------------------------------------------- derived state

  /** `counters.find(c => c.id === id)`. */
  function FindCounter(counters: seq<Counter>, id: string): (r: Option<Counter>)
    ensures r.None? <==> forall k :: 0 <= k < |counters| ==> counters[k].id != id
    ensures r.Some? ==> r.value.id == id && r.value in counters
  {
    var k := FindIndex(counters, (c: Counter) => c.id == id);
    if k < 0 then None else Some(counters[k])
  }

  /** `find` returns the FIRST counter carrying the id. */
  lemma FindCounterIsFirst(counters: seq<Counter>, id: string)
    requires FindCounter(counters, id).Some?
    ensures exists k :: 0 <= k < |counters| && counters[k] == FindCounter(counters, id).value &&
                        forall j :: 0 <= j < k ==> counters[j].id != id
  {
    var k := FindIndex(counters, (c: Counter) => c.id == id);
    assert counters[k] == FindCounter(counters, id).value;
  }

  /** The filter of `pendingQueue`: waiting tickets of the given department. */
  function PendingFor(department: string): QueueItem -> bool
  {
    (item: QueueItem) => item.department == department && item.status == Waiting
  }

  /**
   * `pendingQueue`: the waiting tickets of the selected counter's department, in queue order.
   * Without a selected counter `counter?.department` is undefined and no ticket matches.
   */
  function PendingQueue(queue: seq<QueueItem>, counters: seq<Counter>, selected: string): (r: seq<QueueItem>)
    ensures FindCounter(counters, selected).None? ==> r == []
    ensures FindCounter(counters, selected).Some? ==>
      var department := FindCounter(counters, selected).value.department;
      forall x :: x in r <==> x in queue && x.department == department && x.status == Waiting
  {
    match FindCounter(counters, selected)
    case None => []
    case Some(c) => Filter(queue, PendingFor(c.department))
  }

  /** The token the selected counter serves: its `currentToken` unless that is null or empty. */
  function ServingToken(counters: seq<Counter>, selected: string): (r: Option<string>)
    ensures r.Some? <==> FindCounter(counters, selected).Some? && !IsIdle(FindCounter(counters, selected).value)
    ensures r.Some? ==> r.value != "" && FindCounter(counters, selected).value.currentToken == r
  {
    match FindCounter(counters, selected)
    case None => None
    case Some(c) => if IsIdle(c) then None else c.currentToken
  }

  // ---------------------------------------------------------------- updater bodies

  /** `prev.queue.map(item => item.token === token ? { ...item, status: 'in-progress' } : item)`. */
  function MarkCalled(queue: seq<QueueItem>, token: string): (r: seq<QueueItem>)
    ensures |r| == |queue|
    ensures forall i :: 0 <= i < |queue| && queue[i].token == token ==> r[i] == queue[i].(status := InProgress)
    ensures forall i :: 0 <= i < |queue| && queue[i].token != token ==> r[i] == queue[i]
  {
    Map(queue, (item: QueueItem) => if item.token == token then item.(status := InProgress) else item)
  }

  /** `prev.counters.map(c => c.id === selected ? { ...c, currentToken: token } : c)`. */
  function AssignToken(counters: seq<Counter>, selected: string, token: Option<string>): (r: seq<Counter>)
    ensures |r| == |counters|
    ensures forall k :: 0 <= k < |counters| && counters[k].id == selected ==> r[k] == counters[k].(currentToken := token)
    ensures forall k :: 0 <= k < |counters| && counters[k].id != selected ==> r[k] == counters[k]
  {
    Map(counters, (c: Counter) => if c.id == selected then c.(currentToken := token) else c)
  }

  /** `prev.queue.filter(item => item.token !== token)`. */
  function RemoveToken(queue: seq<QueueItem>, token: string): (r: seq<QueueItem>)
    ensures |r| <= |queue|
    ensures forall x :: x in r <==> x in queue && x.token != token
  {
    Filter(queue, (item: QueueItem) => item.token != token)
  }

  /**
   * The simulated waits of `completeService`, one per history entry: the map callback draws
   * `Math.floor(Math.random() * 30) + 5` afresh for every entry it completes.
   */
  predicate IsWaitDraws(waits: seq<int>, n: int)
  {
    |waits| == n && forall i :: 0 <= i < |waits| ==> 5 <= waits[i] <= 34
  }

  /**
   * `completeService`'s history updater: matching entries become completed, with the
   * completion time and their own simulated wait `waits[i]`.
   */
  function CloseCompleted(history: seq<HistoryEntry>, token: string, now: int, waits: seq<int>): (r: seq<HistoryEntry>)
    requires |waits| == |history|
    ensures |r| == |history|
    ensures forall i :: 0 <= i < |history| && history[i].token == token ==>
      r[i] == history[i].(status := Completed, completeTime := Some(now), waitTime := Some(waits[i]))
    ensures forall i :: 0 <= i < |history| && history[i].token != token ==> r[i] == history[i]
  {
    seq(|history|, i requires 0 <= i < |history| =>
      if history[i].token == token then history[i].(status := Completed, completeTime := Some(now), waitTime := Some(waits[i]))
      else history[i])
  }

  /** `markNoShow`'s history updater: matching entries become no-shows. */
  function CloseNoShow(history: seq<HistoryEntry>, token: string): (r: seq<HistoryEntry>)
    ensures |r| == |history|
    ensures forall i :: 0 <= i < |history| && history[i].token == token ==> r[i] == history[i].(status := NoShow)
    ensures forall i :: 0 <= i < |history| && history[i].token != token ==> r[i] == history[i]
  {
    Map(history, (e: HistoryEntry) => if e.token == token then e.(status := NoShow) else e)
  }

  /** `[notification, ...prev.slice(0, 4)]`: the newest first, then at most four earlier ones. */
  function PushNotification(notifications: seq<Notification>, n: Notification): (r: seq<Notification>)
    ensures |r| <= KeptNotifications + 1
    ensures |r| >= 1 && r[0] == n
    ensures |r| == (if |notifications| < KeptNotifications then |notifications| else KeptNotifications) + 1
    ensures r[1..] <= notifications
  {
    var kept := if |notifications| < KeptNotifications then notifications else notifications[..KeptNotifications];
    [n] + kept
  }

  /** `` `A${Math.floor(Math.random() * 99) + 20}` ``: the draw is 20..118 and is not padded. */
  function ArrivalToken(number: int): (token: string)
    requires 20 <= number <= 118
    ensures |token| >= 2 && token[0] == 'A'
    ensures forall i :: 1 <= i < |token| ==> IsDigit(token[i])
  {
    "A" + NumberToString(number)
  }

  /** An arrival token is 'A' and the draw in decimal: three characters up to 99, four from 100. */
  lemma ArrivalTokenFormat(number: int)
    requires 20 <= number <= 118
    ensures var token := ArrivalToken(number);
      && (|token| == 3 <==> number <= 99)
      && (|token| == 4 <==> number >= 100)
      && DigitsValue(token[1..]) == number
  {
    var token := ArrivalToken(number);
    NumberToStringRoundTrip(number);
    assert token[1..] == NumberToString(number);
    var tens := number / 10;
    assert NumberToString(number) == NumberToString(tens) + [DigitChar(number % 10)];
    if tens >= 10 {
      assert NumberToString(tens) == NumberToString(tens / 10) + [DigitChar(tens % 10)];
      assert |NumberToString(tens / 10)| == 1;
    } else {
      assert |NumberToString(tens)| == 1;
    }
  }

  /** The notification texts of the four actions. */
  function CalledMessage(token: string): string { "Called token " + token }
  function CompletedMessage(token: string): string { "Completed service for token " + token }
  function NoShowMessage(token: string): string { "Marked token " + token + " as no-show" }
  function ArrivalMessage(token: string): string { "New ticket " + token + " joined the queue" }

  // ---------------------------------------------------------------- lemmas about the updaters

  /** The head of the pending queue is the FIRST waiting ticket of the counter's department (FIFO). */
  lemma {:induction false} PendingHeadIsFirstWaiting(queue: seq<QueueItem>, counters: seq<Counter>, selected: string)
    requires PendingQueue(queue, counters, selected) != []
    ensures FindCounter(counters, selected).Some?
    ensures
      var department := FindCounter(counters, selected).value.department;
      exists i :: 0 <= i < |queue| && PendingQueue(queue, counters, selected)[0] == queue[i] &&
        queue[i].department == department && queue[i].status == Waiting &&
        forall j :: 0 <= j < i ==> !(queue[j].department == department && queue[j].status == Waiting)
  {
    var department := FindCounter(counters, selected).value.department;
    FilterHead(queue, PendingFor(department));
    var i := FindIndex(queue, PendingFor(department));
    assert PendingFor(department)(queue[i]);
    assert forall j :: 0 <= j < i ==> !PendingFor(department)(queue[j]);
  }

  /** The pending queue of a concatenation is the concatenation of the pending queues: queue order is kept. */
  lemma PendingQueueKeepsOrder(q1: seq<QueueItem>, q2: seq<QueueItem>, counters: seq<Counter>, selected: string)
    ensures PendingQueue(q1 + q2, counters, selected) == PendingQueue(q1, counters, selected) + PendingQueue(q2, counters, selected)
  {
    match FindCounter(counters, selected)
    case None =>
    case Some(c) => FilterConcat(q1, q2, PendingFor(c.department));
  }

  /** A ticket appended at the end of the queue joins the end of a pending queue, or no pending queue at all. */
  lemma ArrivalJoinsPendingAtEnd(queue: seq<QueueItem>, item: QueueItem, counters: seq<Counter>, selected: string)
    requires item.status == Waiting
    ensures
      var c := FindCounter(counters, selected);
      PendingQueue(queue + [item], counters, selected) ==
        PendingQueue(queue, counters, selected) + (if c.Some? && c.value.department == item.department then [item] else [])
  {
    PendingQueueKeepsOrder(queue, [item], counters, selected);
  }

  /** After a call, the called ticket is in the queue and marked in progress. */
  lemma {:induction false} CalledTicketInProgress(queue: seq<QueueItem>, counters: seq<Counter>, selected: string)
    requires PendingQueue(queue, counters, selected) != []
    ensures
      var next := PendingQueue(queue, counters, selected)[0];
      exists i :: 0 <= i < |queue| && MarkCalled(queue, next.token)[i] == next.(status := InProgress)
  {
    PendingHeadIsFirstWaiting(queue, counters, selected);
    var next := PendingQueue(queue, counters, selected)[0];
    var i :| 0 <= i < |queue| && next == queue[i];
    assert MarkCalled(queue, next.token)[i] == next.(status := InProgress);
  }

  /** The counter found under the selected id carries the assigned token, whatever it held before. */
  lemma AssignedCounterFound(counters: seq<Counter>, selected: string, token: Option<string>)
    ensures FindCounter(AssignToken(counters, selected, token), selected) ==
      match FindCounter(counters, selected)
      case None => None
      case Some(c) => Some(c.(currentToken := token))
  {
    var r := AssignToken(counters, selected, token);
    var p := (c: Counter) => c.id == selected;
    FindIndexAgree(counters, p, r, p);
  }

  /** After an assignment the selected counter serves the assigned token; after clearing, nobody. */
  lemma AssignedCounterServes(counters: seq<Counter>, selected: string, token: Option<string>)
    ensures token == None ==> ServingToken(AssignToken(counters, selected, token), selected) == None
    ensures token.Some? && token.value != "" && FindCounter(counters, selected).Some? ==>
      ServingToken(AssignToken(counters, selected, token), selected) == token
  {
    AssignedCounterFound(counters, selected, token);
  }

  /** Completing a call removes exactly what removing the token from the original queue removes. */
  lemma {:induction false} RemoveAfterCall(queue: seq<QueueItem>, token: string)
    ensures RemoveToken(MarkCalled(queue, token), token) == RemoveToken(queue, token)
    decreases |queue|
  {
    if |queue| > 0 {
      var m := MarkCalled(queue, token);
      assert m[1..] == MarkCalled(queue[1..], token);
      RemoveAfterCall(queue[1..], token);
    }
  }

  /** Removing a token no item carries gives the queue back unchanged. */
  lemma RemoveTokenEffect(queue: seq<QueueItem>, token: string)
    ensures (forall i :: 0 <= i < |queue| ==> queue[i].token != token) ==> RemoveToken(queue, token) == queue
  {
    if forall i :: 0 <= i < |queue| ==> queue[i].token != token {
      FilterAllPass(queue, (item: QueueItem) => item.token != token);
    }
  }

  /** Closing a ticket in the history edits matching entries in place: same length, same tokens, nothing appended. */
  lemma HistoryEditedInPlace(history: seq<HistoryEntry>, token: string, now: int, waits: seq<int>)
    requires IsWaitDraws(waits, |history|)
    ensures |CloseCompleted(history, token, now, waits)| == |history| == |CloseNoShow(history, token)|
    ensures forall i :: 0 <= i < |history| ==>
      CloseCompleted(history, token, now, waits)[i].token == history[i].token &&
      CloseNoShow(history, token)[i].token == history[i].token
    ensures forall i :: 0 <= i < |history| && history[i].token == token ==>
      && CloseCompleted(history, token, now, waits)[i].status == Completed
      && CloseCompleted(history, token, now, waits)[i].completeTime == Some(now)
      && 5 <= CloseCompleted(history, token, now, waits)[i].waitTime.value <= 34
      && CloseNoShow(history, token)[i].status == NoShow
    ensures forall i :: 0 <= i < |history| && history[i].token != token ==>
      CloseCompleted(history, token, now, waits)[i] == history[i] && CloseNoShow(history, token)[i] == history[i]
  {
  }

  /** A background arrival can carry a token the ticket page also issues for civil registration: tokens are never checked for uniqueness. */
  lemma ArrivalTokenMayRepeatIssued(number: int)
    requires 20 <= number <= 99
    ensures ArrivalToken(number) == Helpers.GenerateTokenNumber("civil-registration", number)
  {
    var s := NumberToString(number);
    assert s == NumberToString(number / 10) + [DigitChar(number % 10)];
    assert PadStart(s, 2, '0') == s;
  }

  // ---------------------------------------------------------------- handler transitions

  /** The component's state: `queueInfo` (queue, current, counters), `tickets.history`, the selector, `lastAction`, `notifications`. */
  datatype Snapshot = Snapshot(queue: seq<QueueItem>, current: QueueItem, counters: seq<Counter>,
                               history: seq<HistoryEntry>, selectedCounter: string,
                               lastAction: Option<LastAction>, notifications: seq<Notification>)

  /** `callNext` at time `now`: the head of the pending queue is called to the selected counter. */
  function CallNextStep(s: Snapshot, now: int): (r: Snapshot)
    ensures PendingQueue(s.queue, s.counters, s.selectedCounter) == [] ==> r == s
    ensures PendingQueue(s.queue, s.counters, s.selectedCounter) != [] ==>
      var next := PendingQueue(s.queue, s.counters, s.selectedCounter)[0];
      && |r.queue| == |s.queue|
      && (forall i :: 0 <= i < |s.queue| && s.queue[i].token == next.token ==> r.queue[i] == s.queue[i].(status := InProgress))
      && (forall i :: 0 <= i < |s.queue| && s.queue[i].token != next.token ==> r.queue[i] == s.queue[i])
      && r.current == next
      && FindCounter(r.counters, r.selectedCounter) == Some(FindCounter(s.counters, s.selectedCounter).value.(currentToken := Some(next.token)))
      && r.counters == AssignToken(s.counters, s.selectedCounter, Some(next.token))
      && |r.counters| == |s.counters|
      && (forall k :: 0 <= k < |s.counters| && s.counters[k].id != s.selectedCounter ==> r.counters[k] == s.counters[k])
      && r.lastAction == Some(LastAction(CallAction, next.token, now))
      && r.notifications == PushNotification(s.notifications, Notification(now, CalledMessage(next.token), Info, now))
    ensures r.history == s.history && r.selectedCounter == s.selectedCounter
    ensures |s.notifications| <= KeptNotifications + 1 ==> |r.notifications| <= KeptNotifications + 1
  {
    var pending := PendingQueue(s.queue, s.counters, s.selectedCounter);
    if |pending| == 0 then s
    else
      var next := pending[0];
      PendingHeadIsFirstWaiting(s.queue, s.counters, s.selectedCounter);
      AssignedCounterFound(s.counters, s.selectedCounter, Some(next.token));
      s.(queue := MarkCalled(s.queue, next.token),
         current := next,
         counters := AssignToken(s.counters, s.selectedCounter, Some(next.token)),
         lastAction := Some(LastAction(CallAction, next.token, now)),
         notifications := PushNotification(s.notifications, Notification(now, CalledMessage(next.token), Info, now)))
  }

  /**
   * `completeService` at time `now`, `waits` being the simulated waits drawn per history entry:
   * history entries of the served token are completed in place, the token leaves the queue
   * and the selected counter is freed.
   */
  function CompleteServiceStep(s: Snapshot, now: int, waits: seq<int>): (r: Snapshot)
    requires IsWaitDraws(waits, |s.history|)
    ensures ServingToken(s.counters, s.selectedCounter) == None ==> r == s
    ensures ServingToken(s.counters, s.selectedCounter).Some? ==>
      var token := ServingToken(s.counters, s.selectedCounter).value;
      && r.queue == RemoveToken(s.queue, token)
      && (forall x :: x in r.queue ==> x.token != token)
      && (forall x :: x in s.queue && x.token != token ==> x in r.queue)
      && r.counters == AssignToken(s.counters, s.selectedCounter, None)
      && |r.history| == |s.history|
      && (forall i :: 0 <= i < |s.history| && s.history[i].token == token ==>
            r.history[i] == s.history[i].(status := Completed, completeTime := Some(now), waitTime := Some(waits[i])))
      && (forall i :: 0 <= i < |s.history| && s.history[i].token != token ==> r.history[i] == s.history[i])
      && |r.counters| == |s.counters|
      && (forall k :: 0 <= k < |s.counters| && s.counters[k].id != s.selectedCounter ==> r.counters[k] == s.counters[k])
      && r.lastAction == Some(LastAction(CompleteAction, token, now))
      && r.notifications == PushNotification(s.notifications, Notification(now, CompletedMessage(token), Success, now))
    ensures ServingToken(r.counters, r.selectedCounter) == None
    ensures r.current == s.current && r.selectedCounter == s.selectedCounter
    ensures |s.notifications| <= KeptNotifications + 1 ==> |r.notifications| <= KeptNotifications + 1
  {
    match ServingToken(s.counters, s.selectedCounter)
    case None => s
    case Some(token) =>
      AssignedCounterServes(s.counters, s.selectedCounter, None);
      s.(queue := RemoveToken(s.queue, token),
         counters := AssignToken(s.counters, s.selectedCounter, None),
         history := CloseCompleted(s.history, token, now, waits),
         lastAction := Some(LastAction(CompleteAction, token, now)),
         notifications := PushNotification(s.notifications, Notification(now, CompletedMessage(token), Success, now)))
  }

  /** `markNoShow` at time `now`: as `completeService` on the queue and the counters; the history says no-show. */
  function MarkNoShowStep(s: Snapshot, now: int): (r: Snapshot)
    ensures ServingToken(s.counters, s.selectedCounter) == None ==> r == s
    ensures ServingToken(s.counters, s.selectedCounter).Some? ==>
      var token := ServingToken(s.counters, s.selectedCounter).value;
      && r.queue == RemoveToken(s.queue, token)
      && r.counters == AssignToken(s.counters, s.selectedCounter, None)
      && |r.history| == |s.history|
      && (forall i :: 0 <= i < |s.history| && s.history[i].token == token ==> r.history[i] == s.history[i].(status := NoShow))
      && (forall i :: 0 <= i < |s.history| && s.history[i].token != token ==> r.history[i] == s.history[i])
      && r.lastAction == Some(LastAction(NoShowAction, token, now))
      && r.notifications == PushNotification(s.notifications, Notification(now, NoShowMessage(token), Warning, now))
    ensures ServingToken(r.counters, r.selectedCounter) == None
    ensures r.current == s.current && r.selectedCounter == s.selectedCounter
    ensures |s.notifications| <= KeptNotifications + 1 ==> |r.notifications| <= KeptNotifications + 1
  {
    match ServingToken(s.counters, s.selectedCounter)
    case None => s
    case Some(token) =>
      AssignedCounterServes(s.counters, s.selectedCounter, None);
      s.(queue := RemoveToken(s.queue, token),
         counters := AssignToken(s.counters, s.selectedCounter, None),
         history := CloseNoShow(s.history, token),
         lastAction := Some(LastAction(NoShowAction, token, now)),
         notifications := PushNotification(s.notifications, Notification(now, NoShowMessage(token), Warning, now)))
  }

  /** The arrival draws: the gate `Math.random() > 0.8`, the token number and the service index. */
  predicate IsArrivalDraw(number: int, serviceIndex: int)
  {
    20 <= number <= 118 && 0 <= serviceIndex < |ArrivalServices|
  }

  /** One tick of the 30-second timer at time `now`: perhaps one waiting ticket joins at the end. */
  function ArrivalStep(s: Snapshot, arrives: bool, number: int, serviceIndex: int, now: int): (r: Snapshot)
    requires IsArrivalDraw(number, serviceIndex)
    ensures !arrives ==> r == s
    ensures arrives ==>
      && |r.queue| == |s.queue| + 1
      && r.queue[..|s.queue|] == s.queue
      && r.queue[|s.queue|] == QueueItem(ArrivalToken(number), ArrivalDepartment, ArrivalServices[serviceIndex], now, Waiting)
      && r.notifications == PushNotification(s.notifications, Notification(now, ArrivalMessage(ArrivalToken(number)), Info, now))
      && r == s.(queue := r.queue, notifications := r.notifications)
    ensures |s.notifications| <= KeptNotifications + 1 ==> |r.notifications| <= KeptNotifications + 1
  {
    if !arrives then s
    else
      var token := ArrivalToken(number);
      s.(queue := s.queue + [QueueItem(token, ArrivalDepartment, ArrivalServices[serviceIndex], now, Waiting)],
         notifications := PushNotification(s.notifications, Notification(now, ArrivalMessage(token), Info, now)))
  }

  // ---------------------------------------------------------------- lemmas about handler sequences

  /** `completeService` and `markNoShow` do the same to the queue and the counters. */
  lemma CloseSameQueueEffect(s: Snapshot, now: int, later: int, waits: seq<int>)
    requires IsWaitDraws(waits, |s.history|)
    ensures CompleteServiceStep(s, now, waits).queue == MarkNoShowStep(s, later).queue
    ensures CompleteServiceStep(s, now, waits).counters == MarkNoShowStep(s, later).counters
  {
  }

  /** Calling and then completing: exactly the called token's items leave the queue and the counter is free again. */
  lemma CallThenComplete(s: Snapshot, now: int, later: int, waits: seq<int>)
    requires PendingQueue(s.queue, s.counters, s.selectedCounter) != []
    requires PendingQueue(s.queue, s.counters, s.selectedCounter)[0].token != ""
    requires IsWaitDraws(waits, |s.history|)
    ensures
      var token := PendingQueue(s.queue, s.counters, s.selectedCounter)[0].token;
      var r := CompleteServiceStep(CallNextStep(s, now), later, waits);
      && r.queue == RemoveToken(s.queue, token)
      && r.counters == AssignToken(s.counters, s.selectedCounter, None)
      && (forall x :: x in r.queue ==> x.token != token)
      && ServingToken(r.counters, r.selectedCounter) == None
  {
    var token := PendingQueue(s.queue, s.counters, s.selectedCounter)[0].token;
    var m := CallNextStep(s, now);
    AssignedCounterServes(s.counters, s.selectedCounter, Some(token));
    assert ServingToken(m.counters, m.selectedCounter) == Some(token);
    RemoveAfterCall(s.queue, token);
    var c2 := AssignToken(m.counters, s.selectedCounter, None);
    assert c2 == AssignToken(s.counters, s.selectedCounter, None);
  }

  /** After a call, the pending queue is the old pending queue without the called token. */
  lemma {:induction false} PendingAfterCall(queue: seq<QueueItem>, token: string, department: string)
    ensures Filter(MarkCalled(queue, token), PendingFor(department)) == RemoveToken(Filter(queue, PendingFor(department)), token)
    decreases |queue|
  {
    if |queue| > 0 {
      var m := MarkCalled(queue, token);
      assert m[1..] == MarkCalled(queue[1..], token);
      PendingAfterCall(queue[1..], token, department);
      var f := Filter(queue, PendingFor(department));
      var rest := Filter(queue[1..], PendingFor(department));
      if PendingFor(department)(queue[0]) {
        assert f == [queue[0]] + rest;
        assert f[1..] == rest;
      } else {
        assert f == rest;
      }
    }
  }

  /** The pending queue after `callNext` is the one before without the called token. */
  lemma PendingAfterCallStep(s: Snapshot, now: int)
    requires PendingQueue(s.queue, s.counters, s.selectedCounter) != []
    ensures
      var p := PendingQueue(s.queue, s.counters, s.selectedCounter);
      var m := CallNextStep(s, now);
      PendingQueue(m.queue, m.counters, m.selectedCounter) == RemoveToken(p, p[0].token)
  {
    var p := PendingQueue(s.queue, s.counters, s.selectedCounter);
    var c := FindCounter(s.counters, s.selectedCounter).value;
    AssignedCounterFound(s.counters, s.selectedCounter, Some(p[0].token));
    PendingAfterCall(s.queue, p[0].token, c.department);
  }

  /** Removing the head's token from a sequence whose second element has another token leaves that element at the head. */
  lemma RemoveHeadToken(p: seq<QueueItem>)
    requires |p| >= 2 && p[1].token != p[0].token
    ensures RemoveToken(p, p[0].token) != [] && RemoveToken(p, p[0].token)[0] == p[1]
  {
    var keep := (item: QueueItem) => item.token != p[0].token;
    assert RemoveToken(p, p[0].token) == Filter(p, keep) == Filter(p[1..], keep);
    assert Filter(p[1..], keep) == [p[1]] + Filter(p[1..][1..], keep);
  }

  /**
   * `callNext` has no busy-counter check: calling again calls the next waiting ticket and
   * overwrites the counter's token, while the first ticket stays in progress in the queue.
   */
  lemma SecondCallOverwritesBusyCounter(s: Snapshot, now: int, later: int)
    requires |PendingQueue(s.queue, s.counters, s.selectedCounter)| >= 2
    requires PendingQueue(s.queue, s.counters, s.selectedCounter)[1].token != PendingQueue(s.queue, s.counters, s.selectedCounter)[0].token
    ensures
      var p := PendingQueue(s.queue, s.counters, s.selectedCounter);
      var r := CallNextStep(CallNextStep(s, now), later);
      && r.current == p[1]
      && FindCounter(r.counters, r.selectedCounter).Some?
      && FindCounter(r.counters, r.selectedCounter).value.currentToken == Some(p[1].token)
      && exists i :: 0 <= i < |r.queue| && r.queue[i] == p[0].(status := InProgress)
  {
    var p := PendingQueue(s.queue, s.counters, s.selectedCounter);
    var m := CallNextStep(s, now);
    PendingAfterCallStep(s, now);
    RemoveHeadToken(p);
    CalledTicketInProgress(s.queue, s.counters, s.selectedCounter);
    var i :| 0 <= i < |s.queue| && m.queue[i] == p[0].(status := InProgress);
    var r := CallNextStep(m, later);
    assert r.queue[i] == m.queue[i];
  }

  // ---------------------------------------------------------------- the component

  class Dashboard {
    var queue: seq<QueueItem>
    var current: QueueItem
    var counters: seq<Counter>
    var history: seq<HistoryEntry>
    var selectedCounter: string
    var lastAction: Option<LastAction>
    var notifications: seq<Notification>

    /** The notification list never holds more than five entries. */
    ghost predicate Valid()
      reads this`notifications
    {
      |notifications| <= KeptNotifications + 1
    }

    /** The fields as one value. */
    function State(): Snapshot
      reads this
    {
      Snapshot(queue, current, counters, history, selectedCounter, lastAction, notifications)
    }

    /** The component's initial state: the fixtures, counter-1 selected, no action, no notification. */
    constructor (queue0: seq<QueueItem>, current0: QueueItem, counters0: seq<Counter>, history0: seq<HistoryEntry>)
      ensures Valid()
      ensures State() == Snapshot(queue0, current0, counters0, history0, InitialCounter, None, [])
    {
      queue, current, counters, history := queue0, current0, counters0, history0;
      selectedCounter := InitialCounter;
      lastAction := None;
      notifications := [];
    }

    /** Writes every field from `r`: how the handlers commit their transition. */
    method SetState(r: Snapshot)
      requires |r.notifications| <= KeptNotifications + 1
      modifies this
      ensures Valid() && State() == r
    {
      queue, current, counters, history := r.queue, r.current, r.counters, r.history;
      selectedCounter, lastAction, notifications := r.selectedCounter, r.lastAction, r.notifications;
    }

    /** The counter selector's `onChange`. */
    method SelectCounter(id: string)
      requires Valid()
      modifies this`selectedCounter
      ensures Valid() && State() == old(State()).(selectedCounter := id)
    {
      selectedCounter := id;
    }

    /** `addNotification(message, type)` at time `now`. */
    method AddNotification(message: string, kind: NotificationKind, now: int)
      requires Valid()
      modifies this`notifications
      ensures Valid()
      ensures State() == old(State()).(notifications := PushNotification(old(notifications), Notification(now, message, kind, now)))
    {
      notifications := PushNotification(notifications, Notification(now, message, kind, now));
    }

    /** The removal `addNotification` schedules five seconds later: every notification with that id goes. */
    method ExpireNotification(id: int)
      requires Valid()
      modifies this`notifications
      ensures Valid()
      ensures State() == old(State()).(notifications := Filter(old(notifications), (n: Notification) => n.id != id))
    {
      notifications := Filter(notifications, (n: Notification) => n.id != id);
    }

    /** `callNext` at time `now`. */
    method CallNext(now: int)
      requires Valid()
      modifies this
      ensures Valid() && State() == CallNextStep(old(State()), now)
    {
      SetState(CallNextStep(State(), now));
    }

    /** `completeService` at time `now` with the simulated waits `waits`, one per history entry. */
    method CompleteService(now: int, waits: seq<int>)
      requires Valid()
      requires IsWaitDraws(waits, |history|)
      modifies this
      ensures Valid() && State() == CompleteServiceStep(old(State()), now, waits)
    {
      SetState(CompleteServiceStep(State(), now, waits));
    }

    /** `markNoShow` at time `now`. */
    method MarkNoShow(now: int)
      requires Valid()
      modifies this
      ensures Valid() && State() == MarkNoShowStep(old(State()), now)
    {
      SetState(MarkNoShowStep(State(), now));
    }

    /** The body of the 30-second interval at time `now`, with its draws. */
    method SimulateArrival(arrives: bool, number: int, serviceIndex: int, now: int)
      requires Valid()
      requires IsArrivalDraw(number, serviceIndex)
      modifies this
      ensures Valid() && State() == ArrivalStep(old(State()), arrives, number, serviceIndex, now)
    {
      SetState(ArrivalStep(State(), arrives, number, serviceIndex, now));
    }
  }
}
