/**
 * src/pages/QueueStatusPage.jsx: the public queue board. A visitor looks a token up
 * (case-insensitively) and learns its position, that it is being served, or that it is
 * unknown; while auto-refresh is on, a timer now and then moves `current` one item down
 * the queue.
 */
module QueueStatus {
  import opened Wrappers
  import opened JsBuiltins
  import opened Fixtures
  import Helpers

  /** The status `handleTokenSearch` gives the ticket currently served. */
  const BeingServed := "being-served"

  /** The minutes per ticket the search result assumes. */
  const MinutesPerTicket := 15

  /**
   * `userTicket` when it is not null: the ticket with its `position` and `estimatedWait`
   * (for a ticket in the queue, or the served one), or `{ notFound: true }`.
   */
  datatype UserTicket = Located(ticket: QueueItem, position: int, estimatedWait: int) | NotFound

  /** `token.toLowerCase() === search.toLowerCase()`. */
  predicate TokenMatches(token: string, search: string)
  {
    ToLowerCase(token) == ToLowerCase(search)
  }

  /** The predicate of the `find`. */
  function MatchesSearch(search: string): QueueItem -> bool
  {
    (item: QueueItem) => TokenMatches(item.token, search)
  }

  /**
   * `handleTokenSearch` on state `queue`, `current` and input `search`: null for a blank
   * input; else the first queue item matching, at its 1-based position in the WHOLE queue;
   * else the served ticket; else not found.
   */
  function TokenSearch(queue: seq<QueueItem>, current: QueueItem, search: string): (r: Option<UserTicket>)
    ensures r == None <==> IsBlank(search)
    ensures r.Some? && r.value.Located? && r.value.position != 0 ==>
      var i := r.value.position - 1;
      && 0 <= i < |queue|
      && r.value.ticket == queue[i]
      && TokenMatches(queue[i].token, search)
      && (forall j :: 0 <= j < i ==> !TokenMatches(queue[j].token, search))
      && r.value.estimatedWait == MinutesPerTicket * r.value.position
    ensures !IsBlank(search) && (exists i :: 0 <= i < |queue| && TokenMatches(queue[i].token, search)) ==>
      r.value.Located? && r.value.position >= 1
    ensures !IsBlank(search) && (forall i :: 0 <= i < |queue| ==> !TokenMatches(queue[i].token, search)) ==>
      r == Some(if TokenMatches(current.token, search) then Located(current.(status := BeingServed), 0, 0) else NotFound)
  {
    if IsBlank(search) then None
    else
      var i := FindIndex(queue, MatchesSearch(search));
      if i >= 0 then
        var position := i + 1;
        Some(Located(queue[i], position, position * MinutesPerTicket))
      else if TokenMatches(current.token, search) then
        Some(Located(current.(status := BeingServed), 0, 0))
      else
        Some(NotFound)
  }

  /** The search does not care how the input is cased: upper-casing it (as the input field does) or lower-casing it changes nothing. */
  lemma SearchIsCaseInsensitive(queue: seq<QueueItem>, current: QueueItem, search: string)
    ensures TokenSearch(queue, current, ToUpperCase(search)) == TokenSearch(queue, current, search)
    ensures TokenSearch(queue, current, ToLowerCase(search)) == TokenSearch(queue, current, search)
  {
    CaseFolding(search);
    CaseMappingKeepsBlank(search);
    FindIndexAgree(queue, MatchesSearch(ToUpperCase(search)), queue, MatchesSearch(search));
    FindIndexAgree(queue, MatchesSearch(ToLowerCase(search)), queue, MatchesSearch(search));
  }

  /**
   * With upper-case tokens and an upper-case input (what the input field produces), the
   * search finds the ticket exactly where `getQueuePosition` puts it, with the wait
   * `estimateWaitTime` gives at the default 15 minutes.
   */
  lemma SearchAgreesWithQueuePosition(queue: seq<QueueItem>, current: QueueItem, search: string)
    requires forall i :: 0 <= i < |queue| ==> ToUpperCase(queue[i].token) == queue[i].token
    requires ToUpperCase(search) == search && !IsBlank(search)
    ensures
      var p := Helpers.GetQueuePosition(search, queue);
      p > 0 ==> TokenSearch(queue, current, search) == Some(Located(queue[p - 1], p, Helpers.EstimateWaitTime(p, Helpers.DefaultMinutes)))
    ensures Helpers.GetQueuePosition(search, queue) == 0 ==>
      TokenSearch(queue, current, search).value.NotFound? || TokenSearch(queue, current, search).value.position == 0
  {
    forall i | 0 <= i < |queue|
      ensures MatchesSearch(search)(queue[i]) == (queue[i].token == search)
    {
      if TokenMatches(queue[i].token, search) {
        LowerCaseInjectiveOnUpper(queue[i].token, search);
      }
    }
    FindIndexAgree(queue, MatchesSearch(search), queue, (item: QueueItem) => item.token == search);
  }

  /**
   * The auto-refresh updater when its gate opens: `current` moves to the item after the
   * first one carrying its token, unless it is missing from the queue or is the last item.
   * The queue is never modified.
   */
  function Advance(queue: seq<QueueItem>, current: QueueItem): (r: QueueItem)
    ensures
      var p := Helpers.GetQueuePosition(current.token, queue);
      (1 <= p < |queue| ==> r == queue[p]) && (!(1 <= p < |queue|) ==> r == current)
  {
    var currentIndex := FindIndex(queue, (item: QueueItem) => item.token == current.token);
    if currentIndex >= 0 && currentIndex < |queue| - 1 then queue[currentIndex + 1] else current
  }

  /** Tokens of distinct items are distinct. */
  predicate UniqueTokens(queue: seq<QueueItem>)
  {
    forall i, j :: 0 <= i < j < |queue| ==> queue[i].token != queue[j].token
  }

  /** `n` ticks whose gate opens. */
  function AdvanceTimes(queue: seq<QueueItem>, current: QueueItem, n: nat): QueueItem
    decreases n
  {
    if n == 0 then current else AdvanceTimes(queue, Advance(queue, current), n - 1)
  }

  /** With unique tokens, each opened gate moves `current` exactly one item on, until it rests on the last item. */
  lemma {:induction false} AdvanceWalksQueue(queue: seq<QueueItem>, i: nat, n: nat)
    requires UniqueTokens(queue) && i < |queue|
    ensures AdvanceTimes(queue, queue[i], n) == queue[if i + n < |queue| then i + n else |queue| - 1]
    decreases n
  {
    if n > 0 {
      var p := Helpers.GetQueuePosition(queue[i].token, queue);
      assert p == i + 1;
      var next := if i + 1 < |queue| then i + 1 else i;
      assert Advance(queue, queue[i]) == queue[next];
      AdvanceWalksQueue(queue, next, n - 1);
    }
  }

  class StatusPage {
    var searchToken: string
    var queue: seq<QueueItem>
    var current: QueueItem
    var userTicket: Option<UserTicket>
    var lastUpdated: int
    var autoRefresh: bool

    /** The initial state at time `now`: empty search, the fixture's queue, auto-refresh on. */
    constructor (queue0: seq<QueueItem>, current0: QueueItem, now: int)
      ensures searchToken == "" && queue == queue0 && current == current0
      ensures userTicket == None && lastUpdated == now && autoRefresh
    {
      searchToken, queue, current := "", queue0, current0;
      userTicket, lastUpdated, autoRefresh := None, now, true;
    }

    /** The search field's `onChange`: the input is stored upper-cased. */
    method SetSearchToken(value: string)
      modifies this`searchToken
      ensures searchToken == ToUpperCase(value)
    {
      searchToken := ToUpperCase(value);
    }

    /** `handleTokenSearch`, run by the button or the Enter key. */
    method HandleTokenSearch()
      modifies this`userTicket
      ensures userTicket == TokenSearch(queue, current, searchToken)
    {
      userTicket := TokenSearch(queue, current, searchToken);
    }

    /** The auto-refresh checkbox. */
    method SetAutoRefresh(checked: bool)
      modifies this`autoRefresh
      ensures autoRefresh == checked
    {
      autoRefresh := checked;
    }

    /**
     * One run of the 15-second interval at time `now`, which exists only while auto-refresh
     * is on; `advances` is the gate `Math.random() > 0.7`.
     */
    method Tick(advances: bool, now: int)
      modifies this`current, this`lastUpdated
      ensures !old(autoRefresh) ==> current == old(current) && lastUpdated == old(lastUpdated)
      ensures old(autoRefresh) ==> current == (if advances then Advance(queue, old(current)) else old(current)) && lastUpdated == now
    {
      if autoRefresh {
        if advances {
          current := Advance(queue, current);
        }
        lastUpdated := now;
      }
    }

    /** `refreshQueue` at time `now`: the queue is copied item by item, every item unchanged. */
    method RefreshQueue(now: int)
      modifies this`queue, this`lastUpdated
      ensures queue == old(queue) && lastUpdated == now
    {
      lastUpdated := now;
      var copied := Map(queue, (item: QueueItem) => item.(timestamp := item.timestamp));
      assert copied == queue;
      queue := copied;
    }
  }
}
