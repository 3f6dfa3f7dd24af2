/**
 * The shapes of the records the pages load from their bundled JSON fixtures
 * (queue.json, tickets.json, services.json). The fixture contents themselves are
 * inputs to the pages' constructors, not part of the model.
 */
module Fixtures {
  import opened Wrappers

  /** The status strings the pages write and compare against. */
  const Waiting := "waiting"
  const InProgress := "in-progress"
  const Completed := "completed"
  const NoShow := "no-show"

  /**
   * An entry of the `queue` array in queue.json, and its `current` ticket.
   * `timestamp` is the issue time in milliseconds since the epoch.
   */
  datatype QueueItem = QueueItem(token: string, department: string, service: string, timestamp: int, status: string)

  /** A service counter; `currentToken` is `null` (None) while nobody is served. */
  datatype Counter = Counter(id: string, name: string, department: string, currentToken: Option<string>)

  /** `!counter.currentToken` in JavaScript: null and the empty string are both falsy. */
  predicate IsIdle(c: Counter)
  {
    c.currentToken == None || c.currentToken == Some("")
  }

  /**
   * An entry of the `history` array in tickets.json. `completeTime` (milliseconds) and
   * `waitTime` (minutes) are absent until a service is completed.
   */
  datatype HistoryEntry = HistoryEntry(token: string, service: string, department: string, status: string,
                                       completeTime: Option<int>, waitTime: Option<int>)

  /** services.json: offices hold departments, departments hold services. */
  datatype Service = Service(id: string, name: string, estimatedTime: int)
  datatype Department = Department(id: string, name: string, services: seq<Service>)
  datatype Office = Office(id: string, name: string, departments: seq<Department>)
}
