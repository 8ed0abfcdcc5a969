/** The simple form that coro::Mutex must equal: a lock with an owner and one first-come-first-served
    queue.  The packed word, the private batch list and the in-place reversal do not appear here. */
module QueueLock {
  import opened Options

  datatype Lock<T> = Lock(owner: Option<T>, queue: seq<T>)

  datatype Event<T> =
    | Internal             // nothing a client can see
    | Acquire(t: T)        // t takes the free lock
    | Join(t: T)           // t goes to sleep at the end of the queue
    | Release              // the owner leaves; the first sleeper, if any, owns the lock

  /** What each event does.  A free lock has no queue, and nobody acquires past a sleeper. */
  ghost predicate Step<T>(l: Lock<T>, e: Event<T>, l': Lock<T>) {
    match e
    case Internal => l' == l
    case Acquire(t) => l.owner == None && l.queue == [] && l' == Lock(Some(t), [])
    case Join(t) => l.owner != None && t !in l.queue && l' == l.(queue := l.queue + [t])
    case Release =>
      l.owner != None &&
      l' == if l.queue == [] then Lock(None, []) else Lock(Some(l.queue[0]), l.queue[1..])
  }

  /** `l` is where the events lead, from a lock that nobody owns. */
  ghost predicate Reaches<T(!new)>(events: seq<Event<T>>, l: Lock<T>)
    decreases |events|, 1
  {
    if events == [] then l == Lock(None, [])
    else ReachesVia(events[..|events| - 1], events[|events| - 1], l)
  }

  ghost predicate ReachesVia<T(!new)>(before: seq<Event<T>>, e: Event<T>, l: Lock<T>)
    decreases |before| + 1, 0
  {
    exists l0 :: Reaches(before, l0) && Step(l0, e, l)
  }
}
