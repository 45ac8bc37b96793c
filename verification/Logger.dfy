/**
 The logger of src/logger/logger.cpp on top of the bounded queue of module `BlockingQueue`.  Thread 0 of the queue is
 the writer thread; all others log, flush or shut down.
 */
module Logger {
  import opened BlockingQueue

  datatype Writer =
    | Calling               // logger.cpp:38
    | InPop
    | Writing(v: Value)     // :39
    | Tallying              // :40
    | Done

  datatype Client =
    | Out
    | InPush                // :109
    | Counting              // :116
    | Flushing(target: nat) // :93-95
    | InClose               // :101
    | Joining               // :102

  /** `written` is what has reached the output, in order. */
  datatype Log = Log(q: State, writer: Writer, clients: seq<Client>, written: seq<Value>, enqueued: nat, processed: nat)

  datatype Move =
    | Queue(a: Action)      // a step inside the queue
    | Write                 // the writer goes on outside the queue
    | Enter(i: Tid, v: Value)
    | Flush(i: Tid)
    | Shutdown(i: Tid)
    | Go(i: Tid)            // a client goes on outside the queue

  ghost predicate Inside(a: Action) {
    a.Run? || a.Spurious? || a.Expire?
  }

  predicate Returned(s: State, i: Tid) {
    i < |s.threads| && s.threads[i].pc.Idle?
  }

  ghost predicate May(l: Log, m: Move) {
    match m
    case Queue(a) => Inside(a) && Enabled(l.q, a)
    case Write => 0 < |l.q.threads| && !l.writer.Done? && Returned(l.q, 0)
    case Enter(i, _) => 0 < i < |l.clients| && l.clients[i].Out? && Returned(l.q, i)
    case Flush(i) => 0 < i < |l.clients| && l.clients[i].Out?
    case Shutdown(i) => 0 < i < |l.clients| && l.clients[i].Out? && Returned(l.q, i)
    case Go(i) =>
      && 0 < i < |l.clients| && !l.clients[i].Out?
      && (l.clients[i].InPush? || l.clients[i].InClose? ==> Returned(l.q, i))
      && (l.clients[i].Joining? ==> l.writer.Done?)
  }

  function WriterStep(l: Log): Log
    requires Returned(l.q, 0)
  {
    match l.writer
    case Calling => l.(q := Do(l.q, CallPop(0, false)), writer := InPop)
    case InPop =>
      var r := l.q.threads[0].pc.result;
      l.(writer := if r.Popped? then Writing(r.v) else Done)
    case Writing(v) => l.(written := l.written + [v], writer := Tallying)
    case Tallying => l.(processed := l.processed + 1, writer := Calling)
    case Done => l
  }

  function ClientStep(l: Log, i: Tid): Log
    requires i < |l.clients| && (l.clients[i].InPush? ==> Returned(l.q, i))
  {
    match l.clients[i]
    case Out => l
    case InPush => l.(clients := l.clients[i := if l.q.threads[i].pc.result == Pushed(true) then Counting else Out])
    case Counting => l.(enqueued := l.enqueued + 1, clients := l.clients[i := Out])
    case Flushing(t) => if l.processed < t then l else l.(clients := l.clients[i := Out])
    case InClose => l.(clients := l.clients[i := Joining])
    case Joining => l.(clients := l.clients[i := Out])
  }

  function Next(l: Log, m: Move): Log
    requires May(l, m)
  {
    match m
    case Queue(a) => l.(q := Do(l.q, a))
    case Write => WriterStep(l)
    case Enter(i, v) => l.(q := Do(l.q, CallPush(i, v)), clients := l.clients[i := InPush])
    case Flush(i) => l.(clients := l.clients[i := Flushing(l.enqueued)])
    case Shutdown(i) => l.(q := Do(l.q, CallClose(i)), clients := l.clients[i := InClose])
    case Go(i) => ClientStep(l, i)
  }

  ghost predicate Start(l: Log) {
    && Init(l.q) && l.writer == Calling && l.written == [] && l.enqueued == 0 == l.processed
    && 0 < |l.clients| == |l.q.threads| && forall i :: 0 <= i < |l.clients| ==> l.clients[i].Out?
  }
}
