/** The floor fetch scheduler of floors/fetcher.go as a sequential state
    machine. The goroutine that owns the pending queue and the registration
    set becomes one step function per `select` arm; the worker pool's answer
    to `TrySubmit`, the clock and the HTTP outcome are inputs of the steps. */
module FloorFetcher {
  import opened Base
  import opened PriceFloors
  import opened FetchQueue
  import opened FloorValidation

  /** A cache value: the stored bytes, represented by what decoding them
      yields (`None` for bytes that do not decode), and the TTL they were
      stored with. */
  datatype CacheEntry = CacheEntry(decoded: Option<PriceFloorRules>, ttl: int)

  /** The fetcher: the registration set (`fetchInProgress`), the pending
      heap (`fetchQueue`), the messages sent but not yet received
      (`configReceiver`, first in first out), the specs of tasks the pool
      accepted and has not finished, and the cache. */
  datatype State = State(
    registered: set<string>,
    queue: Queue,
    inbox: seq<FetchInfo>,
    running: seq<FetchSpec>,
    cache: map<string, CacheEntry>)

  /** A freshly created fetcher. */
  const Initial: State := State({}, [], [], [], map[])

  /** What the read path returns, and the fetcher after it. */
  datatype FetchReply = FetchReply(rules: Option<PriceFloorRules>, status: string, next: State)

  /** Dynamic fetching is switched on for the account and its URL is usable. */
  predicate Configured(config: AccountPriceFloors, isURL: string -> bool)
  {
    config.useDynamicData && |config.fetcher.url| > 0 && isURL(config.fetcher.url)
  }

  /** A cache miss sends a registration message only for an enabled account
      with a positive timeout. */
  predicate SendsOnMiss(config: AccountPriceFloors)
  {
    config.enabled && config.fetcher.enabled && config.fetcher.timeout > 0
  }

  /** `Fetch`, the read path. `isURL` stands for `govalidator.IsURL`. */
  function Fetch(s: State, config: AccountPriceFloors, now: int, isURL: string -> bool): (r: FetchReply)
    ensures r.status == FetchNone <==> !Configured(config, isURL)
    ensures r.status == FetchSuccess ==> r.rules.Some? && r.rules.value.data.Some?
    ensures r.status != FetchSuccess ==> r.rules.None?
    ensures r.next.registered == s.registered && r.next.queue == s.queue
    ensures r.next.running == s.running && r.next.cache == s.cache
    ensures Configured(config, isURL) && config.fetcher.url in s.cache ==>
              var stored := s.cache[config.fetcher.url].decoded;
              && r.next == s
              && (r.status == FetchSuccess <==> stored.Some? && stored.value.data.Some?)
              && (r.status == FetchSuccess ==> r.rules == stored)
              && (r.status != FetchSuccess ==> r.status == FetchError)
    ensures Configured(config, isURL) && config.fetcher.url !in s.cache ==>
              && r.status == FetchInprogress
              && (SendsOnMiss(config) ==> r.next.inbox == s.inbox + [FetchInfo(config.fetcher, now, false)])
              && (!SendsOnMiss(config) ==> r.next == s)
    ensures !Configured(config, isURL) ==> r.next == s
  {
    var url := config.fetcher.url;
    if !config.useDynamicData || |url| == 0 || !isURL(url) then FetchReply(None, FetchNone, s)
    else if url in s.cache then
      match s.cache[url].decoded
      case None => FetchReply(None, FetchError, s)
      case Some(rules) =>
        if rules.data.None? then FetchReply(None, FetchError, s)
        else FetchReply(Some(rules), FetchSuccess, s)
    else if config.enabled && config.fetcher.enabled && config.fetcher.timeout > 0 then
      FetchReply(None, FetchInprogress, s.(inbox := s.inbox + [FetchInfo(config.fetcher, now, false)]))
    else FetchReply(None, FetchInprogress, s)
  }

  /** `submit`: hand the entry to the pool; when the pool is saturated, put
      the very same entry, with its original fetch time, back on the heap. */
  function Submit(s: State, info: FetchInfo, accepted: bool): (r: State)
    requires IsHeap(s.queue)
    ensures IsHeap(r.queue)
    ensures r.registered == s.registered && r.inbox == s.inbox && r.cache == s.cache
    ensures accepted ==> r.running == s.running + [info.spec] && r.queue == s.queue
    ensures !accepted ==> r.running == s.running && multiset(r.queue) == multiset(s.queue) + multiset{info}
  {
    if accepted then s.(running := s.running + [info.spec])
    else s.(queue := Push(s.queue, info))
  }

  /** The message arm of the `select`: a refetch is queued unconditionally;
      a first-time request is submitted once per URL and otherwise dropped. */
  function HandleMessage(s: State, m: FetchInfo, accepted: bool): (r: State)
    requires IsHeap(s.queue)
    ensures IsHeap(r.queue)
    ensures r.inbox == s.inbox && r.cache == s.cache
    ensures m.refetch ==>
              && r.registered == s.registered && r.running == s.running
              && multiset(r.queue) == multiset(s.queue) + multiset{m}
    ensures !m.refetch && m.spec.url in s.registered ==> r == s
    ensures !m.refetch && m.spec.url !in s.registered ==>
              && r.registered == s.registered + {m.spec.url}
              && (accepted ==> r.running == s.running + [m.spec] && r.queue == s.queue)
              && (!accepted ==> r.running == s.running && multiset(r.queue) == multiset(s.queue) + multiset{m})
  {
    if m.refetch then s.(queue := Push(s.queue, m))
    else if m.spec.url in s.registered then s
    else Submit(s.(registered := s.registered + {m.spec.url}), m, accepted)
  }

  /** Receiving the oldest message, when there is one. */
  function Receive(s: State, accepted: bool): (r: Option<State>)
    requires IsHeap(s.queue)
    ensures r.None? <==> |s.inbox| == 0
    ensures r.Some? ==> r.value == HandleMessage(s.(inbox := s.inbox[1..]), s.inbox[0], accepted)
  {
    if |s.inbox| == 0 then None
    else Some(HandleMessage(s.(inbox := s.inbox[1..]), s.inbox[0], accepted))
  }

  /** One iteration of the sweep loop: it exits, or it pops the top entry
      and submits it. */
  datatype SweepOutcome = Exit | Submitted(entry: FetchInfo, next: State)

  /** One test-and-body of the loop in the ticker arm of `Fetcher`. */
  function SweepStep(s: State, now: int, accepted: bool): (r: SweepOutcome)
    requires IsHeap(s.queue)
    ensures r.Exit? <==> |s.queue| == 0 || s.queue[0].fetchTime > now
    ensures r.Exit? ==> forall e :: e in s.queue ==> e.fetchTime > now
    ensures r.Submitted? ==>
              && r.entry in s.queue
              && r.entry.fetchTime <= now
              && (forall e :: e in s.queue ==> r.entry.fetchTime <= e.fetchTime)
              && IsHeap(r.next.queue)
              && r.next.registered == s.registered && r.next.inbox == s.inbox && r.next.cache == s.cache
    ensures r.Submitted? && accepted ==>
              && multiset(r.next.queue) + multiset{r.entry} == multiset(s.queue)
              && r.next.running == s.running + [r.entry.spec]
    ensures r.Submitted? && !accepted ==>
              && multiset(r.next.queue) == multiset(s.queue)
              && r.next.running == s.running
  {
    match Top(s.queue)
    case None => Exit
    case Some(top) =>
      if top.fetchTime > now then
        TopIsEarliest(s.queue);
        Exit
      else
        TopIsEarliest(s.queue);
        var (entry, rest) := Pop(s.queue);
        Submitted(entry, Submit(s.(queue := rest), entry, accepted))
  }

  /** The sweep loop run against a sequence of pool answers, one per
      submission: the result and whether the loop exited before the answers
      ran out. Nothing bounds the number of iterations in the source, so the
      answers play the part of fuel. */
  function SweepRun(s: State, now: int, answers: seq<bool>): (r: (State, bool))
    requires IsHeap(s.queue)
    ensures IsHeap(r.0.queue)
    ensures r.1 ==> forall e :: e in r.0.queue ==> e.fetchTime > now
    ensures r.0.registered == s.registered && r.0.inbox == s.inbox && r.0.cache == s.cache
    decreases |answers|
  {
    match SweepStep(s, now, if |answers| > 0 then answers[0] else false)
    case Exit => (s, true)
    case Submitted(_, next) =>
      if |answers| == 0 then (s, false) else SweepRun(next, now, answers[1..])
  }

  /** `worker` finishing: the task at `k` of the running list ran one
      fetch-and-validate. A validated document is cached under the URL with
      the chosen TTL; whatever happened, a refetch for `now + period` is
      sent. */
  function WorkerDone(s: State, k: nat, outcome: HttpOutcome, now: int): (r: State)
    requires k < |s.running|
    ensures var spec := s.running[k];
            var fetched := FetchAndValidate(spec, outcome);
            && r.inbox == s.inbox + [FetchInfo(spec, now + spec.period, true)]
            && r.running == s.running[..k] + s.running[k + 1..]
            && r.registered == s.registered && r.queue == s.queue
            && (fetched.0.None? ==> r.cache == s.cache)
            && (fetched.0.Some? ==>
                  r.cache == s.cache[spec.url := CacheEntry(fetched.0, CacheTtl(spec, outcome.maxAge))])
  {
    var spec := s.running[k];
    var (rules, maxAge) := FetchAndValidate(spec, outcome);
    var cache := if rules.Some? then s.cache[spec.url := CacheEntry(rules, CacheTtl(spec, maxAge))] else s.cache;
    s.(inbox := s.inbox + [FetchInfo(spec, now + spec.period, true)],
       running := s.running[..k] + s.running[k + 1..],
       cache := cache)
  }

  /** The cache losing an entry, by expiry or by memory-budget eviction. */
  function Evict(s: State, url: string): (r: State)
    ensures url !in r.cache
    ensures forall u :: u != url ==> (u in r.cache <==> u in s.cache)
    ensures forall u :: u in r.cache ==> r.cache[u] == s.cache[u]
    ensures r.(cache := s.cache) == s
  {
    s.(cache := s.cache - {url})
  }

  /** Everything that can happen to the fetcher. */
  datatype Event =
    | Lookup(config: AccountPriceFloors, now: int)
    | Message(accepted: bool)
    | SweepIteration(now: int, accepted: bool)
    | WorkerFinished(k: nat, outcome: HttpOutcome, now: int)
    | Evicted(url: string)

  /** The fetcher after one event; an event that cannot fire (no message,
      loop exit, no such task) leaves it as it is. */
  function Next(s: State, ev: Event, isURL: string -> bool): State
    requires IsHeap(s.queue)
  {
    match ev
    case Lookup(config, now) => Fetch(s, config, now, isURL).next
    case Message(accepted) => Receive(s, accepted).GetOr(s)
    case SweepIteration(now, accepted) =>
      (match SweepStep(s, now, accepted)
       case Exit => s
       case Submitted(_, next) => next)
    case WorkerFinished(k, outcome, now) =>
      if k < |s.running| then WorkerDone(s, k, outcome, now) else s
    case Evicted(url) => Evict(s, url)
  }

  /** Some task for `u` is still alive: queued, running, or a refetch in
      flight to the scheduler. */
  ghost predicate Pending(s: State, u: string)
  {
    || (exists e :: e in s.queue && e.spec.url == u)
    || (exists sp :: sp in s.running && sp.url == u)
    || (exists m :: m in s.inbox && m.refetch && m.spec.url == u)
  }

  /** Every cached value decodes to a document with data. */
  ghost predicate CacheDecodes(s: State)
  {
    forall u :: u in s.cache ==> s.cache[u].decoded.Some? && s.cache[u].decoded.value.data.Some?
  }

  /** The invariant kept by every event: the queue is a heap, the cache
      holds only what the worker wrote, and every registered URL keeps a live
      task, so it is refreshed forever. */
  ghost predicate Inv(s: State)
  {
    && IsHeap(s.queue)
    && CacheDecodes(s)
    && forall u :: u in s.registered ==> Pending(s, u)
  }

  lemma InitialInv()
    ensures Inv(Initial)
  {
  }

  /** Every event keeps the invariant and never shrinks the registration
      set. */
  lemma NextKeepsInv(s: State, ev: Event, isURL: string -> bool)
    requires Inv(s)
    ensures Inv(Next(s, ev, isURL))
    ensures s.registered <= Next(s, ev, isURL).registered
  {
    var r := Next(s, ev, isURL);
    match ev
    case Lookup(config, now) =>
      forall u | u in r.registered ensures Pending(r, u) {
        assert Pending(s, u);
        if m :| m in s.inbox && m.refetch && m.spec.url == u {
          assert m in r.inbox;
        }
      }
    case Message(accepted) =>
      if |s.inbox| > 0 {
        MessageKeepsPending(s, accepted);
      }
    case SweepIteration(now, accepted) =>
      SweepKeepsPending(s, now, accepted);
    case WorkerFinished(k, outcome, now) =>
      if k < |s.running| {
        WorkerKeepsPending(s, k, outcome, now);
      }
    case Evicted(url) =>
  }

  lemma MessageKeepsPending(s: State, accepted: bool)
    requires Inv(s) && |s.inbox| > 0
    ensures Inv(Receive(s, accepted).value)
    ensures s.registered <= Receive(s, accepted).value.registered
  {
    var m := s.inbox[0];
    var r := Receive(s, accepted).value;
    forall u | u in r.registered ensures Pending(r, u) {
      if u == m.spec.url && (m.refetch || u !in s.registered) {
        MessageTaskPending(s, accepted);
      } else {
        OtherTaskPending(s, accepted, u);
      }
    }
  }

  /** A refetch or a first request leaves a live task for its own URL. */
  lemma MessageTaskPending(s: State, accepted: bool)
    requires IsHeap(s.queue) && |s.inbox| > 0
    requires s.inbox[0].refetch || s.inbox[0].spec.url !in s.registered
    ensures Pending(Receive(s, accepted).value, s.inbox[0].spec.url)
  {
    var m := s.inbox[0];
    var r := Receive(s, accepted).value;
    if m.refetch || !accepted {
      assert m in multiset(r.queue);
    } else {
      assert m.spec in r.running;
    }
  }

  /** Receiving a message keeps every other registered URL's live task. */
  lemma OtherTaskPending(s: State, accepted: bool, u: string)
    requires Inv(s) && |s.inbox| > 0 && u in s.registered
    requires !(u == s.inbox[0].spec.url && (s.inbox[0].refetch || u !in s.registered))
    ensures Pending(Receive(s, accepted).value, u)
  {
    var m := s.inbox[0];
    var r := Receive(s, accepted).value;
    assert s.inbox == [m] + s.inbox[1..];
    assert Pending(s, u);
    if e :| e in s.queue && e.spec.url == u {
      assert e in multiset(r.queue);
    } else if sp :| sp in s.running && sp.url == u {
      assert sp in r.running;
    } else {
      var m' :| m' in s.inbox && m'.refetch && m'.spec.url == u;
      if m' == m {
        assert m in multiset(r.queue);
      } else {
        assert m' in r.inbox;
      }
    }
  }

  lemma SweepKeepsPending(s: State, now: int, accepted: bool)
    requires Inv(s)
    ensures SweepStep(s, now, accepted).Submitted? ==> Inv(SweepStep(s, now, accepted).next)
  {
    match SweepStep(s, now, accepted)
    case Exit =>
    case Submitted(entry, r) =>
      forall u | u in r.registered ensures Pending(r, u) {
        SweepKeepsPendingFor(s, now, accepted, u);
      }
  }

  /** A sweep step keeps a registered URL's live task: a queued entry stays
      queued or starts running. */
  lemma SweepKeepsPendingFor(s: State, now: int, accepted: bool, u: string)
    requires Inv(s) && SweepStep(s, now, accepted).Submitted? && u in s.registered
    ensures Pending(SweepStep(s, now, accepted).next, u)
  {
    var entry, r := SweepStep(s, now, accepted).entry, SweepStep(s, now, accepted).next;
    assert Pending(s, u);
    if e :| e in s.queue && e.spec.url == u {
      assert e in multiset(s.queue);
      if e == entry && accepted {
        assert entry.spec in r.running;
      } else {
        assert e in multiset(r.queue);
      }
    } else if sp :| sp in s.running && sp.url == u {
      assert sp in r.running;
    } else {
      var m :| m in s.inbox && m.refetch && m.spec.url == u;
      assert m in r.inbox;
    }
  }

  lemma WorkerKeepsPending(s: State, k: nat, outcome: HttpOutcome, now: int)
    requires Inv(s) && k < |s.running|
    ensures Inv(WorkerDone(s, k, outcome, now))
  {
    var r := WorkerDone(s, k, outcome, now);
    var spec := s.running[k];
    var refetch := FetchInfo(spec, now + spec.period, true);
    assert refetch in r.inbox;
    forall u | u in r.registered ensures Pending(r, u) {
      assert Pending(s, u);
      if e :| e in s.queue && e.spec.url == u {
        assert e in r.queue;
      } else if sp :| sp in s.running && sp.url == u {
        var j :| 0 <= j < |s.running| && s.running[j] == sp;
        if j < k {
          assert r.running[j] == sp;
        } else if j > k {
          assert r.running[j - 1] == sp;
        } else {
          assert refetch.spec.url == u;
        }
      } else {
        var m :| m in s.inbox && m.refetch && m.spec.url == u;
        assert m in r.inbox;
      }
    }
  }

  /** The fetcher after a sequence of events. */
  function Run(s: State, events: seq<Event>, isURL: string -> bool): State
    requires Inv(s)
    decreases |events|
  {
    if |events| == 0 then s
    else
      NextKeepsInv(s, events[0], isURL);
      Run(Next(s, events[0], isURL), events[1..], isURL)
  }

  /** Along any run, the invariant holds and no URL is ever unregistered. */
  lemma {:induction false} RunKeepsInv(s: State, events: seq<Event>, isURL: string -> bool)
    requires Inv(s)
    ensures Inv(Run(s, events, isURL))
    ensures s.registered <= Run(s, events, isURL).registered
    decreases |events|
  {
    if |events| > 0 {
      NextKeepsInv(s, events[0], isURL);
      RunKeepsInv(Next(s, events[0], isURL), events[1..], isURL);
    }
  }

  /** From any reachable state the read path never reports `FetchError`:
      the cache only ever holds documents the worker validated. */
  lemma ReachableNeverFetchError(events: seq<Event>, config: AccountPriceFloors, now: int, isURL: string -> bool)
    ensures Fetch(Run(Initial, events, isURL), config, now, isURL).status != FetchError
  {
    InitialInv();
    RunKeepsInv(Initial, events, isURL);
  }

  /** A saturated pool makes the sweep spin: while some entry is due, every
      rejected submission puts it back with its due time and the same tick
      tries again, so the loop never exits however many answers it gets. */
  lemma {:induction false} SweepSpinsWhenSaturated(s: State, now: int, answers: seq<bool>)
    requires IsHeap(s.queue)
    requires forall k :: 0 <= k < |answers| ==> !answers[k]
    requires exists e :: e in s.queue && e.fetchTime <= now
    ensures var r := SweepRun(s, now, answers);
            !r.1 && multiset(r.0.queue) == multiset(s.queue) && r.0.running == s.running
    decreases |answers|
  {
    var e :| e in s.queue && e.fetchTime <= now;
    var next := RejectedStep(s, now, answers, e);
    if |answers| > 0 {
      var rest := answers[1..];
      assert forall k :: 0 <= k < |rest| ==> !rest[k] by {
        forall k | 0 <= k < |rest| ensures !rest[k] {
          assert rest[k] == answers[k + 1];
        }
      }
      SweepSpinsWhenSaturated(next, now, rest);
    }
  }

  /** A rejected submission of a due entry leaves the queue's contents and
      the running tasks as they were, the entry still due: the run goes on
      from there, or stops short when the answers have run out. */
  lemma RejectedStep(s: State, now: int, answers: seq<bool>, e: FetchInfo) returns (next: State)
    requires IsHeap(s.queue) && e in s.queue && e.fetchTime <= now
    requires |answers| > 0 ==> !answers[0]
    ensures IsHeap(next.queue) && e in next.queue
    ensures multiset(next.queue) == multiset(s.queue) && next.running == s.running
    ensures |answers| == 0 ==> SweepRun(s, now, answers) == (s, false)
    ensures |answers| > 0 ==> SweepRun(s, now, answers) == SweepRun(next, now, answers[1..])
  {
    var step := SweepStep(s, now, false);
    next := step.next;
    assert e in multiset(next.queue);
  }

  /** When the pool accepts every submission, the sweep exits after at most
      as many iterations as there are queued entries. */
  lemma {:induction false} SweepExitsWhenAccepted(s: State, now: int, answers: seq<bool>)
    requires IsHeap(s.queue)
    requires |answers| >= |s.queue|
    requires forall k :: 0 <= k < |answers| ==> answers[k]
    ensures SweepRun(s, now, answers).1
    decreases |answers|
  {
    var a := if |answers| > 0 then answers[0] else false;
    match SweepStep(s, now, a)
    case Exit =>
    case Submitted(_, next) =>
      assert |answers| > 0 && a;
      assert |multiset(next.queue)| + 1 == |multiset(s.queue)|;
      SweepExitsWhenAccepted(next, now, answers[1..]);
  }
}
