/** The resource-loader delegate as an event-driven state machine: the player hands it loading
    requests, and the data tasks it starts complete later as separate events. */
module ResourceLoader {

  import opened Prelude
  import opened Urls
  import opened RangeResponder
  import Fetch

  /** Identity of one data task started by `fetch`. */
  type FetchId = nat

  /** What the completion closure of one outstanding fetch captured: the URL the player asked
      for and the loading request waiting on it. */
  datatype PendingFetch = PendingFetch(original: Url, request: RequestId, wantsContentInfo: bool, dataRequest: DataRequest)

  /** The delegate: the body cache keyed by the URL the player asked for, the fetches whose
      completion has not run yet, and the identity the next fetch will get. */
  datatype State = State(cache: map<Url, seq<byte>>, inFlight: map<FetchId, PendingFetch>, nextFetch: FetchId)

  /** A data task started for `url`. */
  datatype FetchOrder = FetchOrder(id: FetchId, url: Url)

  /** The effect of one event: the new state, the fetch started (if any), the replies made. */
  datatype StepResult = StepResult(state: State, fetch: Option<FetchOrder>, replies: seq<Reply>)

  /** The answer the delegate gives the player, with the effect of handling the request. */
  datatype Handled = Handled(claimed: bool, step: StepResult)

  /** A freshly created delegate. */
  const Initial: State := State(map[], map[], 0)

  /** Every outstanding fetch has an identity below the next one, so a new data task never
      takes the place of one still running. */
  predicate Valid(s: State) {
    forall id :: id in s.inFlight ==> id < s.nextFetch
  }

  /** The identity the next miss will take is not held by an outstanding fetch. */
  predicate NextIdFree(s: State) {
    s.nextFetch !in s.inFlight
  }

  /** The closure a miss for `req` hands to `fetch`. */
  function PendingFor(req: LoadingRequest): PendingFetch
    requires Serviceable(req)
  {
    PendingFetch(req.url.value, req.id, req.wantsContentInfo, req.dataRequest.value)
  }

  /** The request carries both a URL and a data request; the others are claimed and ignored. */
  predicate Serviceable(req: LoadingRequest) {
    req.url.Some? && req.dataRequest.Some?
  }

  predicate IsHit(s: State, req: LoadingRequest) {
    Serviceable(req) && req.url.value in s.cache
  }

  predicate IsMiss(s: State, req: LoadingRequest) {
    Serviceable(req) && req.url.value !in s.cache
  }

  /** On a hit the requested span must lie within the cached body (the slice traps otherwise). */
  predicate Answerable(s: State, req: LoadingRequest) {
    IsHit(s, req) ==> InBounds(req.dataRequest.value, |s.cache[req.url.value]|)
  }

  /** A body that reaches `onData` must contain the span the pending request asked for. */
  predicate Deliverable(p: PendingFetch, o: Fetch.FetchOutcome) {
    Fetch.Classify(o).Delivered? ==> InBounds(p.dataRequest, |Fetch.Classify(o).body|)
  }

  /** The delegate callback: a hit is answered at once from the cache, a miss starts one fetch
      to the normalised URL; every request is claimed and the cache is left alone. */
  function Handle(s: State, req: LoadingRequest): (r: Handled)
    requires NextIdFree(s)
    requires Answerable(s, req)
    ensures r.claimed
    ensures r.step.state.cache == s.cache
    ensures !Serviceable(req) ==> r.step == StepResult(s, None, [])
    ensures IsHit(s, req) ==>
      && r.step.state == s
      && r.step.fetch.None?
      && r.step.replies == FinishRequestWithData(req.id, req.wantsContentInfo, req.dataRequest.value, s.cache[req.url.value])
    ensures IsMiss(s, req) ==>
      && r.step.replies == []
      && r.step.fetch == Some(FetchOrder(s.nextFetch, Normalise(req.url.value)))
      && r.step.state.nextFetch == s.nextFetch + 1
      && r.step.state.inFlight.Keys == s.inFlight.Keys + {s.nextFetch}
      && r.step.state.inFlight[s.nextFetch] == PendingFor(req)
    ensures forall id :: id in s.inFlight ==> id in r.step.state.inFlight && r.step.state.inFlight[id] == s.inFlight[id]
    ensures Valid(s) ==> Valid(r.step.state)
  {
    if !Serviceable(req) then Handled(true, StepResult(s, None, []))
    else
      var url := req.url.value;
      var d := req.dataRequest.value;
      if url in s.cache then
        Handled(true, StepResult(s, None, FinishRequestWithData(req.id, req.wantsContentInfo, d, s.cache[url])))
      else
        var s' := s.(inFlight := s.inFlight[s.nextFetch := PendingFor(req)], nextFetch := s.nextFetch + 1);
        Handled(true, StepResult(s', Some(FetchOrder(s.nextFetch, Normalise(url))), []))
  }

  /** The completion of fetch `id`: a delivered body is stored under the URL the player asked
      for and only then used to answer the waiting request; any other outcome changes nothing
      but forgetting the fetch, and the request is never answered. */
  function Complete(s: State, id: FetchId, o: Fetch.FetchOutcome): (r: StepResult)
    requires id in s.inFlight
    requires Deliverable(s.inFlight[id], o)
    ensures r.fetch.None?
    ensures r.state.inFlight == s.inFlight - {id}
    ensures r.state.nextFetch == s.nextFetch
    ensures !Fetch.Classify(o).Delivered? ==> r.state.cache == s.cache && r.replies == []
    ensures Fetch.Classify(o).Delivered? ==>
      var p := s.inFlight[id];
      && r.state.cache == s.cache[p.original := o.data.value]
      && r.replies == FinishRequestWithData(p.request, p.wantsContentInfo, p.dataRequest, r.state.cache[p.original])
    ensures Valid(s) ==> Valid(r.state)
  {
    var p := s.inFlight[id];
    var s' := s.(inFlight := s.inFlight - {id});
    match Fetch.Classify(o)
    case Delivered(body) =>
      var stored := s'.(cache := s'.cache[p.original := body]);
      StepResult(stored, None, FinishRequestWithData(p.request, p.wantsContentInfo, p.dataRequest, stored.cache[p.original]))
    case _ => StepResult(s', None, [])
  }

  /** An input to the delegate: a loading request from the player, or a data task completing. */
  datatype Event = Request(req: LoadingRequest) | Completion(fetch: FetchId, outcome: Fetch.FetchOutcome)

  /** The event can happen in `s` without trapping. */
  predicate Enabled(s: State, e: Event) {
    match e
    case Request(req) => NextIdFree(s) && Answerable(s, req)
    case Completion(id, o) => id in s.inFlight && Deliverable(s.inFlight[id], o)
  }

  function Step(s: State, e: Event): (r: StepResult)
    requires Enabled(s, e)
    ensures Valid(s) ==> Valid(r.state)
  {
    match e
    case Request(req) => Handle(s, req).step
    case Completion(id, o) => Complete(s, id, o)
  }

  /** The final state and everything a run of events started and replied, in order. */
  datatype Trace = Trace(state: State, fetches: seq<FetchOrder>, replies: seq<Reply>)

  function FetchList(f: Option<FetchOrder>): seq<FetchOrder> {
    if f.Some? then [f.value] else []
  }

  /** The trace of one step followed by the trace of the rest of a run. */
  function Prepend(st: StepResult, rest: Option<Trace>): Option<Trace> {
    match rest
    case None => None
    case Some(t) => Some(Trace(t.state, FetchList(st.fetch) + t.fetches, st.replies + t.replies))
  }

  /** Runs the events in order; `None` when one of them is not enabled. */
  function Run(s: State, evs: seq<Event>): Option<Trace>
    decreases |evs|
  {
    if |evs| == 0 then Some(Trace(s, [], []))
    else if !Enabled(s, evs[0]) then None
    else
      var st := Step(s, evs[0]);
      Prepend(st, Run(st.state, evs[1..]))
  }

  lemma RunCons(s: State, e: Event, rest: seq<Event>)
    requires Enabled(s, e)
    ensures Run(s, [e] + rest) == Prepend(Step(s, e), Run(Step(s, e).state, rest))
  {
    assert ([e] + rest)[0] == e;
    assert ([e] + rest)[1..] == rest;
  }

  /** In a valid state a loading request can be handled exactly when the source would not trap
      on it. */
  lemma ValidStateAdmitsRequests(s: State, req: LoadingRequest)
    requires Valid(s)
    ensures Enabled(s, Request(req)) <==> Answerable(s, req)
  {
  }

  /** Every run keeps the delegate valid. */
  lemma {:induction false} RunPreservesValid(s: State, evs: seq<Event>)
    requires Valid(s)
    requires Run(s, evs).Some?
    ensures Valid(Run(s, evs).value.state)
    decreases |evs|
  {
    if |evs| > 0 {
      RunPreservesValid(Step(s, evs[0]).state, evs[1..]);
    }
  }

  /** The delegate as created, with an empty cache and no data task, is valid, and so is every
      state a run from it reaches. */
  lemma RunFromInitialIsValid(evs: seq<Event>)
    requires Run(Initial, evs).Some?
    ensures Valid(Initial)
    ensures Valid(Run(Initial, evs).value.state)
  {
    RunPreservesValid(Initial, evs);
  }

  /** Cache entries are never removed. */
  lemma {:induction false} RunNeverEvicts(s: State, evs: seq<Event>)
    requires Run(s, evs).Some?
    ensures s.cache.Keys <= Run(s, evs).value.state.cache.Keys
    decreases |evs|
  {
    if |evs| > 0 {
      RunNeverEvicts(Step(s, evs[0]).state, evs[1..]);
    }
  }

  /** Every fetch a run starts gets an identity at or above the starting counter, in increasing
      order; from a valid state none of them is an identity already outstanding there. */
  lemma {:induction false} RunFetchIdsAreFresh(s: State, evs: seq<Event>)
    requires Run(s, evs).Some?
    ensures var t := Run(s, evs).value;
      && s.nextFetch <= t.state.nextFetch
      && (forall i :: 0 <= i < |t.fetches| ==> s.nextFetch <= t.fetches[i].id < t.state.nextFetch)
      && (forall i, j :: 0 <= i < j < |t.fetches| ==> t.fetches[i].id < t.fetches[j].id)
    ensures Valid(s) ==>
      var t := Run(s, evs).value;
      forall i :: 0 <= i < |t.fetches| ==> t.fetches[i].id !in s.inFlight
    decreases |evs|
  {
    if |evs| > 0 {
      var st := Step(s, evs[0]);
      RunFetchIdsAreFresh(st.state, evs[1..]);
    }
  }

  /** All events are requests the cache can answer (or that lack a URL or data request). */
  predicate AllHits(s: State, evs: seq<Event>) {
    forall i :: 0 <= i < |evs| ==>
      evs[i].Request? && (Serviceable(evs[i].req) ==> evs[i].req.url.value in s.cache)
  }

  /** Requests answered from the cache never start a fetch and never change the delegate. */
  lemma {:induction false} HitsNeverFetch(s: State, evs: seq<Event>)
    requires AllHits(s, evs)
    requires Run(s, evs).Some?
    ensures Run(s, evs).value.fetches == []
    ensures Run(s, evs).value.state == s
    decreases |evs|
  {
    if |evs| > 0 {
      assert AllHits(s, evs[1..]) by {
        forall i | 0 <= i < |evs[1..]| ensures evs[1..][i] == evs[i + 1] { }
      }
      HitsNeverFetch(s, evs[1..]);
    }
  }

  /** A run of one enabled event is that event's step. */
  lemma RunOfOne(s: State, e: Event, st: StepResult)
    requires Enabled(s, e) && st == Step(s, e)
    ensures Run(s, [e]) == Some(Trace(st.state, FetchList(st.fetch), st.replies))
  {
    assert [e][1..] == [];
    assert Run(st.state, []) == Some(Trace(st.state, [], []));
    assert FetchList(st.fetch) + [] == FetchList(st.fetch);
    assert st.replies + [] == st.replies;
  }

  /** A run of two enabled events collects the fetches and replies of each step in order. */
  lemma RunOfTwo(s: State, e1: Event, e2: Event, st1: StepResult, st2: StepResult)
    requires Enabled(s, e1) && st1 == Step(s, e1)
    requires Enabled(st1.state, e2) && st2 == Step(st1.state, e2)
    ensures Run(s, [e1, e2])
      == Some(Trace(st2.state, FetchList(st1.fetch) + FetchList(st2.fetch), st1.replies + st2.replies))
  {
    RunOfOne(st1.state, e2, st2);
    RunCons(s, e1, [e2]);
    assert [e1] + [e2] == [e1, e2];
  }

  /** A run of three enabled events collects the fetches and replies of each step in order. */
  lemma RunOfThree(s: State, e1: Event, e2: Event, e3: Event, st1: StepResult, st2: StepResult, st3: StepResult)
    requires Enabled(s, e1) && st1 == Step(s, e1)
    requires Enabled(st1.state, e2) && st2 == Step(st1.state, e2)
    requires Enabled(st2.state, e3) && st3 == Step(st2.state, e3)
    ensures Run(s, [e1, e2, e3])
      == Some(Trace(st3.state,
                    FetchList(st1.fetch) + (FetchList(st2.fetch) + FetchList(st3.fetch)),
                    st1.replies + (st2.replies + st3.replies)))
  {
    var rest := [e2, e3];
    RunOfTwo(st1.state, e2, e3, st2, st3);
    RunCons(s, e1, rest);
    assert [e1] + rest == [e1, e2, e3];
  }

  /** A run of four enabled events collects the fetches and replies of each step in order. */
  lemma RunOfFour(s: State, e1: Event, e2: Event, e3: Event, e4: Event,
                  st1: StepResult, st2: StepResult, st3: StepResult, st4: StepResult)
    requires Enabled(s, e1) && st1 == Step(s, e1)
    requires Enabled(st1.state, e2) && st2 == Step(st1.state, e2)
    requires Enabled(st2.state, e3) && st3 == Step(st2.state, e3)
    requires Enabled(st3.state, e4) && st4 == Step(st3.state, e4)
    ensures Run(s, [e1, e2, e3, e4])
      == Some(Trace(st4.state,
                    FetchList(st1.fetch) + (FetchList(st2.fetch) + (FetchList(st3.fetch) + FetchList(st4.fetch))),
                    st1.replies + (st2.replies + (st3.replies + st4.replies))))
  {
    RunOfThree(st1.state, e2, e3, e4, st2, st3, st4);
    RunCons(s, e1, [e2, e3, e4]);
    assert [e1] + [e2, e3, e4] == [e1, e2, e3, e4];
  }

  /** A run of four enabled events of which the first two only start fetches and the last two
      only answer requests. */
  lemma RunStartTwoThenAnswer(s: State, e1: Event, e2: Event, e3: Event, e4: Event,
                              st1: StepResult, st2: StepResult, st3: StepResult, st4: StepResult,
                              fetches: seq<FetchOrder>, replies: seq<Reply>)
    requires Enabled(s, e1) && st1 == Step(s, e1)
    requires Enabled(st1.state, e2) && st2 == Step(st1.state, e2)
    requires Enabled(st2.state, e3) && st3 == Step(st2.state, e3)
    requires Enabled(st3.state, e4) && st4 == Step(st3.state, e4)
    requires st1.fetch.Some? && st2.fetch.Some? && fetches == [st1.fetch.value, st2.fetch.value]
    requires st3.fetch.None? && st4.fetch.None?
    requires st1.replies == [] && st2.replies == [] && replies == st3.replies + st4.replies
    ensures Run(s, [e1, e2, e3, e4]) == Some(Trace(st4.state, fetches, replies))
  {
    RunOfFour(s, e1, e2, e3, e4, st1, st2, st3, st4);
    assert FetchList(st3.fetch) + FetchList(st4.fetch) == [];
    assert FetchList(st1.fetch) + (FetchList(st2.fetch) + []) == fetches;
    assert st2.replies + (st3.replies + st4.replies) == replies;
  }

  /** Two misses for the same URL before either fetch completes start two fetches to the same
      normalised URL, with distinct identities: concurrent misses are not coalesced. */
  lemma MissesAreNotCoalesced(s: State, r1: LoadingRequest, r2: LoadingRequest)
    requires Valid(s)
    requires IsMiss(s, r1) && Serviceable(r2) && r2.url == r1.url
    ensures Run(s, [Request(r1), Request(r2)]).Some?
    ensures var t := Run(s, [Request(r1), Request(r2)]).value;
      && t.fetches == [FetchOrder(s.nextFetch, Normalise(r1.url.value)), FetchOrder(s.nextFetch + 1, Normalise(r1.url.value))]
      && t.replies == []
      && t.state.cache == s.cache
  {
    var st1 := Step(s, Request(r1));
    assert IsMiss(st1.state, r2);
    var st2 := Step(st1.state, Request(r2));
    RunOfTwo(s, Request(r1), Request(r2), st1, st2);
  }

  /** A fetch that does not deliver leaves the URL uncached and the request unanswered, so the
      next request for that URL starts a fresh fetch. */
  lemma FailedFetchIsRetried(s: State, req: LoadingRequest, o: Fetch.FetchOutcome, r2: LoadingRequest)
    requires Valid(s)
    requires IsMiss(s, req)
    requires !Fetch.Classify(o).Delivered?
    requires Serviceable(r2) && r2.url == req.url
    ensures Run(s, [Request(req), Completion(s.nextFetch, o), Request(r2)]).Some?
    ensures var t := Run(s, [Request(req), Completion(s.nextFetch, o), Request(r2)]).value;
      && t.fetches == [FetchOrder(s.nextFetch, Normalise(req.url.value)), FetchOrder(s.nextFetch + 1, Normalise(req.url.value))]
      && t.replies == []
      && t.state.cache == s.cache
  {
    var st1 := Step(s, Request(req));
    assert st1.fetch == Some(FetchOrder(s.nextFetch, Normalise(req.url.value))) && st1.replies == [];
    var st2 := Step(st1.state, Completion(s.nextFetch, o));
    assert st2.fetch.None? && st2.replies == [];
    assert IsMiss(st2.state, r2);
    var st3 := Step(st2.state, Request(r2));
    assert st3.fetch == Some(FetchOrder(s.nextFetch + 1, Normalise(req.url.value))) && st3.replies == [];
    RunOfThree(s, Request(req), Completion(s.nextFetch, o), Request(r2), st1, st2, st3);
  }

  /** No outstanding fetch will answer request `x`. */
  predicate NoneWaitsFor(s: State, x: RequestId) {
    forall id :: id in s.inFlight ==> s.inFlight[id].request != x
  }

  /** None of the events hands the delegate loading request `x`. */
  predicate NeverRequested(evs: seq<Event>, x: RequestId) {
    forall i :: 0 <= i < |evs| ==> evs[i].Request? ==> evs[i].req.id != x
  }

  /** A request no outstanding fetch waits for, and that is not handed in again, is never
      answered: no reply of any run addresses it. */
  lemma {:induction false} NeverAnswered(s: State, evs: seq<Event>, x: RequestId)
    requires NoneWaitsFor(s, x) && NeverRequested(evs, x)
    requires Run(s, evs).Some?
    ensures forall i :: 0 <= i < |Run(s, evs).value.replies| ==> Run(s, evs).value.replies[i].request != x
    decreases |evs|
  {
    if |evs| > 0 {
      var st := Step(s, evs[0]);
      assert forall i :: 0 <= i < |st.replies| ==> st.replies[i].request != x;
      assert NoneWaitsFor(st.state, x);
      assert NeverRequested(evs[1..], x) by {
        forall i | 0 <= i < |evs[1..]| ensures evs[1..][i] == evs[i + 1] { }
      }
      NeverAnswered(st.state, evs[1..], x);
    }
  }

  /** After the fetch of a miss fails, no outstanding fetch waits for that request any more, so
      by `NeverAnswered` it stays unanswered for as long as it is not handed in again. */
  lemma FailureAbandonsRequest(s: State, req: LoadingRequest, o: Fetch.FetchOutcome)
    requires Valid(s) && IsMiss(s, req) && NoneWaitsFor(s, req.id)
    requires !Fetch.Classify(o).Delivered?
    ensures Run(s, [Request(req), Completion(s.nextFetch, o)]).Some?
    ensures var t := Run(s, [Request(req), Completion(s.nextFetch, o)]).value;
      && t.replies == []
      && t.state.cache == s.cache
      && t.state.inFlight == s.inFlight
      && NoneWaitsFor(t.state, req.id)
  {
    var st1 := Step(s, Request(req));
    var st2 := Step(st1.state, Completion(s.nextFetch, o));
    assert st2.state.inFlight == s.inFlight;
    RunOfTwo(s, Request(req), Completion(s.nextFetch, o), st1, st2);
  }

  /** Once a fetch delivers, the waiting request is answered from the body, and a later request
      for the same URL is answered from the cache with no further fetch. */
  lemma DeliveryThenHit(s: State, r1: LoadingRequest, o: Fetch.FetchOutcome, r2: LoadingRequest)
    requires Valid(s)
    requires IsMiss(s, r1)
    requires Fetch.Classify(o).Delivered?
    requires Serviceable(r2) && r2.url == r1.url
    requires InBounds(r1.dataRequest.value, |o.data.value|)
    requires InBounds(r2.dataRequest.value, |o.data.value|)
    ensures Run(s, [Request(r1), Completion(s.nextFetch, o), Request(r2)]).Some?
    ensures var t := Run(s, [Request(r1), Completion(s.nextFetch, o), Request(r2)]).value;
      && t.fetches == [FetchOrder(s.nextFetch, Normalise(r1.url.value))]
      && t.state.cache == s.cache[r1.url.value := o.data.value]
      && t.replies
         == FinishRequestWithData(r1.id, r1.wantsContentInfo, r1.dataRequest.value, o.data.value)
          + FinishRequestWithData(r2.id, r2.wantsContentInfo, r2.dataRequest.value, o.data.value)
  {
    var st1 := Step(s, Request(r1));
    assert st1.fetch == Some(FetchOrder(s.nextFetch, Normalise(r1.url.value))) && st1.replies == [];
    var st2 := Step(st1.state, Completion(s.nextFetch, o));
    assert st2.fetch.None?;
    assert st2.replies == FinishRequestWithData(r1.id, r1.wantsContentInfo, r1.dataRequest.value, o.data.value);
    assert IsHit(st2.state, r2);
    var st3 := Step(st2.state, Request(r2));
    assert st3.fetch.None?;
    assert st3.replies == FinishRequestWithData(r2.id, r2.wantsContentInfo, r2.dataRequest.value, o.data.value);
    RunOfThree(s, Request(r1), Completion(s.nextFetch, o), Request(r2), st1, st2, st3);
  }

  /** Handling a miss, stated as the exact step it takes. */
  lemma MissStep(s: State, req: LoadingRequest)
    requires Valid(s)
    requires IsMiss(s, req)
    ensures Enabled(s, Request(req))
    ensures Step(s, Request(req))
         == StepResult(
              s.(inFlight := s.inFlight[s.nextFetch := PendingFor(req)],
                 nextFetch := s.nextFetch + 1),
              Some(FetchOrder(s.nextFetch, Normalise(req.url.value))),
              [])
  {
  }

  /** Completing a fetch that delivers, stated as the exact step it takes. */
  lemma DeliverStep(s: State, id: FetchId, o: Fetch.FetchOutcome)
    requires id in s.inFlight
    requires Fetch.Classify(o).Delivered?
    requires InBounds(s.inFlight[id].dataRequest, |o.data.value|)
    ensures Enabled(s, Completion(id, o))
    ensures var p := s.inFlight[id];
      Step(s, Completion(id, o))
      == StepResult(
           State(s.cache[p.original := o.data.value], s.inFlight - {id}, s.nextFetch),
           None,
           FinishRequestWithData(p.request, p.wantsContentInfo, p.dataRequest, o.data.value))
  {
  }

  /** A loading request for `length` bytes of `url` from `offset`, without content information. */
  function RangeRequest(id: RequestId, url: Url, offset: int, length: int): LoadingRequest {
    LoadingRequest(id, Some(url), Some(DataRequest(offset, length, false)), false)
  }

  /** Requests for `[0, split)` and for the rest of `url`, then the completions of the two fetches
      they start (numbered from `n`), both with outcome `o`. */
  function BackToBack(n: FetchId, url: Url, split: int, o: Fetch.FetchOutcome, id1: RequestId, id2: RequestId): seq<Event>
    requires o.data.Some?
  {
    [Request(RangeRequest(id1, url, 0, split)), Request(RangeRequest(id2, url, split, |o.data.value| - split)),
     Completion(n, o), Completion(n + 1, o)]
  }

  /** The first two steps of `BackToBack`: two misses, each starting a fetch. */
  lemma BackToBackMisses(s: State, url: Url, r1: LoadingRequest, r2: LoadingRequest)
    returns (st1: StepResult, st2: StepResult)
    requires Valid(s) && url !in s.cache
    requires Serviceable(r1) && Serviceable(r2) && r1.url == Some(url) && r2.url == Some(url)
    ensures Enabled(s, Request(r1)) && st1 == Step(s, Request(r1))
    ensures Enabled(st1.state, Request(r2)) && st2 == Step(st1.state, Request(r2))
    ensures st1.fetch == Some(FetchOrder(s.nextFetch, Normalise(url))) && st1.replies == []
    ensures st2.fetch == Some(FetchOrder(s.nextFetch + 1, Normalise(url))) && st2.replies == []
    ensures st2.state
      == State(s.cache, s.inFlight[s.nextFetch := PendingFor(r1)][s.nextFetch + 1 := PendingFor(r2)], s.nextFetch + 2)
  {
    MissStep(s, r1);
    st1 := Step(s, Request(r1));
    MissStep(st1.state, r2);
    st2 := Step(st1.state, Request(r2));
  }

  /** The last two steps of `BackToBack`: both fetches deliver the body, and each waiting request
      gets its own slice. */
  lemma BackToBackDeliveries(s: State, n: FetchId, url: Url, split: int, o: Fetch.FetchOutcome, id1: RequestId, id2: RequestId)
    returns (st3: StepResult, st4: StepResult)
    requires Fetch.Classify(o).Delivered?
    requires 0 <= split <= |o.data.value|
    requires n in s.inFlight && s.inFlight[n] == PendingFetch(url, id1, false, DataRequest(0, split, false))
    requires n + 1 in s.inFlight
    requires s.inFlight[n + 1] == PendingFetch(url, id2, false, DataRequest(split, |o.data.value| - split, false))
    ensures Enabled(s, Completion(n, o)) && st3 == Step(s, Completion(n, o))
    ensures Enabled(st3.state, Completion(n + 1, o)) && st4 == Step(st3.state, Completion(n + 1, o))
    ensures st3.fetch.None? && st4.fetch.None?
    ensures st3.replies == [Responded(id1, o.data.value[..split]), Finished(id1)]
    ensures st4.replies == [Responded(id2, o.data.value[split..]), Finished(id2)]
    ensures st4.state.cache == s.cache[url := o.data.value]
  {
    var body := o.data.value;
    DeliverStep(s, n, o);
    st3 := Step(s, Completion(n, o));
    assert ResponseBody(DataRequest(0, split, false), body) == body[..split];
    assert st3.state.inFlight[n + 1] == s.inFlight[n + 1];
    DeliverStep(st3.state, n + 1, o);
    st4 := Step(st3.state, Completion(n + 1, o));
    assert ResponseBody(DataRequest(split, |body| - split, false), body) == body[split..];
  }

  /** Two ranged requests splitting a resource, issued back to back before anything is cached:
      two fetches start, and when both deliver the same body each request is answered with its
      own slice, the two slices making up the whole body. */
  lemma BackToBackRangedRequests(s: State, url: Url, split: int, o: Fetch.FetchOutcome, id1: RequestId, id2: RequestId)
    requires Valid(s)
    requires url !in s.cache
    requires Fetch.Classify(o).Delivered?
    requires 0 <= split <= |o.data.value|
    ensures Run(s, BackToBack(s.nextFetch, url, split, o, id1, id2)).Some?
    ensures var t := Run(s, BackToBack(s.nextFetch, url, split, o, id1, id2)).value;
      var body := o.data.value;
      && t.fetches == [FetchOrder(s.nextFetch, Normalise(url)), FetchOrder(s.nextFetch + 1, Normalise(url))]
      && t.replies == [Responded(id1, body[..split]), Finished(id1), Responded(id2, body[split..]), Finished(id2)]
      && t.state.cache == s.cache[url := body]
  {
    var n, body := s.nextFetch, o.data.value;
    var r1 := RangeRequest(id1, url, 0, split);
    var r2 := RangeRequest(id2, url, split, |body| - split);
    var evs := [Request(r1), Request(r2), Completion(n, o), Completion(n + 1, o)];
    assert BackToBack(n, url, split, o, id1, id2) == evs;
    var fetches := [FetchOrder(n, Normalise(url)), FetchOrder(n + 1, Normalise(url))];
    var replies := [Responded(id1, body[..split]), Finished(id1), Responded(id2, body[split..]), Finished(id2)];
    var st1, st2 := BackToBackMisses(s, url, r1, r2);
    var st3, st4 := BackToBackDeliveries(st2.state, n, url, split, o, id1, id2);
    RunStartTwoThenAnswer(s, evs[0], evs[1], evs[2], evs[3], st1, st2, st3, st4, fetches, replies);
    assert evs == [evs[0], evs[1], evs[2], evs[3]];
  }
}
