/**
 * The page/retry controller of `fetch_reviews` (olive_scraper.py, news.py) as
 * a specification. HTTP is an oracle: `server(page, attempt)` is what the
 * `attempt`-th GET of `pageIdx=page` produces, and `stop(checkpoint)` is what
 * the cancellation callback answers at that checkpoint. The run is the
 * outcome together with the requests issued and the waits taken, in order.
 */
module Pagination {
  import opened Py

  /** `max_retries` */
  const MaxRetries: nat := 3

  /** What a completed GET gives: status, `Content-Type` ('' when absent), body text, and `response.json()` (None when it raises JSONDecodeError). */
  datatype Response = Response(status: int, contentType: string, text: string, body: Option<Json>)

  /** One `session.get`: it raises, or it answers. */
  datatype Attempt = Failed | Answered(response: Response)

  /** The places where the cancellation callback is consulted. */
  datatype Checkpoint = PageStart(page: int) | BeforeAttempt(page: int, attempt: nat)

  /** The `time.sleep` calls, by the reason the code sleeps. */
  datatype Pause =
    | RetryPause      // after a non-200 answer
    | ErrorPause      // after a GET that raised
    | PagePause       // after every page's attempts
    | RateLimited     // 429 after the attempts
    | Forbidden       // 403 after the attempts
    | SoftBlockPause  // an HTML page instead of JSON
    | DecodePause     // a body that is not JSON

  datatype Event = Get(page: int, attempt: nat) | Wait(pause: Pause)

  /** `fetch_reviews` returns its list, or a TypeError escapes from it. */
  datatype Outcome = Returned(reviews: seq<Json>) | Raised(error: PyError)

  datatype Run = Run(outcome: Outcome, events: seq<Event>)

  /** The attempt loop of one page: cancelled (`return []`), the last response kept, and what happened. */
  datatype Tries = Tries(cancelled: bool, last: Option<Response>, events: seq<Event>)

  /** What the rest of a loop iteration does with a page once its attempts are over. */
  datatype Verdict =
    | Skip(pause: Option<Pause>)  // `continue` to the next page, after this extra wait if any
    | Keep(items: seq<Json>)   // `extend` with a non-empty page and go on
    | Halt                     // `break`: the list so far is returned
    | Abort                    // `return []`
    | Crash                    // a TypeError propagates

  type Server = (int, nat) -> Attempt
  type StopCheck = Checkpoint -> bool
  /** The checks that decide what happens to a page once its attempts are over. */
  type Judge = (int, Option<Response>) -> Verdict

  /** The callback of news.py's variant, and of a call without one: never cancel. */
  function NeverStop(c: Checkpoint): bool {
    false
  }

  predicate IsOk(a: Attempt) {
    a.Answered? && a.response.status == 200
  }

  function ThenTries(events: seq<Event>, t: Tries): Tries {
    Tries(t.cancelled, t.last, events + t.events)
  }

  function PauseEvents(pause: Option<Pause>): seq<Event> {
    if pause.Some? then [Wait(pause.value)] else []
  }

  function Then(events: seq<Event>, r: Run): Run {
    Run(r.outcome, events + r.events)
  }

  /**
   * `while retry < max_retries`: from attempt `retry` on, with `last` the
   * response kept so far. A 200 ends the loop; a non-200 answer is kept and
   * retried after a pause; a GET that raises leaves the kept response as it was.
   */
  function Attempts(server: Server, stop: StopCheck, page: int, retry: nat, last: Option<Response>): Tries
    decreases MaxRetries - retry
  {
    if retry >= MaxRetries then Tries(false, last, [])
    else if stop(BeforeAttempt(page, retry)) then Tries(true, last, [])
    else if IsOk(server(page, retry)) then Tries(false, Some(server(page, retry).response), [Get(page, retry)])
    else ThenTries([Get(page, retry), Wait(PauseAfter(server(page, retry)))],
                   Attempts(server, stop, page, retry + 1, Remember(server(page, retry), last)))
  }

  /** A GET that raised keeps the earlier response; one that answered replaces it. */
  function Remember(a: Attempt, last: Option<Response>): Option<Response> {
    if a.Answered? then Some(a.response) else last
  }

  /** The pause before the next attempt. */
  function PauseAfter(a: Attempt): Pause {
    if a.Failed? then ErrorPause else RetryPause
  }

  /** `'gdasList' in data`: a dict key, a list element, a substring; other values raise TypeError. */
  function HasKey(data: Json, key: string): Result<bool, PyError> {
    match data
    case Obj(_, fields) => Success(key in fields)
    case Arr(items) => Success(Str(key) in items)
    case Str(s) => Success(Contains(s, key))
    case _ => Failure(TypeError)
  }

  /** A non-JSON content type with an HTML body: a login or captcha page. */
  predicate SoftBlocked(r: Response) {
    !Contains(Lower(r.contentType), "json") && Contains(Lower(r.text), "<html")
  }

  /** The checks after the attempt loop, for the response it kept. */
  function Classify(page: int, last: Option<Response>): Verdict {
    if last.None? || last.value.status != 200 then
      Skip(FailurePause(last))
    else if SoftBlocked(last.value) then
      if page == 1 then Abort else Skip(Some(SoftBlockPause))
    else if last.value.body.None? then
      if page <= 3 then Abort else Skip(Some(DecodePause))
    else
      PageList(last.value.body.value)
  }

  /**
   * The decoded body: no `gdasList` stops the loop; `data['gdasList']` needs a
   * dict, `extend` an iterable; an empty list stops the loop as well.
   */
  function PageList(data: Json): Verdict {
    match HasKey(data, "gdasList")
    case Failure(_) => Crash
    case Success(found) =>
      if !found then Halt
      else if !data.Obj? then Crash
      else match Iterate(data.fields["gdasList"])
        case None => Crash
        case Some(items) => if items == [] then Halt else Keep(items)
  }

  /** `for page in range(page, total + 1)` with `all_reviews == acc` on entry. */
  function FetchFrom(server: Server, stop: StopCheck, judge: Judge, page: int, total: int, acc: seq<Json>): Run
    decreases total + 1 - page
  {
    if page > total || stop(PageStart(page)) then Run(Returned(acc), [])
    else
      var tries := Attempts(server, stop, page, 0, None);
      if tries.cancelled then Run(Returned([]), tries.events)
      else
        var seen := tries.events + [Wait(PagePause)];
        match judge(page, tries.last)
        case Skip(pause) => Then(seen + PauseEvents(pause), FetchFrom(server, stop, judge, page + 1, total, acc))
        case Keep(items) => Then(seen, FetchFrom(server, stop, judge, page + 1, total, acc + items))
        case Halt => Run(Returned(acc), seen)
        case Abort => Run(Returned([]), seen)
        case Crash => Run(Raised(TypeError), seen)
  }

  /** `fetch_reviews(..., total_pages)` */
  function Fetch(server: Server, stop: StopCheck, total: int): Run {
    FetchFrom(server, stop, Classify, 1, total, [])
  }

  // ------------------------------------------------------ a reference

  /** A page after which the loop goes on to the next one. */
  predicate Continues(server: Server, stop: StopCheck, judge: Judge, page: int) {
    && !stop(PageStart(page))
    && !Attempts(server, stop, page, 0, None).cancelled
    && (judge(page, Attempts(server, stop, page, 0, None).last).Skip? ||
        judge(page, Attempts(server, stop, page, 0, None).last).Keep?)
  }

  /** The reviews a page contributes: its `gdasList` when it is kept, else nothing. */
  function PageItems(server: Server, stop: StopCheck, judge: Judge, page: int): seq<Json> {
    var v := judge(page, Attempts(server, stop, page, 0, None).last);
    if v.Keep? then v.items else []
  }

  /** The pages `from .. to - 1`'s contributions, concatenated in page order. */
  function Harvest(server: Server, stop: StopCheck, judge: Judge, from: int, to: int): seq<Json>
    decreases to - from
  {
    if from >= to then [] else PageItems(server, stop, judge, from) + Harvest(server, stop, judge, from + 1, to)
  }

  /** The waits a continuing page adds after the page pause. */
  function PageWaits(server: Server, stop: StopCheck, judge: Judge, page: int): seq<Event> {
    var v := judge(page, Attempts(server, stop, page, 0, None).last);
    [Wait(PagePause)] + if v.Skip? then PauseEvents(v.pause) else []
  }

  /** One iteration of a page that continues, unfolded. */
  lemma FetchContinues(server: Server, stop: StopCheck, judge: Judge, page: int, total: int, acc: seq<Json>)
    requires page <= total && Continues(server, stop, judge, page)
    ensures var run := FetchFrom(server, stop, judge, page, total, acc);
            var rest := FetchFrom(server, stop, judge, page + 1, total, acc + PageItems(server, stop, judge, page));
            && run.outcome == rest.outcome
            && run.events == Attempts(server, stop, page, 0, None).events + PageWaits(server, stop, judge, page) + rest.events
  {
    var tries := Attempts(server, stop, page, 0, None);
    var v := judge(page, tries.last);
    if v.Skip? {
      assert acc + [] == acc;
      assert tries.events + [Wait(PagePause)] + PauseEvents(v.pause) == tries.events + PageWaits(server, stop, judge, page);
    } else {
      assert tries.events + [Wait(PagePause)] == tries.events + PageWaits(server, stop, judge, page);
    }
  }

  /** One iteration of a page that ends the loop, unfolded. */
  lemma FetchEnds(server: Server, stop: StopCheck, judge: Judge, page: int, total: int, acc: seq<Json>)
    requires page <= total && !stop(PageStart(page)) && !Continues(server, stop, judge, page)
    ensures var tries := Attempts(server, stop, page, 0, None);
            var run := FetchFrom(server, stop, judge, page, total, acc);
            && run.events == tries.events + (if tries.cancelled then [] else [Wait(PagePause)])
            && run.outcome == (if tries.cancelled then Returned([]) else Ending(judge(page, tries.last), acc))
  {
  }

  /**
   * What the run returns when page `q` is the first that does not continue
   * and `gathered` is the list built before it: a cancellation at the top of
   * `q`, or running past the last page, keeps the list; a cancellation inside
   * its attempt loop discards it; otherwise `q`'s verdict decides.
   */
  function EndOfRun(server: Server, stop: StopCheck, judge: Judge, q: int, total: int, gathered: seq<Json>): Outcome {
    if q > total || stop(PageStart(q)) then Returned(gathered)
    else
      var tries := Attempts(server, stop, q, 0, None);
      if tries.cancelled then Returned([]) else Ending(judge(q, tries.last), gathered)
  }

  /** The first page from `page` on that does not continue, or `total + 1`. */
  function FirstEnd(server: Server, stop: StopCheck, judge: Judge, page: int, total: int): int
    decreases total + 1 - page
  {
    if page > total || !Continues(server, stop, judge, page) then page
    else FirstEnd(server, stop, judge, page + 1, total)
  }

  /** `FirstEnd` lies between `page` and `total + 1`, and the page it names does not continue. */
  lemma {:induction false} FirstEndBounds(server: Server, stop: StopCheck, judge: Judge, page: int, total: int)
    requires page <= total + 1
    ensures var q := FirstEnd(server, stop, judge, page, total);
            page <= q <= total + 1 && (q <= total ==> !Continues(server, stop, judge, q))
    decreases total + 1 - page
  {
    if page <= total && Continues(server, stop, judge, page) {
      FirstEndBounds(server, stop, judge, page + 1, total);
    }
  }

  /** Every page before `FirstEnd` continues, so `FirstEnd` is the first page that does not. */
  lemma {:induction false} FirstEndIsFirst(server: Server, stop: StopCheck, judge: Judge, page: int, total: int)
    ensures forall p :: page <= p < FirstEnd(server, stop, judge, page, total) ==> Continues(server, stop, judge, p)
    decreases total + 1 - page
  {
    if page <= total && Continues(server, stop, judge, page) {
      FirstEndIsFirst(server, stop, judge, page + 1, total);
    }
  }

  /**
   * The loop runs up to the first page that does not continue. The reviews
   * of the pages before it are returned in page order, unless that page ends
   * the run with `return []` or a TypeError.
   */
  lemma {:induction false} FetchOutcome(server: Server, stop: StopCheck, judge: Judge, page: int, total: int, acc: seq<Json>)
    ensures var q := FirstEnd(server, stop, judge, page, total);
            FetchFrom(server, stop, judge, page, total, acc).outcome ==
            EndOfRun(server, stop, judge, q, total, acc + Harvest(server, stop, judge, page, q))
    decreases total + 1 - page
  {
    if page <= total && Continues(server, stop, judge, page) {
      FetchOutcome(server, stop, judge, page + 1, total, acc + PageItems(server, stop, judge, page));
      HarvestStep(server, stop, judge, page, total, acc);
    } else {
      LastPage(server, stop, judge, page, total, acc);
    }
  }

  /** A continuing page passes the run on to the next with its items appended. */
  lemma HarvestStep(server: Server, stop: StopCheck, judge: Judge, page: int, total: int, acc: seq<Json>)
    requires page <= total && Continues(server, stop, judge, page)
    ensures var q := FirstEnd(server, stop, judge, page, total);
            && q == FirstEnd(server, stop, judge, page + 1, total)
            && FetchFrom(server, stop, judge, page, total, acc).outcome ==
               FetchFrom(server, stop, judge, page + 1, total, acc + PageItems(server, stop, judge, page)).outcome
            && acc + PageItems(server, stop, judge, page) + Harvest(server, stop, judge, page + 1, q) == acc + Harvest(server, stop, judge, page, q)
  {
    FetchContinues(server, stop, judge, page, total, acc);
    FirstEndBounds(server, stop, judge, page + 1, total);
    HarvestUnfold(server, stop, judge, page, FirstEnd(server, stop, judge, page, total), acc);
  }

  lemma HarvestUnfold(server: Server, stop: StopCheck, judge: Judge, page: int, q: int, acc: seq<Json>)
    requires page < q
    ensures acc + PageItems(server, stop, judge, page) + Harvest(server, stop, judge, page + 1, q) == acc + Harvest(server, stop, judge, page, q)
  {
    var items := PageItems(server, stop, judge, page);
    var rest := Harvest(server, stop, judge, page + 1, q);
    assert Harvest(server, stop, judge, page, q) == items + rest;
    assert acc + items + rest == acc + (items + rest);
  }

  /** The page that ends the run decides its outcome from the list built so far. */
  lemma LastPage(server: Server, stop: StopCheck, judge: Judge, q: int, total: int, acc: seq<Json>)
    requires q > total || !Continues(server, stop, judge, q)
    ensures FirstEnd(server, stop, judge, q, total) == q
    ensures FetchFrom(server, stop, judge, q, total, acc).outcome ==
            EndOfRun(server, stop, judge, q, total, acc + Harvest(server, stop, judge, q, q))
  {
    assert acc + Harvest(server, stop, judge, q, q) == acc;
    if q <= total && !stop(PageStart(q)) {
      FetchEnds(server, stop, judge, q, total, acc);
    }
  }

  /** No request in `events` is for a page after `q`. */
  predicate RequestsUpTo(events: seq<Event>, q: int) {
    forall e :: e in events && e.Get? ==> e.page <= q
  }

  /** No page after the first one that does not continue is ever requested. */
  lemma {:induction false} FetchStopsAt(server: Server, stop: StopCheck, judge: Judge, page: int, total: int, acc: seq<Json>)
    ensures RequestsUpTo(FetchFrom(server, stop, judge, page, total, acc).events, FirstEnd(server, stop, judge, page, total))
    decreases total + 1 - page
  {
    if page <= total && Continues(server, stop, judge, page) {
      FetchStopsAt(server, stop, judge, page + 1, total, acc + PageItems(server, stop, judge, page));
      RequestsStep(server, stop, judge, page, total, acc);
    } else {
      LastRequests(server, stop, judge, page, total, acc);
    }
  }

  /** A continuing page requests only itself before handing over to the next page. */
  lemma RequestsStep(server: Server, stop: StopCheck, judge: Judge, page: int, total: int, acc: seq<Json>)
    requires page <= total && Continues(server, stop, judge, page)
    requires RequestsUpTo(FetchFrom(server, stop, judge, page + 1, total, acc + PageItems(server, stop, judge, page)).events,
                          FirstEnd(server, stop, judge, page + 1, total))
    ensures RequestsUpTo(FetchFrom(server, stop, judge, page, total, acc).events, FirstEnd(server, stop, judge, page, total))
  {
    AttemptsRange(server, stop, page, 0, None);
    FetchContinues(server, stop, judge, page, total, acc);
    PauseWaits(server, stop, judge, page);
    FirstEndBounds(server, stop, judge, page + 1, total);
  }

  /** The page that ends the run requests nothing after itself. */
  lemma LastRequests(server: Server, stop: StopCheck, judge: Judge, q: int, total: int, acc: seq<Json>)
    requires q > total || !Continues(server, stop, judge, q)
    ensures RequestsUpTo(FetchFrom(server, stop, judge, q, total, acc).events, FirstEnd(server, stop, judge, q, total))
  {
    if q <= total && !stop(PageStart(q)) {
      AttemptsRange(server, stop, q, 0, None);
      FetchEnds(server, stop, judge, q, total, acc);
    }
  }

  /** The outcome of a page that ends the loop, given the list gathered before it. */
  function Ending(v: Verdict, gathered: seq<Json>): Outcome {
    match v
    case Abort => Returned([])
    case Crash => Raised(TypeError)
    case _ => Returned(gathered)
  }

  // --------------------------------------------------- the attempt loop

  /** Every GET of a page's attempt loop is for that page, numbered from `retry` and below the bound. */
  lemma {:induction false} AttemptsRange(server: Server, stop: StopCheck, page: int, retry: nat, last: Option<Response>)
    ensures forall e :: e in Attempts(server, stop, page, retry, last).events && e.Get? ==>
              e.page == page && retry <= e.attempt < MaxRetries
    decreases MaxRetries - retry
  {
    if retry < MaxRetries && !stop(BeforeAttempt(page, retry)) && !IsOk(server(page, retry)) {
      AttemptsRange(server, stop, page, retry + 1, Remember(server(page, retry), last));
    }
  }

  /** Attempts are numbered without gaps: attempt `k` was preceded by attempts `retry .. k - 1`. */
  lemma {:induction false} AttemptsConsecutive(server: Server, stop: StopCheck, page: int, retry: nat, last: Option<Response>, k: nat, j: nat)
    requires retry <= j < k
    ensures Get(page, k) in Attempts(server, stop, page, retry, last).events ==>
            Get(page, j) in Attempts(server, stop, page, retry, last).events
    decreases MaxRetries - retry
  {
    if retry < MaxRetries && !stop(BeforeAttempt(page, retry)) && !IsOk(server(page, retry)) && retry < j {
      AttemptsConsecutive(server, stop, page, retry + 1, Remember(server(page, retry), last), k, j);
    }
  }

  /** The loop exits on the first 200: no attempt follows one that got it. */
  lemma {:induction false} AttemptsStopAtOk(server: Server, stop: StopCheck, page: int, retry: nat, last: Option<Response>, k: nat, j: nat)
    requires k < j
    ensures Get(page, k) in Attempts(server, stop, page, retry, last).events && IsOk(server(page, k)) ==>
            Get(page, j) !in Attempts(server, stop, page, retry, last).events
    decreases MaxRetries - retry
  {
    if retry < MaxRetries && !stop(BeforeAttempt(page, retry)) && !IsOk(server(page, retry)) {
      var next := Remember(server(page, retry), last);
      AttemptsStopAtOk(server, stop, page, retry + 1, next, k, j);
      AttemptsRange(server, stop, page, retry + 1, next);
    }
  }

  /** Unless cancelled, a page whose kept response is missing or not 200 used every attempt. */
  lemma {:induction false} AttemptsExhausted(server: Server, stop: StopCheck, page: int, retry: nat, last: Option<Response>, j: nat)
    requires retry <= j < MaxRetries
    ensures var t := Attempts(server, stop, page, retry, last);
            !t.cancelled && (t.last.None? || t.last.value.status != 200) ==> Get(page, j) in t.events
    decreases MaxRetries - retry
  {
    if retry < MaxRetries && !stop(BeforeAttempt(page, retry)) && !IsOk(server(page, retry)) && retry < j {
      AttemptsExhausted(server, stop, page, retry + 1, Remember(server(page, retry), last), j);
    }
  }

  /** A 200 kept by the loop is the answer to one of its GETs. */
  lemma {:induction false} OkFromServer(server: Server, stop: StopCheck, page: int, retry: nat, last: Option<Response>)
    requires last.None? || last.value.status != 200
    ensures var t := Attempts(server, stop, page, retry, last);
            t.last.Some? && t.last.value.status == 200 ==>
              exists k :: Get(page, k) in t.events && server(page, k) == Answered(t.last.value)
    decreases MaxRetries - retry
  {
    if retry < MaxRetries && !stop(BeforeAttempt(page, retry)) {
      var t := Attempts(server, stop, page, retry, last);
      if IsOk(server(page, retry)) {
        assert Get(page, retry) in t.events;
      } else {
        var rest := Attempts(server, stop, page, retry + 1, Remember(server(page, retry), last));
        OkFromServer(server, stop, page, retry + 1, Remember(server(page, retry), last));
        if t.last.Some? && t.last.value.status == 200 {
          var k :| Get(page, k) in rest.events && server(page, k) == Answered(t.last.value);
          assert Get(page, k) in t.events;
        }
      }
    }
  }

  // --------------------------------------------------- request order

  /** Two requests in the order `(page, attempt)`. */
  predicate Precedes(a: Event, b: Event)
    requires a.Get? && b.Get?
  {
    a.page < b.page || (a.page == b.page && a.attempt < b.attempt)
  }

  /** The GETs of a trace are in strictly increasing `(page, attempt)` order. */
  predicate RequestsOrdered(events: seq<Event>) {
    forall i, j :: 0 <= i < j < |events| && events[i].Get? && events[j].Get? ==> Precedes(events[i], events[j])
  }

  lemma OrderedJoin(a: seq<Event>, b: seq<Event>)
    requires RequestsOrdered(a) && RequestsOrdered(b)
    requires forall x, y :: x in a && y in b && x.Get? && y.Get? ==> Precedes(x, y)
    ensures RequestsOrdered(a + b)
  {
    forall i, j | 0 <= i < j < |a + b| && (a + b)[i].Get? && (a + b)[j].Get?
      ensures Precedes((a + b)[i], (a + b)[j])
    {
      if j < |a| {
        assert (a + b)[i] == a[i] && (a + b)[j] == a[j];
      } else if i >= |a| {
        assert (a + b)[i] == b[i - |a|] && (a + b)[j] == b[j - |a|];
      } else {
        assert (a + b)[i] in a && (a + b)[j] in b;
      }
    }
  }

  lemma {:induction false} AttemptsOrdered(server: Server, stop: StopCheck, page: int, retry: nat, last: Option<Response>)
    ensures RequestsOrdered(Attempts(server, stop, page, retry, last).events)
    decreases MaxRetries - retry
  {
    if retry < MaxRetries && !stop(BeforeAttempt(page, retry)) && !IsOk(server(page, retry)) {
      var next := Remember(server(page, retry), last);
      AttemptsOrdered(server, stop, page, retry + 1, next);
      AttemptsRange(server, stop, page, retry + 1, next);
      OrderedJoin([Get(page, retry), Wait(PauseAfter(server(page, retry)))], Attempts(server, stop, page, retry + 1, next).events);
    }
  }

  /** Every request in `events` is for a page in `lo .. hi`, with an attempt below the bound. */
  predicate RequestsWithin(events: seq<Event>, lo: int, hi: int) {
    forall e :: e in events && e.Get? ==> lo <= e.page <= hi && e.attempt < MaxRetries
  }

  /** Only pages `page .. total` are requested, each with attempts below the bound. */
  lemma {:induction false} FetchRange(server: Server, stop: StopCheck, judge: Judge, page: int, total: int, acc: seq<Json>)
    ensures RequestsWithin(FetchFrom(server, stop, judge, page, total, acc).events, page, total)
    decreases total + 1 - page
  {
    if page <= total && Continues(server, stop, judge, page) {
      FetchRange(server, stop, judge, page + 1, total, acc + PageItems(server, stop, judge, page));
      RangeStep(server, stop, judge, page, total, acc);
    } else if page <= total && !stop(PageStart(page)) {
      AttemptsRange(server, stop, page, 0, None);
      FetchEnds(server, stop, judge, page, total, acc);
    }
  }

  lemma RangeStep(server: Server, stop: StopCheck, judge: Judge, page: int, total: int, acc: seq<Json>)
    requires page <= total && Continues(server, stop, judge, page)
    requires RequestsWithin(FetchFrom(server, stop, judge, page + 1, total, acc + PageItems(server, stop, judge, page)).events, page + 1, total)
    ensures RequestsWithin(FetchFrom(server, stop, judge, page, total, acc).events, page, total)
  {
    AttemptsRange(server, stop, page, 0, None);
    FetchContinues(server, stop, judge, page, total, acc);
    PauseWaits(server, stop, judge, page);
  }

  /** Requests go out in increasing page order, and by attempt within a page. */
  lemma {:induction false} FetchOrdered(server: Server, stop: StopCheck, judge: Judge, page: int, total: int, acc: seq<Json>)
    ensures RequestsOrdered(FetchFrom(server, stop, judge, page, total, acc).events)
    decreases total + 1 - page
  {
    if page <= total && Continues(server, stop, judge, page) {
      var next := acc + PageItems(server, stop, judge, page);
      FetchOrdered(server, stop, judge, page + 1, total, next);
      FetchRange(server, stop, judge, page + 1, total, next);
      OrderedStep(server, stop, judge, page, total, acc);
    } else if page <= total && !stop(PageStart(page)) {
      var tries := Attempts(server, stop, page, 0, None);
      AttemptsOrdered(server, stop, page, 0, None);
      FetchEnds(server, stop, judge, page, total, acc);
      OrderedJoin(tries.events, if tries.cancelled then [] else [Wait(PagePause)]);
    }
  }

  /** A continuing page's requests come before the next page's, which are ordered. */
  lemma OrderedStep(server: Server, stop: StopCheck, judge: Judge, page: int, total: int, acc: seq<Json>)
    requires page <= total && Continues(server, stop, judge, page)
    requires var rest := FetchFrom(server, stop, judge, page + 1, total, acc + PageItems(server, stop, judge, page)).events;
             RequestsOrdered(rest) && RequestsWithin(rest, page + 1, total)
    ensures RequestsOrdered(FetchFrom(server, stop, judge, page, total, acc).events)
  {
    AttemptsOrdered(server, stop, page, 0, None);
    AttemptsRange(server, stop, page, 0, None);
    PauseWaits(server, stop, judge, page);
    FetchContinues(server, stop, judge, page, total, acc);
    OrderedPages(Attempts(server, stop, page, 0, None).events, PageWaits(server, stop, judge, page),
                 FetchFrom(server, stop, judge, page + 1, total, acc + PageItems(server, stop, judge, page)).events, page, total);
  }

  /** One page's ordered requests, some waits, then ordered requests for later pages: all in order. */
  lemma OrderedPages(a: seq<Event>, w: seq<Event>, b: seq<Event>, page: int, hi: int)
    requires RequestsOrdered(a) && forall e :: e in a && e.Get? ==> e.page == page
    requires forall e :: e in w ==> e.Wait?
    requires RequestsOrdered(b) && RequestsWithin(b, page + 1, hi)
    ensures RequestsOrdered(a + w + b)
  {
    assert RequestsOrdered(w) by {
      forall i | 0 <= i < |w| ensures w[i].Wait? {
        assert w[i] in w;
      }
    }
    OrderedJoin(a, w);
    OrderedJoin(a + w, b);
  }

  /** The waits of a page are waits, not requests. */
  lemma PauseWaits(server: Server, stop: StopCheck, judge: Judge, page: int)
    ensures forall e :: e in PageWaits(server, stop, judge, page) ==> e.Wait?
  {
  }

  /** One failed attempt moves its request and its pause into the trace. */
  lemma AttemptStep(server: Server, stop: StopCheck, page: int, retry: nat, last: Option<Response>, events: seq<Event>)
    requires retry < MaxRetries && !stop(BeforeAttempt(page, retry))
    ensures !IsOk(server(page, retry)) ==>
              ThenTries(events, Attempts(server, stop, page, retry, last)) ==
              ThenTries(events + [Get(page, retry)] + [Wait(PauseAfter(server(page, retry)))],
                        Attempts(server, stop, page, retry + 1, Remember(server(page, retry), last)))
    ensures IsOk(server(page, retry)) ==>
              ThenTries(events, Attempts(server, stop, page, retry, last)) ==
              Tries(false, Some(server(page, retry).response), events + [Get(page, retry)])
  {
    var rest := Attempts(server, stop, page, retry + 1, Remember(server(page, retry), last));
    assert events + ([Get(page, retry), Wait(PauseAfter(server(page, retry)))] + rest.events) ==
           events + [Get(page, retry)] + [Wait(PauseAfter(server(page, retry)))] + rest.events;
  }

  /** A cancellation inside the attempt loop ends the run with an empty list. */
  lemma CancelledPage(server: Server, stop: StopCheck, judge: Judge, page: int, total: int, acc: seq<Json>, events: seq<Event>)
    requires page <= total && !stop(PageStart(page))
    requires Attempts(server, stop, page, 0, None).cancelled
    ensures Then(events, FetchFrom(server, stop, judge, page, total, acc)) ==
            Run(Returned([]), events + Attempts(server, stop, page, 0, None).events)
  {
  }
  /** What the rest of the run is after a page's attempts, by the page's verdict. */
  lemma AfterAttempts(server: Server, stop: StopCheck, judge: Judge, page: int, total: int, acc: seq<Json>, events: seq<Event>, verdict: Verdict)
    requires page <= total && !stop(PageStart(page)) && !Attempts(server, stop, page, 0, None).cancelled
    requires verdict == judge(page, Attempts(server, stop, page, 0, None).last)
    ensures var seen := events + Attempts(server, stop, page, 0, None).events + [Wait(PagePause)];
            && (verdict.Skip? ==> Then(events, FetchFrom(server, stop, judge, page, total, acc)) ==
                                  Then(seen + PauseEvents(verdict.pause), FetchFrom(server, stop, judge, page + 1, total, acc)))
            && (verdict.Keep? ==> Then(events, FetchFrom(server, stop, judge, page, total, acc)) ==
                                  Then(seen, FetchFrom(server, stop, judge, page + 1, total, acc + verdict.items)))
            && (!verdict.Skip? && !verdict.Keep? ==>
                  Then(events, FetchFrom(server, stop, judge, page, total, acc)) == Run(Ending(verdict, acc), seen))
  {
    if verdict.Skip? {
      SkipStep(server, stop, judge, page, total, acc, events, verdict.pause);
    } else if verdict.Keep? {
      KeepStep(server, stop, judge, page, total, acc, events, verdict.items);
    } else {
      EndStep(server, stop, judge, page, total, acc, events);
    }
  }

  /** A skipped page adds its attempts, the page pause and its waits, and leaves the list alone. */
  lemma SkipStep(server: Server, stop: StopCheck, judge: Judge, page: int, total: int, acc: seq<Json>, events: seq<Event>, pause: Option<Pause>)
    requires page <= total && !stop(PageStart(page)) && !Attempts(server, stop, page, 0, None).cancelled
    requires judge(page, Attempts(server, stop, page, 0, None).last) == Skip(pause)
    ensures Then(events, FetchFrom(server, stop, judge, page, total, acc)) ==
            Then(events + Attempts(server, stop, page, 0, None).events + [Wait(PagePause)] + PauseEvents(pause),
                 FetchFrom(server, stop, judge, page + 1, total, acc))
  {
    var tries := Attempts(server, stop, page, 0, None);
    var rest := FetchFrom(server, stop, judge, page + 1, total, acc);
    assert events + (tries.events + [Wait(PagePause)] + PauseEvents(pause) + rest.events) ==
           events + tries.events + [Wait(PagePause)] + PauseEvents(pause) + rest.events;
  }

  /** A kept page adds its attempts and the page pause, and extends the list with its items. */
  lemma KeepStep(server: Server, stop: StopCheck, judge: Judge, page: int, total: int, acc: seq<Json>, events: seq<Event>, items: seq<Json>)
    requires page <= total && !stop(PageStart(page)) && !Attempts(server, stop, page, 0, None).cancelled
    requires judge(page, Attempts(server, stop, page, 0, None).last) == Keep(items)
    ensures Then(events, FetchFrom(server, stop, judge, page, total, acc)) ==
            Then(events + Attempts(server, stop, page, 0, None).events + [Wait(PagePause)],
                 FetchFrom(server, stop, judge, page + 1, total, acc + items))
  {
    var tries := Attempts(server, stop, page, 0, None);
    var rest := FetchFrom(server, stop, judge, page + 1, total, acc + items);
    assert events + (tries.events + [Wait(PagePause)] + rest.events) ==
           events + tries.events + [Wait(PagePause)] + rest.events;
  }

  /** A page that stops the loop ends the run with its attempts and the page pause. */
  lemma EndStep(server: Server, stop: StopCheck, judge: Judge, page: int, total: int, acc: seq<Json>, events: seq<Event>)
    requires page <= total && !stop(PageStart(page)) && !Attempts(server, stop, page, 0, None).cancelled
    requires var v := judge(page, Attempts(server, stop, page, 0, None).last); !v.Skip? && !v.Keep?
    ensures Then(events, FetchFrom(server, stop, judge, page, total, acc)) ==
            Run(Ending(judge(page, Attempts(server, stop, page, 0, None).last), acc),
                events + Attempts(server, stop, page, 0, None).events + [Wait(PagePause)])
  {
  }
  // ---------------------------------------------- classifying a page

  /** The extra wait after a page that ended without a 200: only for 429 and 403. */
  function FailurePause(last: Option<Response>): (pause: Option<Pause>)
    ensures pause == Some(RateLimited) <==> last.Some? && last.value.status == 429
    ensures pause == Some(Forbidden) <==> last.Some? && last.value.status == 403
    ensures pause.None? <==> last.None? || last.value.status !in {429, 403}
  {
    if last.Some? && last.value.status == 429 then Some(RateLimited)
    else if last.Some? && last.value.status == 403 then Some(Forbidden)
    else None
  }

  /**
   * A page whose attempts ended without a 200 contributes nothing: the loop
   * goes on with the next page and the same list, after the page pause and
   * the wait for 429 or 403 if there is one.
   */
  lemma FailedPageSkipped(server: Server, stop: StopCheck, page: int, total: int, acc: seq<Json>)
    requires page <= total && !stop(PageStart(page))
    requires !Attempts(server, stop, page, 0, None).cancelled
    requires var last := Attempts(server, stop, page, 0, None).last;
             last.None? || last.value.status != 200
    ensures var tries := Attempts(server, stop, page, 0, None);
            var run := FetchFrom(server, stop, Classify, page, total, acc);
            var rest := FetchFrom(server, stop, Classify, page + 1, total, acc);
            && run.outcome == rest.outcome
            && run.events == tries.events + [Wait(PagePause)] + PauseEvents(FailurePause(tries.last)) + rest.events
  {
    var tries := Attempts(server, stop, page, 0, None);
    assert Classify(page, tries.last) == Skip(FailurePause(tries.last));
    SkipPage(server, stop, page, total, acc, FailurePause(tries.last));
  }

  /** A skipped page passes the same list on, after the page pause and its own wait. */
  lemma SkipPage(server: Server, stop: StopCheck, page: int, total: int, acc: seq<Json>, pause: Option<Pause>)
    requires page <= total && !stop(PageStart(page))
    requires !Attempts(server, stop, page, 0, None).cancelled
    requires Classify(page, Attempts(server, stop, page, 0, None).last) == Skip(pause)
    ensures var run := FetchFrom(server, stop, Classify, page, total, acc);
            var rest := FetchFrom(server, stop, Classify, page + 1, total, acc);
            && run.outcome == rest.outcome
            && run.events == Attempts(server, stop, page, 0, None).events + [Wait(PagePause)] + PauseEvents(pause) + rest.events
  {
    FetchContinues(server, stop, Classify, page, total, acc);
    assert PageItems(server, stop, Classify, page) == [] && acc + [] == acc;
    assert PageWaits(server, stop, Classify, page) == [Wait(PagePause)] + PauseEvents(pause);
  }

  /**
   * `return []` after the attempts happens exactly for an HTML soft block on
   * page 1 and for an undecodable body on pages up to 3.
   */
  lemma AbortCases(page: int, last: Option<Response>)
    ensures Classify(page, last) == Abort <==>
              && last.Some? && last.value.status == 200
              && ((SoftBlocked(last.value) && page == 1) ||
                  (!SoftBlocked(last.value) && last.value.body.None? && page <= 3))
  {
    if Classify(page, last) == Abort {
      if last.Some? && last.value.status == 200 && !SoftBlocked(last.value) && last.value.body.Some? {
        PageListNeverAborts(last.value.body.value);
      }
    }
  }

  lemma PageListNeverAborts(data: Json)
    ensures !PageList(data).Abort? && !PageList(data).Skip?
  {
  }

  /**
   * A soft block on a later page, or an undecodable body after page 3, skips
   * the page after a pause.
   */
  lemma LateFailuresSkip(page: int, r: Response)
    requires r.status == 200
    ensures SoftBlocked(r) && page != 1 ==> Classify(page, Some(r)) == Skip(Some(SoftBlockPause))
    ensures !SoftBlocked(r) && r.body.None? && page > 3 ==> Classify(page, Some(r)) == Skip(Some(DecodePause))
  {
  }

  /**
   * A decoded page is kept exactly when it is a dict whose `gdasList` is a
   * non-empty iterable; the kept items are that iterable's elements in order.
   */
  lemma KeepCases(data: Json)
    ensures PageList(data).Keep? <==>
              data.Obj? && "gdasList" in data.fields &&
              Iterate(data.fields["gdasList"]).Some? && Iterate(data.fields["gdasList"]).value != []
    ensures PageList(data).Keep? ==> PageList(data).items == Iterate(data.fields["gdasList"]).value
  {
  }

  /** Without `gdasList`, or with an empty one, the loop stops (for a dict). */
  lemma HaltCases(data: Json)
    requires data.Obj?
    ensures PageList(data) == Halt <==>
              "gdasList" !in data.fields || Iterate(data.fields["gdasList"]) == Some([])
  {
  }

  /** Scalars, lists or strings where a dict was expected make `fetch_reviews` raise. */
  lemma CrashCases(data: Json)
    ensures PageList(data) == Crash <==>
              || data.Null? || data.Bool? || data.Int?
              || (data.Arr? && Str("gdasList") in data.items)
              || (data.Str? && Contains(data.s, "gdasList"))
              || (data.Obj? && "gdasList" in data.fields && Iterate(data.fields["gdasList"]).None?)
  {
  }

  /** Without a cancellation callback, the attempt loop is never cancelled. */
  lemma {:induction false} NeverCancelled(server: Server, page: int, retry: nat, last: Option<Response>)
    ensures !Attempts(server, NeverStop, page, retry, last).cancelled
    decreases MaxRetries - retry
  {
    if retry < MaxRetries {
      AttemptsRange(server, NeverStop, page, retry + 1, last);
      match server(page, retry)
      case Failed => NeverCancelled(server, page, retry + 1, last);
      case Answered(r) => NeverCancelled(server, page, retry + 1, Some(r));
    }
  }

  // ---------------------------------------------- the shared checks

  /**
   * The code between the attempt loop and the next iteration, in the order
   * the source runs it. Without a 200 the page is skipped, after a wait for
   * 429 or 403. A 200 with an HTML soft block returns `[]` on page 1 and is
   * skipped after a wait later on; a 200 whose body is not JSON returns `[]`
   * on pages 1 to 3 and is skipped after a wait later on. A decoded body is
   * kept exactly when it is a dict whose `gdasList` is a non-empty
   * iterable, and raises where it is a scalar, holds `gdasList` without
   * being a dict, or holds a `gdasList` that is not iterable; any other body
   * stops the loop.
   */
  method JudgePage(page: int, response: Option<Response>) returns (v: Verdict)
    ensures v == Classify(page, response)
    ensures v.Skip? && v.pause == Some(RateLimited) <==> response.Some? && response.value.status == 429
    ensures v.Skip? && v.pause == Some(Forbidden) <==> response.Some? && response.value.status == 403
    ensures v == Skip(None) <==> response.None? || response.value.status !in {200, 429, 403}
    ensures v == Abort <==>
              && response.Some? && response.value.status == 200
              && ((SoftBlocked(response.value) && page == 1) ||
                  (!SoftBlocked(response.value) && response.value.body.None? && page <= 3))
    ensures v == Skip(Some(SoftBlockPause)) <==>
              response.Some? && response.value.status == 200 && SoftBlocked(response.value) && page != 1
    ensures v == Skip(Some(DecodePause)) <==>
              && response.Some? && response.value.status == 200 && !SoftBlocked(response.value)
              && response.value.body.None? && page > 3
    ensures v.Keep? <==>
              && response.Some? && response.value.status == 200 && !SoftBlocked(response.value)
              && response.value.body.Some? && response.value.body.value.Obj?
              && "gdasList" in response.value.body.value.fields
              && Iterate(response.value.body.value.fields["gdasList"]).Some?
              && Iterate(response.value.body.value.fields["gdasList"]).value != []
    ensures v.Keep? ==> v.items == Iterate(response.value.body.value.fields["gdasList"]).value
    ensures v == Crash <==>
              && response.Some? && response.value.status == 200 && !SoftBlocked(response.value)
              && response.value.body.Some?
              && var data := response.value.body.value;
                 || data.Null? || data.Bool? || data.Int?
                 || (data.Arr? && Str("gdasList") in data.items)
                 || (data.Str? && Contains(data.s, "gdasList"))
                 || (data.Obj? && "gdasList" in data.fields && Iterate(data.fields["gdasList"]).None?)
  {
    AbortCases(page, response);
    if response.Some? && response.value.status == 200 && !SoftBlocked(response.value) && response.value.body.Some? {
      KeepCases(response.value.body.value);
      CrashCases(response.value.body.value);
    }
    if response.None? || response.value.status != 200 {
      if response.Some? && response.value.status == 429 {
        return Skip(Some(RateLimited));
      } else if response.Some? && response.value.status == 403 {
        return Skip(Some(Forbidden));
      }
      return Skip(None);
    }
    var r := response.value;
    if !Contains(Lower(r.contentType), "json") {
      if Contains(Lower(r.text), "<html") {
        if page == 1 {
          return Abort;
        }
        return Skip(Some(SoftBlockPause));
      }
    }
    if r.body.None? {
      if page <= 3 {
        return Abort;
      }
      return Skip(Some(DecodePause));
    }
    var data := r.body.value;
    var found := HasKey(data, "gdasList");
    if found.Failure? {
      return Crash;
    }
    if !found.value {
      return Halt;
    }
    if !data.Obj? {
      return Crash;
    }
    var onPage := Iterate(data.fields["gdasList"]);
    if onPage.None? {
      return Crash;
    }
    if |onPage.value| == 0 {
      return Halt;
    }
    v := Keep(onPage.value);
  }

  /**
   * What the page loop does with a page's verdict once the page pause is
   * logged: wait and `continue`, `extend` the list, `break`, or return. `next`
   * is the run when the loop ends here; otherwise the new list and events go
   * on to the next page.
   */
  method TakeVerdict(ghost server: Server, ghost stop: StopCheck, ghost judge: Judge, page: int, ghost total: int,
                     reviews: seq<Json>, events: seq<Event>, ghost before: seq<Event>, verdict: Verdict)
    returns (next: Option<Run>, reviews': seq<Json>, events': seq<Event>)
    requires page <= total && !stop(PageStart(page)) && !Attempts(server, stop, page, 0, None).cancelled
    requires verdict == judge(page, Attempts(server, stop, page, 0, None).last)
    requires events == before + Attempts(server, stop, page, 0, None).events + [Wait(PagePause)]
    ensures next.None? ==> Then(before, FetchFrom(server, stop, judge, page, total, reviews)) ==
                           Then(events', FetchFrom(server, stop, judge, page + 1, total, reviews'))
    ensures next.Some? ==> Then(before, FetchFrom(server, stop, judge, page, total, reviews)) == next.value
  {
    AfterAttempts(server, stop, judge, page, total, reviews, before, verdict);
    reviews', events' := reviews, events;
    match verdict {
      case Skip(pause) =>
        next, events' := None, events + PauseEvents(pause);
      case Keep(items) =>
        next, reviews' := None, reviews + items;
      case Halt =>
        next := Some(Run(Returned(reviews), events));
      case Abort =>
        next := Some(Run(Returned([]), events));
      case Crash =>
        next := Some(Run(Raised(TypeError), events));
    }
  }

  /**
   * A classification that agrees with `Classify` everywhere. The page loops
   * are proved for such a ghost `judge`, so that the body of `Classify` stays
   * out of their proofs; the callers pass `Classify` itself.
   */
  ghost predicate AgreesWithClassify(judge: Judge) {
    forall page, last {:trigger Classify(page, last)} :: judge(page, last) == Classify(page, last)
  }

  /** `JudgePage`, stated for a classification that agrees with `Classify`. */
  method JudgeAs(page: int, response: Option<Response>, ghost judge: Judge) returns (v: Verdict)
    requires AgreesWithClassify(judge)
    ensures v == judge(page, response)
  {
    v := JudgePage(page, response);
  }
}
