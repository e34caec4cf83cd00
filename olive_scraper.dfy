/**
 * `fetch_reviews` of olive_scraper.py as the loop it is: an outer loop over
 * the pages, an inner retry loop per page, and the list of reviews extended
 * in place. The cancellation callback is consulted at the top of every page
 * and before every attempt. Each method is proved to compute the
 * specification of module Pagination.
 */
module OliveScraper {
  import opened Py
  import opened Pagination

  /** The `while retry < max_retries` loop of one page. */
  method RetryPage(server: Server, stop: StopCheck, page: int) returns (t: Tries)
    ensures t == Attempts(server, stop, page, 0, None)
  {
    var retry: nat := 0;
    var response: Option<Response> := None;
    var events: seq<Event> := [];
    while retry < MaxRetries
      invariant retry <= MaxRetries
      invariant Attempts(server, stop, page, 0, None) == ThenTries(events, Attempts(server, stop, page, retry, response))
      decreases MaxRetries - retry
    {
      if stop(BeforeAttempt(page, retry)) {
        assert events + [] == events;
        return Tries(true, response, events);
      }
      var attempt := server(page, retry);
      AttemptStep(server, stop, page, retry, response, events);
      events := events + [Get(page, retry)];
      if attempt.Answered? {
        response := Some(attempt.response);
        if attempt.response.status == 200 {
          break;
        }
        retry := retry + 1;
        events := events + [Wait(RetryPause)];
      } else {
        retry := retry + 1;
        events := events + [Wait(ErrorPause)];
      }
    }
    assert events + [] == events;
    t := Tries(false, response, events);
  }

  /** `fetch_reviews(session, user_agent, product_id, total_pages, log_callback, stop_check_callback)` */
  method FetchReviews(server: Server, stop: StopCheck, total: int) returns (run: Run)
    ensures run == Fetch(server, stop, total)
  {
    run := FetchPages(server, stop, total, Classify);
  }

  /** The page loop of `FetchReviews`, for any classification that agrees with `Classify`. */
  method FetchPages(server: Server, stop: StopCheck, total: int, ghost judge: Judge) returns (run: Run)
    requires AgreesWithClassify(judge)
    ensures run == FetchFrom(server, stop, judge, 1, total, [])
  {
    var reviews: seq<Json> := [];
    var events: seq<Event> := [];
    var page := 1;
    while page <= total
      invariant FetchFrom(server, stop, judge, 1, total, []) == Then(events, FetchFrom(server, stop, judge, page, total, reviews))
      decreases total + 1 - page
    {
      if stop(PageStart(page)) {
        break;
      }
      var tries := RetryPage(server, stop, page);
      if tries.cancelled {
        CancelledPage(server, stop, judge, page, total, reviews, events);
        return Run(Returned([]), events + tries.events);
      }
      var verdict := JudgeAs(page, tries.last, judge);
      var next;
      next, reviews, events := TakeVerdict(server, stop, judge, page, total, reviews, events + tries.events + [Wait(PagePause)], events, verdict);
      if next.Some? {
        return next.value;
      }
      page := page + 1;
    }
    assert events + [] == events;
    run := Run(Returned(reviews), events);
  }
}
