/**
 * `fetch_reviews` of news.py: the same page and retry loops as
 * olive_scraper.py, with no cancellation callback and messages sent to
 * `logging` instead. Its runs are those of the shared specification with a
 * callback that never cancels.
 */
module News {
  import opened Py
  import opened Pagination

  /** The `while retry < max_retries` loop of one page, without cancellation checks. */
  method RetryPage(server: Server, page: int) returns (t: Tries)
    ensures t == Attempts(server, NeverStop, page, 0, None)
  {
    var retry: nat := 0;
    var response: Option<Response> := None;
    var events: seq<Event> := [];
    while retry < MaxRetries
      invariant retry <= MaxRetries
      invariant Attempts(server, NeverStop, page, 0, None) == ThenTries(events, Attempts(server, NeverStop, page, retry, response))
      decreases MaxRetries - retry
    {
      var attempt := server(page, retry);
      AttemptStep(server, NeverStop, page, retry, response, events);
      events := events + [Get(page, retry)];
      if attempt.Answered? {
        response := Some(attempt.response);
        if attempt.response.status == 200 {
          break;
        }
        retry := retry + 1;
        events := events + [Wait(RetryPause)];
      } else {
        retry := retry + 1;
        events := events + [Wait(ErrorPause)];
      }
    }
    assert events + [] == events;
    t := Tries(false, response, events);
  }

  /** `fetch_reviews(session, user_agent, product_id, total_pages)` */
  method FetchReviews(server: Server, total: int) returns (run: Run)
    ensures run == Fetch(server, NeverStop, total)
  {
    run := FetchPages(server, total, Classify);
  }

  /** The page loop of `FetchReviews`, for any classification that agrees with `Classify`. */
  method FetchPages(server: Server, total: int, ghost judge: Judge) returns (run: Run)
    requires AgreesWithClassify(judge)
    ensures run == FetchFrom(server, NeverStop, judge, 1, total, [])
  {
    var reviews: seq<Json> := [];
    var events: seq<Event> := [];
    var page := 1;
    while page <= total
      invariant FetchFrom(server, NeverStop, judge, 1, total, []) == Then(events, FetchFrom(server, NeverStop, judge, page, total, reviews))
      decreases total + 1 - page
    {
      var tries := RetryPage(server, page);
      NeverCancelled(server, page, 0, None);
      var verdict := JudgeAs(page, tries.last, judge);
      var next;
      next, reviews, events := TakeVerdict(server, NeverStop, judge, page, total, reviews, events + tries.events + [Wait(PagePause)], events, verdict);
      if next.Some? {
        return next.value;
      }
      page := page + 1;
    }
    assert events + [] == events;
    run := Run(Returned(reviews), events);
  }

  /**
   * Without cancellation the list is lost only through a page's own verdict:
   * the run returns the reviews of the pages before the first page that does
   * not continue, unless that page aborts the run or raises.
   */
  lemma NeverStopOutcome(server: Server, total: int)
    ensures var q := FirstEnd(server, NeverStop, Classify, 1, total);
            var gathered := Harvest(server, NeverStop, Classify, 1, q);
            && (q > total ==> Fetch(server, NeverStop, total).outcome == Returned(gathered))
            && (q <= total ==>
                  Fetch(server, NeverStop, total).outcome ==
                  Ending(Classify(q, Attempts(server, NeverStop, q, 0, None).last), gathered))
  {
    var q := FirstEnd(server, NeverStop, Classify, 1, total);
    FetchOutcome(server, NeverStop, Classify, 1, total, []);
    NeverCancelled(server, q, 0, None);
    assert [] + Harvest(server, NeverStop, Classify, 1, q) == Harvest(server, NeverStop, Classify, 1, q);
  }
}
