/**
 * test.py: the earlier, simpler script. `get_all_reviews` sends one request
 * per page with no retries and stops at the first error or empty page,
 * keeping what it has; its `process_reviews` differs from the one in
 * module Normalizer in how it reads `gdasCont`.
 */
module TestScript {
  import opened Py
  import opened Normalizer

  // ------------------------------------------------------ get_all_reviews

  /**
   * What the `try` block sees for one page: an exception from `session.get`,
   * `raise_for_status()` (a status of 400 or above) or `response.json()`, or the
   * decoded body.
   */
  datatype Reply = Raised | Decoded(data: Json)

  /** The reply the server gives to the request for each page. */
  type PageServer = int -> Reply

  /**
   * The reviews one page adds, or `None` when the loop breaks at it: on an
   * exception, when the body is not a dict (`data.get` raises), when
   * `data.get('gdasList', [])` is falsy, or when it is not iterable
   * (`extend` raises).
   */
  function PageReviews(reply: Reply): (r: Option<seq<Json>>)
    ensures r.Some? ==> r.value != []
  {
    match reply
    case Raised => None
    case Decoded(data) =>
      if !data.Obj? then None
      else
        var onPage := GetOr(data.fields, "gdasList", Arr([]));
        if !Truthy(onPage) then None else Iterate(onPage)
  }

  /** The returned list and the pages requested, in request order. */
  datatype Collection = Collection(reviews: seq<Json>, requested: seq<int>)

  /** `for page in range(page, max_pages + 1)` with `all_reviews == acc` on entry. */
  function GetAllFrom(server: PageServer, page: int, maxPages: int, acc: seq<Json>): Collection
    decreases maxPages + 1 - page
  {
    if page > maxPages then Collection(acc, [])
    else match PageReviews(server(page))
      case None => Collection(acc, [page])
      case Some(items) =>
        var rest := GetAllFrom(server, page + 1, maxPages, acc + items);
        Collection(rest.reviews, [page] + rest.requested)
  }

  /** `get_all_reviews(product_id, max_pages, auth_info)` */
  function GetAll(server: PageServer, maxPages: int): Collection {
    GetAllFrom(server, 1, maxPages, [])
  }

  // ------------------------------------------------------ a reference

  /** The first page from `page` on where the loop breaks, or `maxPages + 1`. */
  function BreakPage(server: PageServer, page: int, maxPages: int): (q: int)
    decreases maxPages + 1 - page
  {
    if page > maxPages || PageReviews(server(page)).None? then page
    else BreakPage(server, page + 1, maxPages)
  }

  /** The pages `from, from + 1, ..., to - 1`. */
  function Range(from: int, to: int): (r: seq<int>)
    decreases to - from
    ensures |r| == if to >= from then to - from else 0
    ensures forall i :: 0 <= i < |r| ==> r[i] == from + i
  {
    if to <= from then [] else [from] + Range(from + 1, to)
  }

  /** The reviews of pages `from` to `to - 1`, one page after another. */
  function Concat(server: PageServer, from: int, to: int): seq<Json>
    decreases to - from
  {
    if to <= from then []
    else
      (match PageReviews(server(from)) case Some(items) => items case None => []) + Concat(server, from + 1, to)
  }

  lemma {:induction false} BreakPageBounds(server: PageServer, page: int, maxPages: int)
    requires page <= maxPages + 1
    ensures page <= BreakPage(server, page, maxPages) <= maxPages + 1
    ensures forall p :: page <= p < BreakPage(server, page, maxPages) ==> PageReviews(server(p)).Some?
    ensures BreakPage(server, page, maxPages) <= maxPages ==> PageReviews(server(BreakPage(server, page, maxPages))).None?
    decreases maxPages + 1 - page
  {
    if page <= maxPages && PageReviews(server(page)).Some? {
      BreakPageBounds(server, page + 1, maxPages);
    }
  }

  /**
   * The run from `page` on: the pages up to the first break are requested
   * once each, in order, the page that breaks included; the list is `acc`
   * followed by the reviews of the pages before it, in page order.
   */
  lemma {:induction false} GetAllFromSpec(server: PageServer, page: int, maxPages: int, acc: seq<Json>)
    requires page <= maxPages + 1
    ensures var q := BreakPage(server, page, maxPages);
            && GetAllFrom(server, page, maxPages, acc).reviews == acc + Concat(server, page, q)
            && GetAllFrom(server, page, maxPages, acc).requested == Range(page, if q <= maxPages then q + 1 else q)
    decreases maxPages + 1 - page
  {
    var q := BreakPage(server, page, maxPages);
    if page > maxPages {
      assert acc + [] == acc;
    } else if PageReviews(server(page)).None? {
      assert acc + [] == acc;
      assert Range(page + 1, page + 1) == [];
    } else {
      var items := PageReviews(server(page)).value;
      GetAllFromSpec(server, page + 1, maxPages, acc + items);
      assert (acc + items) + Concat(server, page + 1, q) == acc + (items + Concat(server, page + 1, q));
    }
  }

  /**
   * `get_all_reviews`: pages 1, 2, ... are requested once each, in order, up
   * to the first page that raises or is empty (or `max_pages`); the result is
   * the reviews of the pages before it, in page order, and an error keeps
   * everything collected so far.
   */
  lemma GetAllSpec(server: PageServer, maxPages: int)
    ensures var q := BreakPage(server, 1, maxPages);
            && GetAll(server, maxPages).reviews == Concat(server, 1, q)
            && GetAll(server, maxPages).requested == Range(1, if q <= maxPages then q + 1 else q)
            && (forall p :: 1 <= p < q ==> PageReviews(server(p)).Some?)
            && (q <= maxPages ==> PageReviews(server(q)).None?)
  {
    if maxPages >= 0 {
      BreakPageBounds(server, 1, maxPages);
      GetAllFromSpec(server, 1, maxPages, []);
      assert [] + Concat(server, 1, BreakPage(server, 1, maxPages)) == Concat(server, 1, BreakPage(server, 1, maxPages));
    }
  }

  /** The requests made are `pageIdx = 1, 2, ...`, never past `max_pages`, one per page. */
  lemma RequestsInOrder(server: PageServer, maxPages: int, i: nat)
    requires i < |GetAll(server, maxPages).requested|
    ensures GetAll(server, maxPages).requested[i] == i + 1 <= maxPages
  {
    GetAllSpec(server, maxPages);
    if maxPages >= 0 {
      BreakPageBounds(server, 1, maxPages);
    }
  }

  /** What the loop has done so far followed by what the rest of it does. */
  function After(requested: seq<int>, rest: Collection): Collection {
    Collection(rest.reviews, requested + rest.requested)
  }

  /** One turn of the page loop: the request for `page`, then a break or the next page. */
  lemma GetAllStep(server: PageServer, page: int, maxPages: int, acc: seq<Json>, requested: seq<int>)
    requires page <= maxPages
    ensures PageReviews(server(page)).None? ==>
              After(requested, GetAllFrom(server, page, maxPages, acc)) == Collection(acc, requested + [page])
    ensures PageReviews(server(page)).Some? ==>
              After(requested, GetAllFrom(server, page, maxPages, acc)) ==
              After(requested + [page], GetAllFrom(server, page + 1, maxPages, acc + PageReviews(server(page)).value))
  {
    if PageReviews(server(page)).Some? {
      var rest := GetAllFrom(server, page + 1, maxPages, acc + PageReviews(server(page)).value);
      assert requested + ([page] + rest.requested) == (requested + [page]) + rest.requested;
    }
  }

  /** The `try` block for one page: the reviews it adds, or `None` where the loop breaks. */
  method ReadPage(reply: Reply) returns (r: Option<seq<Json>>)
    ensures r == PageReviews(reply)
  {
    if reply.Raised? {
      return None;
    }
    var data := reply.data;
    if !data.Obj? {
      return None;
    }
    var onPage := GetOr(data.fields, "gdasList", Arr([]));
    if !Truthy(onPage) {
      return None;
    }
    r := Iterate(onPage);
  }

  /** `get_all_reviews` as the loop it is, with `extend` and `break`. */
  method GetAllReviews(server: PageServer, maxPages: int) returns (reviews: seq<Json>, requested: seq<int>)
    ensures Collection(reviews, requested) == GetAll(server, maxPages)
  {
    reviews, requested := [], [];
    var page := 1;
    assert [] + GetAll(server, maxPages).requested == GetAll(server, maxPages).requested;
    while page <= maxPages
      invariant GetAll(server, maxPages) == After(requested, GetAllFrom(server, page, maxPages, reviews))
      decreases maxPages + 1 - page
    {
      GetAllStep(server, page, maxPages, reviews, requested);
      requested := requested + [page];
      var items := ReadPage(server(page));
      if items.None? {
        return;
      }
      reviews := reviews + items.value;
      page := page + 1;
    }
    assert requested + [] == requested;
  }

  // ------------------------------------------------------ process_reviews

  /**
   * The row test.py builds for one review: the same steps, in the same
   * order, as in module Normalizer, except that the content is
   * `review.get('gdasCont', '')` without `or ''`, so `.replace` raises
   * AttributeError when the key holds anything but a string.
   */
  function Record(review: Json): Result<Row, PyError> {
    if !review.Obj? then Failure(AttributeError)
    else RowFor(review.fields, GetOr(review.fields, "gdasCont", Str("")))
  }

  /** The table test.py's `process_reviews` builds. */
  function TestTable(reviews: seq<Json>): seq<Row> {
    Collect(Record, reviews)
  }

  /** `gdasCont` is present and falsy but not a string: `None`, `0`, `False`, `[]`, `{}`. */
  predicate BlankContent(f: map<string, Json>) {
    "gdasCont" in f && !Truthy(f["gdasCont"]) && !f["gdasCont"].Str?
  }

  /** Two content reads that clean to the same text give the same row or the same exception. */
  lemma RowForContent(f: map<string, Json>, t1: Json, t2: Json)
    requires CleanContent(t1) == CleanContent(t2)
    ensures RowFor(f, t1) == RowFor(f, t2)
  {
    if StepsSucceed(f, t1) {
      assert StepRow(f, t1) == StepRow(f, t2);
    } else {
      assert FirstStepError(f, t1) == FirstStepError(f, t2);
    }
  }

  /**
   * Outside blank `gdasCont`, test.py builds the same row as olive_scraper.py
   * and news.py, or drops the review for the same exception.
   */
  lemma RecordAgrees(review: Json)
    requires !(review.Obj? && BlankContent(review.fields))
    ensures Record(review) == NormalizeRecord(review)
  {
    if review.Obj? {
      var f := review.fields;
      SameContent(f);
      RowForContent(f, GetOr(f, "gdasCont", Str("")), ContentText(f));
    }
  }

  lemma SameContent(f: map<string, Json>)
    requires !BlankContent(f)
    ensures CleanContent(GetOr(f, "gdasCont", Str(""))) == CleanContent(ContentText(f))
  {
    var v := GetOr(f, "gdasCont", Str(""));
    if !Truthy(v) {
      assert v.Str?;
      assert v == Str("");
    }
  }

  /**
   * With blank `gdasCont`, test.py drops the review, while the other scripts
   * keep it (when nothing else raises) with empty content.
   */
  lemma RecordDropsBlank(review: Json)
    requires review.Obj? && BlankContent(review.fields)
    ensures Record(review).Failure?
    ensures NormalizeRecord(review).Success? ==> NormalizeRecord(review).value.content == ""
  {
    var f := review.fields;
    assert CleanContent(GetOr(f, "gdasCont", Str(""))).Failure?;
    assert !StepsSucceed(f, GetOr(f, "gdasCont", Str("")));
    if NormalizeRecord(review).Success? {
      assert ContentText(f) == Str("");
      assert Strip(ReplaceLineBreaks("")) == "";
    }
  }

  /** Every row test.py keeps is the row the other scripts build for that review. */
  lemma RecordKeptByOlive(review: Json)
    requires Record(review).Success?
    ensures NormalizeRecord(review) == Record(review)
  {
    if review.Obj? && BlankContent(review.fields) {
      RecordDropsBlank(review);
    } else {
      RecordAgrees(review);
    }
  }

  /** Two normalisations that agree on every input build the same table. */
  lemma {:induction false} CollectAgree(g: Json -> Result<Row, PyError>, h: Json -> Result<Row, PyError>, reviews: seq<Json>)
    requires forall j :: 0 <= j < |reviews| ==> g(reviews[j]) == h(reviews[j])
    ensures Collect(g, reviews) == Collect(h, reviews)
  {
    if reviews != [] {
      assert forall j :: 1 <= j < |reviews| ==> reviews[1..][j - 1] == reviews[j];
      CollectAgree(g, h, reviews[1..]);
    }
  }

  /** With no blank `gdasCont`, test.py's table is the one the other scripts build. */
  lemma TablesAgree(reviews: seq<Json>)
    requires forall j :: 0 <= j < |reviews| ==> !(reviews[j].Obj? && BlankContent(reviews[j].fields))
    ensures TestTable(reviews) == Table(reviews)
  {
    forall j | 0 <= j < |reviews| ensures Record(reviews[j]) == NormalizeRecord(reviews[j]) {
      RecordAgrees(reviews[j]);
    }
    CollectAgree(Record, NormalizeRecord, reviews);
  }

  /**
   * `nickname = review.get('mbrNickNm', '')`, `user_id = review.get('mbrId', '')`,
   * the id defaulted when falsy and the nickname replaced by the id when falsy:
   * the names the other scripts write as one `or` chain.
   */
  method Names(f: map<string, Json>) returns (nickname: Json, userId: Json)
    ensures nickname == Author(GetOr(f, "mbrNickNm", Str("")), GetOr(f, "mbrId", Null))
    ensures userId == MemberId(GetOr(f, "mbrId", Str("")))
  {
    nickname := GetOr(f, "mbrNickNm", Str(""));
    userId := GetOr(f, "mbrId", Str(""));
    if !Truthy(userId) {
      userId := Str(Unknown);
    }
    if !Truthy(nickname) {
      nickname := userId;
    }
    GetOrDefaults(f, "mbrId", Str(""), Null);
  }

  /**
   * `x = review.get(key, [])` then `if x:` before `len`/`for`: the elements of
   * a truthy value, none for a falsy one, the same list the other scripts
   * read through `or []`.
   */
  method ReadList(f: map<string, Json>, key: string) returns (r: Result<seq<Json>, PyError>)
    ensures r == ListField(f, key)
  {
    var x := GetOr(f, key, Arr([]));
    if !Truthy(x) {
      assert Or(x, Arr([])) == Arr([]);
      return Success([]);
    }
    r := Elements(x);
  }

  /** The body of the `try` in test.py's `process_reviews`, flags and all. */
  method NormalizeReview(review: Json) returns (res: Result<Row, PyError>)
    ensures res == Record(review)
  {
    if !review.Obj? {
      return Failure(AttributeError);
    }
    var f := review.fields;
    ghost var text := GetOr(f, "gdasCont", Str(""));
    var nickname, userId := Names(f);
    var rating := HalveScore(GetOr(f, "gdasScrVal", Int(0)));
    if rating.Failure? { assert !StepsSucceed(f, text); return Failure(rating.error); }
    var writtenOn := GetOr(f, "dispRegDate", Str(""));
    var content := CleanContent(GetOr(f, "gdasCont", Str("")));
    if content.Failure? { assert !StepsSucceed(f, text); return Failure(content.error); }
    var option := GetOr(f, "itemNm", Str(""));
    var kind := PlainReview;
    var hasPhoto := false;
    var urls: seq<string> := [];
    var photos := ReadList(f, "photoList");
    if photos.Failure? { assert !StepsSucceed(f, text); return Failure(photos.error); }
    if |photos.value| > 0 {
      hasPhoto := true;
      kind := PhotoReview;
    }
    var collected := CollectPhotoUrls(photos.value);
    if collected.Failure? { assert !StepsSucceed(f, text); return Failure(collected.error); }
    urls := collected.value;
    var helpful := GetOr(f, "recommCnt", Int(0));
    var rank := RankLabel(GetOr(f, "topRvrRnk", Int(0)));
    if rank.Failure? { assert !StepsSucceed(f, text); return Failure(rank.error); }
    var infos := ReadList(f, "addInfoNm");
    if infos.Failure? { assert !StepsSucceed(f, text); return Failure(infos.error); }
    var skinValues := CollectSkinValues(infos.value);
    if skinValues.Failure? { assert !StepsSucceed(f, text); return Failure(skinValues.error); }
    var repurchase := false;
    if GetOr(f, "firstGdasYn", Null) == Str("N") {
      repurchase := true;
    }
    var monthPlus := false;
    if GetOr(f, "renewUsed1mmGdasYn", Null) == Str("Y") {
      monthPlus := true;
    }
    var offline := OfflinePurchase(GetOr(f, "ordNo", Str("")));
    if offline.Failure? { assert !StepsSucceed(f, text); return Failure(offline.error); }
    var skin := SkinText(skinValues.value);
    if skin.Failure? { assert !StepsSucceed(f, text); return Failure(skin.error); }
    assert StepsSucceed(f, text);
    res := Success(Row(nickname, userId, rank.value, rating.value, writtenOn, option, content.value,
                       kind, if hasPhoto then HasPhoto else NoPhoto,
                       Join(";", urls), helpful, YesNo(repurchase), YesNo(monthPlus),
                       YesNo(offline.value), skin.value));
  }

  /** test.py's `process_reviews`: append each review's row, skip the ones that raise. */
  method ProcessReviews(reviews: seq<Json>) returns (rows: seq<Row>)
    ensures rows == TestTable(reviews)
  {
    rows := [];
    var i := 0;
    while i < |reviews|
      invariant 0 <= i <= |reviews|
      invariant rows == TestTable(reviews[..i])
    {
      var res := NormalizeReview(reviews[i]);
      CollectStep(Record, reviews, i, res);
      rows := rows + Kept(res);
      i := i + 1;
    }
    assert reviews[..i] == reviews;
  }
}
