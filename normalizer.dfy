/**
 * `process_reviews`: every raw review object of the reviews API becomes one
 * flat 15-column row, or is dropped when computing the row raises. The same
 * text appears in olive_scraper.py and news.py; this module is the one model
 * of both. The variant in test.py is in module TestScript.
 */
module Normalizer {
  import opened Py

  /** Placeholder for a missing member id (and nickname). */
  const Unknown: string := "알 수 없음"
  const ImageHost: string := "https://image.oliveyoung.co.kr/uploads/images/gdasEditor/"
  const PhotoReview: string := "포토리뷰"
  const PlainReview: string := "일반리뷰"
  const HasPhoto: string := "있음"
  const NoPhoto: string := "없음"
  const Ordinary: string := "일반"
  const Yes: string := "예"
  const No: string := "아니오"

  /** One output row; the comment gives the column label of the exported table. */
  datatype Row = Row(
    author: Json,        // 작성자
    memberId: Json,      // 아이디
    rank: string,        // 회원랭킹
    rating: real,        // 평점
    writtenOn: Json,     // 작성일
    option: Json,        // 구매옵션
    content: string,     // 리뷰내용
    kind: string,        // 리뷰형태
    photoMark: string,   // 사진여부
    photoUrls: string,   // 사진URL
    helpful: Json,       // 도움이 돼요 수
    repurchase: string,  // 재구매
    monthPlus: string,   // 한달이상사용
    offline: string,     // 오프라인구매
    skin: string         // 피부정보
  )

  function YesNo(b: bool): string {
    if b then Yes else No
  }

  /** `a or (b or '알 수 없음')` for the nickname, `b or '알 수 없음'` for the id. */
  function Author(nickname: Json, memberId: Json): Json {
    Or(nickname, Or(memberId, Str(Unknown)))
  }

  function MemberId(memberId: Json): Json {
    Or(memberId, Str(Unknown))
  }

  /** `score / 2`: true division of an int (a bool counts as 0 or 1). */
  function HalveScore(score: Json): Result<real, PyError> {
    match score
    case Int(i) => Success(i as real / 2.0)
    case Bool(b) => Success(if b then 0.5 else 0.0)
    case _ => Failure(TypeError)
  }

  /** `text.replace('<br/>', '\n').strip()`; only a string has `.replace`. */
  function CleanContent(text: Json): Result<string, PyError> {
    match text
    case Str(s) => Success(Strip(ReplaceLineBreaks(s)))
    case _ => Failure(AttributeError)
  }

  /** `len(x)` / `for p in x`: the elements, or TypeError for a scalar. */
  function Elements(x: Json): Result<seq<Json>, PyError> {
    match Iterate(x)
    case Some(items) => Success(items)
    case None => Failure(TypeError)
  }

  /**
   * `f"{v}"` for the scalar values an attachment path can hold. Python would
   * render a list or dict with `repr`; the model raises TypeError there.
   */
  function Format(v: Json): Result<string, PyError> {
    match v
    case Null => Success("None")
    case Bool(b) => Success(if b then "True" else "False")
    case Int(i) => Success(IntToString(i))
    case Str(s) => Success(s)
    case _ => Failure(TypeError)
  }

  /** The URL one attachment contributes: none for a falsy `appxFilePathNm`. */
  function PhotoUrl(photo: Json): Result<seq<string>, PyError> {
    if !photo.Obj? then Failure(AttributeError)
    else
      var path := GetOr(photo.fields, "appxFilePathNm", Null);
      if !Truthy(path) then Success([])
      else
        var text :- Format(path);
        Success([ImageHost + text])
  }

  /** The photo loop: one URL per attachment with a truthy path, in order. */
  function PhotoUrls(photos: seq<Json>): Result<seq<string>, PyError> {
    if photos == [] then Success([])
    else
      var head :- PhotoUrl(photos[0]);
      var rest :- PhotoUrls(photos[1..]);
      Success(head + rest)
  }

  /** `'TOP {rank}위'` when `rank and rank > 0`, else '일반'. */
  function RankLabel(rank: Json): Result<string, PyError> {
    if !Truthy(rank) then Success(Ordinary)
    else match rank
      case Int(i) => Success(if i > 0 then "TOP " + IntToString(i) + "위" else Ordinary)
      case Bool(_) => Success("TOP True위")
      case _ => Failure(TypeError)
  }

  /** The skin-info loop: `inf.get('mrkNm', '')` of every entry. */
  function SkinValues(infos: seq<Json>): Result<seq<Json>, PyError> {
    if infos == [] then Success([])
    else if !infos[0].Obj? then Failure(AttributeError)
    else
      var rest :- SkinValues(infos[1..]);
      Success([GetOr(infos[0].fields, "mrkNm", Str(""))] + rest)
  }

  /** `', '.join(skin_info) if skin_info else ''`; join needs strings. */
  function SkinText(values: seq<Json>): Result<string, PyError> {
    if values == [] then Success("")
    else if forall k :: 0 <= k < |values| ==> values[k].Str? then
      Success(Join(", ", seq(|values|, k requires 0 <= k < |values| => values[k].s)))
    else Failure(TypeError)
  }

  /** `ord_no and not ord_no.startswith('Y')` */
  function OfflinePurchase(orderNo: Json): Result<bool, PyError> {
    if !Truthy(orderNo) then Success(false)
    else match orderNo
      case Str(s) => Success(!StartsWith(s, "Y"))
      case _ => Failure(AttributeError)
  }

  /** The list `len`/`for` see for `d.get(k) or []`. */
  function ListField(f: map<string, Json>, key: string): Result<seq<Json>, PyError> {
    Elements(Or(GetOr(f, key, Arr([])), Arr([])))
  }

  /** The value `.replace` is called on: `r.get('gdasCont', '') or ''`. */
  function ContentText(f: map<string, Json>): Json {
    Or(GetOr(f, "gdasCont", Str("")), Str(""))
  }

  /** Every step of the row for the dict `f` succeeds, `text` being the content read. */
  predicate StepsSucceed(f: map<string, Json>, text: Json) {
    && HalveScore(GetOr(f, "gdasScrVal", Int(0))).Success?
    && CleanContent(text).Success?
    && ListField(f, "photoList").Success? && PhotoUrls(ListField(f, "photoList").value).Success?
    && RankLabel(GetOr(f, "topRvrRnk", Int(0))).Success?
    && ListField(f, "addInfoNm").Success? && SkinValues(ListField(f, "addInfoNm").value).Success?
    && OfflinePurchase(GetOr(f, "ordNo", Str(""))).Success?
    && SkinText(SkinValues(ListField(f, "addInfoNm").value).value).Success?
  }

  /** The row assembled column by column from the results of the steps. */
  function StepRow(f: map<string, Json>, text: Json): Row
    requires StepsSucceed(f, text)
  {
    var photos := ListField(f, "photoList").value;
    Row(
      Author(GetOr(f, "mbrNickNm", Str("")), GetOr(f, "mbrId", Null)),
      MemberId(GetOr(f, "mbrId", Str(""))),
      RankLabel(GetOr(f, "topRvrRnk", Int(0))).value,
      HalveScore(GetOr(f, "gdasScrVal", Int(0))).value,
      GetOr(f, "dispRegDate", Str("")),
      GetOr(f, "itemNm", Str("")),
      CleanContent(text).value,
      if |photos| > 0 then PhotoReview else PlainReview,
      if |photos| > 0 then HasPhoto else NoPhoto,
      Join(";", PhotoUrls(photos).value),
      GetOr(f, "recommCnt", Int(0)),
      YesNo(GetOr(f, "firstGdasYn", Null) == Str("N")),
      YesNo(GetOr(f, "renewUsed1mmGdasYn", Null) == Str("Y")),
      YesNo(OfflinePurchase(GetOr(f, "ordNo", Str(""))).value),
      SkinText(SkinValues(ListField(f, "addInfoNm").value).value).value)
  }

  /** The exception the first failing step raises, in the order of the source. */
  function FirstStepError(f: map<string, Json>, text: Json): PyError
    requires !StepsSucceed(f, text)
  {
    var score := HalveScore(GetOr(f, "gdasScrVal", Int(0)));
    var content := CleanContent(text);
    var photos := ListField(f, "photoList");
    var infos := ListField(f, "addInfoNm");
    var offline := OfflinePurchase(GetOr(f, "ordNo", Str("")));
    var rank := RankLabel(GetOr(f, "topRvrRnk", Int(0)));
    if score.Failure? then score.error
    else if content.Failure? then content.error
    else if photos.Failure? then photos.error
    else if PhotoUrls(photos.value).Failure? then PhotoUrls(photos.value).error
    else if rank.Failure? then rank.error
    else if infos.Failure? then infos.error
    else if SkinValues(infos.value).Failure? then SkinValues(infos.value).error
    else if offline.Failure? then offline.error
    else SkinText(SkinValues(infos.value).value).error
  }

  /**
   * The row for one raw review: `review.get` needs a dict, and the row exists
   * exactly when every step succeeds; otherwise the first failing step's
   * exception is what the loop catches.
   */
  function NormalizeRecord(review: Json): Result<Row, PyError> {
    if !review.Obj? then Failure(AttributeError)
    else RowFor(review.fields, ContentText(review.fields))
  }

  /** The row for the dict `f` when its content is read as `text`, or the first step's exception. */
  function RowFor(f: map<string, Json>, text: Json): Result<Row, PyError> {
    if StepsSucceed(f, text) then Success(StepRow(f, text))
    else Failure(FirstStepError(f, text))
  }

  // ------------------------------------------------------------ the table

  /** The row a result contributes: its value, or nothing when it raised. */
  function Kept<B>(r: Result<B, PyError>): seq<B> {
    if r.Success? then [r.value] else []
  }

  /**
   * The accumulating loop with its `try`/`except ... continue`: the rows of
   * the inputs whose processing succeeds, in input order.
   */
  function Collect<A, B>(normalize: A -> Result<B, PyError>, reviews: seq<A>): seq<B> {
    if reviews == [] then []
    else Kept(normalize(reviews[0])) + Collect(normalize, reviews[1..])
  }

  /** The table `process_reviews` builds in olive_scraper.py and news.py. */
  function Table(reviews: seq<Json>): seq<Row> {
    Collect(NormalizeRecord, reviews)
  }

  /** Splitting the input splits the output: rows keep the input's order. */
  lemma {:induction false} CollectAppend<A, B>(normalize: A -> Result<B, PyError>, xs: seq<A>, ys: seq<A>)
    ensures Collect(normalize, xs + ys) == Collect(normalize, xs) + Collect(normalize, ys)
  {
    if xs == [] {
      assert xs + ys == ys;
    } else {
      assert (xs + ys)[0] == xs[0] && (xs + ys)[1..] == xs[1..] + ys;
      CollectAppend(normalize, xs[1..], ys);
    }
  }

  /** The positions of the inputs that normalise successfully, in order. */
  function Selection<A, B>(normalize: A -> Result<B, PyError>, reviews: seq<A>): seq<nat> {
    if reviews == [] then []
    else (if normalize(reviews[0]).Success? then [0] else []) + Shifted(Selection(normalize, reviews[1..]))
  }

  /** The k-th row is the row of the review at the k-th selected position. */
  lemma {:induction false} SelectionGivesRows<A, B>(normalize: A -> Result<B, PyError>, reviews: seq<A>)
    ensures var idx := Selection(normalize, reviews);
            && |idx| == |Collect(normalize, reviews)|
            && forall k :: 0 <= k < |idx| ==>
                 idx[k] < |reviews| && normalize(reviews[idx[k]]) == Success(Collect(normalize, reviews)[k])
  {
    if reviews != [] {
      var rest := reviews[1..];
      SelectionGivesRows(normalize, rest);
      var tail := Selection(normalize, rest);
      var idx := Selection(normalize, reviews);
      var rows, restRows := Collect(normalize, reviews), Collect(normalize, rest);
      var h := if normalize(reviews[0]).Success? then 1 else 0;
      assert rows == Kept(normalize(reviews[0])) + restRows;
      forall k | h <= k < |idx|
        ensures idx[k] < |reviews| && normalize(reviews[idx[k]]) == Success(rows[k])
      {
        assert idx[k] == tail[k - h] + 1 && rows[k] == restRows[k - h];
        assert reviews[idx[k]] == rest[tail[k - h]];
      }
    }
  }

  predicate Increasing(idx: seq<nat>) {
    forall k, l :: 0 <= k < l < |idx| ==> idx[k] < idx[l]
  }

  /** The selected positions increase. */
  lemma {:induction false} SelectionIncreases<A, B>(normalize: A -> Result<B, PyError>, reviews: seq<A>)
    ensures Increasing(Selection(normalize, reviews))
  {
    if reviews != [] {
      SelectionIncreases(normalize, reviews[1..]);
      var tail := Selection(normalize, reviews[1..]);
      assert Increasing(tail);
      var idx := Selection(normalize, reviews);
      var h := if normalize(reviews[0]).Success? then 1 else 0;
      var shifted := Shifted(tail);
      assert idx == (if h == 1 then [0] else []) + shifted;
      forall k, l | 0 <= k < l < |idx| ensures idx[k] < idx[l] {
        assert idx[l] == shifted[l - h] == tail[l - h] + 1;
        if k >= h {
          assert idx[k] == shifted[k - h] == tail[k - h] + 1;
          assert 0 <= k - h < l - h < |tail|;
          assert tail[k - h] < tail[l - h];
        } else {
          assert idx[k] == 0;
        }
      }
    }
  }

  /** A position is selected exactly when its review normalises. */
  lemma {:induction false} SelectionIsExact<A, B>(normalize: A -> Result<B, PyError>, reviews: seq<A>)
    ensures forall j :: 0 <= j < |reviews| ==>
              (j in Selection(normalize, reviews) <==> normalize(reviews[j]).Success?)
  {
    if reviews != [] {
      var rest := reviews[1..];
      SelectionIsExact(normalize, rest);
      var idx := Selection(normalize, reviews);
      var shifted := Shifted(Selection(normalize, rest));
      forall j | 0 <= j < |reviews| ensures j in idx <==> normalize(reviews[j]).Success? {
        if j > 0 {
          assert reviews[j] == rest[j - 1];
          assert j in idx <==> j in shifted;
          assert (j - 1) + 1 == j;
        }
      }
    }
  }

  /** Every index moved one place on. */
  function Shifted(idx: seq<nat>): (r: seq<nat>)
    ensures |r| == |idx| && forall k :: 0 <= k < |idx| ==> r[k] == idx[k] + 1
    ensures 0 !in r
    ensures forall j: nat :: j in idx <==> j + 1 in r
  {
    seq(|idx|, k requires 0 <= k < |idx| => idx[k] + 1)
  }

  /** Taking one more input adds its row, or nothing. */
  lemma CollectStep<A, B>(normalize: A -> Result<B, PyError>, xs: seq<A>, i: nat, r: Result<B, PyError>)
    requires i < |xs| && r == normalize(xs[i])
    ensures Collect(normalize, xs[..i + 1]) == Collect(normalize, xs[..i]) + Kept(r)
  {
    assert xs[..i + 1] == xs[..i] + [xs[i]];
    CollectAppend(normalize, xs[..i], [xs[i]]);
    CollectSingle(normalize, xs[i]);
  }

  /** One input gives its row, or nothing. */
  lemma CollectSingle<A, B>(normalize: A -> Result<B, PyError>, review: A)
    ensures Collect(normalize, [review]) == Kept(normalize(review))
  {
    assert [review][1..] == [];
  }

  /** Nothing is collected exactly when every input raises. */
  lemma {:induction false} CollectEmpty<A, B>(normalize: A -> Result<B, PyError>, reviews: seq<A>)
    ensures Collect(normalize, reviews) == [] <==> forall j :: 0 <= j < |reviews| ==> normalize(reviews[j]).Failure?
  {
    if reviews != [] {
      CollectEmpty(normalize, reviews[1..]);
      assert forall j :: 1 <= j < |reviews| ==> reviews[j] == reviews[1..][j - 1];
    }
  }

  /** When no review raises, there is exactly one row per review, in order. */
  lemma {:induction false} CollectTotal<A, B>(normalize: A -> Result<B, PyError>, reviews: seq<A>)
    requires forall j :: 0 <= j < |reviews| ==> normalize(reviews[j]).Success?
    ensures |Collect(normalize, reviews)| == |reviews|
    ensures forall j :: 0 <= j < |reviews| ==>
              Collect(normalize, reviews)[j] == normalize(reviews[j]).value
  {
    if reviews != [] {
      assert forall j :: 1 <= j < |reviews| ==> reviews[j] == reviews[1..][j - 1];
      CollectTotal(normalize, reviews[1..]);
    }
  }

  // ---------------------------------------------------- per-field lemmas

  /** `d.get(k, a)` and `d.get(k, b)` agree whenever the key is present. */
  lemma GetOrDefaults(f: map<string, Json>, key: string, a: Json, b: Json)
    ensures key in f ==> GetOr(f, key, a) == GetOr(f, key, b) == f[key]
    ensures key !in f ==> GetOr(f, key, a) == a && GetOr(f, key, b) == b
  {
  }

  /**
   * Author and id are never falsy; a falsy nickname falls back to the
   * (possibly defaulted) member id, so both columns then agree.
   */
  lemma NamesFallBack(review: Json)
    requires NormalizeRecord(review).Success?
    ensures var row := NormalizeRecord(review).value;
            var f := review.fields;
            && Truthy(row.author) && Truthy(row.memberId)
            && (Truthy(GetOr(f, "mbrNickNm", Null)) ==> row.author == GetOr(f, "mbrNickNm", Null))
            && (!Truthy(GetOr(f, "mbrNickNm", Null)) ==> row.author == row.memberId)
            && (Truthy(GetOr(f, "mbrId", Null)) ==> row.memberId == GetOr(f, "mbrId", Null))
            && (!Truthy(GetOr(f, "mbrId", Null)) ==> row.memberId == Str(Unknown))
  {
    GetOrDefaults(review.fields, "mbrNickNm", Str(""), Null);
    GetOrDefaults(review.fields, "mbrId", Str(""), Null);
  }

  /** The 10-point score halved exactly: twice the rating is the score. */
  lemma RatingIsHalfScore(review: Json)
    requires NormalizeRecord(review).Success?
    ensures var row := NormalizeRecord(review).value;
            match GetOr(review.fields, "gdasScrVal", Int(0))
            case Int(i) => row.rating * 2.0 == i as real && (0 <= i <= 10 ==> 0.0 <= row.rating <= 5.0)
            case Bool(b) => row.rating * 2.0 == (if b then 1.0 else 0.0)
            case _ => false
  {
  }

  /**
   * The review text: no "<br/>" survives, nothing surrounding is space, and a
   * falsy `gdasCont` (absent, None, 0, '' or an empty container) gives ''.
   */
  lemma ContentIsClean(review: Json)
    requires NormalizeRecord(review).Success?
    ensures var c := NormalizeRecord(review).value.content;
            var text := GetOr(review.fields, "gdasCont", Null);
            && !Contains(c, LineBreakTag)
            && (c != [] ==> !IsSpace(c[0]) && !IsSpace(c[|c| - 1]))
            && (!Truthy(text) ==> c == "")
            && (Truthy(text) ==> text.Str? && c == Strip(ReplaceLineBreaks(text.s)))
  {
    GetOrDefaults(review.fields, "gdasCont", Str(""), Null);
    CleanText(Or(GetOr(review.fields, "gdasCont", Str("")), Str("")));
  }

  /** What `CleanContent` makes of a string: trimmed, and free of "<br/>". */
  lemma CleanText(text: Json)
    requires CleanContent(text).Success?
    ensures var c := CleanContent(text).value;
            && !Contains(c, LineBreakTag)
            && (c != [] ==> !IsSpace(c[0]) && !IsSpace(c[|c| - 1]))
            && (text == Str("") ==> c == "")
  {
    ReplaceLeavesNoTag(text.s);
    StripIsTrimmedSlice(ReplaceLineBreaks(text.s));
    StrippedKeepsNoTag(ReplaceLineBreaks(text.s));
  }

  /** A slice of a text without "<br/>" has none either (used for `strip`). */
  lemma StrippedKeepsNoTag(s: string)
    requires !Contains(s, LineBreakTag)
    ensures !Contains(Strip(s), LineBreakTag)
  {
    StripIsTrimmedSlice(s);
    var i, j :| 0 <= i <= j <= |s| && Strip(s) == s[i..j] && AllSpace(s[..i]) && AllSpace(s[j..]);
    SliceKeepsNoTag(s, i, j);
  }

  lemma SliceKeepsNoTag(s: string, i: nat, j: nat)
    requires i <= j <= |s|
    requires !Contains(s, LineBreakTag)
    ensures !Contains(s[i..j], LineBreakTag)
  {
    SuffixContains(s, i);
    PrefixContains(s[i..], j - i);
    assert s[i..][..j - i] == s[i..j];
  }

  lemma {:induction false} SuffixContains(s: string, i: nat)
    requires i <= |s|
    ensures Contains(s[i..], LineBreakTag) ==> Contains(s, LineBreakTag)
    decreases i
  {
    if i > 0 {
      SuffixContains(s[1..], i - 1);
      assert s[1..][i - 1..] == s[i..];
    }
  }

  lemma {:induction false} PrefixContains(s: string, j: nat)
    requires j <= |s|
    ensures Contains(s[..j], LineBreakTag) ==> Contains(s, LineBreakTag)
    decreases j
  {
    if j > 0 && Contains(s[..j], LineBreakTag) && !StartsWith(s[..j], LineBreakTag) {
      assert s[..j][1..] == s[1..][..j - 1];
      PrefixContains(s[1..], j - 1);
    } else if j > 0 && StartsWith(s[..j], LineBreakTag) {
      assert s[..|LineBreakTag|] == s[..j][..|LineBreakTag|];
    }
  }

  /**
   * The truthy `appxFilePathNm` values of the attachments, in order: the
   * paths the photo loop turns into URLs.
   */
  function PathsOf(photos: seq<Json>): seq<Json> {
    if photos == [] then []
    else (if photos[0].Obj? && Truthy(GetOr(photos[0].fields, "appxFilePathNm", Null))
          then [GetOr(photos[0].fields, "appxFilePathNm", Null)] else [])
         + PathsOf(photos[1..])
  }

  /**
   * The URL list is the image host followed by the formatted path, for each
   * truthy path in attachment order, and nothing else.
   */
  lemma {:induction false} PhotoUrlsShape(photos: seq<Json>)
    requires PhotoUrls(photos).Success?
    ensures |PhotoUrls(photos).value| == |PathsOf(photos)|
    ensures forall k :: 0 <= k < |PathsOf(photos)| ==>
              Format(PathsOf(photos)[k]).Success? &&
              PhotoUrls(photos).value[k] == ImageHost + Format(PathsOf(photos)[k]).value
  {
    if photos != [] {
      PhotoUrlsShape(photos[1..]);
      var urls := PhotoUrls(photos).value;
      var head := PhotoUrl(photos[0]).value;
      var rest := PhotoUrls(photos[1..]).value;
      var front := if photos[0].Obj? && Truthy(GetOr(photos[0].fields, "appxFilePathNm", Null))
                   then [GetOr(photos[0].fields, "appxFilePathNm", Null)] else [];
      assert urls == head + rest;
      assert PathsOf(photos) == front + PathsOf(photos[1..]);
      assert |head| == |front|;
      forall k | 0 <= k < |PathsOf(photos)|
        ensures Format(PathsOf(photos)[k]).Success? && urls[k] == ImageHost + Format(PathsOf(photos)[k]).value
      {
        if k < |front| {
          assert urls[k] == head[0] && PathsOf(photos)[k] == front[0];
        } else {
          assert urls[k] == rest[k - |front|] && PathsOf(photos)[k] == PathsOf(photos[1..])[k - |front|];
        }
      }
    }
  }

  /**
   * The skin-info loop succeeds exactly when every entry is a dict, and then
   * gives each entry's `mrkNm` (default '') in order.
   */
  lemma {:induction false} SkinValuesShape(infos: seq<Json>)
    ensures SkinValues(infos).Success? <==> forall i :: 0 <= i < |infos| ==> infos[i].Obj?
    ensures SkinValues(infos).Success? ==>
              && |SkinValues(infos).value| == |infos|
              && forall k :: 0 <= k < |infos| ==> SkinValues(infos).value[k] == GetOr(infos[k].fields, "mrkNm", Str(""))
  {
    if infos != [] {
      SkinValuesShape(infos[1..]);
      assert forall i :: 1 <= i < |infos| ==> infos[1..][i - 1] == infos[i];
      if SkinValues(infos).Success? {
        var rest := SkinValues(infos[1..]).value;
        assert SkinValues(infos).value == [GetOr(infos[0].fields, "mrkNm", Str(""))] + rest;
      }
    }
  }

  /**
   * The 사진URL column is the `;`-join of the image host plus each truthy
   * path, and the 피부정보 column the `', '`-join of each skin entry's
   * `mrkNm`, which are all strings when the row exists.
   */
  lemma ListColumns(review: Json)
    requires NormalizeRecord(review).Success?
    ensures var paths := PathsOf(ListField(review.fields, "photoList").value);
            && (forall k :: 0 <= k < |paths| ==> Format(paths[k]).Success?)
            && NormalizeRecord(review).value.photoUrls ==
               Join(";", HostUrls(paths))
    ensures var infos := ListField(review.fields, "addInfoNm").value;
            && MarksAreText(infos)
            && NormalizeRecord(review).value.skin ==
               Join(", ", MarkNames(infos))
  {
    var f := review.fields;
    assert NormalizeRecord(review).value == StepRow(f, ContentText(f));
    PhotoColumn(f);
    SkinColumn(f);
  }

  lemma PhotoColumn(f: map<string, Json>)
    requires StepsSucceed(f, ContentText(f))
    ensures var paths := PathsOf(ListField(f, "photoList").value);
            && (forall k :: 0 <= k < |paths| ==> Format(paths[k]).Success?)
            && StepRow(f, ContentText(f)).photoUrls ==
               Join(";", HostUrls(paths))
  {
    var photos := ListField(f, "photoList").value;
    ListColumnsRaw(f);
    UrlList(photos);
  }

  lemma SkinColumn(f: map<string, Json>)
    requires StepsSucceed(f, ContentText(f))
    ensures var infos := ListField(f, "addInfoNm").value;
            && MarksAreText(infos)
            && StepRow(f, ContentText(f)).skin ==
               Join(", ", MarkNames(infos))
  {
    var infos := ListField(f, "addInfoNm").value;
    ListColumnsRaw(f);
    MarkList(infos);
  }

  /** The image host followed by each formatted path. */
  function HostUrls(paths: seq<Json>): (urls: seq<string>)
    requires forall k :: 0 <= k < |paths| ==> Format(paths[k]).Success?
    ensures |urls| == |paths| && forall k :: 0 <= k < |paths| ==> StartsWith(urls[k], ImageHost)
  {
    seq(|paths|, k requires 0 <= k < |paths| => ImageHost + Format(paths[k]).value)
  }

  /** Every skin entry is a dict whose `mrkNm` (default '') is a string. */
  predicate MarksAreText(infos: seq<Json>) {
    forall k :: 0 <= k < |infos| ==> infos[k].Obj? && GetOr(infos[k].fields, "mrkNm", Str("")).Str?
  }

  /** The `mrkNm` text of each skin entry. */
  function MarkNames(infos: seq<Json>): seq<string>
    requires MarksAreText(infos)
  {
    seq(|infos|, k requires 0 <= k < |infos| => GetOr(infos[k].fields, "mrkNm", Str("")).s)
  }

  /** The two list columns, as the row builds them from the loops' results. */
  lemma ListColumnsRaw(f: map<string, Json>)
    requires StepsSucceed(f, ContentText(f))
    ensures StepRow(f, ContentText(f)).photoUrls == Join(";", PhotoUrls(ListField(f, "photoList").value).value)
    ensures StepRow(f, ContentText(f)).skin == SkinText(SkinValues(ListField(f, "addInfoNm").value).value).value
  {
  }

  lemma UrlList(photos: seq<Json>)
    requires PhotoUrls(photos).Success?
    ensures var paths := PathsOf(photos);
            && (forall k :: 0 <= k < |paths| ==> Format(paths[k]).Success?)
            && PhotoUrls(photos).value ==
               HostUrls(paths)
  {
    PhotoUrlsShape(photos);
  }

  lemma MarkList(infos: seq<Json>)
    requires SkinValues(infos).Success? && SkinText(SkinValues(infos).value).Success?
    ensures && MarksAreText(infos)
            && SkinText(SkinValues(infos).value).value ==
               Join(", ", MarkNames(infos))
  {
    var values := SkinValues(infos).value;
    SkinValuesShape(infos);
    if values != [] {
      assert forall k :: 0 <= k < |values| ==> values[k].Str?;
      assert seq(|values|, k requires 0 <= k < |values| => values[k].s) == MarkNames(infos);
    }
  }

  /**
   * 포토리뷰 and 있음 go together and depend only on `photoList` being
   * non-empty, not on how many URLs were built.
   */
  lemma PhotoMarksAgree(review: Json)
    requires NormalizeRecord(review).Success?
    ensures var row := NormalizeRecord(review).value;
            && (row.kind == PhotoReview <==> row.photoMark == HasPhoto)
            && (row.kind == PhotoReview <==> Truthy(GetOr(review.fields, "photoList", Null)))
            && (row.kind == PhotoReview || row.kind == PlainReview)
  {
    var f := review.fields;
    assert NormalizeRecord(review).value == StepRow(f, ContentText(f));
    PhotoColumns(f);
    ListFieldNonEmpty(f, "photoList");
    assert PhotoReview[0] != PlainReview[0] && HasPhoto[0] != NoPhoto[0];
  }

  lemma PhotoColumns(f: map<string, Json>)
    requires StepsSucceed(f, ContentText(f))
    ensures var n := |ListField(f, "photoList").value|;
            && StepRow(f, ContentText(f)).kind == (if n > 0 then PhotoReview else PlainReview)
            && StepRow(f, ContentText(f)).photoMark == (if n > 0 then HasPhoto else NoPhoto)
  {
  }

  /** `d.get(k) or []` has elements exactly when `d.get(k)` is truthy. */
  lemma ListFieldNonEmpty(f: map<string, Json>, key: string)
    ensures ListField(f, key).Success? ==> (|ListField(f, key).value| > 0 <==> Truthy(GetOr(f, key, Null)))
  {
    GetOrDefaults(f, key, Arr([]), Null);
  }

  /**
   * Attachments without a path still make a photo review (사진여부 있음),
   * with an empty URL column.
   */
  lemma PhotoWithoutPath(review: Json)
    requires NormalizeRecord(review).Success?
    requires ListField(review.fields, "photoList").value != []
    requires PathsOf(ListField(review.fields, "photoList").value) == []
    ensures NormalizeRecord(review).value.kind == PhotoReview
    ensures NormalizeRecord(review).value.photoMark == HasPhoto
    ensures NormalizeRecord(review).value.photoUrls == ""
  {
    var photos := ListField(review.fields, "photoList").value;
    PhotoUrlsShape(photos);
    assert PhotoUrls(photos).value == [];
  }

  /** The rank badge is shown exactly for a positive rank (or `True`). */
  lemma RankBadge(rank: Json)
    ensures RankLabel(rank).Failure? <==> Truthy(rank) && !rank.Int? && !rank.Bool?
    ensures RankLabel(rank).Success? ==>
              (RankLabel(rank).value != Ordinary <==> (rank.Int? && rank.i > 0) || rank == Bool(true))
    ensures rank.Int? && rank.i > 0 ==> RankLabel(rank) == Success("TOP " + IntToString(rank.i) + "위")
  {
  }

  /** The three derived flags, read literally off their sentinel fields. */
  lemma FlagsFollowSentinels(review: Json)
    requires NormalizeRecord(review).Success?
    ensures var row := NormalizeRecord(review).value;
            var f := review.fields;
            && (row.repurchase == Yes <==> "firstGdasYn" in f && f["firstGdasYn"] == Str("N"))
            && (row.monthPlus == Yes <==> "renewUsed1mmGdasYn" in f && f["renewUsed1mmGdasYn"] == Str("Y"))
            && (row.offline == Yes <==>
                  "ordNo" in f && f["ordNo"].Str? && f["ordNo"].s != "" && !StartsWith(f["ordNo"].s, "Y"))
            && row.repurchase in {Yes, No} && row.monthPlus in {Yes, No} && row.offline in {Yes, No}
  {
    var f := review.fields;
    assert NormalizeRecord(review).value == StepRow(f, ContentText(f));
    RepurchaseFlag(f);
    MonthFlag(f);
    OfflineFlag(f);
  }

  lemma RepurchaseFlag(f: map<string, Json>)
    requires StepsSucceed(f, ContentText(f))
    ensures StepRow(f, ContentText(f)).repurchase == Yes <==> "firstGdasYn" in f && f["firstGdasYn"] == Str("N")
    ensures StepRow(f, ContentText(f)).repurchase in {Yes, No}
  {
    assert StepRow(f, ContentText(f)).repurchase == YesNo(GetOr(f, "firstGdasYn", Null) == Str("N"));
  }

  lemma MonthFlag(f: map<string, Json>)
    requires StepsSucceed(f, ContentText(f))
    ensures StepRow(f, ContentText(f)).monthPlus == Yes <==> "renewUsed1mmGdasYn" in f && f["renewUsed1mmGdasYn"] == Str("Y")
    ensures StepRow(f, ContentText(f)).monthPlus in {Yes, No}
  {
    assert StepRow(f, ContentText(f)).monthPlus == YesNo(GetOr(f, "renewUsed1mmGdasYn", Null) == Str("Y"));
  }

  lemma OfflineFlag(f: map<string, Json>)
    requires StepsSucceed(f, ContentText(f))
    ensures StepRow(f, ContentText(f)).offline == Yes <==>
              "ordNo" in f && f["ordNo"].Str? && f["ordNo"].s != "" && !StartsWith(f["ordNo"].s, "Y")
    ensures StepRow(f, ContentText(f)).offline in {Yes, No}
  {
    var o := GetOr(f, "ordNo", Str(""));
    OfflineMeaning(o);
    assert StepRow(f, ContentText(f)).offline == YesNo(OfflinePurchase(o).value);
  }

  lemma OfflineMeaning(o: Json)
    requires OfflinePurchase(o).Success?
    ensures OfflinePurchase(o).value <==> o.Str? && o.s != "" && !StartsWith(o.s, "Y")
  {
  }

  /**
   * The worked example: a review without nickname, score 8, a text with one
   * tag, no photos, and the repurchase, one-month and non-'Y' order-number
   * sentinels ("great<br/>product" is the text of the standard instance).
   */
  function ExampleReview(text: string): map<string, Json> {
    map["gdasScrVal" := Int(8), "mbrNickNm" := Str(""), "mbrId" := Str("user1"),
        "dispRegDate" := Str("2024-01-01"), "gdasCont" := Str(text),
        "photoList" := Arr([]), "firstGdasYn" := Str("N"),
        "renewUsed1mmGdasYn" := Str("Y"), "ordNo" := Str("X123"), "topRvrRnk" := Int(0)]
  }

  const ExampleKeys: seq<string> :=
    ["gdasScrVal", "mbrNickNm", "mbrId", "dispRegDate", "gdasCont", "photoList",
     "firstGdasYn", "renewUsed1mmGdasYn", "ordNo", "topRvrRnk"]

  /**
   * The row of the worked example: the id stands in for the missing nickname,
   * 8 becomes 4.0, the tag becomes a line break, and the three flags are set.
   */
  lemma WorkedExample(first: string, second: string)
    requires first != [] && !IsSpace(first[0]) && forall i :: 0 <= i < |first| ==> first[i] != '<'
    requires second != [] && !IsSpace(second[|second| - 1]) && forall i :: 0 <= i < |second| ==> second[i] != '<'
    ensures NormalizeRecord(Obj(ExampleKeys, ExampleReview(first + LineBreakTag + second))) == Success(Row(
              Str("user1"), Str("user1"), Ordinary, 4.0, Str("2024-01-01"), Str(""),
              first + "\n" + second, PlainReview, NoPhoto, "", Int(0), Yes, Yes, Yes, ""))
  {
    ExampleRow(first + LineBreakTag + second);
    ReplaceOneTag(first, second);
    var content := first + "\n" + second;
    assert content[0] == first[0] && content[|content| - 1] == second[|second| - 1];
    StripUntouched(content);
  }

  /** The example's row, step by step. */
  lemma ExampleRow(text: string)
    ensures NormalizeRecord(Obj(ExampleKeys, ExampleReview(text))) == Success(Row(
              Str("user1"), Str("user1"), Ordinary, 4.0, Str("2024-01-01"), Str(""),
              Strip(ReplaceLineBreaks(text)), PlainReview, NoPhoto, "", Int(0), Yes, Yes, Yes, ""))
  {
    ExampleSteps(text);
    ExampleColumns(text);
  }

  lemma ExampleSteps(text: string)
    ensures StepsSucceed(ExampleReview(text), ContentText(ExampleReview(text)))
  {
    ExampleScalars(text);
    ExampleContent(text);
    ExampleLists(text);
  }

  lemma ExampleColumns(text: string)
    requires StepsSucceed(ExampleReview(text), ContentText(ExampleReview(text)))
    ensures StepRow(ExampleReview(text), ContentText(ExampleReview(text))) == Row(
              Str("user1"), Str("user1"), Ordinary, 4.0, Str("2024-01-01"), Str(""),
              Strip(ReplaceLineBreaks(text)), PlainReview, NoPhoto, "", Int(0), Yes, Yes, Yes, "")
  {
    ExampleIdentity(text);
    ExampleMeasures(text);
    ExampleMarks(text);
  }

  lemma ExampleIdentity(text: string)
    requires StepsSucceed(ExampleReview(text), ContentText(ExampleReview(text)))
    ensures var r := StepRow(ExampleReview(text), ContentText(ExampleReview(text)));
            && r.author == Str("user1") && r.memberId == Str("user1")
            && r.writtenOn == Str("2024-01-01") && r.option == Str("") && r.helpful == Int(0)
  {
    ExampleValues(text);
  }

  lemma ExampleMeasures(text: string)
    requires StepsSucceed(ExampleReview(text), ContentText(ExampleReview(text)))
    ensures var r := StepRow(ExampleReview(text), ContentText(ExampleReview(text)));
            r.rank == Ordinary && r.rating == 4.0 && r.content == Strip(ReplaceLineBreaks(text))
  {
    ExampleScalars(text);
    ExampleContent(text);
  }

  lemma ExampleMarks(text: string)
    requires StepsSucceed(ExampleReview(text), ContentText(ExampleReview(text)))
    ensures var r := StepRow(ExampleReview(text), ContentText(ExampleReview(text)));
            && r.kind == PlainReview && r.photoMark == NoPhoto && r.photoUrls == ""
            && r.repurchase == Yes && r.monthPlus == Yes && r.offline == Yes && r.skin == ""
  {
    ExampleLists(text);
    ExampleValues(text);
    ExampleScalars(text);
  }

  lemma ExampleScalars(text: string)
    ensures HalveScore(GetOr(ExampleReview(text), "gdasScrVal", Int(0))) == Success(4.0)
    ensures RankLabel(GetOr(ExampleReview(text), "topRvrRnk", Int(0))) == Success(Ordinary)
    ensures OfflinePurchase(GetOr(ExampleReview(text), "ordNo", Str(""))) == Success(true)
  {
    assert OfflinePurchase(Str("X123")) == Success(true) by {
      assert "X123"[0] != "Y"[0];
    }
  }

  lemma ExampleContent(text: string)
    ensures CleanContent(ContentText(ExampleReview(text))) == Success(Strip(ReplaceLineBreaks(text)))
  {
    var v := GetOr(ExampleReview(text), "gdasCont", Str(""));
    assert v == Str(text);
    assert ContentText(ExampleReview(text)) == Str(text);
  }

  lemma ExampleLists(text: string)
    ensures ListField(ExampleReview(text), "photoList") == Success([])
    ensures ListField(ExampleReview(text), "addInfoNm") == Success([])
    ensures PhotoUrls([]) == Success([]) && SkinValues([]) == Success([]) && SkinText([]) == Success("")
  {
  }

  lemma ExampleValues(text: string)
    ensures var f := ExampleReview(text);
      && GetOr(f, "mbrNickNm", Str("")) == Str("")
      && GetOr(f, "mbrId", Null) == GetOr(f, "mbrId", Str("")) == Str("user1")
      && GetOr(f, "dispRegDate", Str("")) == Str("2024-01-01")
      && GetOr(f, "itemNm", Str("")) == Str("")
      && GetOr(f, "recommCnt", Int(0)) == Int(0)
      && GetOr(f, "firstGdasYn", Null) == Str("N")
      && GetOr(f, "renewUsed1mmGdasYn", Null) == Str("Y")
  {
  }

  // ------------------------------------------------------------ the loops

  /** The `for p in photo_list` loop of `process_reviews`. */
  method CollectPhotoUrls(photos: seq<Json>) returns (res: Result<seq<string>, PyError>)
    ensures res == PhotoUrls(photos)
  {
    var urls: seq<string> := [];
    var i := 0;
    assert photos[0..] == photos;
    PrependNothing(PhotoUrls(photos));
    while i < |photos|
      invariant 0 <= i <= |photos|
      invariant PhotoUrls(photos) == Prepend(urls, PhotoUrls(photos[i..]))
    {
      PhotoUrlsStep(photos[i..]);
      assert photos[i..][1..] == photos[i + 1..];
      var p := photos[i];
      if !p.Obj? {
        return Failure(AttributeError);
      }
      var path := GetOr(p.fields, "appxFilePathNm", Null);
      if Truthy(path) {
        var text := Format(path);
        if text.Failure? {
          return Failure(text.error);
        }
        PrependTwice(urls, [ImageHost + text.value], PhotoUrls(photos[i + 1..]));
        urls := urls + [ImageHost + text.value];
      } else {
        PrependNothing(PhotoUrls(photos[i + 1..]));
      }
      i := i + 1;
    }
    assert photos[i..] == [] && urls + [] == urls;
    res := Success(urls);
  }

  lemma PhotoUrlsStep(photos: seq<Json>)
    requires photos != []
    ensures PhotoUrls(photos) == match PhotoUrl(photos[0])
                                 case Success(head) => Prepend(head, PhotoUrls(photos[1..]))
                                 case Failure(e) => Failure(e)
  {
  }

  lemma SkinValuesStep(infos: seq<Json>)
    requires infos != []
    ensures SkinValues(infos) == if infos[0].Obj?
                                 then Prepend([GetOr(infos[0].fields, "mrkNm", Str(""))], SkinValues(infos[1..]))
                                 else Failure(AttributeError)
  {
  }

  /** `front` followed by the outcome of the rest of a loop. */
  function Prepend<T>(front: seq<T>, r: Result<seq<T>, PyError>): Result<seq<T>, PyError> {
    match r
    case Success(v) => Success(front + v)
    case Failure(e) => Failure(e)
  }

  lemma PrependNothing<T>(r: Result<seq<T>, PyError>)
    ensures Prepend([], r) == r
  {
    if r.Success? {
      assert [] + r.value == r.value;
    }
  }

  lemma PrependTwice<T>(a: seq<T>, b: seq<T>, r: Result<seq<T>, PyError>)
    ensures Prepend(a, Prepend(b, r)) == Prepend(a + b, r)
  {
    if r.Success? {
      assert a + (b + r.value) == (a + b) + r.value;
    }
  }

  /** The `for inf in ... addInfoNm` loop: the `mrkNm` of every entry. */
  method CollectSkinValues(infos: seq<Json>) returns (res: Result<seq<Json>, PyError>)
    ensures res == SkinValues(infos)
  {
    var values: seq<Json> := [];
    var i := 0;
    assert infos[0..] == infos;
    PrependNothing(SkinValues(infos));
    while i < |infos|
      invariant 0 <= i <= |infos|
      invariant SkinValues(infos) == Prepend(values, SkinValues(infos[i..]))
    {
      SkinValuesStep(infos[i..]);
      assert infos[i..][1..] == infos[i + 1..];
      if !infos[i].Obj? {
        return Failure(AttributeError);
      }
      PrependTwice(values, [GetOr(infos[i].fields, "mrkNm", Str(""))], SkinValues(infos[i + 1..]));
      values := values + [GetOr(infos[i].fields, "mrkNm", Str(""))];
      i := i + 1;
    }
    assert infos[i..] == [] && values + [] == values;
    res := Success(values);
  }

  /**
   * The body of the `try` in `process_reviews` for one review; each step that
   * can raise ends the attempt with its exception.
   */
  method NormalizeReview(review: Json) returns (res: Result<Row, PyError>)
    ensures res == NormalizeRecord(review)
  {
    if !review.Obj? {
      return Failure(AttributeError);
    }
    var f := review.fields;
    var author := Author(GetOr(f, "mbrNickNm", Str("")), GetOr(f, "mbrId", Null));
    var memberId := MemberId(GetOr(f, "mbrId", Str("")));
    var rating := HalveScore(GetOr(f, "gdasScrVal", Int(0)));
    if rating.Failure? { assert !StepsSucceed(f, ContentText(f)); return Failure(rating.error); }
    var writtenOn := GetOr(f, "dispRegDate", Str(""));
    var content := CleanContent(Or(GetOr(f, "gdasCont", Str("")), Str("")));
    if content.Failure? { assert !StepsSucceed(f, ContentText(f)); return Failure(content.error); }
    var option := GetOr(f, "itemNm", Str(""));
    var photos := Elements(Or(GetOr(f, "photoList", Arr([])), Arr([])));
    if photos.Failure? { assert !StepsSucceed(f, ContentText(f)); return Failure(photos.error); }
    var hasPhoto := |photos.value| > 0;
    var urls := CollectPhotoUrls(photos.value);
    if urls.Failure? { assert !StepsSucceed(f, ContentText(f)); return Failure(urls.error); }
    var helpful := GetOr(f, "recommCnt", Int(0));
    var rank := RankLabel(GetOr(f, "topRvrRnk", Int(0)));
    if rank.Failure? { assert !StepsSucceed(f, ContentText(f)); return Failure(rank.error); }
    var infos := Elements(Or(GetOr(f, "addInfoNm", Arr([])), Arr([])));
    if infos.Failure? { assert !StepsSucceed(f, ContentText(f)); return Failure(infos.error); }
    var skinValues := CollectSkinValues(infos.value);
    if skinValues.Failure? { assert !StepsSucceed(f, ContentText(f)); return Failure(skinValues.error); }
    var repurchase := GetOr(f, "firstGdasYn", Null) == Str("N");
    var monthPlus := GetOr(f, "renewUsed1mmGdasYn", Null) == Str("Y");
    var offline := OfflinePurchase(GetOr(f, "ordNo", Str("")));
    if offline.Failure? { assert !StepsSucceed(f, ContentText(f)); return Failure(offline.error); }
    var skin := SkinText(skinValues.value);
    if skin.Failure? { assert !StepsSucceed(f, ContentText(f)); return Failure(skin.error); }
    assert StepsSucceed(f, ContentText(f));
    res := Success(Row(author, memberId, rank.value, rating.value, writtenOn, option, content.value,
                       if hasPhoto then PhotoReview else PlainReview,
                       if hasPhoto then HasPhoto else NoPhoto,
                       Join(";", urls.value), helpful, YesNo(repurchase), YesNo(monthPlus),
                       YesNo(offline.value), skin.value));
  }

  /** `process_reviews`: append each review's row, skip the ones that raise. */
  method ProcessReviews(reviews: seq<Json>) returns (rows: seq<Row>)
    ensures rows == Table(reviews)
  {
    rows := [];
    var i := 0;
    while i < |reviews|
      invariant 0 <= i <= |reviews|
      invariant rows == Table(reviews[..i])
    {
      var res := NormalizeReview(reviews[i]);
      CollectStep(NormalizeRecord, reviews, i, res);
      rows := rows + Kept(res);
      i := i + 1;
    }
    assert reviews[..i] == reviews;
  }

}
