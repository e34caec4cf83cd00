/**
 * The input checks of olive_gui.py: `extract_product_id`, which accepts an
 * Olive Young product id (`A` and twelve digits) or an `http(s)://` URL
 * carrying a `goodsNo` query value, and the checks `start_collection` makes
 * before it starts a collection: the product input is stripped and must not
 * be empty, the id must be extracted, the page count must be an `int()` of
 * at least 1, and the output directory must exist or be created. The
 * widgets, message boxes and log lines are not modelled.
 */
module Gui {
  import opened Py

  // ------------------------------------------------------------ the pattern

  /** One position of a regular expression without repetition operators. */
  datatype CharClass = Exactly(c: char) | Between(lo: char, hi: char)

  predicate Matches(k: CharClass, c: char) {
    match k
    case Exactly(x) => c == x
    case Between(lo, hi) => lo <= c <= hi
  }

  /** `re.fullmatch` of a pattern made of single-character classes. */
  predicate FullMatch(pattern: seq<CharClass>, s: string)
    decreases |pattern|
  {
    if pattern == [] then s == []
    else s != [] && Matches(pattern[0], s[0]) && FullMatch(pattern[1..], s[1..])
  }

  /** `A[0-9]{12}` with the repetition written out. */
  const IdPattern: seq<CharClass> := [Exactly('A')] + seq(12, _ => Between('0', '9'))

  /** A full match is a match position by position over the whole text. */
  lemma {:induction false} FullMatchPositions(pattern: seq<CharClass>, s: string)
    ensures FullMatch(pattern, s) <==>
              |s| == |pattern| && forall i :: 0 <= i < |s| ==> Matches(pattern[i], s[i])
    decreases |pattern|
  {
    if pattern != [] && s != [] {
      FullMatchPositions(pattern[1..], s[1..]);
      if Matches(pattern[0], s[0]) && |s| == |pattern| {
        assert forall i :: 1 <= i < |s| ==> pattern[1..][i - 1] == pattern[i] && s[1..][i - 1] == s[i];
      }
    }
  }

  /** The product ids `A[0-9]{12}` accepts: `A` and twelve ASCII digits. */
  predicate IsProductId(s: string) {
    |s| == 13 && s[0] == 'A' && forall i :: 1 <= i < 13 ==> IsDigit(s[i])
  }

  lemma IdPatternMeaning(s: string)
    ensures FullMatch(IdPattern, s) <==> IsProductId(s)
  {
    FullMatchPositions(IdPattern, s);
    assert |IdPattern| == 13 && IdPattern[0] == Exactly('A');
    assert forall i :: 1 <= i < 13 ==> IdPattern[i] == Between('0', '9');
  }

  // ------------------------------------------------------------ extraction

  /**
   * `parse_qs(urlparse(url).query).get('goodsNo', [None])[0]`: the first
   * `goodsNo` value if the key is there, or the ValueError `urlparse`
   * raises on a malformed URL (an unclosed `[` in the host, say). URL
   * parsing and percent-decoding are not modelled.
   */
  type GoodsNoLookup = string -> Result<Option<string>, PyError>

  predicate IsUrl(s: string) {
    StartsWith(s, "http://") || StartsWith(s, "https://")
  }

  /**
   * `extract_product_id(input_string)`: `Success(None)` where the source
   * returns `None`, `Failure` where `urlparse` raises.
   */
  function ExtractProductId(input: string, goodsNo: GoodsNoLookup): (r: Result<Option<string>, PyError>)
    ensures r.Success? && r.value.Some? ==> r.value.value != ""
    ensures r.Failure? ==> IsUrl(input) && r == goodsNo(input)
  {
    if IsUrl(input) then
      match goodsNo(input)
      case Failure(e) => Failure(e)
      case Success(Some(v)) => Success(if v != "" then Some(v) else None)
      case Success(None) => Success(None)
    else if FullMatch(IdPattern, input) then Success(Some(input))
    else Success(None)
  }

  /**
   * Text that is not a URL never raises, is accepted exactly when it is a
   * product id, and is then returned as it is; the query lookup is never
   * consulted.
   */
  lemma PlainInput(input: string, goodsNo: GoodsNoLookup, other: GoodsNoLookup)
    requires !IsUrl(input)
    ensures ExtractProductId(input, goodsNo).Success?
    ensures ExtractProductId(input, goodsNo).value.Some? <==> IsProductId(input)
    ensures ExtractProductId(input, goodsNo).value.Some? ==>
              var id := ExtractProductId(input, goodsNo).value.value;
              id == input && |id| == 13 && id[0] == 'A'
    ensures ExtractProductId(input, goodsNo) == ExtractProductId(input, other)
  {
    IdPatternMeaning(input);
  }

  /**
   * A URL raises exactly when parsing it raises, and otherwise gives its
   * `goodsNo` value when there is a non-empty one and nothing otherwise,
   * whatever that value looks like: the branch is chosen by the prefix
   * alone and the value is not checked against the pattern.
   */
  lemma UrlInput(input: string, goodsNo: GoodsNoLookup)
    requires IsUrl(input)
    ensures ExtractProductId(input, goodsNo).Failure? <==> goodsNo(input).Failure?
    ensures ExtractProductId(input, goodsNo).Success? ==>
              (ExtractProductId(input, goodsNo).value.Some? <==>
                 goodsNo(input).value.Some? && goodsNo(input).value.value != "")
    ensures ExtractProductId(input, goodsNo).Success? && ExtractProductId(input, goodsNo).value.Some? ==>
              ExtractProductId(input, goodsNo) == goodsNo(input)
  {
  }

  /** A URL whose `goodsNo` is not a product id still yields it. */
  lemma UrlValueUnchecked()
    ensures var url := "https://" + "www.oliveyoung.co.kr/store/goods/getGoodsDetail.do?goodsNo=12345";
            ExtractProductId(url, _ => Success(Some("12345"))) == Success(Some("12345")) && !IsProductId("12345")
  {
    var url := "https://" + "www.oliveyoung.co.kr/store/goods/getGoodsDetail.do?goodsNo=12345";
    assert url[..8] == "https://";
  }

  /** A product id is a fixed point: extracting from what was extracted gives it back. */
  lemma PlainIdempotent(input: string, goodsNo: GoodsNoLookup)
    requires !IsUrl(input) && ExtractProductId(input, goodsNo).Success? && ExtractProductId(input, goodsNo).value.Some?
    ensures ExtractProductId(ExtractProductId(input, goodsNo).value.value, goodsNo) == ExtractProductId(input, goodsNo)
  {
  }

  // ------------------------------------------------------------ start checks

  /**
   * Why `start_collection` gives up before starting. The first four show a
   * message box and enable the start button again; `Escaped` is an
   * exception that leaves the slot, with the start button left disabled.
   */
  datatype Rejection =
    | NoInput                  // the stripped product input is empty
    | BadProduct               // `extract_product_id` returned nothing
    | BadPages                 // `int(max_pages_str)` raised ValueError or gave a number below 1
    | NoOutputDir              // the output directory is missing and `os.makedirs` raised OSError
    | Escaped(error: PyError)  // `urlparse` raised inside `extract_product_id`

  /** What a collection is started with. */
  datatype Job = Job(productId: string, maxPages: int)

  /**
   * `start_collection` on the two input fields: the product text is
   * stripped, and the page-count text goes through `int()`. `dirReady`
   * says whether the output directory exists or `os.makedirs` creates it;
   * the file system is not modelled.
   */
  function StartCollection(productText: string, pagesText: string, goodsNo: GoodsNoLookup, dirReady: bool): (r: Result<Job, Rejection>)
    ensures r == Failure(NoInput) <==> Strip(productText) == ""
    ensures r.Success? ==> ExtractProductId(Strip(productText), goodsNo) == Success(Some(r.value.productId)) &&
                           ParseInt(pagesText) == Some(r.value.maxPages) && r.value.maxPages >= 1 && dirReady
    ensures r.Failure? && r.error.Escaped? ==> ExtractProductId(Strip(productText), goodsNo) == Failure(r.error.error)
  {
    Checks(Strip(productText), ParseInt(pagesText), goodsNo, dirReady)
  }

  /**
   * The checks in their order, given the stripped product input and what
   * `int(max_pages_str)` gives (`None` for ValueError).
   */
  function Checks(input: string, pages: Option<int>, goodsNo: GoodsNoLookup, dirReady: bool): (r: Result<Job, Rejection>)
    ensures r == Failure(NoInput) <==> input == ""
    ensures r.Success? ==> ExtractProductId(input, goodsNo) == Success(Some(r.value.productId)) &&
                           pages == Some(r.value.maxPages) && r.value.maxPages >= 1 && r.value.productId != "" && dirReady
    ensures r.Failure? && r.error.Escaped? ==> ExtractProductId(input, goodsNo) == Failure(r.error.error)
  {
    if input == "" then Failure(NoInput)
    else match ExtractProductId(input, goodsNo)
      case Failure(e) => Failure(Escaped(e))
      case Success(None) => Failure(BadProduct)
      case Success(Some(id)) =>
        match pages
        case None => Failure(BadPages)
        case Some(n) =>
          if n <= 0 then Failure(BadPages)
          else if !dirReady then Failure(NoOutputDir)
          else Success(Job(id, n))
  }

  /**
   * The product input is checked before the page count and the output
   * directory: a rejection of the product input stands whatever the page
   * count and the directory are.
   */
  lemma ProductCheckedFirst(productText: string, pagesText: string, pagesText': string, goodsNo: GoodsNoLookup,
                            dirReady: bool, dirReady': bool)
    requires StartCollection(productText, pagesText, goodsNo, dirReady).Failure?
    requires StartCollection(productText, pagesText, goodsNo, dirReady).error !in {BadPages, NoOutputDir}
    ensures StartCollection(productText, pagesText', goodsNo, dirReady') == StartCollection(productText, pagesText, goodsNo, dirReady)
  {
    ChecksProductFirst(Strip(productText), ParseInt(pagesText), ParseInt(pagesText'), goodsNo, dirReady, dirReady');
  }

  lemma ChecksProductFirst(input: string, pages: Option<int>, pages': Option<int>, goodsNo: GoodsNoLookup,
                           dirReady: bool, dirReady': bool)
    requires Checks(input, pages, goodsNo, dirReady).Failure?
    requires Checks(input, pages, goodsNo, dirReady).error !in {BadPages, NoOutputDir}
    ensures Checks(input, pages', goodsNo, dirReady') == Checks(input, pages, goodsNo, dirReady)
  {
  }

  /**
   * A URL that `urlparse` cannot parse ends `start_collection` with that
   * exception, whatever the page count and the output directory.
   */
  lemma MalformedUrlEscapes(productText: string, pagesText: string, goodsNo: GoodsNoLookup, dirReady: bool)
    requires IsUrl(Strip(productText)) && goodsNo(Strip(productText)).Failure?
    ensures StartCollection(productText, pagesText, goodsNo, dirReady) == Failure(Escaped(goodsNo(Strip(productText)).error))
  {
    var input := Strip(productText);
    assert input != "" by {
      assert input[0] == 'h';
    }
    UrlFailureEscapes(input, ParseInt(pagesText), goodsNo, dirReady);
  }

  lemma UrlFailureEscapes(input: string, pages: Option<int>, goodsNo: GoodsNoLookup, dirReady: bool)
    requires input != "" && IsUrl(input) && goodsNo(input).Failure?
    ensures Checks(input, pages, goodsNo, dirReady) == Failure(Escaped(goodsNo(input).error))
  {
  }

  /**
   * Whitespace around either input changes nothing: the product input is
   * stripped and `int()` ignores surrounding whitespace.
   */
  lemma PaddingIgnored(a: string, b: string, productText: string, pagesText: string, goodsNo: GoodsNoLookup, dirReady: bool)
    requires AllSpace(a) && AllSpace(b)
    ensures StartCollection(a + productText + b, a + pagesText + b, goodsNo, dirReady) ==
            StartCollection(productText, pagesText, goodsNo, dirReady)
  {
    StripPadded(a, productText, b);
    ParsePadded(a, pagesText, b);
  }

  /**
   * With an accepted product input, a page count written `str(n)` is
   * rejected when `n < 1` or when it has more than `MaxStrDigits` digits,
   * which `int()` refuses; otherwise a collection of `n` pages starts
   * exactly when the output directory is ready.
   */
  lemma PageCount(productText: string, n: int, goodsNo: GoodsNoLookup, dirReady: bool)
    requires Strip(productText) != ""
    requires ExtractProductId(Strip(productText), goodsNo).Success? && ExtractProductId(Strip(productText), goodsNo).value.Some?
    ensures n < 1 || |NatToString(Magnitude(n))| > MaxStrDigits ==>
              StartCollection(productText, IntToString(n), goodsNo, dirReady) == Failure(BadPages)
    ensures n >= 1 && |NatToString(n)| <= MaxStrDigits && !dirReady ==>
              StartCollection(productText, IntToString(n), goodsNo, dirReady) == Failure(NoOutputDir)
    ensures n >= 1 && |NatToString(n)| <= MaxStrDigits && dirReady ==>
              StartCollection(productText, IntToString(n), goodsNo, dirReady) ==
              Success(Job(ExtractProductId(Strip(productText), goodsNo).value.value, n))
  {
    IntToStringRoundTrip(n);
    assert StartCollection(productText, IntToString(n), goodsNo, dirReady) ==
           Checks(Strip(productText), ParseInt(IntToString(n)), goodsNo, dirReady);
  }

  /**
   * A product id typed with surrounding spaces, a positive page count of at
   * most `MaxStrDigits` digits and a ready output directory start a
   * collection of it; a longer page count is refused like any other bad one.
   */
  lemma TypedProductId(a: string, id: string, b: string, n: nat, goodsNo: GoodsNoLookup)
    requires AllSpace(a) && AllSpace(b) && IsProductId(id) && n >= 1
    ensures StartCollection(a + id + b, NatToString(n), goodsNo, true) ==
            if |NatToString(n)| <= MaxStrDigits then Success(Job(id, n)) else Failure(BadPages)
  {
    StripPaddedId(a, id, b);
    AcceptsId(id, goodsNo);
    NatRoundTrip(n);
  }

  lemma StripPaddedId(a: string, id: string, b: string)
    requires AllSpace(a) && AllSpace(b) && IsProductId(id)
    ensures Strip(a + id + b) == id
  {
    StripPadded(a, id, b);
    assert !IsSpace(id[0]) && !IsSpace(id[12]);
    StripUntouched(id);
  }

  lemma AcceptsId(id: string, goodsNo: GoodsNoLookup)
    requires IsProductId(id)
    ensures ExtractProductId(id, goodsNo) == Success(Some(id))
  {
    assert !IsUrl(id) by {
      assert id[0] == 'A';
    }
    IdPatternMeaning(id);
  }
}
