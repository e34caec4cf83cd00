/**
 * What `save_results` writes, in olive_scraper.py and news.py alike: the raw
 * review list as JSON first and always, then the spreadsheet and the
 * processed JSON only when the table has rows. Every file name carries the
 * product id and one timestamp taken once by `strftime("%Y%m%d_%H%M%S")`.
 * The writing itself (directories, openpyxl, `json.dump`) is not modelled;
 * the plan is the list of files with what goes into each.
 */
module SavePlan {
  import opened Py
  import opened Normalizer

  // ------------------------------------------------------------ timestamps

  /** The local time `datetime.now()` reads, to the second. */
  datatype Clock = Clock(year: nat, month: nat, day: nat, hour: nat, minute: nat, second: nat)

  /** Times whose `%Y` is four digits and whose fields are in range. */
  predicate Representable(c: Clock) {
    && 1000 <= c.year <= 9999
    && 1 <= c.month <= 12 && 1 <= c.day <= 31
    && c.hour < 24 && c.minute < 60 && c.second < 60
  }

  /** `n` in `w` decimal digits, zero-padded on the left (`%02d`, `%04d`). */
  function Pad(n: nat, w: nat): (r: string)
    ensures |r| == w && AllDigits(r)
    decreases w
  {
    if w == 0 then "" else Pad(n / 10, w - 1) + [DigitChar(n % 10)]
  }

  predicate AllDigits(s: string) {
    forall i :: 0 <= i < |s| ==> IsDigit(s[i])
  }

  const StampLength: nat := 15

  /** Three numbers as `w`, 2 and 2 digits: `%Y%m%d` (w = 4) or `%H%M%S` (w = 2). */
  function Digits3(x: nat, y: nat, z: nat, w: nat): (r: string)
    ensures |r| == w + 4 && AllDigits(r)
  {
    Pad(x, w) + Pad(y, 2) + Pad(z, 2)
  }

  /**
   * `strftime("%Y%m%d_%H%M%S")`: whatever the time, eight digits, an
   * underscore and six digits, the shape `ParseStamp` reads.
   */
  function Stamp(c: Clock): (s: string)
    ensures |s| == StampLength && s[8] == '_'
    ensures AllDigits(s[..8]) && AllDigits(s[9..])
  {
    var date := Digits3(c.year, c.month, c.day, 4);
    var time := Digits3(c.hour, c.minute, c.second, 2);
    SplitAtUnderscore(date, time);
    date + "_" + time
  }

  /** The three numbers of a `w + 4`-digit text read as `w`, 2 and 2 digits. */
  function Read3(s: string, w: nat): (nat, nat, nat)
    requires |s| == w + 4 && AllDigits(s)
  {
    DigitSlices(s, w);
    (DigitsValue(s[..w]), DigitsValue(s[w..w + 2]), DigitsValue(s[w + 2..]))
  }

  lemma DigitSlices(s: string, w: nat)
    requires |s| == w + 4 && AllDigits(s)
    ensures AllDigits(s[..w]) && AllDigits(s[w..w + 2]) && AllDigits(s[w + 2..])
  {
  }

  /** Reads a timestamp back: eight digits, `_`, six digits. */
  function ParseStamp(s: string): Option<Clock> {
    if |s| == StampLength && s[8] == '_' && AllDigits(s[..8]) && AllDigits(s[9..]) then
      var (year, month, day) := Read3(s[..8], 4);
      var (hour, minute, second) := Read3(s[9..], 2);
      Some(Clock(year, month, day, hour, minute, second))
    else None
  }

  lemma DivMod10(v: nat, d: nat)
    requires d < 10
    ensures (10 * v + d) / 10 == v && (10 * v + d) % 10 == d
  {
  }

  /** Padding is exact for numbers that fit: `w` digits that read back as `n`. */
  lemma {:induction false} PadValue(n: nat, w: nat)
    requires n < Pow10(w)
    ensures |Pad(n, w)| == w && AllDigits(Pad(n, w))
    ensures DigitsValue(Pad(n, w)) == n
  {
    if w > 0 {
      PadValue(n / 10, w - 1);
      var p := Pad(n, w);
      assert p[..w - 1] == Pad(n / 10, w - 1);
    }
  }

  /** Every run of digits is the padding of its own value to its own length. */
  lemma {:induction false} DigitsPad(s: string)
    requires AllDigits(s)
    ensures DigitsValue(s) < Pow10(|s|)
    ensures Pad(DigitsValue(s), |s|) == s
  {
    if s != [] {
      var init := s[..|s| - 1];
      var last := s[|s| - 1];
      assert AllDigits(init);
      DigitsPad(init);
      var v := DigitsValue(init);
      var d: nat := last as int - '0' as int;
      LastDigit(s, v, d);
      DivMod10(v, d);
      assert DigitChar(d) == last;
      assert s == init + [last];
    }
  }

  lemma LastDigit(s: string, v: nat, d: nat)
    requires s != [] && AllDigits(s)
    requires v == DigitsValue(s[..|s| - 1]) && d == s[|s| - 1] as int - '0' as int
    ensures DigitsValue(s) == 10 * v + d
  {
    assert IsDigit(s[|s| - 1]);
    assert DecimalDigit(s[|s| - 1]) == Some(d);
  }

  /** `Digits3` and `Read3` are inverse on numbers that fit their widths. */
  lemma Digits3RoundTrip(x: nat, y: nat, z: nat, w: nat)
    requires x < Pow10(w) && y < 100 && z < 100
    ensures |Digits3(x, y, z, w)| == w + 4 && AllDigits(Digits3(x, y, z, w))
    ensures Read3(Digits3(x, y, z, w), w) == (x, y, z)
  {
    PadValue(x, w); PadValue(y, 2); PadValue(z, 2);
    var s := Digits3(x, y, z, w);
    assert s[..w] == Pad(x, w);
    assert s[w..w + 2] == Pad(y, 2);
    assert s[w + 2..] == Pad(z, 2);
  }

  lemma Read3Exact(s: string, w: nat)
    requires |s| == w + 4 && AllDigits(s)
    ensures var (x, y, z) := Read3(s, w); Digits3(x, y, z, w) == s
  {
    DigitSlices(s, w);
    DigitsPad(s[..w]); DigitsPad(s[w..w + 2]); DigitsPad(s[w + 2..]);
    assert s == s[..w] + s[w..w + 2] + s[w + 2..];
  }

  lemma SplitAtUnderscore(a: string, b: string)
    requires |a| == 8
    ensures var s := a + "_" + b; s[..8] == a && s[8] == '_' && s[9..] == b
  {
    var s := a + "_" + b;
    assert s[..8] == a;
    assert s[9..] == b;
  }

  /** The timestamp of a time reads back as that time, so distinct seconds give distinct stamps. */
  lemma StampRoundTrip(c: Clock)
    requires Representable(c)
    ensures |Stamp(c)| == StampLength
    ensures ParseStamp(Stamp(c)) == Some(c)
  {
    Digits3RoundTrip(c.year, c.month, c.day, 4);
    Digits3RoundTrip(c.hour, c.minute, c.second, 2);
    SplitAtUnderscore(Digits3(c.year, c.month, c.day, 4), Digits3(c.hour, c.minute, c.second, 2));
  }

  /** Conversely, a text `ParseStamp` accepts is the timestamp of what it reads. */
  lemma ParseStampExact(s: string)
    requires ParseStamp(s).Some?
    ensures Stamp(ParseStamp(s).value) == s
  {
    var c := ParseStamp(s).value;
    var date, time := s[..8], s[9..];
    Read3Exact(date, 4);
    Read3Exact(time, 2);
    assert Digits3(c.year, c.month, c.day, 4) == date;
    assert Digits3(c.hour, c.minute, c.second, 2) == time;
    JoinAtUnderscore(s);
  }

  lemma JoinAtUnderscore(s: string)
    requires |s| > 8 && s[8] == '_'
    ensures s == s[..8] + "_" + s[9..]
  {
  }

  // ------------------------------------------------------------ file names

  const Shop := "올리브영_리뷰_"
  const RawTag := "원본_"
  const ProcessedTag := "가공_"

  /** `f"올리브영_리뷰{tag}_{product_id}_{date_str}{ext}"` with the tag's own underscore. */
  function FileName(tag: string, id: string, date: string, ext: string): string {
    Shop + tag + id + "_" + date + ext
  }

  /** One file `save_results` writes, with what goes into it. */
  datatype Output =
    | RawJson(name: string, reviews: seq<Json>)
    | Spreadsheet(name: string, rows: seq<Row>)
    | ProcessedJson(name: string, rows: seq<Row>)

  function Tag(o: Output): string {
    if o.RawJson? then RawTag else if o.ProcessedJson? then ProcessedTag else ""
  }

  function Extension(o: Output): string {
    if o.Spreadsheet? then ".xlsx" else ".json"
  }

  /**
   * `save_results(product_id, reviews, df, ...)` with `date_str` already taken:
   * the files in the order they are written. The raw JSON is always written
   * and always first; the other two files exist exactly when the table has
   * rows, hold the table, and come spreadsheet first, processed JSON second.
   */
  function Plan(id: string, date: string, reviews: seq<Json>, table: seq<Row>): (plan: seq<Output>)
    ensures |plan| == (if table == [] then 1 else 3)
    ensures plan[0] == RawJson(FileName(RawTag, id, date, ".json"), reviews)
    ensures forall i :: 1 <= i < |plan| ==> !plan[i].RawJson? && plan[i].rows == table
    ensures table != [] ==> plan[1].Spreadsheet? && plan[2].ProcessedJson?
  {
    [RawJson(FileName(RawTag, id, date, ".json"), reviews)] +
    if table != [] then
      [Spreadsheet(FileName("", id, date, ".xlsx"), table),
       ProcessedJson(FileName(ProcessedTag, id, date, ".json"), table)]
    else []
  }

  /**
   * The product id and the timestamp a file name was built from, for names
   * whose timestamp has the length `strftime` gives it.
   */
  function Unname(name: string, tag: string, ext: string): Option<(string, string)> {
    var head := |Shop + tag|;
    var tail := |ext| + StampLength;
    if |name| >= head + 1 + tail && name[..head] == Shop + tag && name[|name| - |ext|..] == ext
       && name[|name| - tail - 1] == '_'
    then Some((name[head..|name| - tail - 1], name[|name| - tail..|name| - |ext|]))
    else None
  }

  /** A file name gives back the product id and timestamp it was built from. */
  lemma NameRoundTrip(tag: string, id: string, date: string, ext: string)
    requires |date| == StampLength
    ensures Unname(FileName(tag, id, date, ext), tag, ext) == Some((id, date))
  {
    var name := FileName(tag, id, date, ext);
    var head := |Shop + tag|;
    assert name == (Shop + tag) + id + "_" + date + ext;
    assert name[..head] == Shop + tag;
    assert name[|name| - |ext|..] == ext;
    assert name[head..|name| - |ext| - StampLength - 1] == id;
    assert name[|name| - |ext| - StampLength..|name| - |ext|] == date;
  }

  /** Every file of one save carries the same product id and the same timestamp. */
  lemma PlanSharesStamp(id: string, date: string, reviews: seq<Json>, table: seq<Row>, i: nat)
    requires |date| == StampLength
    requires i < |Plan(id, date, reviews, table)|
    ensures var o := Plan(id, date, reviews, table)[i];
            Unname(o.name, Tag(o), Extension(o)) == Some((id, date))
  {
    var o := Plan(id, date, reviews, table)[i];
    NameRoundTrip(Tag(o), id, date, Extension(o));
  }

  /** The files of one save never overwrite each other. */
  lemma PlanNamesDistinct(id: string, date: string, reviews: seq<Json>, table: seq<Row>, i: nat, j: nat)
    requires i < j < |Plan(id, date, reviews, table)|
    ensures Plan(id, date, reviews, table)[i].name != Plan(id, date, reviews, table)[j].name
  {
    var plan := Plan(id, date, reviews, table);
    if i == 0 && j == 2 {
      var a := plan[0].name;
      var b := plan[2].name;
      assert a[|Shop|] == '원' && b[|Shop|] == '가';
    }
  }

  /** Two saves with different product ids or different timestamps write different raw files. */
  lemma RawNamesDiffer(id: string, date: string, id': string, date': string)
    requires |date| == StampLength && |date'| == StampLength
    requires (id, date) != (id', date')
    ensures FileName(RawTag, id, date, ".json") != FileName(RawTag, id', date', ".json")
  {
    NameRoundTrip(RawTag, id, date, ".json");
    NameRoundTrip(RawTag, id', date', ".json");
  }

  /** The save after `process_reviews`: the table is the normalised review list. */
  lemma SaveAfterProcessing(id: string, date: string, reviews: seq<Json>)
    ensures |Plan(id, date, reviews, Table(reviews))| == 3 <==> exists i :: 0 <= i < |reviews| && NormalizeRecord(reviews[i]).Success?
  {
    CollectEmpty(NormalizeRecord, reviews);
  }
}
