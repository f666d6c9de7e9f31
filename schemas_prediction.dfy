/**
 * The response shapes of the prediction routes (app/schemas/prediction.py):
 * `PredictionOutput`, `PredictionRecord` and the projection of a stored row
 * onto a `PredictionRecord`, with the optional link to its image.
 */
module PredictionSchema {
  import opened Wrappers
  import opened PredictionModel

  /** The body of a successful `POST /predict`: a single string label. */
  datatype PredictionOutput = PredictionOutput(result: string)

  /**
   * What the read routes return for a stored row. It never carries the owner
   * or the image bytes; `imageUrl` is absent unless asked for.
   */
  datatype PredictionRecord = PredictionRecord(
    id: nat,
    inputData: InputData,
    outputData: OutputData,
    timestamp: Timestamp,
    imageUrl: Option<string> := None)

  // Decimal rendering of ids, as Python's f-string formats an int.

  predicate IsDigit(c: char) { '0' <= c <= '9' }

  predicate AllDigits(s: string) { forall i :: 0 <= i < |s| ==> IsDigit(s[i]) }

  function DigitChar(d: nat): (c: char)
    requires d < 10
    ensures IsDigit(c) && (c as int) - ('0' as int) == d
  {
    (('0' as int) + d) as char
  }

  /** A numeral as Python's `str` writes an int: digits, and no leading zero unless it is `"0"`. */
  predicate IsCanonicalDecimal(s: string)
  {
    |s| >= 1 && AllDigits(s) && (s[0] == '0' ==> s == "0")
  }

  /** The shortest decimal numeral of `n`. */
  function Decimal(n: nat): (s: string)
    ensures IsCanonicalDecimal(s)
    ensures s[0] == '0' ==> n == 0
    decreases n
  {
    if n < 10 then [DigitChar(n)] else Decimal(n / 10) + [DigitChar(n % 10)]
  }

  /** The value of a numeral; leading zeros are accepted, as for an `int` path parameter. */
  function ParseDecimal(s: string): nat
    requires AllDigits(s)
  {
    if s == [] then 0
    else ParseDecimal(s[..|s| - 1]) * 10 + ((s[|s| - 1] as int) - ('0' as int))
  }

  lemma {:induction false} DecimalRoundTrip(n: nat)
    ensures ParseDecimal(Decimal(n)) == n
    decreases n
  {
    if n >= 10 {
      var s := Decimal(n);
      assert s[..|s| - 1] == Decimal(n / 10);
      DecimalRoundTrip(n / 10);
    }
  }

  const ImageUrlPrefix: string := "/predictions/"
  const ImageUrlSuffix: string := "/image"

  /** The part of a path between the image route's fixed prefix and suffix. */
  function UrlMiddle(url: string): string
    requires |url| >= |ImageUrlPrefix| + |ImageUrlSuffix|
  {
    url[|ImageUrlPrefix|..|url| - |ImageUrlSuffix|]
  }

  /** The path of the route that streams the image of prediction `id`. */
  function ImageUrl(id: nat): (url: string)
    ensures |url| > |ImageUrlPrefix| + |ImageUrlSuffix|
    ensures url[..|ImageUrlPrefix|] == ImageUrlPrefix
    ensures url[|url| - |ImageUrlSuffix|..] == ImageUrlSuffix
    ensures IsCanonicalDecimal(UrlMiddle(url))
  {
    var url := ImageUrlPrefix + Decimal(id) + ImageUrlSuffix;
    assert UrlMiddle(url) == Decimal(id);
    url
  }

  /**
   * Matches a path against the route template `/predictions/{id}/image` and
   * reads the decimal `id` out of it; `None` when the path does not match.
   * A canonical numeral in the path is exactly the link built for its id.
   */
  function ParseImageUrl(url: string): (id: Option<nat>)
    ensures id.Some? <==>
              |url| > |ImageUrlPrefix| + |ImageUrlSuffix|
              && url[..|ImageUrlPrefix|] == ImageUrlPrefix
              && url[|url| - |ImageUrlSuffix|..] == ImageUrlSuffix
              && AllDigits(UrlMiddle(url))
    ensures id.Some? && IsCanonicalDecimal(UrlMiddle(url)) ==> url == ImageUrl(id.value)
  {
    if |url| > |ImageUrlPrefix| + |ImageUrlSuffix|
       && url[..|ImageUrlPrefix|] == ImageUrlPrefix
       && url[|url| - |ImageUrlSuffix|..] == ImageUrlSuffix
       && AllDigits(UrlMiddle(url))
    then
      var middle := UrlMiddle(url);
      CanonicalDecimalRoundTrip(middle);
      assert url == ImageUrlPrefix + middle + ImageUrlSuffix;
      Some(ParseDecimal(middle))
    else None
  }

  /** A numeral starting with a non-zero digit has a positive value. */
  lemma {:induction false} LeadingNonZeroIsPositive(s: string)
    requires |s| >= 1 && AllDigits(s) && s[0] != '0'
    ensures ParseDecimal(s) >= 1
  {
    if |s| > 1 {
      LeadingNonZeroIsPositive(s[..|s| - 1]);
    }
  }

  /** Writing out the value of a canonical numeral gives back the numeral. */
  lemma {:induction false} CanonicalDecimalRoundTrip(s: string)
    requires AllDigits(s)
    ensures IsCanonicalDecimal(s) ==> Decimal(ParseDecimal(s)) == s
  {
    if !IsCanonicalDecimal(s) {
    } else if |s| > 1 {
      var init := s[..|s| - 1];
      var d := (s[|s| - 1] as int) - ('0' as int);
      LeadingNonZeroIsPositive(init);
      CanonicalDecimalRoundTrip(init);
      var n := ParseDecimal(s);
      assert n == ParseDecimal(init) * 10 + d;
      assert n / 10 == ParseDecimal(init) && n % 10 == d;
      assert DigitChar(d) == s[|s| - 1];
      assert s == init + [s[|s| - 1]];
    } else {
      assert DigitChar((s[0] as int) - ('0' as int)) == s[0];
    }
  }

  /** An image link leads back to the prediction it was built for. */
  lemma {:induction false} ImageUrlRoundTrip(id: nat)
    ensures ParseImageUrl(ImageUrl(id)) == Some(id)
  {
    var url := ImageUrl(id);
    assert UrlMiddle(url) == Decimal(id);
    DecimalRoundTrip(id);
  }

  /** Distinct predictions get distinct image links. */
  lemma ImageUrlInjective(a: nat, b: nat)
    ensures ImageUrl(a) == ImageUrl(b) <==> a == b
  {
    if ImageUrl(a) == ImageUrl(b) {
      ImageUrlRoundTrip(a);
      ImageUrlRoundTrip(b);
    }
  }

  /**
   * `PredictionRecord.from_orm_with_image`: copies the id, both JSON columns
   * and the timestamp, and adds the image link only when `includeImage` holds
   * (false by default).
   */
  function FromOrmWithImage(p: Prediction, includeImage: bool := false): (rec: PredictionRecord)
    ensures rec.id == p.id && rec.inputData == p.inputData
    ensures rec.outputData == p.outputData && rec.timestamp == p.timestamp
    ensures rec.imageUrl.Some? <==> includeImage
    ensures includeImage ==> ParseImageUrl(rec.imageUrl.value) == Some(p.id)
  {
    ImageUrlRoundTrip(p.id);
    PredictionRecord(p.id, p.inputData, p.outputData, p.timestamp,
                     if includeImage then Some(ImageUrl(p.id)) else None)
  }

  /** Without the flag, and with the field's own default, a record has no image link. */
  lemma ProjectionDefaultsOmitImage(p: Prediction)
    ensures FromOrmWithImage(p).imageUrl == None
    ensures PredictionRecord(p.id, p.inputData, p.outputData, p.timestamp) == FromOrmWithImage(p)
  {
  }
}
