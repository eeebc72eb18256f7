/**
 * Image payload normalisation: every entry point turns the selected image,
 * which the uploader delivers as a data URI, into the bare base64 text the
 * generation service expects, by taking the piece after the first comma.
 */
module Payload {
  import opened Text

  /** `data:<mime>;base64,<data>`, the form in which images travel to and from the page. */
  function DataUri(mime: string, data: string): (r: string)
    ensures |r| == |mime| + |data| + 13
    ensures r[..5] == "data:" && r[|r| - |data|..] == data
    ensures r[5..5 + |mime|] == mime && r[5 + |mime|..13 + |mime|] == ";base64,"
  {
    "data:" + mime + ";base64," + data
  }

  /**
   * Reference reading of the normalisation: the text after the first comma,
   * up to the next comma or the end of the input.
   */
  function SecondPiece(s: string): string
    requires ',' in s
  {
    var rest := s[IndexOf(s, ',') + 1..];
    if ',' in rest then rest[..IndexOf(rest, ',')] else rest
  }

  /**
   * `image.split(',')[1] || image`: the second comma-separated piece when it
   * exists and is non-empty, otherwise the input unchanged.
   */
  function CleanBase64(image: string): (r: string)
    ensures r == (if ',' in image && SecondPiece(image) != "" then SecondPiece(image) else image)
    ensures r == image || (r != "" && ',' !in r)
  {
    SecondPieceOfSplit(image);
    var pieces := Split(image, ',');
    if |pieces| > 1 && pieces[1] != "" then pieces[1] else image
  }

  /** The second piece of a split on `','` is the reference second piece. */
  lemma SecondPieceOfSplit(s: string)
    ensures ',' in s <==> |Split(s, ',')| > 1
    ensures ',' in s ==> Split(s, ',')[1] == SecondPiece(s)
  {
    if ',' in s {
      var rest := s[IndexOf(s, ',') + 1..];
      SplitFirstPiece(rest, ',');
    }
  }

  /** An input without a comma is passed through unchanged. */
  lemma CleanWithoutComma(s: string)
    requires ',' !in s
    ensures CleanBase64(s) == s
  {
  }

  /** With exactly one comma, the text after it is kept, unless it is empty. */
  lemma CleanOneComma(a: string, b: string)
    requires ',' !in a && ',' !in b
    ensures CleanBase64(a + "," + b) == (if b == "" then a + "," else b)
  {
    var s := a + "," + b;
    IndexOfAfterHead(a, ',', b);
    assert s[|a| + 1..] == b;
  }

  /** With more than one comma, only the text between the first two is kept, unless it is empty. */
  lemma CleanSeveralCommas(a: string, b: string, t: string)
    requires ',' !in a && ',' !in b
    ensures CleanBase64(a + "," + b + "," + t) == (if b == "" then a + "," + b + "," + t else b)
  {
    var s := a + "," + b + "," + t;
    assert s == a + [','] + (b + [','] + t);
    IndexOfAfterHead(a, ',', b + [','] + t);
    assert s[|a| + 1..] == b + [','] + t;
    IndexOfAfterHead(b, ',', t);
  }

  /** Normalising twice is the same as normalising once. */
  lemma CleanIdempotent(s: string)
    ensures CleanBase64(CleanBase64(s)) == CleanBase64(s)
  {
  }

  /**
   * A data URI of a non-empty comma-free payload normalises to the payload,
   * exactly as the bare payload does.
   */
  lemma CleanDataUri(mime: string, data: string)
    requires ',' !in mime && ',' !in data && data != ""
    ensures CleanBase64(DataUri(mime, data)) == data == CleanBase64(data)
  {
    assert DataUri(mime, data) == ("data:" + mime + ";base64") + "," + data;
    CleanOneComma("data:" + mime + ";base64", data);
  }

  /**
   * A data URI with an empty payload is passed through whole, so it is not
   * normalised the way the bare (empty) payload is.
   */
  lemma CleanEmptyDataUri(mime: string)
    requires ',' !in mime
    ensures CleanBase64(DataUri(mime, "")) == DataUri(mime, "") != CleanBase64("")
  {
    assert DataUri(mime, "") == ("data:" + mime + ";base64") + "," + "";
    CleanOneComma("data:" + mime + ";base64", "");
  }
}
