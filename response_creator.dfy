/**
 * The HTTP response builder of the lexer's web server. Content is appended
 * chunk by chunk; rendering produces a status line and four fixed header
 * lines (the message layout of section 2.1 of RFC 9112, with the status line
 * of section 4), an empty line, the chunks in append order, and a final CRLF.
 */
module ResponseCreator {
  import opened Text

  newtype uint16 = x: int | 0 <= x < 0x1_0000

  /** `enum content_type`. */
  datatype ContentType = TypeHtml | TypeJson

  /** What a response creator holds: status code, content type and the appended chunks. */
  datatype Response = Response(statusCode: uint16, contentType: ContentType, chunks: seq<CString>)

  const CRLF: string := "\r\n"
  const BLANK_LINE: string := "\r\n\r\n"
  /** The start of the status line: protocol version and a space. */
  const STATUS_PREFIX: string := "HTTP/1.1 "

  /** The media type written in the Content-Type header. */
  function ContentTypeText(t: ContentType): (s: string)
    ensures t == TypeHtml ==> s == "text/html"
    ensures t == TypeJson ==> s == "application/json"
  {
    match t
    case TypeHtml => "text/html"
    case TypeJson => "application/json"
  }

  /** The reason phrase of the status line: only 404 has its own. */
  function StatusText(code: uint16): (s: string)
    ensures code == 404 <==> s == "NOT FOUND"
    ensures code != 404 <==> s == "OK"
  {
    if code == 404 then "NOT FOUND" else "OK"
  }

  /** A header line: not empty and free of CR, LF and NUL. */
  predicate IsLine(l: string)
  {
    |l| > 0 && '\r' !in l && '\n' !in l && '\0' !in l
  }

  /** Each line followed by CRLF. */
  function Lines(ls: seq<string>): string
  {
    if |ls| == 0 then "" else Lines(ls[..|ls| - 1]) + ls[|ls| - 1] + CRLF
  }

  /** The status line and the four fixed header fields, without their line ends. */
  function HeaderLines(code: uint16, contentType: ContentType): seq<string>
  {
    [ STATUS_PREFIX + NatToDecimal(code as nat) + " " + StatusText(code),
      "Server: Integrated Compiler Server",
      "Content-Type: " + ContentTypeText(contentType),
      "Connection: Closed",
      "Access-Control-Allow-Origin: *" ]
  }

  lemma NumeralIsLine(n: nat)
    ensures IsLine(NatToDecimal(n))
  {
  }

  lemma LineAppend(a: string, b: string)
    requires IsLine(a) && '\r' !in b && '\n' !in b && '\0' !in b
    ensures IsLine(a + b)
  {
  }

  lemma StatusLineIsLine(code: uint16)
    ensures IsLine(STATUS_PREFIX + NatToDecimal(code as nat) + " " + StatusText(code))
  {
    var digits := NatToDecimal(code as nat);
    NumeralIsLine(code as nat);
    LineAppend(STATUS_PREFIX, digits);
    LineAppend(STATUS_PREFIX + digits, " ");
    LineAppend("HTTP/1.1 " + digits + " ", StatusText(code));
  }

  // One literal per lemma: checking several string literals in one proof is costly.
  lemma ServerLineIsLine() ensures IsLine("Server: Integrated Compiler Server") {}
  lemma ContentTypeFieldIsLine() ensures IsLine("Content-Type: ") {}
  lemma HtmlIsLine() ensures IsLine("text/html") {}
  lemma JsonIsLine() ensures IsLine("application/json") {}

  lemma ContentTypeLineIsLine(t: ContentType)
    ensures IsLine("Content-Type: " + ContentTypeText(t))
  {
    ContentTypeFieldIsLine();
    if t == TypeHtml { HtmlIsLine(); } else { JsonIsLine(); }
    LineAppend("Content-Type: ", ContentTypeText(t));
  }
  lemma ConnectionLineIsLine() ensures IsLine("Connection: Closed") {}
  lemma AllowOriginLineIsLine() ensures IsLine("Access-Control-Allow-Origin: *") {}

  lemma {:induction false} LinesAreNulFree(ls: seq<string>)
    requires forall i :: 0 <= i < |ls| ==> IsLine(ls[i])
    ensures '\0' !in Lines(ls)
  {
    if |ls| > 0 {
      LinesAreNulFree(ls[..|ls| - 1]);
    }
  }

  /** A rendered response is a C string: none of its parts holds a NUL. */
  lemma RenderIsCString(r: Response)
    ensures '\0' !in Render(r)
  {
    HeaderLinesAreLines(r.statusCode, r.contentType);
    var ls := HeaderLines(r.statusCode, r.contentType);
    LinesAreNulFree(ls);
    ConcatOfCStrings(r.chunks);
  }

  /** Each header line is a proper line: not empty, no CR, no LF. */
  lemma HeaderLinesAreLines(code: uint16, contentType: ContentType)
    ensures var ls := HeaderLines(code, contentType);
            |ls| == 5 && IsLine(ls[0]) && IsLine(ls[1]) && IsLine(ls[2]) && IsLine(ls[3]) && IsLine(ls[4])
  {
    StatusLineIsLine(code);
    ServerLineIsLine();
    ContentTypeLineIsLine(contentType);
    ConnectionLineIsLine();
    AllowOriginLineIsLine();
  }

  /** What `sprintf(headerStr, headerTemplate, ...)` writes: the header lines and an empty line. */
  function Header(code: uint16, contentType: ContentType): string
  {
    Lines(HeaderLines(code, contentType)) + CRLF
  }

  /** `responseCreator_getResponse`: header, the chunks in append order, CRLF. */
  function Render(r: Response): string
  {
    Header(r.statusCode, r.contentType) + Concat(r.chunks) + CRLF
  }

  // ---------------------------------------------------------------------------
  // Reading a rendered response back
  // ---------------------------------------------------------------------------

  /** Lines that are not empty never hold an empty line, so no CRLF CRLF. */
  lemma {:induction false} LinesHaveNoBlankLine(ls: seq<string>)
    requires forall i :: 0 <= i < |ls| ==> IsLine(ls[i])
    ensures forall j: nat :: !OccursAt(Lines(ls), BLANK_LINE, j)
  {
    if |ls| > 0 {
      var prefix := ls[..|ls| - 1];
      var l := ls[|ls| - 1];
      LinesHaveNoBlankLine(prefix);
      var p := Lines(prefix);
      var s := Lines(ls);
      assert s == p + l + CRLF;
      forall j: nat | j + 4 <= |s|
        ensures !OccursAt(s, BLANK_LINE, j)
      {
        if j + 4 <= |p| {
          assert p[j..j + 4] == s[j..j + 4];
          assert !OccursAt(p, BLANK_LINE, j);
          assert !OccursAt(s, BLANK_LINE, j);
        } else {
          var k := if j >= |p| then j else |p|;
          assert s[k] == l[k - |p|];
          assert l[k - |p|] in l;
          assert s[j..j + 4][k - j] == s[k];
          assert BLANK_LINE[k - j] == '\r' || BLANK_LINE[k - j] == '\n';
          assert !OccursAt(s, BLANK_LINE, j);
        }
      }
    }
  }

  /**
   * Non-empty lines followed by an empty line: the first CRLF CRLF is the one
   * that ends the last line, whatever follows.
   */
  lemma LinesEndAtFirstBlankLine(ls: seq<string>, rest: string)
    requires |ls| > 0 && forall i :: 0 <= i < |ls| ==> IsLine(ls[i])
    ensures Find(Lines(ls) + CRLF + rest, BLANK_LINE) == Some(|Lines(ls)| - 2)
  {
    var lines := Lines(ls);
    var s := lines + CRLF + rest;
    var last := ls[|ls| - 1];
    var before := Lines(ls[..|ls| - 1]);
    assert lines == before + last + CRLF;
    assert s == before + last + CRLF + CRLF + rest;
    var m := |lines| - 2;
    assert s[m..m + 4] == BLANK_LINE;
    assert OccursAt(s, BLANK_LINE, m);
    LinesHaveNoBlankLine(ls);
    assert IsLine(last);
    forall j: nat | j < m
      ensures !OccursAt(s, BLANK_LINE, j)
    {
      if j + 4 <= |lines| {
        assert s[j..j + 4] == lines[j..j + 4];
        assert !OccursAt(lines, BLANK_LINE, j);
      } else {
        assert j == m - 1;
        assert s[j] == last[|last| - 1];
        assert last[|last| - 1] in last;
        assert s[j..j + 4][0] == s[j];
      }
    }
  }

  /**
   * The first CRLF CRLF of a rendered response is the one that ends its
   * header, whatever follows the header.
   */
  lemma HeaderEndsAtFirstBlankLine(code: uint16, contentType: ContentType, rest: string)
    ensures Find(Header(code, contentType) + rest, BLANK_LINE) == Some(|Header(code, contentType)| - 4)
  {
    var ls := HeaderLines(code, contentType);
    HeaderLinesAreLines(code, contentType);
    LinesEndAtFirstBlankLine(ls, rest);
    assert Header(code, contentType) + rest == Lines(ls) + CRLF + rest;
  }

  /** The text after the first CRLF CRLF of a rendered response is its content and the final CRLF. */
  lemma RenderedContent(r: Response)
    ensures var h := Header(r.statusCode, r.contentType);
            Find(Render(r), BLANK_LINE) == Some(|h| - 4) &&
            Render(r)[|h|..] == Concat(r.chunks) + CRLF
  {
    var h := Header(r.statusCode, r.contentType);
    HeaderEndsAtFirstBlankLine(r.statusCode, r.contentType, Concat(r.chunks) + CRLF);
    assert Render(r) == h + (Concat(r.chunks) + CRLF);
  }

  /** The longest prefix of `s` made of decimal digits. */
  function DigitRun(s: string): (d: string)
    ensures d <= s && AllDigits(d)
    ensures |d| < |s| ==> !IsDigit(s[|d|])
  {
    if |s| == 0 || !IsDigit(s[0]) then "" else [s[0]] + DigitRun(s[1..])
  }

  /** A run of digits that the text does not continue with a digit is its digit run. */
  lemma DigitRunOf(d: string, s: string)
    requires AllDigits(d) && d <= s
    requires |s| > |d| ==> !IsDigit(s[|d|])
    ensures DigitRun(s) == d
  {
    var x := DigitRun(s);
    assert x == s[..|x|] && d == s[..|d|];
  }

  /** The status code a client reads from the status line, when there is one. */
  function StatusCodeOf(response: string): Option<nat>
  {
    if STATUS_PREFIX <= response then
      var digits := DigitRun(response[|STATUS_PREFIX|..]);
      if |digits| == 0 then None else Some(DecimalValue(digits))
    else None
  }

  /** A prefix that is the concatenation of two strings is made of their prefixes. */
  lemma PrefixSplit(a: string, b: string, s: string)
    requires a + b <= s
    ensures a <= s && b <= s[|a|..]
  {
    assert s[..|a| + |b|] == a + b;
    assert s[..|a|] == (a + b)[..|a|];
    assert s[|a|..][..|b|] == (a + b)[|a|..];
  }

  lemma PrefixOfConcat(a: string, b: string)
    ensures a <= a + b
  {
    assert (a + b)[..|a|] == a;
  }

  /** Text starting with `HTTP/1.1 `, a numeral and a space carries that numeral's value. */
  lemma StatusCodeOfPrefix(digits: string, s: string)
    requires |digits| >= 1 && AllDigits(digits)
    requires STATUS_PREFIX + digits + " " <= s
    ensures StatusCodeOf(s) == Some(DecimalValue(digits))
  {
    PrefixSplit(STATUS_PREFIX + digits, " ", s);
    PrefixSplit(STATUS_PREFIX, digits, s);
    var t := s[|STATUS_PREFIX|..];
    assert t[|digits|] == s[|STATUS_PREFIX + digits|..][0];
    DigitRunOf(digits, t);
  }

  /** A client reading the status line of a rendered response gets the creator's status code. */
  lemma StatusCodeRoundTrip(r: Response)
    ensures StatusCodeOf(Render(r)) == Some(r.statusCode as nat)
  {
    var ls := HeaderLines(r.statusCode, r.contentType);
    var digits := NatToDecimal(r.statusCode as nat);
    var h := Header(r.statusCode, r.contentType);
    var p := STATUS_PREFIX + digits + " ";
    LinesCons(ls);
    PrefixOfConcat(p, StatusText(r.statusCode));
    PrefixOfConcat(ls[0], CRLF);
    PrefixOfConcat(ls[0] + CRLF, Lines(ls[1..]));
    PrefixOfConcat(Lines(ls), CRLF);
    PrefixOfConcat(h, Concat(r.chunks));
    PrefixOfConcat(h + Concat(r.chunks), CRLF);
    PrefixTrans(p, ls[0], ls[0] + CRLF);
    PrefixTrans(p, ls[0] + CRLF, Lines(ls));
    PrefixTrans(p, Lines(ls), h);
    PrefixTrans(p, h, h + Concat(r.chunks));
    PrefixTrans(p, h + Concat(r.chunks), Render(r));
    StatusCodeOfPrefix(digits, Render(r));
    DecimalRoundTrip(r.statusCode as nat);
  }

  lemma PrefixTrans(a: string, b: string, c: string)
    requires a <= b && b <= c
    ensures a <= c
  {
  }

  lemma {:induction false} LinesCons(ls: seq<string>)
    requires |ls| > 0
    ensures Lines(ls) == ls[0] + CRLF + Lines(ls[1..])
  {
    if |ls| > 1 {
      LinesCons(ls[..|ls| - 1]);
      assert ls[..|ls| - 1][1..] == ls[1..][..|ls| - 2];
    }
  }

  function Pow10(k: nat): nat
  {
    if k == 0 then 1 else 10 * Pow10(k - 1)
  }

  lemma {:induction false} NumeralLength(n: nat, k: nat)
    requires k >= 1 && n < Pow10(k)
    ensures |NatToDecimal(n)| <= k
  {
    if n >= 10 {
      NumeralLength(n / 10, k - 1);
    }
  }

  /** The rendered header always fits the 255-byte buffer `sprintf` writes it into. */
  lemma HeaderFits(code: uint16, contentType: ContentType)
    ensures |Header(code, contentType)| < 255
  {
    NumeralLength(code as nat, 5);
    var ls := HeaderLines(code, contentType);
    LinesCons(ls);
    LinesCons(ls[1..]);
    LinesCons(ls[2..]);
    LinesCons(ls[3..]);
    LinesCons(ls[4..]);
    assert ls[4..][1..] == [];
  }

  // ---------------------------------------------------------------------------
  // The creator object
  // ---------------------------------------------------------------------------

  class Creator {
    var statusCode: uint16
    var contentType: ContentType
    var chunks: seq<CString>
    var contentSize: nat

    /** `contentSize` is the total length of the chunks appended so far. */
    ghost predicate Valid()
      reads this
    {
      contentSize == TotalLength(chunks)
    }

    ghost function State(): Response
      reads this
    {
      Response(statusCode, contentType, chunks)
    }

    /** `responseCreator_init`: no content yet. */
    constructor (contentType: ContentType, statusCode: uint16)
      ensures Valid()
      ensures this.contentType == contentType && this.statusCode == statusCode
      ensures chunks == [] && contentSize == 0
    {
      this.contentType := contentType;
      this.statusCode := statusCode;
      chunks := [];
      contentSize := 0;
    }

    /**
     * `responseCreator_appendContent`: a copy of `str` becomes the last chunk;
     * the earlier chunks, the status code and the content type stay as they were.
     */
    method AppendContent(str: CString)
      requires Valid()
      modifies this
      ensures Valid()
      ensures chunks == old(chunks) + [str]
      ensures contentSize == old(contentSize) + |str|
      ensures statusCode == old(statusCode) && contentType == old(contentType)
    {
      ConcatSnoc(chunks, str);
      contentSize := contentSize + |str|;
      chunks := chunks + [str];
    }

    /**
     * The content part of `responseCreator_getResponse`: `strcat` the chunks
     * in list order into an empty buffer, then CRLF.
     */
    method JoinContent() returns (content: string)
      ensures content == Concat(chunks) + CRLF
    {
      content := "";
      var i := 0;
      while i < |chunks|
        invariant 0 <= i <= |chunks|
        invariant content == Concat(chunks[..i])
      {
        ConcatSnoc(chunks[..i], chunks[i]);
        assert chunks[..i + 1] == chunks[..i] + [chunks[i]];
        content := content + chunks[i];
        i := i + 1;
      }
      assert chunks[..i] == chunks;
      content := content + CRLF;
    }

    /**
     * `responseCreator_getResponse`: the header with status code, reason and
     * media type filled in, followed by the joined content. The creator is
     * only read. Its length is the header's, plus `contentSize`, plus the
     * final CRLF.
     */
    method GetResponse() returns (response: string)
      requires Valid()
      ensures response == Render(State())
      ensures |response| == |Header(statusCode, contentType)| + contentSize + 2
    {
      var header := Header(statusCode, contentType);
      var content := JoinContent();
      ConcatLength(chunks);
      response := header + content;
    }
  }
}
