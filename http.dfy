/** The string handling of the server's accept loop and response writer: recognising a
    POST, cutting the body after the header block, slicing the endpoint name out of the
    body, naming the endpoint's module file, and formatting the two response shapes. */
module Http {
  import opened Wrappers

  /** The blank line that ends the header block. */
  const HeaderTerminator: string := "\r\n\r\n"

  predicate StartsWith(s: string, prefix: string) {
    |prefix| <= |s| && s[..|prefix|] == prefix
  }

  /** Only requests whose text starts with "POST" are handled. */
  predicate IsPost(request: string) {
    StartsWith(request, "POST")
  }

  /** `pat` occurs in `s` starting at index `i`. */
  predicate OccursAt(s: string, pat: string, i: int) {
    0 <= i && i + |pat| <= |s| && s[i..i + |pat|] == pat
  }

  /** Shifting the text by one character shifts every occurrence by one. */
  lemma OccursAtShift(s: string, pat: string, j: nat)
    requires s != []
    ensures OccursAt(s, pat, j + 1) <==> OccursAt(s[1..], pat, j)
  {
    if j + 1 + |pat| <= |s| {
      assert s[j + 1..j + 1 + |pat|] == s[1..][j..j + |pat|];
    }
  }

  /** Index of the first occurrence of `pat` in `s`, like Rust's `str::find`. */
  function Find(s: string, pat: string): (r: Option<nat>)
    ensures r.Some? ==> OccursAt(s, pat, r.value)
    ensures r.Some? ==> forall j :: 0 <= j < r.value ==> !OccursAt(s, pat, j)
    ensures r.None? ==> forall j :: 0 <= j ==> !OccursAt(s, pat, j)
  {
    if |s| < |pat| then None
    else if s[..|pat|] == pat then Some(0)
    else
      assert !OccursAt(s, pat, 0);
      assert forall j :: 1 <= j ==> (OccursAt(s, pat, j) <==> OccursAt(s[1..], pat, j - 1)) by {
        forall j | 1 <= j ensures OccursAt(s, pat, j) <==> OccursAt(s[1..], pat, j - 1) {
          OccursAtShift(s, pat, j - 1);
        }
      }
      match Find(s[1..], pat)
      case None => None
      case Some(i) => Some(i + 1)
  }

  /** Index of the first `c` in `s`, or `|s|` when there is none
      (Rust's `find(c).unwrap_or(len)`). */
  function FindChar(s: string, c: char): (k: nat)
    ensures k <= |s|
    ensures forall j :: 0 <= j < k ==> s[j] != c
    ensures k < |s| ==> s[k] == c
  {
    if s == [] then 0
    else if s[0] == c then 0
    else FindChar(s[1..], c) + 1
  }

  /** Where the body starts: four characters past the first blank line, or at 0 when
      there is no blank line. */
  function BodyStart(text: string): nat {
    match Find(text, HeaderTerminator)
    case Some(i) => i + 4
    case None => 0
  }

  /** The text after the header block: the suffix that follows the first "\r\n\r\n",
      or the whole text when it has no header terminator. */
  function BodyAfterHeaders(text: string): (body: string)
    ensures Find(text, HeaderTerminator).None? ==> body == text
    ensures Find(text, HeaderTerminator).Some? ==>
      var i := Find(text, HeaderTerminator).value;
      text == text[..i] + HeaderTerminator + body
  {
    var start := BodyStart(text);
    assert start <= |text|;
    text[start..]
  }

  /** A POST whose request line holds no carriage return, followed by plain header
      lines and a blank line, has exactly the text after that blank line as its body. */
  lemma PostRequestBody(requestLine: string, headers: seq<string>, body: string)
    requires '\r' !in requestLine && PlainHeaders(headers)
    ensures IsPost("POST" + requestLine + HeaderLines(headers) + HeaderTerminator + body)
    ensures BodyAfterHeaders("POST" + requestLine + HeaderLines(headers) + HeaderTerminator + body) == body
  {
    var x := "POST" + requestLine;
    var p := x + HeaderLines(headers);
    assert "POST" + requestLine + HeaderLines(headers) + HeaderTerminator + body == p + HeaderTerminator + body;
    assert '\r' !in x;
    FindAfterHeaderLines(x, headers, body);
    assert (p + HeaderTerminator + body)[..4] == "POST";
  }

  /** The endpoint name `body[1..k]`, with `k` the index of the first '/'. Rust panics on
      that slice when `k` is 0, that is, for an empty body or a body starting with '/';
      `None` stands for that panic. */
  function EndpointName(body: string): (r: Option<string>)
    ensures r.None? <==> (body == [] || body[0] == '/')
    ensures r.Some? ==> '/' !in r.value
    ensures r.Some? ==> exists rest :: body == [body[0]] + r.value + rest &&
                                       (rest == [] || rest[0] == '/')
  {
    var k := FindChar(body, '/');
    if k < 1 then None
    else
      var name := body[1..k];
      assert body == [body[0]] + name + body[k..];
      Some(name)
  }

  /** Without any '/', the endpoint name is the whole body but its first character. */
  lemma EndpointNameWithoutSlash(body: string)
    requires body != [] && '/' !in body
    ensures EndpointName(body) == Some(body[1..])
  {
    var k := FindChar(body, '/');
    assert body[0] in body;
    assert k == |body|;
    assert body[1..k] == body[1..];
    assert EndpointName(body) == Some(body[1..k]);
  }

  /** How the accept loop reads a request's text: not a POST, a POST whose endpoint
      slice panics, or a POST with its body and endpoint name. */
  datatype RequestParse = Ignored | SlicePanics | Post(body: string, endpointName: string)

  function ParseRequest(request: string): RequestParse {
    if !IsPost(request) then Ignored
    else
      match EndpointName(BodyAfterHeaders(request))
      case None => SlicePanics
      case Some(name) => Post(BodyAfterHeaders(request), name)
  }

  /** The three readings of a request, by what its text holds. */
  lemma ParseRequestCases(request: string)
    ensures ParseRequest(request).Ignored? <==> !IsPost(request)
    ensures ParseRequest(request).SlicePanics? <==>
      IsPost(request) && (BodyAfterHeaders(request) == [] || BodyAfterHeaders(request)[0] == '/')
    ensures ParseRequest(request).Post? ==>
      var p := ParseRequest(request);
      p.body == BodyAfterHeaders(request) && '/' !in p.endpointName &&
      |p.endpointName| < |p.body| && p.endpointName == p.body[1..1 + |p.endpointName|] &&
      (1 + |p.endpointName| == |p.body| || p.body[1 + |p.endpointName|] == '/')
  {
    if ParseRequest(request).Post? {
      var p := ParseRequest(request);
      var rest :| p.body == [p.body[0]] + p.endpointName + rest && (rest == [] || rest[0] == '/');
      assert p.body[1 + |p.endpointName|..] == rest;
    }
  }

  /** The module path formatted from an endpoint name. */
  function ModuleName(endpointName: string): string {
    "endpoint_modules/" + endpointName + "/module.rs"
  }

  /** Different endpoint names give different module paths, and the path keeps the
      name between a fixed prefix and a fixed suffix. */
  lemma ModuleNameInjective(a: string, b: string)
    ensures StartsWith(ModuleName(a), "endpoint_modules/")
    ensures ModuleName(a)[17..|ModuleName(a)| - 10] == a
    ensures ModuleName(a) == ModuleName(b) ==> a == b
  {
    var ma := ModuleName(a);
    assert ma[17..|ma| - 10] == a;
    if ma == ModuleName(b) {
      assert ModuleName(b)[17..|ModuleName(b)| - 10] == b;
    }
  }

  // ---- numbers in the status line ----

  predicate IsDigit(c: char) {
    '0' <= c <= '9'
  }

  function Digit(d: nat): (c: char)
    requires d < 10
    ensures IsDigit(c)
  {
    ('0' as int + d) as char
  }

  /** Decimal notation of `n`, as Rust's `{}` formats an integer. */
  function Decimal(n: nat): (r: string)
    ensures |r| >= 1
    ensures r[0] == '0' <==> n == 0
    ensures n == 0 ==> r == "0"
    ensures forall i :: 0 <= i < |r| ==> IsDigit(r[i])
  {
    if n < 10 then [Digit(n)] else Decimal(n / 10) + [Digit(n % 10)]
  }

  function DigitValue(c: char): (v: nat)
    requires IsDigit(c)
    ensures v < 10
  {
    c as int - '0' as int
  }

  /** The value a string of digits denotes. */
  function DecimalValue(s: string): nat
    requires forall i :: 0 <= i < |s| ==> IsDigit(s[i])
  {
    if s == [] then 0
    else DecimalValue(s[..|s| - 1]) * 10 + DigitValue(s[|s| - 1])
  }

  /** Reading the decimal notation of `n` gives `n` back. */
  lemma {:induction false} DecimalRoundTrip(n: nat)
    ensures DecimalValue(Decimal(n)) == n
  {
    if n >= 10 {
      var d := Decimal(n);
      assert d[..|d| - 1] == Decimal(n / 10);
      DecimalRoundTrip(n / 10);
    }
  }

  // ---- the two response shapes ----

  /** The success response: status line with the given status, one Content-Type
      header, a blank line, the body. */
  function SuccessResponse(status: nat, body: string): string {
    "HTTP/1.1 " + Decimal(status) + " OK" + "\r\n" + "Content-Type: text/plain" + HeaderTerminator + body
  }

  /** The error response: a fixed 500 status line, a blank line, the message. */
  function ErrorResponse(message: string): string {
    "HTTP/1.1 500 Internal Server Error\r\n\r\n" + message
  }

  /** Header lines, each one after a line break, as they follow a request line or a
      status line. */
  function HeaderLines(headers: seq<string>): string {
    if headers == [] then [] else HeaderLines(headers[..|headers| - 1]) + "\r\n" + headers[|headers| - 1]
  }

  /** Header lines that are not empty and hold no carriage return. */
  predicate PlainHeaders(headers: seq<string>) {
    forall i :: 0 <= i < |headers| ==> headers[i] != [] && '\r' !in headers[i]
  }

  /** Every carriage return in `p` is followed, two characters on, by something else. */
  predicate NoBlankLine(p: string) {
    forall j :: 0 <= j < |p| && p[j] == '\r' ==> j + 2 < |p| && p[j + 2] != '\r'
  }

  /** A first line without carriage return followed by plain header lines holds no
      blank line. */
  lemma {:induction false} NoBlankLineInHeaderBlock(x: string, headers: seq<string>)
    requires '\r' !in x && PlainHeaders(headers)
    ensures NoBlankLine(x + HeaderLines(headers))
  {
    if headers == [] {
      assert x + HeaderLines(headers) == x;
      forall j | 0 <= j < |x| ensures x[j] != '\r' {
        assert x[j] in x;
      }
    } else {
      var init := headers[..|headers| - 1];
      var h := headers[|headers| - 1];
      assert PlainHeaders(init) by {
        forall i | 0 <= i < |init| ensures init[i] != [] && '\r' !in init[i] {
          assert init[i] == headers[i];
        }
      }
      NoBlankLineInHeaderBlock(x, init);
      var q := x + HeaderLines(init);
      var p := x + HeaderLines(headers);
      assert p == q + "\r\n" + h;
      forall j | 0 <= j < |p| ensures p[j] == '\r' ==> j + 2 < |p| && p[j + 2] != '\r' {
        if j < |q| {
          assert p[j] == q[j];
          if j + 2 < |q| {
            assert p[j + 2] == q[j + 2];
          }
        } else if j == |q| {
          assert p[j + 2] == h[0] && h[0] in h;
        } else if j > |q| + 1 {
          assert p[j] == h[j - |q| - 2] && h[j - |q| - 2] in h;
        }
      }
    }
  }

  /** The first header terminator of `x`, header lines, "\r\n\r\n" and `y` is the one
      right after the header lines, when `x` has no carriage return and the header
      lines are plain. */
  lemma FindAfterHeaderLines(x: string, headers: seq<string>, y: string)
    requires '\r' !in x && PlainHeaders(headers)
    ensures Find(x + HeaderLines(headers) + HeaderTerminator + y, HeaderTerminator) ==
      Some(|x + HeaderLines(headers)|)
  {
    var p := x + HeaderLines(headers);
    var s := p + HeaderTerminator + y;
    NoBlankLineInHeaderBlock(x, headers);
    assert OccursAt(s, HeaderTerminator, |p|);
    forall j | 0 <= j < |p| ensures !OccursAt(s, HeaderTerminator, j) {
      if s[j] == '\r' {
        assert p[j] == '\r';
        assert s[j + 2] == p[j + 2];
      }
    }
  }

  /** The same with a single header line `z`. */
  lemma FindAfterOneHeaderLine(x: string, z: string, y: string)
    requires '\r' !in x && '\r' !in z && z != []
    ensures Find(x + "\r\n" + z + HeaderTerminator + y, HeaderTerminator) == Some(|x| + 2 + |z|)
  {
    assert [z][..0] == [];
    assert HeaderLines([z]) == "\r\n" + z;
    assert x + HeaderLines([z]) == x + "\r\n" + z;
    FindAfterHeaderLines(x, [z], y);
  }

  /** Digits framed by two texts without a carriage return have none either. */
  lemma NoCarriageReturnAround(a: string, d: string, b: string)
    requires '\r' !in a && '\r' !in b
    requires forall i :: 0 <= i < |d| ==> IsDigit(d[i])
    ensures '\r' !in a + d + b
  {
  }

  /** A client that cuts a success response at its first blank line, the way the
      server cuts requests, gets exactly the body back. */
  lemma SuccessResponseBody(status: nat, body: string)
    ensures StartsWith(SuccessResponse(status, body), "HTTP/1.1 " + Decimal(status) + " OK" + "\r\n")
    ensures BodyAfterHeaders(SuccessResponse(status, body)) == body
  {
    var x := "HTTP/1.1 " + Decimal(status) + " OK";
    NoCarriageReturnAround("HTTP/1.1 ", Decimal(status), " OK");
    ResponseAfterStatusLine(x, "Content-Type: text/plain", body);
  }

  /** A status line and one header line, both free of carriage returns, then a blank
      line and a body: the text starts with the status line and its body is the body. */
  lemma ResponseAfterStatusLine(x: string, z: string, body: string)
    requires '\r' !in x && '\r' !in z && z != []
    ensures var r := x + "\r\n" + z + HeaderTerminator + body;
      StartsWith(r, x + "\r\n") && BodyAfterHeaders(r) == body
  {
    var r := x + "\r\n" + z + HeaderTerminator + body;
    BodyAfterOneHeaderLine(x, z, body);
    assert r[..|x| + 2] == x + "\r\n";
  }

  /** The body cut from a text of one line, one header line, a blank line and a body
      is that body. */
  lemma BodyAfterOneHeaderLine(x: string, z: string, y: string)
    requires '\r' !in x && '\r' !in z && z != []
    ensures BodyAfterHeaders(x + "\r\n" + z + HeaderTerminator + y) == y
  {
    var t := x + "\r\n" + z + HeaderTerminator + y;
    FindAfterOneHeaderLine(x, z, y);
    assert t[|x| + 2 + |z| + 4..] == y;
  }

  /** The same for the error response: its body is exactly the error message. */
  lemma ErrorResponseBody(message: string)
    ensures StartsWith(ErrorResponse(message), "HTTP/1.1 500 ")
    ensures BodyAfterHeaders(ErrorResponse(message)) == message
  {
    var x := "HTTP/1.1 500 Internal Server Error";
    assert ErrorResponse(message) == x + HeaderLines([]) + HeaderTerminator + message;
    FindAfterHeaderLines(x, [], message);
  }
}
