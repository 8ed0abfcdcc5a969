/** The requests that the demo HTTP server reads, as text and as a value: what a request may look like on
    the wire (header values may be folded over several lines), and what it means. */
module HttpRequests {
  datatype Header = Header(name: string, value: string)

  datatype Request = Request(verb: string, uri: string, major: int, minor: int, headers: seq<Header>)

  // ---------------------------------------------------------------- the character classes

  /** Bytes from 128 on are negative as a signed char and above 127 as an unsigned one; either way they
      are no HTTP character, no control character and no tspecial. */
  predicate IsChar(c: char) { c as int <= 127 }

  predicate IsCtl(c: char) { c as int <= 31 || c as int == 127 }

  predicate IsTspecial(c: char) { c in "()<>@,;:\\\"/[]?={} \t" }

  predicate IsDigit(c: char) { '0' <= c <= '9' }

  predicate IsTokenChar(c: char) { IsChar(c) && !IsCtl(c) && !IsTspecial(c) }

  lemma TokenChars(c: char)
    requires IsTokenChar(c)
    ensures c != '\r' && c != ' ' && c != ':' && !IsLws(c)
  {}

  predicate IsLws(c: char) { c == ' ' || c == '\t' }

  function DigitOf(c: char): int { c as int - '0' as int }

  predicate Token(s: string) { s != [] && forall i :: 0 <= i < |s| ==> IsTokenChar(s[i]) }

  predicate Uri(s: string) { forall i :: 0 <= i < |s| ==> s[i] != ' ' && !IsCtl(s[i]) }

  predicate Digits(s: string) { s != [] && forall i :: 0 <= i < |s| ==> IsDigit(s[i]) }

  predicate Text(s: string) { forall i :: 0 <= i < |s| ==> !IsCtl(s[i]) }

  predicate Lws(s: string) { s != [] && forall i :: 0 <= i < |s| ==> IsLws(s[i]) }

  // ---------------------------------------------------------------- requests as they are written

  /** A further line of a header value: white space, then text that does not start with white space. */
  datatype Fold = Fold(lws: string, text: string)

  datatype RawHeader = RawHeader(name: string, value: string, folds: seq<Fold>)

  datatype Raw = Raw(verb: string, uri: string, major: string, minor: string, headers: seq<RawHeader>)

  predicate FoldOk(f: Fold) {
    Lws(f.lws) && Text(f.text) && (f.text != [] ==> f.text[0] != ' ')
  }

  predicate HeaderOk(h: RawHeader) {
    Token(h.name) && Text(h.value) && forall i :: 0 <= i < |h.folds| ==> FoldOk(h.folds[i])
  }

  predicate RawOk(r: Raw) {
    && Token(r.verb) && Uri(r.uri) && Digits(r.major) && Digits(r.minor)
    && forall i :: 0 <= i < |r.headers| ==> HeaderOk(r.headers[i])
  }

  /** A header up to the end of its last line. */
  function Open(h: RawHeader): string
    decreases |h.folds|
  {
    var n := |h.folds|;
    if n == 0 then h.name + ": " + h.value
    else Open(h.(folds := h.folds[..n - 1])) + "\r\n" + h.folds[n - 1].lws + h.folds[n - 1].text
  }

  function Headers(hs: seq<RawHeader>): string {
    if hs == [] then "" else Headers(hs[..|hs| - 1]) + Open(hs[|hs| - 1]) + "\r\n"
  }

  function RequestLine(r: Raw): string {
    r.verb + " " + r.uri + " " + "HTTP/" + r.major + "." + r.minor + "\r\n"
  }

  function Render(r: Raw): string {
    RequestLine(r) + Headers(r.headers) + "\r\n"
  }

  // ---------------------------------------------------------------- what they mean

  function Number(s: string): int {
    if s == [] then 0 else Number(s[..|s| - 1]) * 10 + DigitOf(s[|s| - 1])
  }

  /** The texts of the lines, without what separates them. */
  function Unfolded(value: string, folds: seq<Fold>): string {
    if folds == [] then value else Unfolded(value, folds[..|folds| - 1]) + folds[|folds| - 1].text
  }

  function HeaderMeaning(h: RawHeader): Header {
    Header(h.name, Unfolded(h.value, h.folds))
  }

  function HeadersMeaning(hs: seq<RawHeader>): (r: seq<Header>)
    ensures |r| == |hs|
  {
    if hs == [] then [] else HeadersMeaning(hs[..|hs| - 1]) + [HeaderMeaning(hs[|hs| - 1])]
  }

  function Meaning(r: Raw): Request {
    Request(r.verb, r.uri, Number(r.major), Number(r.minor), HeadersMeaning(r.headers))
  }

  // ---------------------------------------------------------------- printing a request

  ghost predicate Printable(q: Request) {
    && Token(q.verb) && Uri(q.uri) && q.major >= 0 && q.minor >= 0
    && forall i :: 0 <= i < |q.headers| ==> Token(q.headers[i].name) && Text(q.headers[i].value)
  }

  function DigitChar(d: nat): (c: char)
    requires d < 10
    ensures IsDigit(c) && DigitOf(c) == d
  {
    (d + '0' as int) as char
  }

  lemma NumberPlus(s: string, c: char)
    ensures Number(s + [c]) == Number(s) * 10 + DigitOf(c)
  {
    assert (s + [c])[..|s|] == s;
  }

  function Decimal(n: nat): (s: string)
    ensures Digits(s) && Number(s) == n
  {
    var front := if n < 10 then "" else Decimal(n / 10);
    NumberPlus(front, DigitChar(n % 10));
    front + [DigitChar(n % 10)]
  }

  /** The canonical form: decimal version numbers and one line for each header. */
  ghost function Canonical(q: Request): (r: Raw)
    requires Printable(q)
    ensures |r.headers| == |q.headers|
    ensures forall i :: 0 <= i < |r.headers| ==> r.headers[i] == RawHeader(q.headers[i].name, q.headers[i].value, [])
  {
    Raw(q.verb, q.uri, Decimal(q.major), Decimal(q.minor),
        seq(|q.headers|, i requires 0 <= i < |q.headers| => RawHeader(q.headers[i].name, q.headers[i].value, [])))
  }

  lemma {:induction false} PlainHeaders(hs: seq<RawHeader>, want: seq<Header>)
    requires |hs| == |want| && forall i :: 0 <= i < |hs| ==> hs[i] == RawHeader(want[i].name, want[i].value, [])
    ensures HeadersMeaning(hs) == want
  {
    if hs != [] {
      var n := |hs| - 1;
      PlainHeaders(hs[..n], want[..n]);
      assert want == want[..n] + [want[n]];
    }
  }

  lemma CanonicalMeans(q: Request)
    requires Printable(q)
    ensures RawOk(Canonical(q)) && Meaning(Canonical(q)) == q
  {
    PlainHeaders(Canonical(q).headers, q.headers);
  }

  lemma {:induction false} UnfoldedIsText(value: string, folds: seq<Fold>)
    requires Text(value) && forall i :: 0 <= i < |folds| ==> FoldOk(folds[i])
    ensures Text(Unfolded(value, folds))
  {
    if folds != [] {
      UnfoldedIsText(value, folds[..|folds| - 1]);
    }
  }

  lemma {:induction false} MeaningsAt(hs: seq<RawHeader>, i: nat)
    requires i < |hs|
    ensures HeadersMeaning(hs)[i] == HeaderMeaning(hs[i])
  {
    var n := |hs| - 1;
    if i < n {
      MeaningsAt(hs[..n], i);
    }
  }

  lemma {:induction false} NumberIsNat(s: string)
    requires forall i :: 0 <= i < |s| ==> IsDigit(s[i])
    ensures Number(s) >= 0
  {
    if s != [] {
      NumberIsNat(s[..|s| - 1]);
    }
  }

  /** What any text of a request means can be printed again. */
  lemma MeaningIsPrintable(r: Raw)
    requires RawOk(r)
    ensures Printable(Meaning(r))
  {
    NumberIsNat(r.major);
    NumberIsNat(r.minor);
    forall i | 0 <= i < |r.headers|
      ensures Meaning(r).headers[i].name == r.headers[i].name && Text(Meaning(r).headers[i].value)
    {
      MeaningsAt(r.headers, i);
      UnfoldedIsText(r.headers[i].value, r.headers[i].folds);
    }
  }
}
