/** What the parser accepts, and what it makes of it: exactly the texts of requests, exactly their meaning.

    A draft is a request that is only written up to the point which the parser has reached. */
module HttpLanguage {
  import opened HttpRequests
  import opened HttpParsers

  // ---------------------------------------------------------------- drafts

  function Order(p: Phase): nat {
    match p
    case MethodStart => 0 case Method => 1 case UriPart => 2
    case VersionH => 3 case VersionT1 => 4 case VersionT2 => 5 case VersionP => 6 case VersionSlash => 7
    case MajorStart => 8 case Major => 9 case MinorStart => 10 case Minor => 11 case Newline1 => 12
    case HeaderLineStart => 13 case HeaderName => 14 case SpaceBeforeValue => 15 case HeaderLws => 16
    case HeaderValue => 17 case Newline2 => 18 case Newline3 => 19
  }

  const EMPTY := Raw("", "", "", "", [])

  function LastOf(r: Raw): RawHeader
    requires r.headers != []
  {
    r.headers[|r.headers| - 1]
  }

  predicate LastOk(p: Phase, h: RawHeader) {
    match p
    case HeaderName => h.value == "" && h.folds == []
    case SpaceBeforeValue => h.value == "" && h.folds == []
    case HeaderLws => h.folds != [] && h.folds[|h.folds| - 1].text == ""
    case HeaderValue => h.folds == [] || h.folds[|h.folds| - 1].text != ""
    case _ => true
  }

  /** What is written is right, what comes later is still empty. */
  predicate DraftOk(p: Phase, r: Raw) {
    && (if p == MethodStart then r == EMPTY else Token(r.verb))
    && Uri(r.uri) && (p == Method ==> r.uri == "")
    && (if Order(p) <= 8 then r.major == "" else Digits(r.major))
    && (if Order(p) <= 10 then r.minor == "" else Digits(r.minor))
    && (Order(p) <= 12 ==> r.headers == [])
    && (forall i :: 0 <= i < |r.headers| ==> HeaderOk(r.headers[i]))
    && (InHeader(p) ==> r.headers != [] && LastOk(p, LastOf(r)))
  }

  /** The start line as far as it goes. */
  function StartLine(r: Raw): string { r.verb + " " + r.uri + " " }

  /** Everything before the last header. */
  function Before(r: Raw): string
    requires r.headers != []
  {
    RequestLine(r) + Headers(r.headers[..|r.headers| - 1])
  }

  function Drafted(p: Phase, r: Raw): string
    requires DraftOk(p, r)
  {
    match p
    case MethodStart => ""
    case Method => r.verb
    case UriPart => r.verb + " " + r.uri
    case VersionH => StartLine(r)
    case VersionT1 => StartLine(r) + "H"
    case VersionT2 => StartLine(r) + "HT"
    case VersionP => StartLine(r) + "HTT"
    case VersionSlash => StartLine(r) + "HTTP"
    case MajorStart => StartLine(r) + "HTTP/"
    case Major => StartLine(r) + "HTTP/" + r.major
    case MinorStart => StartLine(r) + "HTTP/" + r.major + "."
    case Minor => StartLine(r) + "HTTP/" + r.major + "." + r.minor
    case Newline1 => StartLine(r) + "HTTP/" + r.major + "." + r.minor + "\r"
    case HeaderLineStart => RequestLine(r) + Headers(r.headers)
    case HeaderName => Before(r) + LastOf(r).name
    case SpaceBeforeValue => Before(r) + LastOf(r).name + ":"
    case HeaderLws => Before(r) + Open(LastOf(r))
    case HeaderValue => Before(r) + Open(LastOf(r))
    case Newline2 => Before(r) + Open(LastOf(r)) + "\r"
    case Newline3 => RequestLine(r) + Headers(r.headers) + "\r"
  }

  /** The request that the parser has filled so far; the version is garbage before it is read. */
  ghost predicate Agrees(p: Phase, q: Request, r: Raw) {
    && q.verb == r.verb && q.uri == r.uri && q.headers == HeadersMeaning(r.headers)
    && (Order(p) >= 8 ==> q.major == Number(r.major) && q.minor == Number(r.minor))
  }

  ghost predicate Rep(p: Phase, q: Request, r: Raw) {
    DraftOk(p, r) && Agrees(p, q, r)
  }

  // ---------------------------------------------------------------- one more character

  function GrowText(h: RawHeader, c: char): RawHeader {
    if h.folds == [] then h.(value := h.value + [c])
    else
      var n := |h.folds| - 1;
      h.(folds := h.folds[..n] + [h.folds[n].(text := h.folds[n].text + [c])])
  }

  function GrowLws(h: RawHeader, c: char): RawHeader
    requires h.folds != []
  {
    var n := |h.folds| - 1;
    h.(folds := h.folds[..n] + [h.folds[n].(lws := h.folds[n].lws + [c])])
  }

  function NewFold(h: RawHeader, c: char): RawHeader {
    h.(folds := h.folds + [Fold([c], "")])
  }

  function WithLast(r: Raw, h: RawHeader): Raw
    requires r.headers != []
  {
    r.(headers := r.headers[..|r.headers| - 1] + [h])
  }

  function Grow(p: Phase, r: Raw, c: char): Raw
    requires InHeader(p) ==> r.headers != [] && LastOk(p, LastOf(r))
  {
    match p
    case MethodStart => r.(verb := r.verb + [c])
    case Method => if c == ' ' then r else r.(verb := r.verb + [c])
    case UriPart => if c == ' ' then r else r.(uri := r.uri + [c])
    case MajorStart => r.(major := r.major + [c])
    case Major => if c == '.' then r else r.(major := r.major + [c])
    case MinorStart => r.(minor := r.minor + [c])
    case Minor => if c == '\r' then r else r.(minor := r.minor + [c])
    case HeaderLineStart =>
      if c == '\r' then r
      else if r.headers != [] && IsLws(c) then WithLast(r, NewFold(LastOf(r), c))
      else r.(headers := r.headers + [RawHeader([c], "", [])])
    case HeaderLws =>
      if c == '\r' then r
      else if IsLws(c) then WithLast(r, GrowLws(LastOf(r), c))
      else WithLast(r, GrowText(LastOf(r), c))
    case HeaderName => if c == ':' then r else WithLast(r, LastOf(r).(name := LastOf(r).name + [c]))
    case HeaderValue => if c == '\r' then r else WithLast(r, GrowText(LastOf(r), c))
    case _ => r
  }

  lemma AddFold(h: RawHeader, f: Fold)
    ensures var g := h.(folds := h.folds + [f]);
            && Open(g) == Open(h) + "\r\n" + f.lws + f.text
            && HeaderMeaning(g) == Header(h.name, HeaderMeaning(h).value + f.text)
  {
    var g := h.(folds := h.folds + [f]);
    assert g.folds[..|h.folds|] == h.folds && g.(folds := h.folds) == h;
  }

  lemma GrowPlain(h: RawHeader, c: char)
    requires h.folds == []
    ensures Open(GrowText(h, c)) == Open(h) + [c]
    ensures HeaderMeaning(GrowText(h, c)) == Header(h.name, HeaderMeaning(h).value + [c])
  {
    Assoc(h.name + ": ", h.value, [c]);
  }

  lemma GrowTextGrows(h: RawHeader, c: char)
    ensures Open(GrowText(h, c)) == Open(h) + [c]
    ensures HeaderMeaning(GrowText(h, c)) == Header(h.name, HeaderMeaning(h).value + [c])
  {
    hide Open, HeaderMeaning;
    if h.folds == [] {
      GrowPlain(h, c);
    } else {
      var n := |h.folds| - 1;
      var h0, f := h.(folds := h.folds[..n]), h.folds[n];
      AddFold(h0, f);
      AddFold(h0, f.(text := f.text + [c]));
      assert h == h0.(folds := h0.folds + [f]);
      Assoc(Open(h0) + "\r\n" + f.lws, f.text, [c]);
      Assoc(HeaderMeaning(h0).value, f.text, [c]);
    }
  }

  lemma GrowLwsGrows(h: RawHeader, c: char)
    requires LastOk(HeaderLws, h)
    ensures Open(GrowLws(h, c)) == Open(h) + [c] && HeaderMeaning(GrowLws(h, c)) == HeaderMeaning(h)
  {
    hide Open, HeaderMeaning;
    var n := |h.folds| - 1;
    var h0, f := h.(folds := h.folds[..n]), h.folds[n];
    AddFold(h0, f);
    AddFold(h0, f.(lws := f.lws + [c]));
    assert h == h0.(folds := h0.folds + [f]);
    Assoc(Open(h0) + "\r\n", f.lws, [c]);
  }

  lemma GrowTextOk(p: Phase, h: RawHeader, c: char)
    requires HeaderOk(h) && LastOk(p, h) && !IsCtl(c) && (p == HeaderValue || (p == HeaderLws && c != ' '))
    ensures HeaderOk(GrowText(h, c)) && LastOk(HeaderValue, GrowText(h, c))
  {
    if h.folds != [] {
      assert FoldOk(h.folds[|h.folds| - 1]);
    }
  }

  lemma GrowLwsOk(h: RawHeader, c: char)
    requires HeaderOk(h) && LastOk(HeaderLws, h) && IsLws(c)
    ensures HeaderOk(GrowLws(h, c)) && LastOk(HeaderLws, GrowLws(h, c))
  {
    assert FoldOk(h.folds[|h.folds| - 1]);
  }

  lemma NewFoldGrows(h: RawHeader, c: char)
    ensures Open(NewFold(h, c)) == Open(h) + "\r\n" + [c] && HeaderMeaning(NewFold(h, c)) == HeaderMeaning(h)
  {
    hide Open;
    AddFold(h, Fold([c], ""));
  }

  lemma WithLastMeans(r: Raw, h: RawHeader)
    requires r.headers != []
    ensures var n := |r.headers| - 1;
            && HeadersMeaning(WithLast(r, h).headers) == HeadersMeaning(r.headers)[n := HeaderMeaning(h)]
            && HeadersMeaning(r.headers)[n] == HeaderMeaning(LastOf(r))
            && Before(WithLast(r, h)) == Before(r) && LastOf(WithLast(r, h)) == h
            && Headers(WithLast(r, h).headers) == Headers(r.headers[..n]) + Open(h) + "\r\n"
            && Headers(r.headers) == Headers(r.headers[..n]) + Open(LastOf(r)) + "\r\n"
  {
    var n := |r.headers| - 1;
    assert WithLast(r, h).headers[..n] == r.headers[..n];
  }

  lemma AddHeaderMeans(r: Raw, h: RawHeader)
    ensures var r' := r.(headers := r.headers + [h]);
            && HeadersMeaning(r'.headers) == HeadersMeaning(r.headers) + [HeaderMeaning(h)]
            && Before(r') == RequestLine(r) + Headers(r.headers) && LastOf(r') == h
  {
    assert (r.headers + [h])[..|r.headers|] == r.headers;
  }

  /** The parser and the draft go on together. */
  ghost predicate Goes(p: Phase, q: Request, r: Raw, c: char)
    requires Rep(p, q, r) && Sound(p, q)
  {
    var o, r' := Consume(p, q, c), Grow(p, r, c);
    Rep(o.phase, o.req, r') && Drafted(o.phase, r') == Drafted(p, r) + [c]
  }

  lemma Assoc(a: string, b: string, c: string)
    ensures a + b + c == a + (b + c)
  {}

  lemma StartLineGoes(p: Phase, q: Request, r: Raw, c: char)
    requires Rep(p, q, r) && Order(p) <= 7 && Consume(p, q, c).result == Indeterminate
    ensures Goes(p, q, r, c)
  {
    hide IsTspecial;
  }

  lemma MajorGoes(p: Phase, q: Request, r: Raw, c: char)
    requires Rep(p, q, r) && (p == MajorStart || p == Major) && Consume(p, q, c).result == Indeterminate
    ensures Goes(p, q, r, c)
  {
    hide IsTspecial;
    NumberPlus(r.major, c);
    Assoc(StartLine(r) + "HTTP/", r.major, [c]);
  }

  lemma MinorGoes(p: Phase, q: Request, r: Raw, c: char)
    requires Rep(p, q, r) && (p == MinorStart || p == Minor) && Consume(p, q, c).result == Indeterminate
    ensures Goes(p, q, r, c)
  {
    hide IsTspecial;
    NumberPlus(r.minor, c);
    Assoc(StartLine(r) + "HTTP/" + r.major + ".", r.minor, [c]);
  }

  lemma Newline1Goes(q: Request, r: Raw, c: char)
    requires Rep(Newline1, q, r) && Consume(Newline1, q, c).result == Indeterminate
    ensures Goes(Newline1, q, r, c)
  {
    assert Drafted(Newline1, r) + [c] == RequestLine(r) + Headers([]);
  }

  lemma DraftChanges(p: Phase, r: Raw, h: RawHeader, p': Phase)
    requires DraftOk(p, r) && Order(p) >= 13 && r.headers != [] && HeaderOk(h) && InHeader(p') && LastOk(p', h)
    ensures DraftOk(p', WithLast(r, h))
  {
    hide HeaderOk, Token, Digits, Uri, LastOk;
    assert LastOf(WithLast(r, h)) == h;
  }

  lemma MeaningChanges(p: Phase, q: Request, r: Raw, h: RawHeader, p': Phase, q': Request)
    requires Agrees(p, q, r) && Order(p) >= 13 && r.headers != [] && InHeader(p')
    requires q' == q.(headers := q.headers[|r.headers| - 1 := HeaderMeaning(h)])
    ensures Agrees(p', q', WithLast(r, h))
  {
    WithLastMeans(r, h);
    hide Number, Open, HeadersMeaning, HeaderMeaning, Before, Headers, LastOf;
  }

  /** The last header grows. */
  lemma LastChanges(p: Phase, q: Request, r: Raw, h: RawHeader, p': Phase, q': Request)
    requires Rep(p, q, r) && Order(p) >= 13 && r.headers != [] && HeaderOk(h) && InHeader(p') && LastOk(p', h)
    requires q' == q.(headers := q.headers[|r.headers| - 1 := HeaderMeaning(h)])
    ensures Rep(p', q', WithLast(r, h)) && Before(WithLast(r, h)) == Before(r) && LastOf(WithLast(r, h)) == h
  {
    WithLastMeans(r, h);
    hide DraftOk, Agrees, HeaderOk, LastOk, Before, LastOf, WithLast, HeadersMeaning, HeaderMeaning;
    DraftChanges(p, r, h, p');
    MeaningChanges(p, q, r, h, p', q');
  }

  lemma NewFoldOk(h: RawHeader, c: char)
    requires HeaderOk(h) && IsLws(c)
    ensures HeaderOk(NewFold(h, c)) && LastOk(HeaderLws, NewFold(h, c))
  {
    hide Token, IsCtl;
    assert FoldOk(Fold([c], ""));
  }

  lemma SameAt<T>(xs: seq<T>, n: nat, x: T)
    requires n < |xs| && xs[n] == x
    ensures xs[n := x] == xs
  {}

  lemma FoldRep(q: Request, r: Raw, c: char)
    requires Rep(HeaderLineStart, q, r) && r.headers != [] && IsLws(c)
    ensures Rep(HeaderLws, q, WithLast(r, NewFold(LastOf(r), c)))
  {
    hide HeaderOk, LastOk, Token, Digits, Uri, Open, Headers, HeaderMeaning, NewFold, IsLws;
    var h, n := LastOf(r), |r.headers| - 1;
    NewFoldOk(h, c);
    NewFoldGrows(h, c);
    WithLastMeans(r, h);
    SameAt(q.headers, n, HeaderMeaning(NewFold(h, c)));
    LastChanges(HeaderLineStart, q, r, NewFold(h, c), HeaderLws, q);
  }

  lemma DraftedLine(r: Raw)
    ensures DraftOk(HeaderLineStart, r) ==> Drafted(HeaderLineStart, r) == RequestLine(r) + Headers(r.headers)
    ensures DraftOk(HeaderLws, r) ==> Drafted(HeaderLws, r) == Before(r) + Open(LastOf(r))
  {
    hide Open, Headers, RequestLine;
  }

  lemma FoldText(r: Raw, c: char)
    requires DraftOk(HeaderLineStart, r) && r.headers != [] && DraftOk(HeaderLws, WithLast(r, NewFold(LastOf(r), c)))
    ensures Drafted(HeaderLws, WithLast(r, NewFold(LastOf(r), c))) == Drafted(HeaderLineStart, r) + [c]
  {
    var h := NewFold(LastOf(r), c);
    assert WithLast(r, h).headers != [];
    assert Before(r) == RequestLine(r) + Headers(r.headers[..|r.headers| - 1]);
    DraftedLine(r);
    DraftedLine(WithLast(r, h));
    NewFoldGrows(LastOf(r), c);
    WithLastMeans(r, h);
    hide *;
    FoldDraft(RequestLine(r), Headers(r.headers[..|r.headers| - 1]), Open(LastOf(r)), [c]);
  }

  lemma FoldControl(q: Request, r: Raw, c: char)
    requires r.headers != [] && q.headers != [] && IsLws(c)
    ensures Consume(HeaderLineStart, q, c) == Consumed(Indeterminate, HeaderLws, q)
    ensures Grow(HeaderLineStart, r, c) == WithLast(r, NewFold(LastOf(r), c))
  {
    hide WithLast, NewFold, IsTokenChar;
  }

  lemma FoldGoes(q: Request, r: Raw, c: char)
    requires Rep(HeaderLineStart, q, r) && r.headers != [] && IsLws(c)
    ensures Goes(HeaderLineStart, q, r, c)
  {
    FoldRep(q, r, c);
    FoldText(r, c);
    FoldControl(q, r, c);
    hide DraftOk, Drafted, WithLast, NewFold, Grow, Consume;
  }

  lemma FoldDraft(line: string, others: string, last: string, c: string)
    ensures line + (others + last + "\r\n") + c == line + others + (last + "\r\n" + c)
  {}

  lemma NewHeaderOk(r: Raw, c: char)
    requires DraftOk(HeaderLineStart, r) && IsTokenChar(c)
    ensures DraftOk(HeaderName, r.(headers := r.headers + [RawHeader([c], "", [])]))
  {
    hide IsTspecial;
  }

  /** The request and the draft with a new header. */
  function WithHeader(q: Request, c: char): Request { q.(headers := q.headers + [Header([c], "")]) }

  function WithRawHeader(r: Raw, c: char): Raw { r.(headers := r.headers + [RawHeader([c], "", [])]) }

  lemma NewHeaderControl(q: Request, r: Raw, c: char)
    requires IsTokenChar(c)
    ensures Consume(HeaderLineStart, q, c) == Consumed(Indeterminate, HeaderName, WithHeader(q, c))
    ensures Grow(HeaderLineStart, r, c) == WithRawHeader(r, c)
  {
    TokenChars(c);
    hide IsTokenChar, IsLws;
  }

  lemma NewHeaderRep(q: Request, r: Raw, c: char)
    requires Rep(HeaderLineStart, q, r) && IsTokenChar(c)
    ensures Rep(HeaderName, WithHeader(q, c), WithRawHeader(r, c))
  {
    NewHeaderOk(r, c);
    AddHeaderMeans(r, RawHeader([c], "", []));
    assert HeaderMeaning(RawHeader([c], "", [])) == Header([c], "");
    hide DraftOk, HeadersMeaning, HeaderMeaning, IsTokenChar, Number;
  }

  lemma NewHeaderText(r: Raw, c: char)
    requires DraftOk(HeaderLineStart, r) && DraftOk(HeaderName, WithRawHeader(r, c))
    ensures Drafted(HeaderName, WithRawHeader(r, c)) == Drafted(HeaderLineStart, r) + [c]
  {
    AddHeaderMeans(r, RawHeader([c], "", []));
    hide DraftOk, Before, Headers, RequestLine, LastOf;
  }

  lemma NewHeaderGoes(q: Request, r: Raw, c: char)
    requires Rep(HeaderLineStart, q, r) && IsTokenChar(c)
    ensures Goes(HeaderLineStart, q, r, c)
  {
    NewHeaderRep(q, r, c);
    NewHeaderText(r, c);
    NewHeaderControl(q, r, c);
    hide DraftOk, Drafted, Grow, Consume, WithHeader, WithRawHeader;
  }

  lemma NameGoes(q: Request, r: Raw, c: char)
    requires Rep(HeaderName, q, r) && Sound(HeaderName, q) && Consume(HeaderName, q, c).result == Indeterminate
    ensures Goes(HeaderName, q, r, c)
  {
    hide IsTspecial;
    if c != ':' {
      var h := LastOf(r).(name := LastOf(r).name + [c]);
      WithLastMeans(r, h);
      LastChanges(HeaderName, q, r, h, HeaderName, LastName(q, c));
      Assoc(Before(r), LastOf(r).name, [c]);
    }
  }

  lemma SpaceGoes(q: Request, r: Raw)
    requires Rep(SpaceBeforeValue, q, r) && Sound(SpaceBeforeValue, q)
    ensures Goes(SpaceBeforeValue, q, r, ' ')
  {
    var h := LastOf(r);
    assert Open(h) == h.name + ": ";
    assert Before(r) + h.name + ":" + " " == Before(r) + (h.name + ": ");
  }

  lemma TextKeepsRep(p: Phase, q: Request, r: Raw, c: char)
    requires Rep(p, q, r) && Sound(p, q) && (p == HeaderLws || p == HeaderValue)
    requires !IsCtl(c) && (p == HeaderLws ==> c != ' ')
    ensures var h := GrowText(LastOf(r), c);
            && Rep(HeaderValue, LastValue(q, c), WithLast(r, h))
            && Drafted(HeaderValue, WithLast(r, h)) == Before(r) + Open(h)
  {
    hide IsTspecial;
    var h := GrowText(LastOf(r), c);
    GrowTextOk(p, LastOf(r), c);
    GrowTextGrows(LastOf(r), c);
    WithLastMeans(r, h);
    LastChanges(p, q, r, h, HeaderValue, LastValue(q, c));
  }

  lemma TextControl(p: Phase, q: Request, r: Raw, c: char)
    requires DraftOk(p, r) && Sound(p, q) && (p == HeaderLws || p == HeaderValue)
    requires !IsCtl(c) && (p == HeaderLws ==> c != ' ')
    ensures Consume(p, q, c) == Consumed(Indeterminate, HeaderValue, LastValue(q, c))
    ensures Grow(p, r, c) == WithLast(r, GrowText(LastOf(r), c))
    ensures Drafted(p, r) == Before(r) + Open(LastOf(r))
  {
    hide LastValue, WithLast, GrowText, Before, Open;
  }

  lemma TextGoes(p: Phase, q: Request, r: Raw, c: char)
    requires Rep(p, q, r) && Sound(p, q) && (p == HeaderLws || p == HeaderValue)
    requires !IsCtl(c) && (p == HeaderLws ==> c != ' ')
    ensures Goes(p, q, r, c)
  {
    TextKeepsRep(p, q, r, c);
    GrowTextGrows(LastOf(r), c);
    Assoc(Before(r), Open(LastOf(r)), [c]);
    TextControl(p, q, r, c);
    hide DraftOk, Drafted, Grow, Consume, WithLast, GrowText, Open, Before, Agrees;
  }

  lemma LwsGoes(q: Request, r: Raw, c: char)
    requires Rep(HeaderLws, q, r) && IsLws(c)
    ensures Goes(HeaderLws, q, r, c)
  {
    hide IsTspecial;
    var h := GrowLws(LastOf(r), c);
    GrowLwsOk(LastOf(r), c);
    GrowLwsGrows(LastOf(r), c);
    WithLastMeans(r, h);
    LastChanges(HeaderLws, q, r, h, HeaderLws, q);
    Assoc(Before(r), Open(LastOf(r)), [c]);
  }

  lemma Newline2Goes(q: Request, r: Raw)
    requires Rep(Newline2, q, r) && Sound(Newline2, q)
    ensures Goes(Newline2, q, r, '\n')
  {
    WithLastMeans(r, LastOf(r));
    LineDraft(RequestLine(r), Headers(r.headers[..|r.headers| - 1]), Open(LastOf(r)));
  }

  lemma LineDraft(line: string, others: string, last: string)
    ensures line + others + last + "\r" + "\n" == line + (others + last + "\r\n")
  {}

  lemma LineStartGoes(q: Request, r: Raw, c: char)
    requires Rep(HeaderLineStart, q, r) && Consume(HeaderLineStart, q, c).result == Indeterminate
    ensures Goes(HeaderLineStart, q, r, c)
  {
    if c == '\r' {
    } else if r.headers != [] && IsLws(c) {
      FoldGoes(q, r, c);
    } else {
      NewHeaderGoes(q, r, c);
    }
  }

  lemma ValueGoes(p: Phase, q: Request, r: Raw, c: char)
    requires Rep(p, q, r) && Sound(p, q) && (p == HeaderLws || p == HeaderValue)
    requires Consume(p, q, c).result == Indeterminate
    ensures Goes(p, q, r, c)
  {
    if c == '\r' {
    } else if p == HeaderLws && IsLws(c) {
      LwsGoes(q, r, c);
    } else {
      TextGoes(p, q, r, c);
    }
  }

  lemma StepGoes(p: Phase, q: Request, r: Raw, c: char)
    requires Rep(p, q, r) && Sound(p, q) && Consume(p, q, c).result == Indeterminate
    ensures Goes(p, q, r, c)
  {
    if Order(p) <= 7 {
      StartLineGoes(p, q, r, c);
    } else if Order(p) <= 12 {
      match p
      case MajorStart => MajorGoes(p, q, r, c);
      case Major => MajorGoes(p, q, r, c);
      case MinorStart => MinorGoes(p, q, r, c);
      case Minor => MinorGoes(p, q, r, c);
      case Newline1 => Newline1Goes(q, r, c);
    } else {
      match p
      case HeaderLineStart => LineStartGoes(q, r, c);
      case HeaderName => NameGoes(q, r, c);
      case SpaceBeforeValue => SpaceGoes(q, r);
      case HeaderLws => ValueGoes(p, q, r, c);
      case HeaderValue => ValueGoes(p, q, r, c);
      case Newline2 => Newline2Goes(q, r);
      case Newline3 =>
    }
  }
}
