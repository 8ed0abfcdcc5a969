/** The language of the parser: the texts it accepts are the texts of requests, every such text is accepted
    at its last character and not before, and every text it has not refused can still become one. */
module HttpTheorems {
  import opened HttpRequests
  import opened HttpParsers
  import opened HttpLanguage

  /** A request object as it is given to a new parser. */
  ghost predicate Unfilled(q: Request) {
    q.verb == "" && q.uri == "" && q.headers == []
  }

  // ---------------------------------------------------------------- every draft is reached

  function Init<T>(s: seq<T>): seq<T>
    requires s != []
  {
    s[..|s| - 1]
  }

  function Last<T>(s: seq<T>): T
    requires s != []
  {
    s[|s| - 1]
  }

  /** In phase p0 with draft r0, the character c leads to phase p with draft r. */
  ghost predicate LeadsTo(p0: Phase, r0: Raw, c: char, p: Phase, r: Raw) {
    && DraftOk(p0, r0) && Grow(p0, r0, c) == r
    && var o := Consume(p0, Meaning(r0), c); o.result == Indeterminate && o.phase == p
  }

  /** Of the request the parser looks at nothing but whether it has a header. */
  lemma SameControl(p: Phase, q: Request, q': Request, c: char)
    requires Sound(p, q) && Sound(p, q') && (q.headers == [] <==> q'.headers == [])
    ensures Consume(p, q, c).result == Consume(p, q', c).result && Consume(p, q, c).phase == Consume(p, q', c).phase
  {}

  lemma BackInStartLine(p: Phase, r: Raw) returns (p0: Phase, r0: Raw, c: char)
    requires DraftOk(p, r) && 1 <= Order(p) <= 8
    ensures LeadsTo(p0, r0, c, p, r)
  {
    match p
    case Method =>
      p0, r0, c := if |r.verb| == 1 then MethodStart else Method, r.(verb := Init(r.verb)), Last(r.verb);
    case UriPart =>
      if r.uri == "" {
        p0, r0, c := Method, r, ' ';
      } else {
        p0, r0, c := UriPart, r.(uri := Init(r.uri)), Last(r.uri);
      }
    case VersionH => p0, r0, c := UriPart, r, ' ';
    case VersionT1 => p0, r0, c := VersionH, r, 'H';
    case VersionT2 => p0, r0, c := VersionT1, r, 'T';
    case VersionP => p0, r0, c := VersionT2, r, 'T';
    case VersionSlash => p0, r0, c := VersionP, r, 'P';
    case MajorStart => p0, r0, c := VersionSlash, r, '/';
  }

  lemma BackInVersion(p: Phase, r: Raw) returns (p0: Phase, r0: Raw, c: char)
    requires DraftOk(p, r) && 9 <= Order(p) <= 12
    ensures LeadsTo(p0, r0, c, p, r)
  {
    match p
    case Major =>
      p0, r0, c := if |r.major| == 1 then MajorStart else Major, r.(major := Init(r.major)), Last(r.major);
    case MinorStart => p0, r0, c := Major, r, '.';
    case Minor =>
      p0, r0, c := if |r.minor| == 1 then MinorStart else Minor, r.(minor := Init(r.minor)), Last(r.minor);
    case Newline1 => p0, r0, c := Minor, r, '\r';
  }

  lemma Rejoin<T>(s: seq<T>)
    requires s != []
    ensures Init(s) + [Last(s)] == s
  {}

  /** Changing the last header and changing it back. */
  lemma BackWithLast(r: Raw, h: RawHeader)
    requires r.headers != []
    ensures WithLast(WithLast(r, h), LastOf(r)) == r && LastOf(WithLast(r, h)) == h
  {
    assert Init(WithLast(r, h).headers) == Init(r.headers);
    Rejoin(r.headers);
  }

  function WithFold(h: RawHeader, f: Fold): RawHeader
    requires h.folds != []
  {
    h.(folds := Init(h.folds) + [f])
  }

  lemma BackWithFold(h: RawHeader, f: Fold)
    requires h.folds != []
    ensures WithFold(WithFold(h, f), Last(h.folds)) == h && Last(WithFold(h, f).folds) == f
  {
    assert Init(WithFold(h, f).folds) == Init(h.folds);
    Rejoin(h.folds);
  }

  lemma WithoutLast(r: Raw)
    requires DraftOk(HeaderName, r)
    ensures DraftOk(HeaderLineStart, r.(headers := Init(r.headers)))
  {
    hide HeaderOk, Token, Digits, Uri;
  }

  lemma BackInFirstOfName(r: Raw) returns (r0: Raw)
    requires DraftOk(HeaderName, r) && |LastOf(r).name| == 1
    ensures LeadsTo(HeaderLineStart, r0, LastOf(r).name[0], HeaderName, r)
  {
    var h, c := LastOf(r), LastOf(r).name[0];
    r0 := r.(headers := Init(r.headers));
    assert h == RawHeader([c], "", []) && IsTokenChar(c) by {
      assert h.name == [c] && HeaderOk(h);
    }
    TokenChars(c);
    WithoutLast(r);
    hide IsTspecial, IsTokenChar, DraftOk;
    Rejoin(r.headers);
    assert r0.headers + [h] == r.headers;
  }

  lemma BackInRestOfName(r: Raw) returns (r0: Raw, c: char)
    requires DraftOk(HeaderName, r) && |LastOf(r).name| > 1
    ensures LeadsTo(HeaderName, r0, c, HeaderName, r)
  {
    hide IsTspecial;
    TokenChars(Last(LastOf(r).name));
    var h := LastOf(r);
    var h0 := h.(name := Init(h.name));
    r0, c := WithLast(r, h0), Last(h.name);
    Rejoin(h.name);
    assert IsTokenChar(c) && h0.(name := h0.name + [c]) == h;
    BackWithLast(r, h0);
  }

  lemma BackInName(r: Raw) returns (p0: Phase, r0: Raw, c: char)
    requires DraftOk(HeaderName, r)
    ensures LeadsTo(p0, r0, c, HeaderName, r)
  {
    if |LastOf(r).name| == 1 {
      p0, c := HeaderLineStart, LastOf(r).name[0];
      r0 := BackInFirstOfName(r);
    } else {
      p0 := HeaderName;
      r0, c := BackInRestOfName(r);
    }
  }

  lemma BackInPlainValue(r: Raw) returns (p0: Phase, r0: Raw, c: char)
    requires DraftOk(HeaderValue, r) && LastOf(r).folds == []
    ensures LeadsTo(p0, r0, c, HeaderValue, r)
  {
    var h := LastOf(r);
    if h.value == "" {
      p0, r0, c := SpaceBeforeValue, r, ' ';
    } else {
      var h0 := h.(value := Init(h.value));
      p0, r0, c := HeaderValue, WithLast(r, h0), Last(h.value);
      Rejoin(h.value);
      BackWithLast(r, h0);
    }
  }

  /** The text of the last line of the header without its last character. */
  function ShorterText(h: RawHeader): RawHeader
    requires h.folds != [] && Last(h.folds).text != ""
  {
    WithFold(h, Last(h.folds).(text := Init(Last(h.folds).text)))
  }

  lemma ShorterTextOk(h: RawHeader)
    requires HeaderOk(h) && h.folds != [] && Last(h.folds).text != ""
    ensures var h0, c := ShorterText(h), Last(Last(h.folds).text);
            && HeaderOk(h0) && GrowText(h0, c) == h && !IsCtl(c)
            && if |Last(h.folds).text| == 1 then LastOk(HeaderLws, h0) && c != ' ' else LastOk(HeaderValue, h0)
  {
    hide IsTspecial;
    var f := Last(h.folds);
    assert FoldOk(f);
    Rejoin(f.text);
    BackWithFold(h, f.(text := Init(f.text)));
  }

  lemma BackInFoldedValue(r: Raw) returns (p0: Phase, r0: Raw, c: char)
    requires DraftOk(HeaderValue, r) && LastOf(r).folds != []
    ensures LeadsTo(p0, r0, c, HeaderValue, r)
  {
    hide IsTspecial, IsCtl;
    var h := LastOf(r);
    var text := Last(h.folds).text;
    var h0 := ShorterText(h);
    p0, r0, c := if |text| == 1 then HeaderLws else HeaderValue, WithLast(r, h0), Last(text);
    ShorterTextOk(h);
    BackWithLast(r, h0);
    TextIsNoNewline(c);
  }

  lemma TextIsNoNewline(c: char)
    requires !IsCtl(c)
    ensures c != '\r' && c != '\t'
  {}

  lemma BackInFirstLws(r: Raw) returns (r0: Raw)
    requires DraftOk(HeaderLws, r) && |Last(LastOf(r).folds).lws| == 1
    ensures LeadsTo(HeaderLineStart, r0, Last(LastOf(r).folds).lws[0], HeaderLws, r)
  {
    var h := LastOf(r);
    var f := Last(h.folds);
    var h0 := h.(folds := Init(h.folds));
    assert FoldOk(f) && f == Fold([f.lws[0]], "");
    Rejoin(h.folds);
    assert NewFold(h0, f.lws[0]) == h;
    r0 := WithLast(r, h0);
    BackWithLast(r, h0);
  }

  lemma BackInRestOfLws(r: Raw) returns (r0: Raw, c: char)
    requires DraftOk(HeaderLws, r) && |Last(LastOf(r).folds).lws| > 1
    ensures LeadsTo(HeaderLws, r0, c, HeaderLws, r)
  {
    var h := LastOf(r);
    var f := Last(h.folds);
    assert FoldOk(f);
    c := Last(f.lws);
    var f0 := f.(lws := Init(f.lws));
    var h0 := WithFold(h, f0);
    Rejoin(f.lws);
    BackWithFold(h, f0);
    assert f0.(lws := f0.lws + [c]) == f && GrowLws(h0, c) == h;
    r0 := WithLast(r, h0);
    BackWithLast(r, h0);
  }

  lemma BackInLws(r: Raw) returns (p0: Phase, r0: Raw, c: char)
    requires DraftOk(HeaderLws, r)
    ensures LeadsTo(p0, r0, c, HeaderLws, r)
  {
    var f := Last(LastOf(r).folds);
    assert FoldOk(f);
    if |f.lws| == 1 {
      p0, c := HeaderLineStart, f.lws[0];
      r0 := BackInFirstLws(r);
    } else {
      p0 := HeaderLws;
      r0, c := BackInRestOfLws(r);
    }
  }

  /** Every draft but the empty one comes from a draft with one character less. */
  lemma Back(p: Phase, r: Raw) returns (p0: Phase, r0: Raw, c: char)
    requires DraftOk(p, r) && p != MethodStart
    ensures LeadsTo(p0, r0, c, p, r)
  {
    if Order(p) <= 8 {
      p0, r0, c := BackInStartLine(p, r);
    } else if Order(p) <= 12 {
      p0, r0, c := BackInVersion(p, r);
    } else {
      match p {
        case HeaderLineStart => p0, r0, c := if r.headers == [] then Newline1 else Newline2, r, '\n';
        case HeaderName => p0, r0, c := BackInName(r);
        case SpaceBeforeValue => p0, r0, c := HeaderName, r, ':';
        case HeaderLws => p0, r0, c := BackInLws(r);
        case HeaderValue =>
          if LastOf(r).folds == [] {
            p0, r0, c := BackInPlainValue(r);
          } else {
            p0, r0, c := BackInFoldedValue(r);
          }
        case Newline2 =>
          p0, r0, c := if LastOk(HeaderLws, LastOf(r)) then HeaderLws else HeaderValue, r, '\r';
        case Newline3 => p0, r0, c := HeaderLineStart, r, '\r';
      }
    }
  }

  lemma {:induction false} Reach(p: Phase, r: Raw, q: Request) returns (q': Request)
    requires DraftOk(p, r) && Unfilled(q)
    ensures Feed(MethodStart, q, Drafted(p, r)) == Outcome(Indeterminate, |Drafted(p, r)|, p, q')
    ensures Rep(p, q', r)
    decreases |Drafted(p, r)|
  {
    if p == MethodStart {
      q' := q;
    } else {
      var p0, r0, c := Back(p, r);
      assert Rep(p0, Meaning(r0), r0);
      StepGoes(p0, Meaning(r0), r0, c);
      var q0 := Reach(p0, r0, q);
      SameControl(p0, Meaning(r0), q0, c);
      StepGoes(p0, q0, r0, c);
      FeedLast(MethodStart, q, Drafted(p0, r0), c);
      q' := Consume(p0, q0, c).req;
    }
  }

  /** Every text of a request, however it is folded, is accepted at its last character, whatever follows,
      and the parser has built what the text means. */
  lemma Complete(r: Raw, q: Request, more: string)
    requires RawOk(r) && Unfilled(q)
    ensures Feed(MethodStart, q, Render(r) + more) == Outcome(Good, |Render(r)|, Newline3, Meaning(r))
  {
    var q' := Reach(Newline3, r, q);
    FullDraft(r, q');
    FeedLast(MethodStart, q, Drafted(Newline3, r), '\n');
    Chunks(MethodStart, q, Render(r), more);
  }

  lemma Accepted(r: Raw, q: Request)
    requires RawOk(r) && Unfilled(q)
    ensures Feed(MethodStart, q, Render(r)) == Outcome(Good, |Render(r)|, Newline3, Meaning(r))
  {
    hide Feed, Render;
    Complete(r, q, "");
    assert Render(r) + "" == Render(r);
  }

  // ---------------------------------------------------------------- nothing else is reached

  lemma {:induction false} OnlyDrafts(q: Request, text: string) returns (r: Raw)
    requires Unfilled(q) && Feed(MethodStart, q, text).result == Indeterminate
    ensures var o := Feed(MethodStart, q, text); Rep(o.phase, o.req, r) && Drafted(o.phase, r) == text
    decreases |text|
  {
    if text == "" {
      r := EMPTY;
    } else {
      var t, c := Init(text), Last(text);
      assert text == t + [c];
      Chunks(MethodStart, q, t, [c]);
      var o := Feed(MethodStart, q, t);
      var r0 := OnlyDrafts(q, t);
      FeedLast(MethodStart, q, t, c);
      StepGoes(o.phase, o.req, r0, c);
      r := Grow(o.phase, r0, c);
    }
  }

  /** The characters up to the one that decides. */
  lemma {:induction false} UpToTheLast(p: Phase, q: Request, text: string)
    requires Sound(p, q) && Feed(p, q, text).result != Indeterminate
    ensures var o := Feed(p, q, text);
            && o.used > 0 && Feed(p, q, text[..o.used - 1]).result == Indeterminate
            && var o' := Feed(p, q, text[..o.used - 1]);
               Consume(o'.phase, o'.req, text[o.used - 1]) == Consumed(o.result, o.phase, o.req)
    decreases |text|
  {
    hide Consume;
    var o, r := Feed(p, q, text), Consume(p, q, text[0]);
    if r.result == Indeterminate {
      UpToTheLast(r.phase, r.req, text[1..]);
      assert text[..o.used - 1][1..] == text[1..][..o.used - 2];
    }
  }

  /** Whatever is accepted is the text of a request, and the parser has built what it means. */
  lemma OnlyRequests(q: Request, text: string) returns (r: Raw)
    requires Unfilled(q) && Feed(MethodStart, q, text).result == Good
    ensures var o := Feed(MethodStart, q, text);
            RawOk(r) && text[..o.used] == Render(r) && o.req == Meaning(r)
  {
    hide Feed, Consume, Drafted, Render, RawOk, Meaning, DraftOk;
    var o := Feed(MethodStart, q, text);
    UpToTheLast(MethodStart, q, text);
    r := OnlyDrafts(q, text[..o.used - 1]);
    var before := Feed(MethodStart, q, text[..o.used - 1]);
    GoodAtTheEnd(before.phase, before.req, text[o.used - 1]);
    FullDraft(r, before.req);
    assert text[..o.used] == text[..o.used - 1] + "\n";
  }

  lemma GoodAtTheEnd(p: Phase, q: Request, c: char)
    requires Sound(p, q) && Consume(p, q, c).result == Good
    ensures p == Newline3 && c == '\n' && Consume(p, q, c).req == q && Consume(p, q, c).phase == p
  {}

  lemma FinalPhase(q: Request, text: string)
    requires Unfilled(q) && Feed(MethodStart, q, text).result == Good
    ensures Feed(MethodStart, q, text).phase == Newline3
  {
    UpToTheLast(MethodStart, q, text);
    var k := Feed(MethodStart, q, text).used - 1;
    var before := Feed(MethodStart, q, text[..k]);
    GoodAtTheEnd(before.phase, before.req, text[k]);
  }

  lemma FullDraft(r: Raw, q: Request)
    requires Rep(Newline3, q, r)
    ensures RawOk(r) && Drafted(Newline3, r) + "\n" == Render(r) && q == Meaning(r)
  {
    Assoc(RequestLine(r) + Headers(r.headers), "\r", "\n");
  }

  /** The shortest way on. */
  function Onward(p: Phase): char {
    match p
    case MethodStart => 'A' case Method => ' ' case UriPart => ' '
    case VersionH => 'H' case VersionT1 => 'T' case VersionT2 => 'T' case VersionP => 'P' case VersionSlash => '/'
    case MajorStart => '1' case Major => '.' case MinorStart => '0' case Minor => '\r' case Newline1 => '\n'
    case HeaderLineStart => '\r' case HeaderName => ':' case SpaceBeforeValue => ' '
    case HeaderLws => '\r' case HeaderValue => '\r' case Newline2 => '\n' case Newline3 => '\n'
  }

  function Away(p: Phase): nat {
    if p == HeaderLineStart then 1 else if p == Newline3 then 0 else 30 - Order(p)
  }

  lemma OnwardGoes(p: Phase, q: Request)
    requires Sound(p, q)
    ensures var o := Consume(p, q, Onward(p));
            if p == Newline3 then o.result == Good else o.result == Indeterminate && Away(o.phase) < Away(p)
  {}

  /** Whatever is not refused yet can be completed. */
  lemma {:induction false} CanGoOn(p: Phase, q: Request) returns (rest: string)
    requires Sound(p, q)
    ensures Feed(p, q, rest).result == Good && Feed(p, q, rest).used == |rest|
    decreases Away(p)
  {
    var o := Consume(p, q, Onward(p));
    OnwardGoes(p, q);
    if p == Newline3 {
      rest := [Onward(p)];
    } else {
      var tail := CanGoOn(o.phase, o.req);
      rest := [Onward(p)] + tail;
      assert rest[1..] == tail;
    }
  }

  /** Text that some request starts with. */
  ghost predicate Viable(text: string) {
    exists r :: RawOk(r) && text <= Render(r)
  }

  ghost predicate IsRequest(text: string) {
    exists r :: RawOk(r) && text == Render(r)
  }

  /** The three answers, exactly: "good" at the end of the text of a request, "bad" at the first character
      with which no request goes on, "indeterminate" as long as the text may still become a request. */
  lemma Answers(q: Request, text: string)
    requires Unfilled(q)
    ensures var o := Feed(MethodStart, q, text);
            && (o.result == Indeterminate <==> Viable(text) && forall k :: 0 <= k <= |text| ==> !IsRequest(text[..k]))
            && (o.result == Good <==> exists k :: 0 <= k <= |text| && IsRequest(text[..k]))
            && (o.result == Good ==> IsRequest(text[..o.used]))
            && (o.result == Bad ==> !Viable(text[..o.used]) && Viable(text[..o.used - 1]))
  {
    var o := Feed(MethodStart, q, text);
    forall k | 0 <= k <= |text| && IsRequest(text[..k]) ensures o.result == Good {
      AcceptsPrefix(q, text, k);
    }
    if o.result == Good {
      var r := OnlyRequests(q, text);
    } else if o.result == Indeterminate {
      StillViable(q, text);
    } else {
      BadIsFinal(q, text);
      assert text[..|text|] == text;
    }
  }

  lemma AcceptsPrefix(q: Request, text: string, k: nat)
    requires Unfilled(q) && k <= |text| && IsRequest(text[..k])
    ensures Feed(MethodStart, q, text).result == Good
  {
    var r :| RawOk(r) && text[..k] == Render(r);
    assert text == Render(r) + text[k..];
    Complete(r, q, text[k..]);
  }

  lemma StillViable(q: Request, text: string)
    requires Unfilled(q) && Feed(MethodStart, q, text).result == Indeterminate
    ensures Viable(text)
  {
    var o := Feed(MethodStart, q, text);
    var rest := CanGoOn(o.phase, o.req);
    Chunks(MethodStart, q, text, rest);
    var r := OnlyRequests(q, text + rest);
  }

  lemma BadIsFinal(q: Request, text: string)
    requires Unfilled(q) && Feed(MethodStart, q, text).result == Bad
    ensures var k := Feed(MethodStart, q, text).used;
            k > 0 && !Viable(text[..k]) && Viable(text[..k - 1]) && !Viable(text)
  {
    hide Feed, Consume, RawOk, Render;
    var k := Feed(MethodStart, q, text).used;
    UpToTheLast(MethodStart, q, text);
    StillViable(q, text[..k - 1]);
    FeedLast(MethodStart, q, text[..k - 1], text[k - 1]);
    assert text[..k - 1] + [text[k - 1]] == text[..k];
    forall r | RawOk(r) ensures !(text[..k] <= Render(r)) {
      Accepted(r, q);
      NoWayOn(q, text[..k], Render(r));
    }
    assert forall r :: text <= Render(r) ==> text[..k] <= Render(r);
  }

  lemma NoWayOn(q: Request, text: string, whole: string)
    requires Feed(MethodStart, q, text).result == Bad && Feed(MethodStart, q, whole).result == Good
    ensures !(text <= whole)
  {
    if text <= whole {
      assert whole == text + whole[|text|..];
      Chunks(MethodStart, q, text, whole[|text|..]);
    }
  }

  // ---------------------------------------------------------------- version numbers are ints

  const MAX_INT := 0x7fff_ffff

  /** The largest number that a digit can lead to. */
  const LIMIT := MAX_INT - '0' as int

  /** `number * 10 + input - '0'`, computed from left to right, stays in the range of an int. */
  predicate StepFits(p: Phase, q: Request, c: char) {
    && (IsDigit(c) && (p == MajorStart || p == Major) ==> q.major * 10 + c as int <= MAX_INT)
    && (IsDigit(c) && (p == MinorStart || p == Minor) ==> q.minor * 10 + c as int <= MAX_INT)
  }

  /** No step overflows. */
  predicate Fits(p: Phase, q: Request, text: string)
    requires Sound(p, q)
    decreases |text|
  {
    text != [] ==>
      && StepFits(p, q, text[0])
      && var r := Consume(p, q, text[0]);
         r.result == Indeterminate ==> Fits(r.phase, r.req, text[1..])
  }

  /** The numbers of which a digit was read. */
  predicate InRange(p: Phase, q: Request) {
    (Order(p) >= 9 ==> q.major <= LIMIT) && (Order(p) >= 11 ==> q.minor <= LIMIT)
  }

  ghost predicate Naturals(p: Phase, q: Request) {
    Order(p) >= 8 ==> q.major >= 0 && q.minor >= 0
  }

  lemma OtherStep(p: Phase, q: Request, c: char)
    requires Sound(p, q) && Order(p) >= 12
    ensures var o := Consume(p, q, c);
            Order(o.phase) >= 12 && o.req.major == q.major && o.req.minor == q.minor
  {
    hide IsTokenChar, IsCtl, IsLws;
  }

  lemma NumbersStep(p: Phase, q: Request, c: char)
    requires Sound(p, q) && Naturals(p, q)
    ensures var o := Consume(p, q, c);
            && Naturals(o.phase, o.req) && Order(o.phase) >= (if Order(p) < 12 then Order(p) else 12)
            && (Order(p) >= 8 ==> o.req.major >= q.major && o.req.minor >= q.minor)
            && (InRange(p, q) ==> (StepFits(p, q, c) <==> InRange(o.phase, o.req)))
  {
    hide IsTokenChar, IsCtl, IsLws;
    if Order(p) >= 12 {
      hide Consume;
      OtherStep(p, q, c);
    }
  }

  /** A number once too large stays too large. */
  lemma {:induction false} OutOfRange(p: Phase, q: Request, text: string)
    requires Sound(p, q) && Naturals(p, q) && !InRange(p, q)
    ensures !InRange(Feed(p, q, text).phase, Feed(p, q, text).req)
    decreases |text|
  {
    hide Consume;
    if text != [] {
      var o := Consume(p, q, text[0]);
      NumbersStep(p, q, text[0]);
      if o.result == Indeterminate {
        OutOfRange(o.phase, o.req, text[1..]);
      }
    }
  }

  lemma {:induction false} FitsIfInRange(p: Phase, q: Request, text: string)
    requires Sound(p, q) && Naturals(p, q) && InRange(p, q)
    ensures Fits(p, q, text) <==> InRange(Feed(p, q, text).phase, Feed(p, q, text).req)
    decreases |text|
  {
    hide Consume, StepFits, InRange;
    if text != [] {
      var o := Consume(p, q, text[0]);
      NumbersStep(p, q, text[0]);
      if o.result == Indeterminate {
        if InRange(o.phase, o.req) {
          FitsIfInRange(o.phase, o.req, text[1..]);
        } else {
          OutOfRange(o.phase, o.req, text[1..]);
        }
      }
    }
  }

  /** On any input, accepted or not, the arithmetic of the code stays in its ints if and only if the
      numbers read so far are at most LIMIT. */
  lemma VersionsFit(q: Request, text: string)
    requires Unfilled(q)
    ensures var o := Feed(MethodStart, q, text); Fits(MethodStart, q, text) <==> InRange(o.phase, o.req)
  {
    FitsIfInRange(MethodStart, q, text);
  }

  // ---------------------------------------------------------------- printing and parsing

  ghost function Print(q: Request): string
    requires Printable(q)
  {
    Render(Canonical(q))
  }

  lemma PrintAccepted(q: Request, q0: Request)
    requires Printable(q) && Unfilled(q0)
    ensures Feed(MethodStart, q0, Print(q)) == Outcome(Good, |Print(q)|, Newline3, q)
  {
    hide Feed, Render, Canonical;
    CanonicalMeans(q);
    Accepted(Canonical(q), q0);
  }

  /** The canonical printing of a request, in any chunks, is read back as that request, and the last
      character is the one that says so; in ints exactly if both version numbers are at most LIMIT. */
  lemma RoundTrip(q: Request, q0: Request, chunks: seq<string>)
    requires Printable(q) && Unfilled(q0) && Join(chunks) == Print(q)
    ensures FeedAll(MethodStart, q0, chunks) == Outcome(Good, |Join(chunks)|, Newline3, q)
    ensures Fits(MethodStart, q0, Join(chunks)) <==> q.major <= LIMIT && q.minor <= LIMIT
  {
    hide Print, Feed, FeedAll, Join, Fits;
    VersionsFit(q0, Join(chunks));
    AnyChunks(MethodStart, q0, chunks);
    PrintAccepted(q, q0);
  }

  /** Whatever was accepted, folded headers included, can be printed, and the printing is accepted as the
      same request, without an overflow if there was none before. */
  lemma Reprint(q0: Request, text: string)
    requires Unfilled(q0) && Feed(MethodStart, q0, text).result == Good
    ensures var q := Feed(MethodStart, q0, text).req;
            && Printable(q) && Feed(MethodStart, q0, Print(q)) == Outcome(Good, |Print(q)|, Newline3, q)
            && (Fits(MethodStart, q0, Print(q)) <==> Fits(MethodStart, q0, text))
  {
    hide Print, Feed, Fits;
    VersionsFit(q0, text);
    var r := OnlyRequests(q0, text);
    MeaningIsPrintable(r);
    PrintAccepted(Meaning(r), q0);
    VersionsFit(q0, Print(Meaning(r)));
    FinalPhase(q0, text);
  }
}
