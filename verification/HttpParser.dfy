/** request_parser: a machine of twenty states that is fed one character at a time. */
module HttpParsers {
  import opened HttpRequests

  datatype Phase =
    | MethodStart | Method | UriPart | VersionH | VersionT1 | VersionT2 | VersionP | VersionSlash
    | MajorStart | Major | MinorStart | Minor | Newline1
    | HeaderLineStart | HeaderLws | HeaderName | SpaceBeforeValue | HeaderValue | Newline2 | Newline3

  datatype Result = Good | Bad | Indeterminate

  datatype Consumed = Consumed(result: Result, phase: Phase, req: Request)

  function LastName(q: Request, c: char): Request
    requires q.headers != []
  {
    var n := |q.headers| - 1;
    q.(headers := q.headers[n := q.headers[n].(name := q.headers[n].name + [c])])
  }

  function LastValue(q: Request, c: char): Request
    requires q.headers != []
  {
    var n := |q.headers| - 1;
    q.(headers := q.headers[n := q.headers[n].(value := q.headers[n].value + [c])])
  }

  /** Phases in which `headers.back()` is used. */
  predicate InHeader(p: Phase) {
    p == HeaderLws || p == HeaderName || p == SpaceBeforeValue || p == HeaderValue || p == Newline2
  }

  ghost predicate Sound(p: Phase, q: Request) {
    InHeader(p) ==> q.headers != []
  }

  function Expect(c: char, want: char, p: Phase, next: Phase, q: Request): Consumed {
    if c == want then Consumed(Indeterminate, next, q) else Consumed(Bad, p, q)
  }

  function Consume(p: Phase, q: Request, c: char): (r: Consumed)
    requires Sound(p, q)
    ensures Sound(r.phase, r.req)
  {
    match p
    case MethodStart =>
      if !IsTokenChar(c) then Consumed(Bad, p, q)
      else Consumed(Indeterminate, Method, q.(verb := q.verb + [c]))
    case Method =>
      if c == ' ' then Consumed(Indeterminate, UriPart, q)
      else if !IsTokenChar(c) then Consumed(Bad, p, q)
      else Consumed(Indeterminate, p, q.(verb := q.verb + [c]))
    case UriPart =>
      if c == ' ' then Consumed(Indeterminate, VersionH, q)
      else if IsCtl(c) then Consumed(Bad, p, q)
      else Consumed(Indeterminate, p, q.(uri := q.uri + [c]))
    case VersionH => Expect(c, 'H', p, VersionT1, q)
    case VersionT1 => Expect(c, 'T', p, VersionT2, q)
    case VersionT2 => Expect(c, 'T', p, VersionP, q)
    case VersionP => Expect(c, 'P', p, VersionSlash, q)
    case VersionSlash =>
      if c == '/' then Consumed(Indeterminate, MajorStart, q.(major := 0, minor := 0)) else Consumed(Bad, p, q)
    case MajorStart =>
      if IsDigit(c) then Consumed(Indeterminate, Major, q.(major := q.major * 10 + DigitOf(c))) else Consumed(Bad, p, q)
    case Major =>
      if c == '.' then Consumed(Indeterminate, MinorStart, q)
      else if IsDigit(c) then Consumed(Indeterminate, p, q.(major := q.major * 10 + DigitOf(c)))
      else Consumed(Bad, p, q)
    case MinorStart =>
      if IsDigit(c) then Consumed(Indeterminate, Minor, q.(minor := q.minor * 10 + DigitOf(c))) else Consumed(Bad, p, q)
    case Minor =>
      if c == '\r' then Consumed(Indeterminate, Newline1, q)
      else if IsDigit(c) then Consumed(Indeterminate, p, q.(minor := q.minor * 10 + DigitOf(c)))
      else Consumed(Bad, p, q)
    case Newline1 => Expect(c, '\n', p, HeaderLineStart, q)
    case HeaderLineStart =>
      if c == '\r' then Consumed(Indeterminate, Newline3, q)
      else if q.headers != [] && IsLws(c) then Consumed(Indeterminate, HeaderLws, q)
      else if !IsTokenChar(c) then Consumed(Bad, p, q)
      else Consumed(Indeterminate, HeaderName, q.(headers := q.headers + [Header([c], "")]))
    case HeaderLws =>
      if c == '\r' then Consumed(Indeterminate, Newline2, q)
      else if IsLws(c) then Consumed(Indeterminate, p, q)
      else if IsCtl(c) then Consumed(Bad, p, q)
      else Consumed(Indeterminate, HeaderValue, LastValue(q, c))
    case HeaderName =>
      if c == ':' then Consumed(Indeterminate, SpaceBeforeValue, q)
      else if !IsTokenChar(c) then Consumed(Bad, p, q)
      else Consumed(Indeterminate, p, LastName(q, c))
    case SpaceBeforeValue => Expect(c, ' ', p, HeaderValue, q)
    case HeaderValue =>
      if c == '\r' then Consumed(Indeterminate, Newline2, q)
      else if IsCtl(c) then Consumed(Bad, p, q)
      else Consumed(Indeterminate, p, LastValue(q, c))
    case Newline2 => Expect(c, '\n', p, HeaderLineStart, q)
    case Newline3 => if c == '\n' then Consumed(Good, p, q) else Consumed(Bad, p, q)
  }

  /** What a call of parse does: it stops at the first character that decides. */
  datatype Outcome = Outcome(result: Result, used: nat, phase: Phase, req: Request)

  function Feed(p: Phase, q: Request, text: string): (o: Outcome)
    requires Sound(p, q)
    ensures Sound(o.phase, o.req) && o.used <= |text|
    ensures o.result == Indeterminate ==> o.used == |text|
    decreases |text|
  {
    if text == [] then Outcome(Indeterminate, 0, p, q)
    else
      var r := Consume(p, q, text[0]);
      if r.result != Indeterminate then Outcome(r.result, 1, r.phase, r.req)
      else
        var o := Feed(r.phase, r.req, text[1..]);
        o.(used := o.used + 1)
  }

  /** The last character decides: a step from the other end. */
  lemma {:induction false} FeedLast(p: Phase, q: Request, text: string, c: char)
    requires Sound(p, q) && Feed(p, q, text).result == Indeterminate
    ensures var o, r := Feed(p, q, text), Consume(Feed(p, q, text).phase, Feed(p, q, text).req, c);
            Feed(p, q, text + [c]) == Outcome(r.result, |text| + 1, r.phase, r.req)
    decreases |text|
  {
    hide Consume;
    if text == [] {
      assert (text + [c])[1..] == [];
    } else {
      var r := Consume(p, q, text[0]);
      assert (text + [c])[1..] == text[1..] + [c];
      FeedLast(r.phase, r.req, text[1..], c);
    }
  }

  /** Splitting the input between two calls makes no difference. */
  lemma {:induction false} Chunks(p: Phase, q: Request, a: string, b: string)
    requires Sound(p, q)
    ensures var o := Feed(p, q, a);
            Feed(p, q, a + b) ==
              if o.result != Indeterminate then o
              else var o' := Feed(o.phase, o.req, b); o'.(used := o'.used + |a|)
    decreases |a|
  {
    hide Consume;
    if a == [] {
      assert a + b == b;
    } else {
      var r := Consume(p, q, a[0]);
      assert (a + b)[1..] == a[1..] + b;
      if r.result == Indeterminate {
        Chunks(r.phase, r.req, a[1..], b);
      }
    }
  }

  function Join(chunks: seq<string>): string {
    if chunks == [] then "" else chunks[0] + Join(chunks[1..])
  }

  /** Calls of parse with one chunk after the other, until one of them decides. */
  function FeedAll(p: Phase, q: Request, chunks: seq<string>): Outcome
    requires Sound(p, q)
    decreases |chunks|
  {
    if chunks == [] then Outcome(Indeterminate, 0, p, q)
    else
      var o := Feed(p, q, chunks[0]);
      if o.result != Indeterminate then o
      else
        var o' := FeedAll(o.phase, o.req, chunks[1..]);
        o'.(used := o'.used + |chunks[0]|)
  }

  /** However the input is cut into chunks, the answer, the request and where it ends are the same. */
  lemma {:induction false} AnyChunks(p: Phase, q: Request, chunks: seq<string>)
    requires Sound(p, q)
    ensures FeedAll(p, q, chunks) == Feed(p, q, Join(chunks))
    decreases |chunks|
  {
    if chunks != [] {
      Chunks(p, q, chunks[0], Join(chunks[1..]));
      var o := Feed(p, q, chunks[0]);
      AnyChunks(o.phase, o.req, chunks[1..]);
    }
  }

  lemma FeedNothing(p: Phase, q: Request)
    requires Sound(p, q)
    ensures Feed(p, q, []) == Outcome(Indeterminate, 0, p, q)
  {}

  class RequestParser {
    var state: Phase

    constructor ()
      ensures state == MethodStart
    {
      state := MethodStart;
    }

    method Reset()
      modifies this
      ensures state == MethodStart
    {
      state := MethodStart;
    }

    /** parse, with the request it fills passed in and out. */
    method Parse(req: Request, text: string) returns (result: Result, used: nat, req': Request)
      requires Sound(state, req)
      modifies this
      ensures Outcome(result, used, state, req') == Feed(old(state), req, text)
    {
      hide Consume, Feed, Sound;
      used, req' := 0, req;
      FeedNothing(state, req);
      while used != |text|
        invariant used <= |text| && Sound(state, req')
        invariant Feed(old(state), req, text[..used]) == Outcome(Indeterminate, used, state, req')
        decreases |text| - used
      {
        var c := Consume(state, req', text[used]);
        assert text[..used + 1] == text[..used] + [text[used]];
        FeedLast(old(state), req, text[..used], text[used]);
        used, state, req' := used + 1, c.phase, c.req;
        if c.result != Indeterminate {
          result := c.result;
          assert text[..used] + text[used..] == text;
          Chunks(old(state), req, text[..used], text[used..]);
          return;
        }
      }
      result := Indeterminate;
      assert text[..used] == text;
    }
  }
}
