/** muduo/net/http/HttpContext.cc and HttpRequest.h: the HTTP request parser, a loop
    over the mutable buffer, and what it computes from a byte stream. */
module HttpParser {
  import opened Bytes
  import opened Incremental
  import opened NetBuffer

  const SP: byte := 32
  const COLON: byte := 58
  const QUESTION: byte := 63
  const CRLF: bytes := [CR, LF]

  const GET: bytes := [71, 69, 84]
  const POST: bytes := [80, 79, 83, 84]
  const HEAD: bytes := [72, 69, 65, 68]
  const PUT: bytes := [80, 85, 84]
  const DELETE: bytes := [68, 69, 76, 69, 84, 69]
  /** "HTTP/1." */
  const HTTP1: bytes := [72, 84, 84, 80, 47, 49, 46]
  const ONE: byte := 49
  const ZERO: byte := 48

  datatype Method = Invalid | Get | Post | Head | Put | Delete
  datatype Version = Unknown | Http10 | Http11
  datatype Phase = ExpectRequestLine | ExpectHeaders | GotAll

  /** HttpRequest without its receive time, which the context keeps beside it. */
  datatype Request = Request(
    verb: Method, version: Version, path: bytes, query: bytes, headers: map<bytes, bytes>)

  const EMPTY_REQUEST := Request(Invalid, Unknown, [], [], map[])

  datatype Context = Context(phase: Phase, request: Request)

  datatype Stop = BadRequestLine | Complete

  // ---- HttpRequest ----

  function MethodOf(m: bytes): Method {
    if m == GET then Get
    else if m == POST then Post
    else if m == HEAD then Head
    else if m == PUT then Put
    else if m == DELETE then Delete
    else Invalid
  }

  /** isspace in the C locale. */
  predicate IsSpace(b: byte) {
    b == 32 || 9 <= b <= 13
  }

  function TrimLeft(s: bytes): bytes {
    if s != [] && IsSpace(s[0]) then TrimLeft(s[1..]) else s
  }

  function TrimRight(s: bytes): bytes {
    if s != [] && IsSpace(s[|s| - 1]) then TrimRight(s[..|s| - 1]) else s
  }

  function Trim(s: bytes): bytes {
    TrimRight(TrimLeft(s))
  }

  /** Tab, line feed, vertical tab, form feed, carriage return and space. */
  const WHITE_SPACE: set<byte> := {9, 10, 11, 12, 13, 32}

  ghost predicate AllSpace(s: bytes) {
    forall i :: 0 <= i < |s| ==> s[i] in WHITE_SPACE
  }

  /** No white space at either end. */
  ghost predicate Tight(s: bytes) {
    s != [] ==> s[0] !in WHITE_SPACE && s[|s| - 1] !in WHITE_SPACE
  }

  lemma {:induction false} TrimLeftSplits(s: bytes) returns (left: bytes)
    ensures s == left + TrimLeft(s) && AllSpace(left)
    ensures TrimLeft(s) != [] ==> !IsSpace(TrimLeft(s)[0])
  {
    left := [];
    if s != [] && IsSpace(s[0]) {
      left := TrimLeftSplits(s[1..]);
      left := [s[0]] + left;
    }
  }

  lemma {:induction false} TrimRightSplits(s: bytes) returns (right: bytes)
    ensures s == TrimRight(s) + right && AllSpace(right)
    ensures TrimRight(s) != [] ==> !IsSpace(TrimRight(s)[|TrimRight(s)| - 1])
  {
    right := [];
    if s != [] && IsSpace(s[|s| - 1]) {
      right := TrimRightSplits(s[..|s| - 1]);
      right := right + [s[|s| - 1]];
      assert s == s[..|s| - 1] + [s[|s| - 1]];
    }
  }

  /** A header value is the raw value without the white space around it, and nothing else. */
  lemma TrimSplits(s: bytes) returns (left: bytes, right: bytes)
    ensures s == left + Trim(s) + right && AllSpace(left) && AllSpace(right) && Tight(Trim(s))
  {
    left := TrimLeftSplits(s);
    right := TrimRightSplits(TrimLeft(s));
  }

  /** `line` has a colon at position `colon`. */
  function AddHeader(r: Request, line: bytes, colon: nat): Request
    requires colon < |line|
  {
    r.(headers := r.headers[line[..colon] := Trim(line[colon + 1..])])
  }

  // ---- HttpContext::processRequestLine ----

  function SetTarget(r: Request, target: bytes): Request {
    var question := IndexOf(target, QUESTION);
    if question < |target| then r.(path := target[..question], query := target[question..])
    else r.(path := target)
  }

  function VersionOf(text: bytes): Version {
    if |text| == 8 && text[..7] == HTTP1 then
      if text[7] == ONE then Http11 else if text[7] == ZERO then Http10 else Unknown
    else Unknown
  }

  /** What follows the method: the target, a space and the version. */
  function ReadTargetAndVersion(r: Request, rest: bytes): (bool, Request) {
    var space := IndexOf(rest, SP);
    if space == |rest| then (false, r)
    else
      var r' := SetTarget(r, rest[..space]);
      var v := VersionOf(rest[space + 1..]);
      if v.Unknown? then (false, r') else (true, r'.(version := v))
  }

  /** Whether the line is accepted, and the request with the fields set until then. */
  function ProcessRequestLine(r: Request, line: bytes): (bool, Request) {
    var space := IndexOf(line, SP);
    if space == |line| then (false, r)
    else
      var r' := r.(verb := MethodOf(line[..space]));
      if r'.verb.Invalid? then (false, r') else ReadTargetAndVersion(r', line[space + 1..])
  }

  // ---- HttpContext::parseRequest, one turn of its loop ----

  /** The code loops forever in state kGotAll; its callers never enter with it. */
  function Look(c: Context, buf: bytes): Step<Context, Stop> {
    if c.phase.GotAll? then Wait
    else
      match FindCRLF(buf)
      case None => Wait
      case Some(crlf) =>
        if c.phase.ExpectRequestLine? then
          var (ok, r) := ProcessRequestLine(c.request, buf[..crlf]);
          if ok then Advance(crlf + 2, Context(ExpectHeaders, r))
          else Halt(0, Context(ExpectRequestLine, r), BadRequestLine)
        else
          var line := buf[..crlf];
          var colon := IndexOf(line, COLON);
          if colon < |line| then Advance(crlf + 2, c.(request := AddHeader(c.request, line, colon)))
          else Halt(crlf + 2, c.(phase := GotAll), Complete)
  }

  const PARSER: Parser<Context, Stop> := (c, buf) => Look(c, buf)

  lemma LookStable(c: Context, a: bytes, b: bytes)
    requires !Look(c, a).Wait?
    ensures Look(c, a + b) == Look(c, a)
  {
    FindCRLFStable(a, b);
    var i := FindCRLF(a).value;
    assert (a + b)[..i] == a[..i];
  }

  lemma ParseStable()
    ensures Stable(PARSER)
  {
    forall s, a, b | !PARSER(s, a).Wait? ensures PARSER(s, a + b) == PARSER(s, a) {
      LookStable(s, a, b);
    }
  }

  /** One call of parseRequest on the buffered bytes. */
  ghost function ParseRequest(c: Context, buf: bytes): Result<Context, Stop> {
    ParseStable();
    Run(PARSER, c, buf)
  }

  lemma ParseRequestStep(c: Context, buf: bytes)
    ensures ParseRequest(c, buf) ==
            match Look(c, buf)
            case Wait => Result(c, buf, None)
            case Advance(n, c') => if n <= |buf| then ParseRequest(c', buf[n..]) else Result(c, buf, None)
            case Halt(n, c', e) => if n <= |buf| then Result(c', buf[n..], Some(e)) else Result(c, buf, None)
  {
    ParseStable();
  }

  /** One call of parseRequest per arriving chunk, until one reports an error or the end. */
  ghost function ParseChunksFrom(c: Context, pending: bytes, chunks: seq<bytes>): Result<Context, Stop> {
    ParseStable();
    FeedUntilHalt(PARSER, c, pending, chunks)
  }

  ghost function ParseChunks(c: Context, chunks: seq<bytes>): Result<Context, Stop> {
    ParseChunksFrom(c, [], chunks)
  }

  /** However the stream is cut, the result flag, the phase, every field of the request and the
      bytes left over are those of one call on the whole stream. */
  lemma ChunkingIndependent(c: Context, chunks: seq<bytes>)
    ensures ParseChunks(c, chunks) == ParseRequest(c, Flatten(chunks))
  {
    ParseStable();
    FeedUntilHaltIsOneCall(PARSER, c, [], chunks);
    assert [] + Flatten(chunks) == Flatten(chunks);
  }

  // ---- Requests as text, and back ----

  /** A header line: `left` and `right` are the white space around the value. */
  datatype Field = Field(name: bytes, left: bytes, value: bytes, right: bytes)

  /** What a client puts on the wire. */
  datatype Message = Message(verb: Method, path: bytes, query: bytes, version: Version, fields: seq<Field>)

  function MethodText(m: Method): bytes {
    match m
    case Invalid => []
    case Get => GET
    case Post => POST
    case Head => HEAD
    case Put => PUT
    case Delete => DELETE
  }

  function VersionText(v: Version): bytes {
    HTTP1 + [if v.Http11? then ONE else ZERO]
  }

  function RequestLineText(m: Message): bytes {
    MethodText(m.verb) + [SP] + (m.path + m.query + [SP] + VersionText(m.version))
  }

  function FieldText(f: Field): bytes {
    f.name + [COLON] + (f.left + f.value + f.right)
  }

  function FieldsText(fs: seq<Field>): bytes {
    if fs == [] then [] else FieldText(fs[0]) + CRLF + FieldsText(fs[1..])
  }

  function Text(m: Message): bytes {
    RequestLineText(m) + CRLF + (FieldsText(m.fields) + CRLF)
  }

  function HeaderMap(h: map<bytes, bytes>, fs: seq<Field>): map<bytes, bytes>
    decreases |fs|
  {
    if fs == [] then h else HeaderMap(h[fs[0].name := fs[0].value], fs[1..])
  }

  ghost predicate GoodField(f: Field) {
    COLON !in f.name && Tight(f.value) && AllSpace(f.left) && AllSpace(f.right) && FindCRLF(FieldText(f)).None?
  }

  /** The parts of a request line can be told apart. */
  ghost predicate GoodLine(m: Message) {
    && !m.verb.Invalid? && !m.version.Unknown?
    && SP !in m.path && QUESTION !in m.path
    && SP !in m.query && (m.query != [] ==> m.query[0] == QUESTION)
  }

  ghost predicate GoodMessage(m: Message) {
    && GoodLine(m) && FindCRLF(RequestLineText(m)).None?
    && forall i :: 0 <= i < |m.fields| ==> GoodField(m.fields[i])
  }

  lemma IndexOfFirst<T>(a: seq<T>, x: T, b: seq<T>)
    requires x !in a
    ensures IndexOf(a + [x] + b, x) == |a|
  {
    var s := a + [x] + b;
    assert s[|a|] == x && s[..|a|] == a;
  }

  lemma CRLFAfterLine(line: bytes, rest: bytes)
    requires FindCRLF(line).None?
    ensures FindCRLF(line + CRLF + rest) == Some(|line|)
    ensures (line + CRLF + rest)[..|line|] == line
    ensures (line + CRLF + rest)[|line| + 2..] == rest
  {
    var s := line + CRLF + rest;
    assert CRLFAt(s, |line|);
    forall j | 0 <= j < |line| ensures !CRLFAt(s, j) {
      assert s[j] == line[j] && !CRLFAt(line, j);
    }
  }

  lemma TargetReadBack(r: Request, m: Message)
    requires GoodLine(m) && r.query == []
    ensures SetTarget(r, m.path + m.query) == r.(path := m.path, query := m.query)
  {
    var target := m.path + m.query;
    if m.query == [] {
      assert target == m.path;
    } else {
      assert target == m.path + [QUESTION] + m.query[1..];
      IndexOfFirst(m.path, QUESTION, m.query[1..]);
      assert target[..|m.path|] == m.path && target[|m.path|..] == m.query;
    }
  }

  lemma VersionReadBack(v: Version)
    requires !v.Unknown?
    ensures VersionOf(VersionText(v)) == v
  {
    assert VersionText(v)[..7] == HTTP1;
  }

  lemma MethodReadBack(m: Method)
    ensures MethodOf(MethodText(m)) == m
    ensures SP !in MethodText(m)
  {
  }

  lemma RestOfLineReadBack(r: Request, m: Message)
    requires GoodLine(m) && r.query == []
    ensures var rest := m.path + m.query + [SP] + VersionText(m.version);
            ReadTargetAndVersion(r, rest) == (true, r.(path := m.path, query := m.query, version := m.version))
  {
    var target := m.path + m.query;
    var rest := target + [SP] + VersionText(m.version);
    IndexOfFirst(target, SP, VersionText(m.version));
    assert rest[..|target|] == target && rest[|target| + 1..] == VersionText(m.version);
    TargetReadBack(r, m);
    VersionReadBack(m.version);
  }

  lemma RequestLineReadBack(m: Message)
    requires GoodLine(m)
    ensures ProcessRequestLine(EMPTY_REQUEST, RequestLineText(m))
         == (true, Request(m.verb, m.version, m.path, m.query, map[]))
  {
    var verb := MethodText(m.verb);
    var rest := m.path + m.query + [SP] + VersionText(m.version);
    var line := verb + [SP] + rest;
    MethodReadBack(m.verb);
    RestOfLineReadBack(EMPTY_REQUEST.(verb := m.verb), m);
    IndexOfFirst(verb, SP, rest);
    assert line[..|verb|] == verb && line[|verb| + 1..] == rest;
  }

  lemma VersionShape(text: bytes)
    requires !VersionOf(text).Unknown?
    ensures text == VersionText(VersionOf(text))
  {
    assert text == text[..7] + [text[7]];
  }

  lemma TargetShape(r: Request, target: bytes)
    requires r.query == [] && SP !in target
    ensures var r' := SetTarget(r, target);
            && target == r'.path + r'.query && QUESTION !in r'.path
            && (r'.query != [] ==> r'.query[0] == QUESTION)
            && r' == r.(path := r'.path, query := r'.query)
  {
    var question := IndexOf(target, QUESTION);
    assert target == target[..question] + target[question..];
  }

  lemma RestOfLineShape(r: Request, rest: bytes)
    requires r.query == [] && ReadTargetAndVersion(r, rest).0
    ensures var r' := ReadTargetAndVersion(r, rest).1;
            && rest == r'.path + r'.query + [SP] + VersionText(r'.version)
            && GoodLine(Message(Get, r'.path, r'.query, r'.version, []))
            && r' == r.(path := r'.path, query := r'.query, version := r'.version)
  {
    var space := IndexOf(rest, SP);
    var target, version := rest[..space], rest[space + 1..];
    assert rest == target + [SP] + version;
    TargetShape(r, target);
    VersionShape(version);
  }

  lemma MethodShape(text: bytes)
    requires !MethodOf(text).Invalid?
    ensures text == MethodText(MethodOf(text))
  {
  }

  /** An accepted line is the text of the request it is read as. */
  lemma AcceptedLine(line: bytes)
    requires ProcessRequestLine(EMPTY_REQUEST, line).0
    ensures var r := ProcessRequestLine(EMPTY_REQUEST, line).1;
            var m := Message(r.verb, r.path, r.query, r.version, []);
            GoodLine(m) && line == RequestLineText(m) && r.headers == map[]
  {
    var space := IndexOf(line, SP);
    var verb, rest := line[..space], line[space + 1..];
    assert line == verb + [SP] + rest;
    MethodShape(verb);
    RestOfLineShape(EMPTY_REQUEST.(verb := MethodOf(verb)), rest);
  }

  /** A request line is accepted if and only if it is one of the five methods, a target without a space
      and HTTP/1.0 or HTTP/1.1, separated by single spaces. */
  lemma RequestLineIff(line: bytes)
    ensures ProcessRequestLine(EMPTY_REQUEST, line).0
            <==> exists m: Message :: GoodLine(m) && line == RequestLineText(m)
  {
    if ProcessRequestLine(EMPTY_REQUEST, line).0 {
      AcceptedLine(line);
    }
    forall m: Message | GoodLine(m) && line == RequestLineText(m)
      ensures ProcessRequestLine(EMPTY_REQUEST, line).0
    {
      RequestLineReadBack(m);
    }
  }

  lemma {:induction false} TrimLeftDrops(left: bytes, s: bytes)
    requires AllSpace(left)
    ensures TrimLeft(left + s) == TrimLeft(s)
    decreases |left|
  {
    if left == [] {
      assert left + s == s;
    } else {
      assert (left + s)[1..] == left[1..] + s;
      TrimLeftDrops(left[1..], s);
    }
  }

  lemma {:induction false} TrimRightDrops(s: bytes, right: bytes)
    requires AllSpace(right)
    ensures TrimRight(s + right) == TrimRight(s)
    decreases |right|
  {
    if right == [] {
      assert s + right == s;
    } else {
      var front := right[..|right| - 1];
      assert (s + right)[..|s + right| - 1] == s + front;
      TrimRightDrops(s, front);
    }
  }

  /** Whatever white space surrounds a value, none, one or more, the value itself is what is kept. */
  lemma TrimFindsValue(left: bytes, value: bytes, right: bytes)
    requires AllSpace(left) && Tight(value) && AllSpace(right)
    ensures Trim(left + value + right) == value
  {
    assert left + value + right == left + (value + right);
    TrimLeftDrops(left, value + right);
    if value == [] {
      assert value + right == right + [];
      TrimLeftDrops(right, []);
    } else {
      TrimRightDrops(value, right);
    }
  }

  lemma FieldReadBack(r: Request, f: Field)
    requires GoodField(f)
    ensures var line := FieldText(f);
            && IndexOf(line, COLON) == |f.name| < |line|
            && AddHeader(r, line, |f.name|) == r.(headers := r.headers[f.name := f.value])
  {
    var line := FieldText(f);
    IndexOfFirst(f.name, COLON, f.left + f.value + f.right);
    assert line[..|f.name|] == f.name;
    assert line[|f.name| + 1..] == f.left + f.value + f.right;
    TrimFindsValue(f.left, f.value, f.right);
  }

  lemma {:induction false} FieldsReadBack(r: Request, fs: seq<Field>, after: bytes)
    requires forall i :: 0 <= i < |fs| ==> GoodField(fs[i])
    ensures ParseRequest(Context(ExpectHeaders, r), FieldsText(fs) + CRLF + after)
         == Result(Context(GotAll, r.(headers := HeaderMap(r.headers, fs))), after, Some(Complete))
    decreases |fs|
  {
    var c := Context(ExpectHeaders, r);
    var buf := FieldsText(fs) + CRLF + after;
    ParseRequestStep(c, buf);
    if fs == [] {
      assert buf == [] + CRLF + after;
      CRLFAfterLine([], after);
    } else {
      var line := FieldText(fs[0]);
      var rest := FieldsText(fs[1..]) + CRLF + after;
      assert buf == line + CRLF + rest;
      FieldReadBack(r, fs[0]);
      CRLFAfterLine(line, rest);
      FieldsReadBack(r.(headers := r.headers[fs[0].name := fs[0].value]), fs[1..], after);
    }
  }

  lemma RequestReadBack(m: Message, after: bytes)
    requires GoodMessage(m)
    ensures ParseRequest(Context(ExpectRequestLine, EMPTY_REQUEST), Text(m) + after)
         == Result(Context(GotAll, Request(m.verb, m.version, m.path, m.query, HeaderMap(map[], m.fields))),
                   after, Some(Complete))
  {
    var c := Context(ExpectRequestLine, EMPTY_REQUEST);
    var line := RequestLineText(m);
    var rest := FieldsText(m.fields) + CRLF + after;
    assert Text(m) + after == line + CRLF + rest;
    RequestLineReadBack(m);
    CRLFAfterLine(line, rest);
    ParseRequestStep(c, line + CRLF + rest);
    FieldsReadBack(Request(m.verb, m.version, m.path, m.query, map[]), m.fields, after);
  }

  /** A well-formed request, followed by anything and cut into any chunks, is read back field by
      field, and exactly the bytes after it are left over. */
  lemma RequestRoundTrip(m: Message, after: bytes, chunks: seq<bytes>)
    requires GoodMessage(m) && Flatten(chunks) == Text(m) + after
    ensures ParseChunks(Context(ExpectRequestLine, EMPTY_REQUEST), chunks)
         == Result(Context(GotAll, Request(m.verb, m.version, m.path, m.query, HeaderMap(map[], m.fields))),
                   after, Some(Complete))
  {
    ChunkingIndependent(Context(ExpectRequestLine, EMPTY_REQUEST), chunks);
    RequestReadBack(m, after);
  }

  // ---- Where the headers end ----

  function LinesText(ls: seq<bytes>): bytes {
    if ls == [] then [] else ls[0] + CRLF + LinesText(ls[1..])
  }

  /** The first line without a colon, or |ls|. */
  function FirstPlain(ls: seq<bytes>): (k: nat)
    ensures k <= |ls| && forall i :: 0 <= i < k ==> COLON in ls[i]
    ensures k < |ls| ==> COLON !in ls[k]
  {
    if ls == [] || COLON !in ls[0] then 0 else 1 + FirstPlain(ls[1..])
  }

  function AddHeaders(r: Request, ls: seq<bytes>): Request
    requires forall i :: 0 <= i < |ls| ==> COLON in ls[i]
    decreases |ls|
  {
    if ls == [] then r
    else
      assert COLON in ls[0];
      AddHeaders(AddHeader(r, ls[0], IndexOf(ls[0], COLON)), ls[1..])
  }

  /** What follows the first line without a colon in `ls`, an empty line and `after`. */
  function LeftAfter(ls: seq<bytes>, after: bytes): bytes {
    var k := FirstPlain(ls);
    if k < |ls| then LinesText(ls[k + 1..]) + CRLF + after else after
  }

  lemma FirstPlainStep(r: Request, ls: seq<bytes>, after: bytes)
    requires ls != [] && COLON in ls[0]
    ensures LeftAfter(ls, after) == LeftAfter(ls[1..], after)
    ensures AddHeaders(r, ls[..FirstPlain(ls)])
         == AddHeaders(AddHeader(r, ls[0], IndexOf(ls[0], COLON)), ls[1..][..FirstPlain(ls[1..])])
  {
    var k := FirstPlain(ls);
    assert k == 1 + FirstPlain(ls[1..]) && ls[..k][1..] == ls[1..][..k - 1] && ls[..k][0] == ls[0];
    if k < |ls| {
      assert ls[1..][k..] == ls[k + 1..];
    }
  }

  /** The headers end at the first line without a colon, whatever it says: the lines before it are
      added, the line itself is consumed and everything after it is left over. */
  lemma {:induction false} HeadersEndAt(r: Request, ls: seq<bytes>, after: bytes)
    requires forall i :: 0 <= i < |ls| ==> FindCRLF(ls[i]).None?
    ensures ParseRequest(Context(ExpectHeaders, r), LinesText(ls) + CRLF + after)
         == Result(Context(GotAll, AddHeaders(r, ls[..FirstPlain(ls)])), LeftAfter(ls, after), Some(Complete))
    decreases |ls|
  {
    var c, buf, k := Context(ExpectHeaders, r), LinesText(ls) + CRLF + after, FirstPlain(ls);
    ParseRequestStep(c, buf);
    if ls == [] {
      assert buf == [] + CRLF + after;
      CRLFAfterLine([], after);
    } else {
      var rest := LinesText(ls[1..]) + CRLF + after;
      assert buf == ls[0] + CRLF + rest;
      CRLFAfterLine(ls[0], rest);
      if COLON in ls[0] {
        FirstPlainStep(r, ls, after);
        HeadersEndAt(AddHeader(r, ls[0], IndexOf(ls[0], COLON)), ls[1..], after);
      }
    }
  }

  /** The comment in the code promises that the headers end at the empty line. For every list of lines
      before an empty one that is so if and only if each of them has a colon. */
  lemma HeadersEndAtEmptyLineIff(r: Request, ls: seq<bytes>, after: bytes)
    requires forall i :: 0 <= i < |ls| ==> ls[i] != [] && FindCRLF(ls[i]).None?
    ensures ParseRequest(Context(ExpectHeaders, r), LinesText(ls) + CRLF + after).rest == after
            <==> forall i :: 0 <= i < |ls| ==> COLON in ls[i]
  {
    HeadersEndAt(r, ls, after);
    var k := FirstPlain(ls);
    if k < |ls| {
      assert |LinesText(ls[k + 1..]) + CRLF + after| > |after|;
    }
  }

  /** A line "x" ends the headers and leaves the field "a:b" to be read as a new request. */
  lemma PlainLineEndsHeaders(r: Request)
    ensures ParseRequest(Context(ExpectHeaders, r), [120] + CRLF + [97, COLON, 98] + CRLF + CRLF)
         == Result(Context(GotAll, r), [97, COLON, 98] + CRLF + CRLF, Some(Complete))
  {
    var x: bytes, field: bytes := [120], [97, COLON, 98];
    var ls: seq<bytes> := [x, field];
    assert ls[1..] == [field] && [field][1..] == [];
    assert LinesText([field]) == field + CRLF;
    assert LinesText(ls) + CRLF + [] == x + CRLF + field + CRLF + CRLF;
    HeadersEndAt(r, ls, []);
    assert FirstPlain(ls) == 0 && ls[..0] == [];
    assert LeftAfter(ls, []) == field + CRLF + CRLF;
  }

  // ---- Calls after a refused request line ----

  /** setMethod is called on the first line of the buffer. */
  predicate CallsSetMethod(c: Context, buf: bytes) {
    c.phase.ExpectRequestLine? && FindCRLF(buf).Some? && SP in buf[..FindCRLF(buf).value]
  }

  /** The assertion in setMethod, that no method was set before, holds if it is reached. */
  predicate AssertionHolds(c: Context, buf: bytes) {
    CallsSetMethod(c, buf) ==> c.request.verb.Invalid?
  }

  /** The line begins with one of the five methods and a space. */
  predicate NamesMethod(line: bytes) {
    SP in line && !MethodOf(line[..IndexOf(line, SP)]).Invalid?
  }

  /** A refused line leaves the verb unset if and only if it does not name a method. */
  lemma RefusedLineVerb(r: Request, line: bytes)
    requires r.verb.Invalid? && !ProcessRequestLine(r, line).0
    ensures ProcessRequestLine(r, line).1.verb.Invalid? <==> !NamesMethod(line)
  {
    if SP in line {
      assert IndexOf(line, SP) < |line|;
    }
  }

  /** A refused line stays in the buffer, so that the next call, whatever has arrived by then, meets it
      again; its assertion holds if and only if the line does not name a method. */
  lemma CallAfterRefusalIff(c: Context, buf: bytes, more: bytes)
    requires c.phase.ExpectRequestLine? && c.request.verb.Invalid?
    requires ParseRequest(c, buf).why == Some(BadRequestLine)
    ensures var r := ParseRequest(c, buf);
            && FindCRLF(buf).Some? && r.rest == buf && r.state.phase.ExpectRequestLine?
            && (AssertionHolds(r.state, r.rest + more) <==> !NamesMethod(buf[..FindCRLF(buf).value]))
  {
    ParseRequestStep(c, buf);
    if Look(c, buf).Advance? {
      NoRefusalInHeaders(Look(c, buf).state, buf[Look(c, buf).used..]);
    }
    var crlf := FindCRLF(buf).value;
    assert buf[0..] == buf;
    RefusedLineVerb(c.request, buf[..crlf]);
    FindCRLFStable(buf, more);
    assert (buf + more)[..crlf] == buf[..crlf];
  }

  lemma {:induction false} NoRefusalInHeaders(c: Context, buf: bytes)
    requires c.phase.ExpectHeaders?
    ensures ParseRequest(c, buf).why != Some(BadRequestLine)
    decreases |buf|
  {
    ParseRequestStep(c, buf);
    var look := Look(c, buf);
    if look.Advance? {
      NoRefusalInHeaders(look.state, buf[look.used..]);
    }
  }

  /** "GET /" is refused with the verb already set: the next call breaks the assertion. */
  lemma RefusedGetBreaksAssertion(more: bytes)
    ensures var buf := GET + [SP] + [47] + CRLF;
            var r := ParseRequest(Context(ExpectRequestLine, EMPTY_REQUEST), buf);
            r.why == Some(BadRequestLine) && !AssertionHolds(r.state, r.rest + more)
  {
    var line: bytes := GET + ([SP] + [47]);
    var c, buf := Context(ExpectRequestLine, EMPTY_REQUEST), GET + [SP] + [47] + CRLF;
    assert buf == line + CRLF + [];
    CRLFAfterLine(line, []);
    IndexOfFirst(GET, SP, [47]);
    assert line == GET + [SP] + [47] && line[..3] == GET && line[4..] == [47];
    ParseRequestStep(c, buf);
    CallAfterRefusalIff(c, buf, more);
  }

  // ---- The code ----

  class HttpContext {
    var phase: Phase
    var request: Request
    var receiveTime: int
    /** Whether the assertion in setMethod has ever been broken. */
    ghost var failed: bool

    constructor ()
      ensures View() == Context(ExpectRequestLine, EMPTY_REQUEST) && !failed
    {
      phase, request, receiveTime, failed := ExpectRequestLine, EMPTY_REQUEST, 0, false;
    }

    function View(): Context
      reads this
    {
      Context(phase, request)
    }

    method Reset()
      modifies `phase, `request, `receiveTime
      ensures View() == Context(ExpectRequestLine, EMPTY_REQUEST)
    {
      phase, request, receiveTime := ExpectRequestLine, EMPTY_REQUEST, 0;
    }

    method AddHeaderLine(line: bytes, colon: nat)
      requires colon < |line|
      modifies this`request
      ensures request == AddHeader(old(request), line, colon)
    {
      var start := colon + 1;
      while start < |line| && IsSpace(line[start])
        invariant colon < start <= |line|
        invariant TrimLeft(line[start..]) == TrimLeft(line[colon + 1..])
      {
        assert line[start..][1..] == line[start + 1..];
        start := start + 1;
      }
      var value := line[start..];
      while value != [] && IsSpace(value[|value| - 1])
        invariant TrimRight(value) == Trim(line[colon + 1..])
        decreases |value|
      {
        value := value[..|value| - 1];
      }
      request := request.(headers := request.headers[line[..colon] := value]);
    }

    /** setMethod asserts that no method was set before. */
    method SetMethod(m: bytes) returns (ok: bool)
      modifies `request, `failed
      ensures request == old(request).(verb := MethodOf(m))
      ensures ok <==> !request.verb.Invalid?
      ensures failed == (old(failed) || !old(request).verb.Invalid?)
    {
      failed := failed || !request.verb.Invalid?;
      var verb := if m == GET then Get else if m == POST then Post else if m == HEAD then Head
                  else if m == PUT then Put else if m == DELETE then Delete else Invalid;
      request := request.(verb := verb);
      ok := verb != Invalid;
    }

    method ReadRequestLine(line: bytes) returns (succeed: bool)
      modifies `request, `failed
      ensures (succeed, request) == ProcessRequestLine(old(request), line)
      ensures failed == (old(failed) || (SP in line && !old(request).verb.Invalid?))
    {
      succeed := false;
      var space := IndexOf(line, SP);
      if space == |line| {
        return;
      }
      var known := SetMethod(line[..space]);
      if known {
        var rest := line[space + 1..];
        var space2 := IndexOf(rest, SP);
        if space2 != |rest| {
          var target := rest[..space2];
          var question := IndexOf(target, QUESTION);
          if question != |target| {
            request := request.(path := target[..question]);
            request := request.(query := target[question..]);
          } else {
            request := request.(path := target);
          }
          var text := rest[space2 + 1..];
          succeed := |text| == 8 && text[..7] == HTTP1;
          if succeed {
            if text[7] == ONE {
              request := request.(version := Http11);
            } else if text[7] == ZERO {
              request := request.(version := Http10);
            } else {
              succeed := false;
            }
          }
        }
      }
    }

    /** What one turn of the loop must do with the buffered bytes `before` in context `c`. */
    ghost predicate TurnDone(c: Context, before: bytes, after: bytes, hasMore: bool, ok: bool)
      reads this
    {
      match Look(c, before)
      case Wait => !hasMore && ok && View() == c && after == before
      case Advance(n, c') => hasMore && ok && View() == c' && 0 < n <= |before| && after == before[n..]
      case Halt(n, c', why) =>
        !hasMore && ok == why.Complete? && View() == c' && n <= |before| && after == before[n..]
    }

    method TakeRequestLine(buf: Buffer, crlf: nat, now: int) returns (ok: bool)
      requires buf.Valid() && phase.ExpectRequestLine?
      requires FindCRLF(buf.Contents()) == Some(crlf)
      modifies this, buf
      ensures buf.Valid() && TurnDone(old(View()), old(buf.Contents()), buf.Contents(), ok, ok)
      ensures receiveTime == if ok then now else old(receiveTime)
      ensures ok ==> phase.ExpectHeaders?
      ensures failed == (old(failed) || !AssertionHolds(old(View()), old(buf.Contents())))
    {
      ok := ReadRequestLine(buf.Contents()[..crlf]);
      if ok {
        receiveTime := now;
        buf.Retrieve(crlf + 2);
        phase := ExpectHeaders;
      } else {
        assert buf.Contents()[0..] == buf.Contents();
      }
    }

    method TakeHeaderLine(buf: Buffer, crlf: nat) returns (hasMore: bool)
      requires buf.Valid() && phase.ExpectHeaders?
      requires FindCRLF(buf.Contents()) == Some(crlf)
      modifies `phase, `request, buf
      ensures buf.Valid() && TurnDone(old(View()), old(buf.Contents()), buf.Contents(), hasMore, true)
      ensures !phase.ExpectRequestLine?
    {
      var line := buf.Contents()[..crlf];
      var colon := IndexOf(line, COLON);
      hasMore := colon != |line|;
      if hasMore {
        AddHeaderLine(line, colon);
      } else {
        phase := GotAll;
      }
      buf.Retrieve(crlf + 2);
    }

    /** The loop body. */
    method ParseLine(buf: Buffer, now: int) returns (hasMore: bool, ok: bool)
      requires buf.Valid() && !phase.GotAll?
      modifies this, buf
      ensures buf.Valid() && TurnDone(old(View()), old(buf.Contents()), buf.Contents(), hasMore, ok)
      ensures phase.ExpectRequestLine? ==> old(phase).ExpectRequestLine? && !hasMore
      ensures receiveTime ==
              if old(phase).ExpectRequestLine? && !phase.ExpectRequestLine? then now else old(receiveTime)
      ensures failed == (old(failed) || !AssertionHolds(old(View()), old(buf.Contents())))
    {
      hasMore, ok := false, true;
      var crlf := buf.SearchCRLF();
      if crlf.Some? {
        if phase == ExpectRequestLine {
          ok := TakeRequestLine(buf, crlf.value, now);
          hasMore := ok;
        } else {
          hasMore := TakeHeaderLine(buf, crlf.value);
        }
      }
    }

    /** Returns false on an error. The receive time is set when the request line is accepted. */
    method ParseBuffered(buf: Buffer, now: int) returns (ok: bool)
      requires buf.Valid() && !phase.GotAll?
      modifies this, buf
      ensures buf.Valid()
      ensures ParseRequest(old(View()), old(buf.Contents())) == Result(View(), buf.Contents(), Why(ok))
      ensures ok && phase.ExpectRequestLine? ==> View() == old(View())
      ensures receiveTime ==
              if old(phase).ExpectRequestLine? && !phase.ExpectRequestLine? then now else old(receiveTime)
      ensures failed == (old(failed) || !AssertionHolds(old(View()), old(buf.Contents())))
    {
      ok := true;
      var hasMore := true;
      ghost var whole := ParseRequest(View(), buf.Contents());
      ghost var broken := failed || !AssertionHolds(View(), buf.Contents());
      while hasMore
        invariant buf.Valid() && (hasMore ==> ok && !phase.GotAll?)
        invariant hasMore ==> whole == ParseRequest(View(), buf.Contents())
        invariant !hasMore ==> whole == Result(View(), buf.Contents(), Why(ok))
        invariant ok && phase.ExpectRequestLine? ==> View() == old(View())
        invariant phase.ExpectRequestLine? ==> old(phase).ExpectRequestLine?
        invariant receiveTime ==
                  if old(phase).ExpectRequestLine? && !phase.ExpectRequestLine? then now else old(receiveTime)
        invariant broken == if hasMore then failed || !AssertionHolds(View(), buf.Contents()) else failed
        decreases hasMore, buf.ReadableBytes()
      {
        ParseRequestStep(View(), buf.Contents());
        hasMore, ok := ParseLine(buf, now);
      }
    }

    /** The outcome a caller reads off the result and gotAll(). */
    ghost function Why(ok: bool): Option<Stop>
      reads this
    {
      if !ok then Some(BadRequestLine) else if phase.GotAll? then Some(Complete) else None
    }

    /** One call per arriving chunk, each with its own time, until one reports an error or the end. The
        calls together do what ParseChunks says, and until then the assertion in setMethod never breaks. */
    method ParseArriving(buf: Buffer, chunks: seq<bytes>, times: seq<int>) returns (fed: nat, ok: bool)
      requires buf.Valid() && !phase.GotAll? && |times| == |chunks|
      modifies this, buf
      ensures buf.Valid() && fed <= |chunks|
      ensures ParseChunksFrom(old(View()), old(buf.Contents()), chunks)
           == Result(View(), buf.Contents() + Flatten(chunks[fed..]), Why(ok))
      ensures fed < |chunks| ==> Why(ok).Some?
      ensures (old(phase).ExpectRequestLine? ==> old(request).verb.Invalid?) ==> failed == old(failed)
    {
      fed, ok := 0, true;
      ParseStable();
      ghost var whole := ParseChunksFrom(View(), buf.Contents(), chunks);
      ghost var unset := phase.ExpectRequestLine? ==> request.verb.Invalid?;
      assert chunks[0..] == chunks;
      while fed < |chunks| && ok && phase != GotAll
        invariant buf.Valid() && fed <= |chunks| && (unset ==> failed == old(failed))
        invariant unset && ok && phase.ExpectRequestLine? ==> request.verb.Invalid?
        invariant Why(ok).None? ==> whole == FeedUntilHalt(PARSER, View(), buf.Contents(), chunks[fed..])
        invariant Why(ok).Some? ==> whole == Result(View(), buf.Contents() + Flatten(chunks[fed..]), Why(ok))
      {
        ghost var left := chunks[fed..];
        assert left[0] == chunks[fed] && left[1..] == chunks[fed + 1..];
        buf.Append(chunks[fed]);
        ok := ParseBuffered(buf, times[fed]);
        fed := fed + 1;
      }
      if fed == |chunks| {
        assert chunks[fed..] == [] && buf.Contents() + [] == buf.Contents();
      }
    }
  }
}
