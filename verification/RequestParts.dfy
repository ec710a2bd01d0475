/**
  Zero-copy requests (src/request_parts.rs and the conversions of src/http_server.rs):
  a request is committed to a slot of a resource heap, the strings given to Roc point
  into that slot, and the slot's reference count is set to the number of those strings.

  What `RequestMetadata` derives from the URI and the headers is taken as given.
*/
module RequestParts {
  import opened Bags
  import opened ResourceTokens
  import opened HostResourceHeap

  datatype TargetKind = Resource | Authority | Asterisk

  datatype AuthorityView = AuthorityView(host: string, port: Option<nat>)

  datatype Header = Header(name: string, value: string)

  /** `uriPath` and `uriQuery` are what the URI itself has. */
  datatype Request = Request(
    httpMethod: string, headers: seq<Header>, kind: TargetKind,
    uriPath: Option<string>, uriQuery: Option<string>,
    targetAuthority: Option<AuthorityView>, effectiveAuthority: Option<AuthorityView>)

  /** What validation guarantees: exactly the authority form has a target authority. */
  predicate Validated(r: Request) { r.targetAuthority.Some? <==> r.kind == Authority }

  function ResourcePath(r: Request): Option<string> {
    if r.kind != Resource then None
    else Some(if r.uriPath.Some? then r.uriPath.value else "/")
  }

  function ResourceQuery(r: Request): Option<string> { if r.kind != Resource then None else r.uriQuery }

  function MethodTag(m: string): nat {
    if m == "CONNECT" then 0
    else if m == "DELETE" then 1
    else if m == "GET" then 3
    else if m == "HEAD" then 4
    else if m == "OPTIONS" then 5
    else if m == "PATCH" then 6
    else if m == "POST" then 7
    else if m == "PUT" then 8
    else if m == "TRACE" then 9
    else if m == "QUERY" then 10
    else 2
  }

  /** A Roc string: without allocation, in an allocation of its own, or a slice that
      owns one reference of the allocation at `pointer`. */
  datatype RocStr = Empty | Owned(text: string) | Seamless(pointer: nat, slice: string)

  function Text(s: RocStr): string {
    match s
    case Empty => ""
    case Owned(text) => text
    case Seamless(_, slice) => slice
  }

  datatype ServerHeader = ServerHeader(name: RocStr, value: RocStr)

  datatype ServerRequest = ServerRequest(
    authorityHost: RocStr, authorityPort: nat, authorityPortPresent: bool, authorityPresent: bool,
    bodyHandle: nat, bodyLimitBytes: nat, contentLength: nat, headers: seq<ServerHeader>, methodExt: RocStr,
    targetAuthorityHost: RocStr, targetAuthorityPort: nat, targetAuthorityPortPresent: bool,
    targetPath: RocStr, targetQuery: RocStr, targetQueryPresent: bool, targetTag: nat,
    contentLengthKnown: bool, methodTag: nat)

  // ------------------------------------------------------------ copied values

  function CopiedHeaders(hs: seq<Header>): seq<ServerHeader> {
    seq(|hs|, i requires 0 <= i < |hs| => ServerHeader(Owned(hs[i].name), Owned(hs[i].value)))
  }

  function OrEmpty(x: Option<string>): RocStr { if x.Some? then Owned(x.value) else Empty }

  function HostOf(a: Option<AuthorityView>): RocStr { if a.Some? then Owned(a.value.host) else Empty }

  function PortOf(a: Option<AuthorityView>): nat {
    if a.Some? && a.value.port.Some? then a.value.port.value else 0
  }

  predicate HasPort(a: Option<AuthorityView>) { a.Some? && a.value.port.Some? }

  function TargetTag(k: TargetKind): nat {
    match k
    case Resource => 0
    case Authority => 1
    case Asterisk => 2
  }

  /** `request_to_roc_copied`. */
  function Copied(r: Request, body: nat, limit: nat, declared: Option<nat>): ServerRequest {
    ServerRequest(
      HostOf(r.effectiveAuthority), PortOf(r.effectiveAuthority), HasPort(r.effectiveAuthority),
      r.effectiveAuthority.Some?, body, limit, if declared.Some? then declared.value else 0,
      CopiedHeaders(r.headers), if MethodTag(r.httpMethod) == 2 then Owned(r.httpMethod) else Empty,
      HostOf(r.targetAuthority), PortOf(r.targetAuthority), HasPort(r.targetAuthority),
      OrEmpty(ResourcePath(r)), OrEmpty(ResourceQuery(r)), ResourceQuery(r).Some?, TargetTag(r.kind),
      declared.Some?, MethodTag(r.httpMethod))
  }

  method RequestToRocCopied(r: Request, body: nat, limit: nat, declared: Option<nat>) returns (q: ServerRequest)
    ensures q == Copied(r, body, limit, declared)
    ensures Validated(r) ==> FromHost(q) == Meant(r, body, limit, declared)
  {
    if Validated(r) { CopiedReadsBack(r, body, limit, declared); }
    var tag := MethodTag(r.httpMethod);
    var methodExt := if tag == 2 then Owned(r.httpMethod) else Empty;
    var headers := [];
    for i := 0 to |r.headers|
      invariant headers == CopiedHeaders(r.headers[..i])
    {
      headers := headers + [ServerHeader(Owned(r.headers[i].name), Owned(r.headers[i].value))];
      assert headers == CopiedHeaders(r.headers[..i + 1]);
    }
    assert r.headers[..|r.headers|] == r.headers;
    var target, effective := r.targetAuthority, r.effectiveAuthority;
    q := ServerRequest(
      HostOf(effective), PortOf(effective), HasPort(effective), effective.Some?, body, limit,
      if declared.Some? then declared.value else 0, headers, methodExt,
      HostOf(target), PortOf(target), HasPort(target),
      OrEmpty(ResourcePath(r)), OrEmpty(ResourceQuery(r)), ResourceQuery(r).Some?, TargetTag(r.kind),
      declared.Some?, tag);
  }

  // ------------------------------------------------- what Roc sees, and holds

  function Plain(s: RocStr): RocStr { Owned(Text(s)) }

  /** The request without regard to where its strings are kept. */
  function Shown(q: ServerRequest): ServerRequest {
    q.(authorityHost := Plain(q.authorityHost), methodExt := Plain(q.methodExt),
       targetAuthorityHost := Plain(q.targetAuthorityHost), targetPath := Plain(q.targetPath),
       targetQuery := Plain(q.targetQuery),
       headers := seq(|q.headers|, i requires 0 <= i < |q.headers| =>
         ServerHeader(Plain(q.headers[i].name), Plain(q.headers[i].value))))
  }

  // --------------------------------------------------------- the Roc side

  datatype RocTarget =
    | ResourceTarget(path: string, query: Option<string>)
    | AuthorityTarget(authority: AuthorityView)
    | AsteriskTarget

  /** The request as a Roc application sees it. */
  datatype RocRequest = RocRequest(
    httpMethod: string, headers: seq<Header>, target: RocTarget, authority: Option<AuthorityView>,
    body: nat, limit: nat, contentLength: Option<nat>)

  /** `from_host_method` of the platform's Roc code. */
  function FromHostMethod(tag: nat, ext: string): string {
    match tag
    case 0 => "CONNECT"
    case 1 => "DELETE"
    case 3 => "GET"
    case 4 => "HEAD"
    case 5 => "OPTIONS"
    case 6 => "PATCH"
    case 7 => "POST"
    case 8 => "PUT"
    case 9 => "TRACE"
    case 10 => "QUERY"
    case _ => ext
  }

  function FromHostAuthority(host: RocStr, portPresent: bool, port: nat): AuthorityView {
    AuthorityView(Text(host), if portPresent then Some(port) else None)
  }

  function FromHostTarget(q: ServerRequest): RocTarget {
    if q.targetTag == 0 then
      ResourceTarget(Text(q.targetPath), if q.targetQueryPresent then Some(Text(q.targetQuery)) else None)
    else if q.targetTag == 1 then
      AuthorityTarget(FromHostAuthority(q.targetAuthorityHost, q.targetAuthorityPortPresent, q.targetAuthorityPort))
    else
      AsteriskTarget
  }

  /** `from_host_request` of the platform's Roc code. */
  function FromHost(q: ServerRequest): RocRequest {
    RocRequest(
      FromHostMethod(q.methodTag, Text(q.methodExt)),
      seq(|q.headers|, i requires 0 <= i < |q.headers| => Header(Text(q.headers[i].name), Text(q.headers[i].value))),
      FromHostTarget(q),
      if q.authorityPresent then Some(FromHostAuthority(q.authorityHost, q.authorityPortPresent, q.authorityPort))
      else None,
      q.bodyHandle, q.bodyLimitBytes, if q.contentLengthKnown then Some(q.contentLength) else None)
  }

  /** What the request says. */
  function Meant(r: Request, body: nat, limit: nat, declared: Option<nat>): RocRequest
    requires Validated(r)
  {
    RocRequest(
      r.httpMethod, r.headers,
      match r.kind
      case Resource => ResourceTarget(if r.uriPath.Some? then r.uriPath.value else "/", r.uriQuery)
      case Authority => AuthorityTarget(r.targetAuthority.value)
      case Asterisk => AsteriskTarget,
      r.effectiveAuthority, body, limit, declared)
  }

  lemma MethodRoundTrip(m: string)
    ensures FromHostMethod(MethodTag(m), if MethodTag(m) == 2 then m else "") == m
  {
  }

  /** Roc reads the same request from slices and from copies. */
  lemma ShownReadsAlike(a: ServerRequest, b: ServerRequest)
    requires Shown(a) == Shown(b)
    ensures FromHost(a) == FromHost(b)
  {
    var x, y := Shown(a), Shown(b);
    assert |a.headers| == |x.headers| == |y.headers| == |b.headers|;
    forall i | 0 <= i < |a.headers|
      ensures Text(a.headers[i].name) == Text(b.headers[i].name)
      ensures Text(a.headers[i].value) == Text(b.headers[i].value)
    {
      assert x.headers[i] == y.headers[i];
    }
    assert Plain(a.targetPath) == x.targetPath && Plain(b.targetPath) == y.targetPath;
    assert Plain(a.targetQuery) == x.targetQuery && Plain(b.targetQuery) == y.targetQuery;
    assert Plain(a.methodExt) == x.methodExt && Plain(b.methodExt) == y.methodExt;
    assert Plain(a.authorityHost) == x.authorityHost && Plain(b.authorityHost) == y.authorityHost;
    assert Plain(a.targetAuthorityHost) == x.targetAuthorityHost;
    assert Plain(b.targetAuthorityHost) == y.targetAuthorityHost;
    assert FromHost(a).headers == FromHost(b).headers;
  }

  /** What Roc reads from the copied request is what the request says. */
  lemma CopiedReadsBack(r: Request, body: nat, limit: nat, declared: Option<nat>)
    requires Validated(r)
    ensures FromHost(Copied(r, body, limit, declared)) == Meant(r, body, limit, declared)
  {
    MethodRoundTrip(r.httpMethod);
    var q := Copied(r, body, limit, declared);
    assert FromHost(q).headers == r.headers;
  }

  // ------------------------------------------------- the strings handed out

  function HeaderStrings(hs: seq<ServerHeader>): seq<RocStr> {
    if hs == [] then []
    else HeaderStrings(hs[..|hs| - 1]) + [hs[|hs| - 1].name] + [hs[|hs| - 1].value]
  }

  /** Every string of the request. */
  function Strings(q: ServerRequest): seq<RocStr> {
    HeaderStrings(q.headers) + [q.methodExt] + [q.targetPath] + [q.targetQuery]
    + [q.targetAuthorityHost] + [q.authorityHost]
  }

  function Slice(s: RocStr): Option<nat> { if s.Seamless? then Some(s.pointer) else None }

  function BackedHeaders(hs: seq<Header>, p: nat): seq<ServerHeader> {
    seq(|hs|, i requires 0 <= i < |hs| => ServerHeader(Seamless(p, hs[i].name), Seamless(p, hs[i].value)))
  }

  lemma {:induction false} HeaderSlices(hs: seq<Header>, p: nat, k: nat)
    ensures Tally(HeaderStrings(BackedHeaders(hs, p)), Slice, k) == |hs| * if k == p then 2 else 0
    decreases |hs|
  {
    if hs != [] {
      var n := |hs| - 1;
      var b := BackedHeaders(hs, p);
      var front := HeaderStrings(b[..n]);
      HeaderSlices(hs[..n], p, k);
      assert b[..n] == BackedHeaders(hs[..n], p);
      assert HeaderStrings(b) == front + [b[n].name] + [b[n].value];
      Append(front, Slice, b[n].name, k);
      Append(front + [b[n].name], Slice, b[n].value, k);
      var each := if k == p then 1 else 0;
      assert One(Slice(b[n].name), k) == each && One(Slice(b[n].value), k) == each;
    }
  }

  lemma {:induction false} CopiedSlices(hs: seq<Header>, k: nat)
    ensures Tally(HeaderStrings(CopiedHeaders(hs)), Slice, k) == 0
    decreases |hs|
  {
    if hs != [] {
      var n := |hs| - 1;
      var b := CopiedHeaders(hs);
      CopiedSlices(hs[..n], k);
      assert b[..n] == CopiedHeaders(hs[..n]);
      Append(HeaderStrings(b[..n]), Slice, b[n].name, k);
      Append(HeaderStrings(b[..n]) + [b[n].name], Slice, b[n].value, k);
    }
  }

  lemma StringSlices(q: ServerRequest, k: nat)
    ensures Tally(Strings(q), Slice, k)
      == Tally(HeaderStrings(q.headers), Slice, k) + One(Slice(q.methodExt), k) + One(Slice(q.targetPath), k)
         + One(Slice(q.targetQuery), k) + One(Slice(q.targetAuthorityHost), k) + One(Slice(q.authorityHost), k)
  {
    var h := HeaderStrings(q.headers);
    Append(h, Slice, q.methodExt, k);
    Append(h + [q.methodExt], Slice, q.targetPath, k);
    Append(h + [q.methodExt] + [q.targetPath], Slice, q.targetQuery, k);
    Append(h + [q.methodExt] + [q.targetPath] + [q.targetQuery], Slice, q.targetAuthorityHost, k);
    Append(h + [q.methodExt] + [q.targetPath] + [q.targetQuery] + [q.targetAuthorityHost], Slice, q.authorityHost, k);
  }

  lemma CopiedHasNoSlices(r: Request, body: nat, limit: nat, declared: Option<nat>, k: nat)
    ensures Tally(Strings(Copied(r, body, limit, declared)), Slice, k) == 0
  {
    CopiedSlices(r.headers, k);
    StringSlices(Copied(r, body, limit, declared), k);
  }

  // --------------------------------------------------------------- conversion

  /** Slot `i` backs exactly the slices of `q`, or is free again when there are none. */
  ghost predicate Backs(slab: Slab, h: Heap<Request>, i: nat, r: Request, q: ServerRequest)
    requires Sized(h)
  {
    var n := Tally(Strings(q), Slice, Payload(slab, i));
    && i < |h.states|
    && (forall k: nat :: k != Payload(slab, i) ==> Tally(Strings(q), Slice, k) == 0)
    && (if n == 0 then h.states[i] == SlotState.Free
        else h.states[i] == SlotState.Live && 1 <= h.generations[i] <= MAX_GENERATION
             && h.cells[i] == Cell(n, EncodeToken(i, h.generations[i]), Some(r)))
  }

  /** What a conversion leaves of the heap: only the slot it uses, and free slots that had used
      up their generations, are changed; and only a slot that backs slices stays taken. */
  ghost predicate OnlyTook(h: Heap<Request>, h': Heap<Request>, backing: Option<nat>, slices: nat)
    requires SameSize(h, h')
  {
    && (forall k :: 0 <= k < |h.states| && backing != Some(k) ==> Untouched(h, h', k))
    && h'.active == h.active + (if backing.Some? && slices > 0 then 1 else 0)
    && (backing.None? ==> h'.highWater == h.highWater)
    && (backing.Some? ==>
          backing.value < |h.states| && backing.value in h.free
          && h'.generations[backing.value] == h.generations[backing.value] + 1)
  }

  /** `install`. */
  method Install(heap: ResourceHeap<Request>, i: nat, r: Request, references: nat)
    requires heap.Valid() && ValidSlab(heap.slab) && heap.slab.len <= TOKEN_INDEX_MASK && i < heap.states.Length
    requires heap.states[i] == SlotState.Live && 1 <= heap.generations[i] <= MAX_GENERATION
    requires heap.cells[i] == Cell(1, EncodeToken(i, heap.generations[i]), Some(r))
    modifies heap, heap.states, heap.cells
    ensures heap.Valid()
    ensures references > 0 ==> heap.View() == SetCount(old(heap.View()), i, references)
    ensures references == 0 ==> heap.View() == FreeSlot(CloseIn(SetCount(old(heap.View()), i, 0), i), i)
  {
    if references == 0 {
      var last := heap.Release(i);
      CommittedIsFound(heap.slab, heap.View(), i, r, 0);
      var route := heap.BeginClose(BaseAddress(heap.slab, i));
      heap.FinishClose(route.index, route.generation);
    } else if references > 1 {
      heap.Retain(i, references - 1);
    } else {
      assert heap.View() == SetCount(heap.View(), i, 1);
    }
  }

  lemma BackedShown(hs: seq<Header>, p: nat)
    ensures SameHeaders(BackedHeaders(hs, p), CopiedHeaders(hs))
  {
  }

  predicate SameHeaders(a: seq<ServerHeader>, b: seq<ServerHeader>) {
    && |a| == |b|
    && forall i :: 0 <= i < |a| ==> Text(a[i].name) == Text(b[i].name) && Text(a[i].value) == Text(b[i].value)
  }

  lemma SameTextsShown(a: ServerRequest, b: ServerRequest)
    requires Text(a.authorityHost) == Text(b.authorityHost) && Text(a.methodExt) == Text(b.methodExt)
    requires Text(a.targetAuthorityHost) == Text(b.targetAuthorityHost) && Text(a.targetPath) == Text(b.targetPath)
    requires Text(a.targetQuery) == Text(b.targetQuery) && SameHeaders(a.headers, b.headers)
    requires a == b.(authorityHost := a.authorityHost, methodExt := a.methodExt, headers := a.headers,
                     targetAuthorityHost := a.targetAuthorityHost, targetPath := a.targetPath,
                     targetQuery := a.targetQuery)
    ensures Shown(a) == Shown(b)
  {
  }

  /** The strings of the request target; `references` counts those that are slices. */
  method DescribeTarget(r: Request, p: nat)
    returns (path: RocStr, query: RocStr, queryPresent: bool, host: RocStr, port: nat, portPresent: bool,
             tag: nat, references: nat)
    requires Validated(r)
    ensures Text(path) == Text(OrEmpty(ResourcePath(r))) && Text(query) == Text(OrEmpty(ResourceQuery(r)))
    ensures queryPresent == ResourceQuery(r).Some? && tag == TargetTag(r.kind)
    ensures Text(host) == Text(HostOf(r.targetAuthority)) && port == PortOf(r.targetAuthority)
    ensures portPresent == HasPort(r.targetAuthority)
    ensures forall k: nat :: One(Slice(path), k) + One(Slice(query), k) + One(Slice(host), k)
                             == if k == p then references else 0
  {
    path, query, host := Empty, Empty, Empty;
    port, portPresent, queryPresent, references := 0, false, false, 0;
    match r.kind {
      case Resource =>
        if r.uriPath.Some? {
          references := references + 1;
          path := Seamless(p, r.uriPath.value);
        } else {
          path := Owned("/");
        }
        var found := ResourceQuery(r);
        if found.Some? {
          queryPresent := true;
          references := references + 1;
          query := Seamless(p, found.value);
        }
        tag := 0;
      case Authority =>
        var authority := r.targetAuthority.value;
        references := references + 1;
        host := Seamless(p, authority.host);
        port := if authority.port.Some? then authority.port.value else 0;
        portPresent := authority.port.Some?;
        tag := 1;
      case Asterisk => tag := 2;
    }
  }

  /** The effective authority, if there is one. */
  method DescribeAuthority(r: Request, p: nat)
    returns (host: RocStr, port: nat, portPresent: bool, present: bool, references: nat)
    ensures Text(host) == Text(HostOf(r.effectiveAuthority)) && port == PortOf(r.effectiveAuthority)
    ensures portPresent == HasPort(r.effectiveAuthority) && present == r.effectiveAuthority.Some?
    ensures forall k: nat :: One(Slice(host), k) == if k == p then references else 0
  {
    if r.effectiveAuthority.None? {
      return Empty, 0, false, false, 0;
    }
    var authority := r.effectiveAuthority.value;
    host := Seamless(p, authority.host);
    port := if authority.port.Some? then authority.port.value else 0;
    portPresent, present, references := authority.port.Some?, true, 1;
  }

  lemma CountedSlices(q: ServerRequest, hs: seq<Header>, p: nat, m: nat, t: nat, a: nat)
    requires q.headers == BackedHeaders(hs, p)
    requires forall k: nat :: One(Slice(q.methodExt), k) == if k == p then m else 0
    requires forall k: nat :: One(Slice(q.targetPath), k) + One(Slice(q.targetQuery), k)
                              + One(Slice(q.targetAuthorityHost), k) == if k == p then t else 0
    requires forall k: nat :: One(Slice(q.authorityHost), k) == if k == p then a else 0
    ensures forall k: nat :: Tally(Strings(q), Slice, k) == if k == p then m + 2 * |hs| + t + a else 0
  {
    forall k: nat ensures Tally(Strings(q), Slice, k) == if k == p then m + 2 * |hs| + t + a else 0 {
      HeaderSlices(hs, p, k);
      StringSlices(q, k);
    }
  }

  /** The body of `request_to_roc` between `RequestPartsBacking::new` and `install`:
      the request is shown exactly as the copying conversion would show it, and
      `references` is the number of slices handed out. */
  method Describe(r: Request, p: nat, body: nat, limit: nat, declared: Option<nat>)
    returns (q: ServerRequest, references: nat)
    requires Validated(r)
    ensures Shown(q) == Shown(Copied(r, body, limit, declared))
    ensures forall k: nat :: Tally(Strings(q), Slice, k) == if k == p then references else 0
  {
    references := 0;
    var tag := MethodTag(r.httpMethod);
    var methodExt := Empty;
    if tag == 2 {
      references := references + 1;
      methodExt := Seamless(p, r.httpMethod);
    }
    var headers := [];
    for j := 0 to |r.headers|
      invariant headers == BackedHeaders(r.headers[..j], p)
    {
      headers := headers + [ServerHeader(Seamless(p, r.headers[j].name), Seamless(p, r.headers[j].value))];
      assert headers == BackedHeaders(r.headers[..j + 1], p);
    }
    assert r.headers[..|r.headers|] == r.headers;
    references := references + |headers| * 2;
    var path, query, queryPresent, targetHost, targetPort, targetPortPresent, targetTag, more := DescribeTarget(r, p);
    var host, port, portPresent, present, last := DescribeAuthority(r, p);
    references := references + more + last;
    q := ServerRequest(host, port, portPresent, present, body, limit, if declared.Some? then declared.value else 0,
                       headers, methodExt, targetHost, targetPort, targetPortPresent, path, query,
                       queryPresent, targetTag, declared.Some?, tag);
    BackedShown(r.headers, p);
    SameTextsShown(q, Copied(r, body, limit, declared));
    CountedSlices(q, r.headers, p, if tag == 2 then 1 else 0, more, last);
  }

  /** The heap once slot `i` is committed for `r` and counts `n` slices, or is free again. */
  function Installed(h: Heap<Request>, i: nat, generation: nat, r: Request, n: nat): Heap<Request>
    requires Sized(h) && i < |h.states|
  {
    var committed := CommitIn(h, i, generation, r);
    if n > 0 then SetCount(committed, i, n) else FreeSlot(CloseIn(SetCount(committed, i, 0), i), i)
  }

  /** The backed part of `request_to_roc`, once `reserve` has granted slot `i`. */
  method RequestToRocBacked(heap: ResourceHeap<Request>, i: nat, generation: nat, r: Request, body: nat, limit: nat,
                            declared: Option<nat>)
    returns (q: ServerRequest)
    requires heap.Valid() && ValidSlab(heap.slab) && heap.slab.len <= TOKEN_INDEX_MASK && Validated(r)
    requires i < heap.states.Length && heap.states[i] == SlotState.Reserved
    requires 1 <= heap.generations[i] == generation <= MAX_GENERATION
    modifies heap, heap.states, heap.cells
    ensures heap.Valid()
    ensures Shown(q) == Shown(Copied(r, body, limit, declared))
    ensures Backs(heap.slab, heap.View(), i, r, q)
    ensures heap.View() == Installed(old(heap.View()), i, generation, r,
                                     Tally(Strings(q), Slice, Payload(heap.slab, i)))
  {
    heap.Commit(i, generation, r);
    CommittedIsFound(heap.slab, heap.View(), i, r, 1);
    var p := Payload(heap.slab, i);
    var found := heap.Get(p);
    var references;
    q, references := Describe(found.resource, p, body, limit, declared);
    Install(heap, i, r, references);
  }

  lemma InstalledTook(h: Heap<Request>, h1: Heap<Request>, i: nat, generation: nat, r: Request, n: nat)
    requires SameSize(h, h1) && TookLastUsable(h, h1, Some((i, generation))) && i < |h.states|
    ensures SameSize(h, Installed(h1, i, generation, r, n))
    ensures OnlyTook(h, Installed(h1, i, generation, r, n), Some(i), n)
  {
    var h' := Installed(h1, i, generation, r, n);
    forall k | 0 <= k < |h.states| && k != i ensures Untouched(h, h', k) {
      assert Untouched(h, h1, k);
      assert h'.states[k] == h1.states[k] && h'.cells[k] == h1.cells[k];
    }
  }

  /** `request_to_roc`: whether backed or copied, Roc sees the same request; and the slot
      that backs it counts exactly the slices handed out. */
  method RequestToRoc(heap: ResourceHeap<Request>, r: Request, body: nat, limit: nat, declared: Option<nat>)
    returns (q: ServerRequest, backing: Option<nat>)
    requires heap.Valid() && ValidSlab(heap.slab) && heap.slab.len <= TOKEN_INDEX_MASK && Validated(r)
    modifies heap, heap.generations, heap.states, heap.cells
    ensures heap.Valid()
    ensures Shown(q) == Shown(Copied(r, body, limit, declared))
    ensures FromHost(q) == Meant(r, body, limit, declared)
    ensures backing.None? ==> forall k: nat :: Tally(Strings(q), Slice, k) == 0
    ensures backing.Some? ==> Backs(heap.slab, heap.View(), backing.value, r, q)
    ensures backing.Some? <==> Grantable(old(heap.View()))
    ensures SameSize(old(heap.View()), heap.View())
    ensures OnlyTook(old(heap.View()), heap.View(), backing,
                     if backing.Some? then Tally(Strings(q), Slice, Payload(heap.slab, backing.value)) else 0)
  {
    CopiedReadsBack(r, body, limit, declared);
    ReserveGrants(heap.View());
    var granted := heap.Reserve();
    if granted.None? {
      q := RequestToRocCopied(r, body, limit, declared);
      forall k: nat ensures Tally(Strings(q), Slice, k) == 0 {
        CopiedHasNoSlices(r, body, limit, declared, k);
      }
      return q, None;
    }
    var (i, generation) := granted.value;
    ghost var reserved := heap.View();
    q := RequestToRocBacked(heap, i, generation, r, body, limit, declared);
    ShownReadsAlike(q, Copied(r, body, limit, declared));
    InstalledTook(old(heap.View()), reserved, i, generation, r, Tally(Strings(q), Slice, Payload(heap.slab, i)));
    backing := Some(i);
  }

  // ------------------------------------------------------------------ release

  /** The heap after `n` of the slices backed by slot `i` have been released. */
  function AfterReleases(h: Heap<Request>, i: nat, n: nat): Heap<Request>
    requires Sized(h) && i < |h.states|
  {
    SetCount(h, i, h.cells[i].refcount - n)
  }

  /** Releasing each slice once deallocates exactly at the last release: before it the
      backing is still found, at it the deallocator takes the request out of its slot. */
  lemma LastReleaseFrees(slab: Slab, h: Heap<Request>, i: nat, r: Request, q: ServerRequest, n: nat)
    requires Sized(h) && ValidSlab(slab) && slab.len == |h.states| <= TOKEN_INDEX_MASK
    requires Backs(slab, h, i, r, q) && Tally(Strings(q), Slice, Payload(slab, i)) > 0
    ensures n < Tally(Strings(q), Slice, Payload(slab, i)) ==>
              LookUp(slab, AfterReleases(h, i, n), Payload(slab, i)) == Found(r)
              && RouteOf(slab, AfterReleases(h, i, n), BaseAddress(slab, i)) == Corrupt
    ensures n == Tally(Strings(q), Slice, Payload(slab, i)) ==>
              RouteOf(slab, AfterReleases(h, i, n), BaseAddress(slab, i)) == Close(i, h.generations[i], r)
  {
    CommittedIsFound(slab, AfterReleases(h, i, n), i, r, h.cells[i].refcount - n);
    BaseInverse(slab, BaseAddress(slab, i), i);
  }
}
