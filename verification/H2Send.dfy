/**
  Sending a response over HTTP/2 (`send_h2_response` of src/http_server.rs): frames of
  the body are cut to whatever the peer's flow control grants.

  The body is the list of its frames; `announces` says whether its end is known
  together with the last frame.  What the peer and the clock do is given in advance:
  the answers to requests for capacity, the frame whose deadline passes and the send
  that fails, if any.  `Completes` tells from these alone whether the response succeeds.
*/
module H2Send {
  import opened Bags

  type Bytes = seq<nat>

  datatype Frame = Data(bytes: Bytes, pooled: bool) | Trailers | Unknown | Broken

  datatype Body = Body(frames: seq<Frame>, announces: bool)

  /** An answer to a request for capacity; a list of answers that runs out is a deadline. */
  datatype Answer = Capacity(count: nat) | CapacityError | StreamClosed | Deadline

  datatype Peer = Peer(headFails: bool, answers: seq<Answer>, lateFrame: Option<nat>, failingSend: Option<nat>)

  datatype Sent = Chunk(bytes: Bytes, end: bool) | SentTrailers | Reset

  function Delivered(log: seq<Sent>): Bytes {
    if log == [] then []
    else Delivered(log[..|log| - 1]) + if log[|log| - 1].Chunk? then log[|log| - 1].bytes else []
  }

  predicate Ends(s: Sent) { s.SentTrailers? || (s.Chunk? && s.end) }

  /** The stream is ended once, by the response head or by the last thing sent. */
  predicate EndedOnce(head: bool, log: seq<Sent>) {
    if head then log == []
    else log != [] && Ends(log[|log| - 1]) && forall i :: 0 <= i < |log| - 1 ==> !Ends(log[i]) && !log[i].Reset?
  }

  predicate Open(log: seq<Sent>) { forall i :: 0 <= i < |log| ==> !Ends(log[i]) && !log[i].Reset? }

  /** The peer does not take the stream for complete. */
  predicate NeverEnded(log: seq<Sent>) { forall i :: 0 <= i < |log| ==> !Ends(log[i]) }

  // ------------------------------------------------------------ specification

  /** All data of the body, up to its trailers. */
  function BodyBytes(frames: seq<Frame>): Bytes {
    if frames == [] || frames[0].Trailers? || frames[0].Broken? then []
    else (if frames[0].Data? then frames[0].bytes else []) + BodyBytes(frames[1..])
  }

  /** The answers that remain once `left` bytes have been granted. */
  function AfterGrants(left: nat, answers: seq<Answer>): seq<Answer> {
    if left == 0 || answers == [] || !answers[0].Capacity? then answers
    else AfterGrants(if answers[0].count >= left then 0 else left - answers[0].count, answers[1..])
  }

  /** A pooled frame is answered with an empty grant. */
  predicate Starved(f: Frame, answers: seq<Answer>) {
    f.Data? && f.pooled && f.bytes != [] && answers != [] && answers[0] == Capacity(0)
  }

  /** What is sent of a frame if nothing fails. */
  function Kept(f: Frame, answers: seq<Answer>): Bytes {
    if !f.Data? || Starved(f, answers) then [] else f.bytes
  }

  /** The answers that remain after a frame. */
  function Left(f: Frame, answers: seq<Answer>): seq<Answer> {
    if !f.Data? || f.bytes == [] then answers
    else if !f.pooled then AfterGrants(|f.bytes|, answers)
    else if answers == [] then []
    else answers[1..]
  }

  predicate Stops(f: Frame) { f.Trailers? || f.Broken? }

  /** The data that is sent of a body if nothing fails. */
  function Surviving(frames: seq<Frame>, answers: seq<Answer>): Bytes {
    if frames == [] || Stops(frames[0]) then []
    else Kept(frames[0], answers) + Surviving(frames[1..], Left(frames[0], answers))
  }

  /** Some pooled frame is answered with an empty grant. */
  predicate Starves(frames: seq<Frame>, answers: seq<Answer>) {
    frames != [] && !Stops(frames[0])
    && (Starved(frames[0], answers) || Starves(frames[1..], Left(frames[0], answers)))
  }

  lemma {:induction false} SurvivesUnlessStarved(frames: seq<Frame>, answers: seq<Answer>)
    ensures |Surviving(frames, answers)| <= |BodyBytes(frames)|
    ensures Surviving(frames, answers) == BodyBytes(frames) <==> !Starves(frames, answers)
    ensures Starves(frames, answers) ==> |Surviving(frames, answers)| < |BodyBytes(frames)|
    decreases |frames|
  {
    if frames != [] && !Stops(frames[0]) {
      SurvivesUnlessStarved(frames[1..], Left(frames[0], answers));
    }
  }

  /** Where every answer is positive, and where no data is pooled, nothing starves. */
  lemma {:induction false} PositiveGrantsNeverStarve(frames: seq<Frame>, answers: seq<Answer>)
    requires (forall a :: a in answers ==> a != Capacity(0)) || (forall f :: f in frames && f.Data? ==> !f.pooled)
    ensures !Starves(frames, answers)
    decreases |frames|
  {
    if frames != [] && !Stops(frames[0]) {
      assert frames[0] in frames && (answers != [] ==> answers[0] in answers);
      LeftIsSuffix(frames[0], answers);
      PositiveGrantsNeverStarve(frames[1..], Left(frames[0], answers));
    }
  }

  lemma LeftIsSuffix(f: Frame, answers: seq<Answer>)
    ensures forall a :: a in Left(f, answers) ==> a in answers
  {
    if f.Data? {
      GrantsAreSuffix(|f.bytes|, answers);
    }
  }

  lemma {:induction false} GrantsAreSuffix(left: nat, answers: seq<Answer>)
    ensures forall a :: a in AfterGrants(left, answers) ==> a in answers
    decreases |answers|
  {
    if left != 0 && answers != [] && answers[0].Capacity? {
      GrantsAreSuffix(if answers[0].count >= left then 0 else left - answers[0].count, answers[1..]);
    }
  }

  // ------------------------------------------------------------------ success

  /** The answers grant `left` bytes before anything else happens. */
  predicate Covers(left: nat, answers: seq<Answer>) {
    left == 0
    || (answers != [] && answers[0].Capacity?
        && Covers(if answers[0].count >= left then 0 else left - answers[0].count, answers[1..]))
  }

  /** How many pieces that takes: one for each positive grant. */
  function Pieces(left: nat, answers: seq<Answer>): nat {
    if left == 0 || answers == [] || !answers[0].Capacity? then 0
    else (if answers[0].count == 0 then 0 else 1)
         + Pieces(if answers[0].count >= left then 0 else left - answers[0].count, answers[1..])
  }

  predicate Grants(f: Frame, answers: seq<Answer>) {
    f.Data? && f.bytes != [] ==>
      if f.pooled then answers != [] && answers[0].Capacity? else Covers(|f.bytes|, answers)
  }

  function SendsOf(f: Frame, answers: seq<Answer>): nat {
    if !f.Data? || f.bytes == [] || Starved(f, answers) then 0
    else if f.pooled then 1
    else Pieces(|f.bytes|, answers)
  }

  /** Nothing breaks the body before its trailers or its end. */
  predicate Unbroken(frames: seq<Frame>) {
    frames == [] || frames[0].Trailers? || (!frames[0].Broken? && Unbroken(frames[1..]))
  }

  predicate HasTrailers(frames: seq<Frame>) {
    frames != [] && (frames[0].Trailers? || (!frames[0].Broken? && HasTrailers(frames[1..])))
  }

  /** Every frame up to the trailers is granted. */
  predicate Granted(frames: seq<Frame>, answers: seq<Answer>) {
    frames == [] || Stops(frames[0])
    || (Grants(frames[0], answers) && Granted(frames[1..], Left(frames[0], answers)))
  }

  /** How many frames are polled, not counting the end of the body. */
  function Polled(frames: seq<Frame>): nat {
    if frames == [] then 0 else if Stops(frames[0]) then 1 else 1 + Polled(frames[1..])
  }

  /** How many chunks and trailers are sent of the frames. */
  function Sends(frames: seq<Frame>, answers: seq<Answer>): nat {
    if frames == [] then 0
    else if Stops(frames[0]) then 1
    else SendsOf(frames[0], answers) + Sends(frames[1..], Left(frames[0], answers))
  }

  /** The end of the stream travels with the last frame, which is data that is sent. */
  predicate Announced(frames: seq<Frame>, answers: seq<Answer>, announces: bool) {
    frames != [] && !Stops(frames[0])
    && if |frames| == 1 then announces && SendsOf(frames[0], answers) > 0
       else Announced(frames[1..], Left(frames[0], answers), announces)
  }

  /** An empty chunk ends the stream: neither trailers nor a last frame did. */
  predicate EndsWithEmpty(frames: seq<Frame>, answers: seq<Answer>, announces: bool) {
    !HasTrailers(frames) && !Announced(frames, answers, announces)
  }

  /** When the response is sent without error. */
  predicate Completes(body: Body, peer: Peer) {
    var more := if EndsWithEmpty(body.frames, peer.answers, body.announces) then 1 else 0;
    && !peer.headFails
    && ((body.frames == [] && body.announces)
        || (&& Unbroken(body.frames) && Granted(body.frames, peer.answers)
            && (peer.lateFrame.Some? ==> peer.lateFrame.value >= Polled(body.frames) + more)
            && (peer.failingSend.Some? ==> peer.failingSend.value >= Sends(body.frames, peer.answers) + more)))
  }

  // ------------------------------------------------------------------- resets

  /** The peer is told that the response is broken off, after what was sent of it. */
  predicate ResetLast(log: seq<Sent>) { log != [] && log[|log| - 1].Reset? && Open(log[..|log| - 1]) }

  predicate TimedOut(answers: seq<Answer>) { answers == [] || answers[0].Deadline? }

  /** The deadline passes while a frame waits for a grant, and no send has failed before. */
  predicate Stalls(peer: Peer, f: Frame, sends: nat, answers: seq<Answer>) {
    && f.Data? && f.bytes != []
    && if f.pooled then TimedOut(answers)
       else && !Covers(|f.bytes|, answers) && TimedOut(AfterGrants(|f.bytes|, answers))
            && !FailsWithin(peer, sends, Pieces(|f.bytes|, answers))
  }

  /** From frame `k` on, a deadline or a broken body is the first thing to go wrong. */
  predicate CutOff(peer: Peer, frames: seq<Frame>, k: nat, sends: nat, answers: seq<Answer>, announces: bool)
    decreases |frames|
  {
    || peer.lateFrame == Some(k)
    || (frames != [] && !frames[0].Trailers?
        && (|| frames[0].Broken? || Stalls(peer, frames[0], sends, answers)
            || (Passes(peer, frames[0], sends, answers, |frames| == 1 && announces)
                && CutOff(peer, frames[1..], k + 1, sends + SendsOf(frames[0], answers), Left(frames[0], answers),
                          announces))))
  }

  /** The frame is sent and the stream goes on. */
  predicate Passes(peer: Peer, f: Frame, sends: nat, answers: seq<Answer>, last: bool) {
    Grants(f, answers) && !FailsWithin(peer, sends, SendsOf(f, answers)) && !(last && SendsOf(f, answers) > 0)
  }

  /** When the peer sees a reset. */
  predicate Resets(body: Body, peer: Peer) {
    && !peer.headFails && !(body.frames == [] && body.announces)
    && CutOff(peer, body.frames, 0, 0, peer.answers, body.announces)
  }

  // ------------------------------------------------------------------ sending

  datatype Outcome = Going | Finished | Failed

  lemma DeliveredChunk(log: seq<Sent>, s: Sent)
    ensures Delivered(log + [s]) == Delivered(log) + if s.Chunk? then s.bytes else []
  {
    assert (log + [s])[..|log|] == log;
  }

  predicate Fails(peer: Peer, sends: nat) { peer.failingSend == Some(sends) }

  /** One of the next `count` sends fails. */
  predicate FailsWithin(peer: Peer, sends: nat, count: nat) {
    peer.failingSend.Some? && sends <= peer.failingSend.value < sends + count
  }

  /** Sending the first `count` bytes of `data`. */
  lemma PieceSent(log: seq<Sent>, data: Bytes, count: nat, end: bool)
    requires Open(log) && count <= |data|
    ensures Delivered(log + [Chunk(data[..count], end)]) + data[count..] == Delivered(log) + data
    ensures if end then EndedOnce(false, log + [Chunk(data[..count], end)])
            else Open(log + [Chunk(data[..count], end)])
  {
    DeliveredChunk(log, Chunk(data[..count], end));
    assert data == data[..count] + data[count..];
  }

  /** What is left of a frame, and of the answers, once `sent` pieces of it are out. */
  ghost predicate Midway(peer: Peer, bytes: Bytes, sends: nat, answers0: seq<Answer>, sent: nat, left: nat,
                         answers: seq<Answer>) {
    && AfterGrants(left, answers) == AfterGrants(|bytes|, answers0)
    && Covers(left, answers) == Covers(|bytes|, answers0)
    && sent + Pieces(left, answers) == Pieces(|bytes|, answers0)
    && !FailsWithin(peer, sends, sent)
  }

  lemma MidwayGrant(peer: Peer, bytes: Bytes, sends: nat, answers0: seq<Answer>, sent: nat, left: nat,
                    answers: seq<Answer>)
    requires Midway(peer, bytes, sends, answers0, sent, left, answers)
    requires left > 0 && answers != [] && answers[0].Capacity?
    ensures answers[0].count == 0 ==> Midway(peer, bytes, sends, answers0, sent, left, answers[1..])
    ensures answers[0].count > 0 ==>
      if Fails(peer, sends + sent) then FailsWithin(peer, sends, Pieces(|bytes|, answers0))
      else Midway(peer, bytes, sends, answers0, sent + 1,
                  if answers[0].count >= left then 0 else left - answers[0].count, answers[1..])
  {
  }

  /** No grant comes any more. */
  lemma MidwayStops(peer: Peer, bytes: Bytes, sends: nat, answers0: seq<Answer>, sent: nat, left: nat,
                    answers: seq<Answer>)
    requires Midway(peer, bytes, sends, answers0, sent, left, answers) && bytes != []
    requires left > 0 && (answers == [] || !answers[0].Capacity?)
    ensures !Covers(|bytes|, answers0)
    ensures Stalls(peer, Data(bytes, false), sends, answers0) <==> TimedOut(answers)
  {
  }

  /** The inner loop: one unpooled frame, in pieces as large as the grants. */
  method SendUnpooled(peer: Peer, bytes: Bytes, last: bool, log0: seq<Sent>, answers0: seq<Answer>)
    returns (outcome: Outcome, log: seq<Sent>, answers: seq<Answer>)
    requires Open(log0) && bytes != []
    ensures outcome == Failed <==>
      !Covers(|bytes|, answers0) || FailsWithin(peer, |log0|, Pieces(|bytes|, answers0))
    ensures outcome == Finished ==> last && EndedOnce(false, log)
    ensures outcome == Going ==> !last && Open(log) && answers == AfterGrants(|bytes|, answers0)
    ensures outcome != Failed ==> Delivered(log) == Delivered(log0) + bytes
                                  && |log| == |log0| + Pieces(|bytes|, answers0)
    ensures outcome == Failed ==>
      NeverEnded(log) && if Stalls(peer, Data(bytes, false), |log0|, answers0) then ResetLast(log) else Open(log)
    ensures Delivered(log) <= Delivered(log0) + bytes
  {
    var data := bytes;
    log, answers := log0, answers0;
    while data != []
      invariant Open(log) && Delivered(log) + data == Delivered(log0) + bytes && |log0| <= |log|
      invariant Midway(peer, bytes, |log0|, answers0, |log| - |log0|, |data|, answers)
      invariant data == [] ==> !last
      decreases |answers|
    {
      ghost var sent := |log| - |log0|;
      if answers == [] || !answers[0].Capacity? {
        MidwayStops(peer, bytes, |log0|, answers0, sent, |data|, answers);
        if TimedOut(answers) {
          ResetSent(log);
          log := log + [Reset];
        }
        return Failed, log, answers;
      }
      MidwayGrant(peer, bytes, |log0|, answers0, sent, |data|, answers);
      var capacity := answers[0].count;
      answers := answers[1..];
      if capacity == 0 {
        continue;
      }
      var count := if capacity <= |data| then capacity else |data|;
      var end := count == |data| && last;
      if Fails(peer, |log|) {
        return Failed, log, answers;
      }
      PieceSent(log, data, count, end);
      log := log + [Chunk(data[..count], end)];
      data := data[count..];
      if end {
        return Finished, log, answers;
      }
    }
    outcome := Going;
  }

  lemma ResetSent(log: seq<Sent>)
    requires Open(log)
    ensures ResetLast(log + [Reset]) && NeverEnded(log + [Reset]) && Delivered(log + [Reset]) == Delivered(log)
  {
    DeliveredChunk(log, Reset);
    assert (log + [Reset])[..|log|] == log;
  }

  /** A pooled frame is handed over whole, after one positive grant. */
  method SendPooled(peer: Peer, bytes: Bytes, last: bool, log0: seq<Sent>, answers0: seq<Answer>)
    returns (outcome: Outcome, log: seq<Sent>, answers: seq<Answer>)
    requires Open(log0) && bytes != []
    ensures var f := Data(bytes, true);
      && (outcome == Failed <==> !Grants(f, answers0) || FailsWithin(peer, |log0|, SendsOf(f, answers0)))
      && (outcome == Finished ==> last && SendsOf(f, answers0) > 0 && EndedOnce(false, log))
      && (outcome == Going ==> !(last && SendsOf(f, answers0) > 0) && Open(log) && answers == Left(f, answers0))
      && (outcome != Failed ==> Delivered(log) == Delivered(log0) + Kept(f, answers0)
                                && |log| == |log0| + SendsOf(f, answers0))
      && (outcome == Failed ==>
            && Delivered(log) == Delivered(log0) && NeverEnded(log)
            && if Stalls(peer, f, |log0|, answers0) then ResetLast(log) else Open(log))
  {
    log, answers := log0, answers0;
    if answers == [] || answers[0].Deadline? {
      DeliveredChunk(log, Reset);
      return Failed, log + [Reset], answers;
    }
    if !answers[0].Capacity? {
      return Failed, log, answers;
    }
    var capacity := answers[0].count;
    answers := answers[1..];
    if capacity == 0 {
      assert Starved(Data(bytes, true), answers0);
      assert Delivered(log0) + [] == Delivered(log0);
      return Going, log, answers;
    }
    assert !Starved(Data(bytes, true), answers0);
    if Fails(peer, |log|) {
      return Failed, log, answers;
    }
    DeliveredChunk(log, Chunk(bytes, last));
    log := log + [Chunk(bytes, last)];
    outcome := if last then Finished else Going;
  }

  /** A frame that is granted is sent in at least one piece. */
  lemma {:induction false} PiecesPositive(left: nat, answers: seq<Answer>)
    requires left > 0 && Covers(left, answers)
    ensures Pieces(left, answers) > 0
    decreases |answers|
  {
    if answers[0].count == 0 {
      PiecesPositive(left, answers[1..]);
    }
  }

  /** What the frame ends: the stream, if it is trailers or the last data of the body. */
  predicate EndsStream(f: Frame, last: bool, answers: seq<Answer>) {
    f.Trailers? || (last && SendsOf(f, answers) > 0)
  }

  /** What one turn of the outer loop does with a frame. */
  ghost predicate FrameSent(peer: Peer, f: Frame, last: bool, log0: seq<Sent>, answers0: seq<Answer>,
                            outcome: Outcome, log: seq<Sent>, answers: seq<Answer>) {
    var sends := if f.Trailers? then 1 else SendsOf(f, answers0);
    && (outcome == Failed <==> f.Broken? || !Grants(f, answers0) || FailsWithin(peer, |log0|, sends))
    && (outcome != Failed ==> |log| == |log0| + sends && Delivered(log) == Delivered(log0) + Kept(f, answers0))
    && (outcome == Finished ==> EndsStream(f, last, answers0) && EndedOnce(false, log))
    && (outcome == Going ==> !EndsStream(f, last, answers0) && Open(log) && answers == Left(f, answers0))
    && (outcome == Failed ==> NeverEnded(log))
    && (outcome == Failed ==>
          if f.Broken? || Stalls(peer, f, |log0|, answers0) then ResetLast(log) else Open(log))
    && Delivered(log) <= Delivered(log0) + Kept(f, answers0)
  }

  /** One turn of the outer loop. */
  method SendFrame(peer: Peer, f: Frame, last: bool, log0: seq<Sent>, answers0: seq<Answer>)
    returns (outcome: Outcome, log: seq<Sent>, answers: seq<Answer>)
    requires Open(log0)
    ensures FrameSent(peer, f, last, log0, answers0, outcome, log, answers)
  {
    outcome, log, answers := Going, log0, answers0;
    match f {
      case Data(bytes, pooled) =>
        if bytes != [] {
          if pooled {
            outcome, log, answers := SendPooled(peer, bytes, last, log, answers);
          } else {
            outcome, log, answers := SendUnpooled(peer, bytes, last, log, answers);
            if Covers(|bytes|, answers0) { PiecesPositive(|bytes|, answers0); }
          }
        }
      case Trailers =>
        if Fails(peer, |log|) {
          return Failed, log, answers;
        }
        DeliveredChunk(log, SentTrailers);
        return Finished, log + [SentTrailers], answers;
      case Unknown =>
      case Broken =>
        DeliveredChunk(log, Reset);
        return Failed, log + [Reset], answers;
    }
  }

  /** What has been sent and what is still to come make up what survives. */
  ghost predicate Balanced(body: Body, peer: Peer, log: seq<Sent>, k: nat, answers: seq<Answer>) {
    && k <= |body.frames|
    && Delivered(log) + Surviving(body.frames[k..], answers) == Surviving(body.frames, peer.answers)
  }

  lemma BalanceKept(body: Body, peer: Peer, log: seq<Sent>, k: nat, answers: seq<Answer>, log': seq<Sent>)
    requires Balanced(body, peer, log, k, answers) && k < |body.frames|
    requires Delivered(log') <= Delivered(log) + Kept(body.frames[k], answers)
    ensures Delivered(log') <= Surviving(body.frames, peer.answers)
    ensures Delivered(log') == Delivered(log) + Kept(body.frames[k], answers) ==>
              if Stops(body.frames[k]) then Delivered(log') == Surviving(body.frames, peer.answers)
              else Balanced(body, peer, log', k + 1, Left(body.frames[k], answers))
  {
    var f, rest := body.frames[k], body.frames[k..];
    assert rest[0] == f && rest[1..] == body.frames[k + 1..];
    var after := if Stops(f) then [] else Surviving(rest[1..], Left(f, answers));
    Regrouped(Delivered(log), Kept(f, answers), after, Delivered(log'));
  }

  lemma Regrouped(a: Bytes, b: Bytes, c: Bytes, d: Bytes)
    requires d <= a + b
    ensures d <= a + (b + c) && (d == a + b ==> d + c == a + (b + c)) && a + [] == a
  {
    assert (a + b) + c == a + (b + c);
  }

  /** Whether the response completes, told from what is still to come. */
  ghost predicate Ahead(body: Body, peer: Peer, log: seq<Sent>, k: nat, answers: seq<Answer>) {
    && k <= |body.frames|
    && Unbroken(body.frames) == Unbroken(body.frames[k..])
    && Granted(body.frames, peer.answers) == Granted(body.frames[k..], answers)
    && HasTrailers(body.frames) == HasTrailers(body.frames[k..])
    && Announced(body.frames, peer.answers, body.announces) == Announced(body.frames[k..], answers, body.announces)
    && Polled(body.frames) == k + Polled(body.frames[k..])
    && Sends(body.frames, peer.answers) == |log| + Sends(body.frames[k..], answers)
    && (peer.lateFrame.Some? ==> peer.lateFrame.value >= k)
    && (peer.failingSend.Some? ==> peer.failingSend.value >= |log|)
  }

  lemma AheadStarts(body: Body, peer: Peer)
    ensures Ahead(body, peer, [], 0, peer.answers)
  {
    assert body.frames[0..] == body.frames;
  }

  /** A frame that is sent without ending the stream. */
  lemma AheadKept(body: Body, peer: Peer, log: seq<Sent>, k: nat, answers: seq<Answer>, log': seq<Sent>)
    requires Ahead(body, peer, log, k, answers) && k < |body.frames| && !Stops(body.frames[k])
    requires Grants(body.frames[k], answers) && |log'| == |log| + SendsOf(body.frames[k], answers)
    requires !EndsStream(body.frames[k], k + 1 == |body.frames| && body.announces, answers)
    requires peer.lateFrame != Some(k) && !FailsWithin(peer, |log|, SendsOf(body.frames[k], answers))
    ensures Ahead(body, peer, log', k + 1, Left(body.frames[k], answers))
  {
    var rest := body.frames[k..];
    assert rest[0] == body.frames[k] && rest[1..] == body.frames[k + 1..];
  }

  /** A frame that cannot be sent decides that the response fails. */
  lemma AheadFails(body: Body, peer: Peer, log: seq<Sent>, k: nat, answers: seq<Answer>)
    requires Ahead(body, peer, log, k, answers) && k < |body.frames|
    ensures var f := body.frames[k];
      var sends := if f.Trailers? then 1 else SendsOf(f, answers);
      peer.lateFrame == Some(k) || f.Broken? || !Grants(f, answers) || FailsWithin(peer, |log|, sends)
      ==> !Completes(body, peer)
  {
    var rest := body.frames[k..];
    assert rest[0] == body.frames[k] && rest[1..] == body.frames[k + 1..];
  }

  /** A frame that ends the stream decides that it succeeds. */
  lemma AheadEnds(body: Body, peer: Peer, log: seq<Sent>, k: nat, answers: seq<Answer>)
    requires Ahead(body, peer, log, k, answers) && k < |body.frames| && !peer.headFails
    requires Grants(body.frames[k], answers) && peer.lateFrame != Some(k)
    requires !FailsWithin(peer, |log|, if body.frames[k].Trailers? then 1 else SendsOf(body.frames[k], answers))
    requires EndsStream(body.frames[k], k + 1 == |body.frames| && body.announces, answers)
    ensures Completes(body, peer)
  {
    var f, rest := body.frames[k], body.frames[k..];
    assert rest[0] == f;
    if !f.Trailers? {
      assert rest[1..] == [] && f.Data?;
      assert Unbroken(rest[1..]) && Granted(rest[1..], Left(f, answers));
      assert Polled(rest[1..]) == 0 == Sends(rest[1..], Left(f, answers));
    }
  }

  /** The end of the body decides too. */
  lemma AheadOver(body: Body, peer: Peer, log: seq<Sent>, answers: seq<Answer>)
    requires Ahead(body, peer, log, |body.frames|, answers) && !peer.headFails
    requires !(body.frames == [] && body.announces)
    ensures Completes(body, peer) <==> peer.lateFrame != Some(|body.frames|) && !Fails(peer, |log|)
  {
    assert body.frames[|body.frames|..] == [];
  }

  /** Whether the stream is reset, told from what is still to come. */
  ghost predicate CutAhead(body: Body, peer: Peer, log: seq<Sent>, k: nat, answers: seq<Answer>) {
    && k <= |body.frames|
    && CutOff(peer, body.frames, 0, 0, peer.answers, body.announces)
       == CutOff(peer, body.frames[k..], k, |log|, answers, body.announces)
  }

  lemma CutKept(body: Body, peer: Peer, log: seq<Sent>, k: nat, answers: seq<Answer>, log': seq<Sent>)
    requires CutAhead(body, peer, log, k, answers) && k < |body.frames| && peer.lateFrame != Some(k)
    ensures var f := body.frames[k];
      && (f.Trailers? ==> !CutOff(peer, body.frames, 0, 0, peer.answers, body.announces))
      && (f.Broken? || Stalls(peer, f, |log|, answers) ==>
            f.Trailers? || CutOff(peer, body.frames, 0, 0, peer.answers, body.announces))
      && (!f.Trailers? && !f.Broken? && !Stalls(peer, f, |log|, answers)
          && |log'| == |log| + SendsOf(f, answers) ==>
            if Passes(peer, f, |log|, answers, k + 1 == |body.frames| && body.announces)
            then CutAhead(body, peer, log', k + 1, Left(f, answers))
            else !CutOff(peer, body.frames, 0, 0, peer.answers, body.announces))
  {
    var rest := body.frames[k..];
    assert rest[0] == body.frames[k] && rest[1..] == body.frames[k + 1..];
  }

  /** A frame that is granted does not stall, and one that stalls is not. */
  lemma StallsOrGrants(peer: Peer, f: Frame, sends: nat, answers: seq<Answer>)
    requires Stalls(peer, f, sends, answers)
    ensures !Grants(f, answers)
  {
  }

  ghost predicate OnTrack(body: Body, peer: Peer, log: seq<Sent>, k: nat, answers: seq<Answer>) {
    Open(log) && Balanced(body, peer, log, k, answers) && Ahead(body, peer, log, k, answers)
    && CutAhead(body, peer, log, k, answers)
  }

  /** What is promised of a response. */
  ghost predicate Answered(body: Body, peer: Peer, ok: bool, head: bool, log: seq<Sent>) {
    && (ok <==> Completes(body, peer))
    && (ok ==> Delivered(log) == Surviving(body.frames, peer.answers) && EndedOnce(head, log))
    && (!ok ==> Delivered(log) <= Surviving(body.frames, peer.answers) && NeverEnded(log))
    && (!ok ==> if Resets(body, peer) then ResetLast(log) else Open(log))
    && (ok ==> !Resets(body, peer))
  }

  /** The deadline passes before the next frame comes. */
  lemma LateAnswers(body: Body, peer: Peer, log: seq<Sent>, k: nat, answers: seq<Answer>)
    requires OnTrack(body, peer, log, k, answers) && peer.lateFrame == Some(k)
    requires !peer.headFails && !(body.frames == [] && body.announces)
    ensures Answered(body, peer, false, false, log + [Reset])
  {
    DeliveredChunk(log, Reset);
    assert (log + [Reset])[..|log|] == log;
    if k < |body.frames| {
      AheadFails(body, peer, log, k, answers);
    } else {
      AheadOver(body, peer, log, answers);
    }
  }

  /** The end of the body is sent as an empty chunk. */
  lemma OverAnswers(body: Body, peer: Peer, log: seq<Sent>, answers: seq<Answer>)
    requires OnTrack(body, peer, log, |body.frames|, answers) && peer.lateFrame != Some(|body.frames|)
    requires !peer.headFails && !(body.frames == [] && body.announces)
    ensures if Fails(peer, |log|) then Answered(body, peer, false, false, log)
            else Answered(body, peer, true, false, log + [Chunk([], true)])
  {
    AheadOver(body, peer, log, answers);
    assert body.frames[|body.frames|..] == [];
    DeliveredChunk(log, Chunk([], true));
    assert Delivered(log) + [] == Delivered(log);
  }

  /** A frame that could not be sent, or that ended the stream. */
  lemma StopAnswers(body: Body, peer: Peer, log: seq<Sent>, k: nat, answers: seq<Answer>, ok: bool, log': seq<Sent>)
    requires OnTrack(body, peer, log, k, answers) && k < |body.frames| && peer.lateFrame != Some(k) && !peer.headFails
    requires FrameSent(peer, body.frames[k], k + 1 == |body.frames| && body.announces, log, answers,
                       if ok then Finished else Failed, log', [])
    ensures Answered(body, peer, ok, false, log')
  {
    var f := body.frames[k];
    BalanceKept(body, peer, log, k, answers, log');
    AheadFails(body, peer, log, k, answers);
    CutKept(body, peer, log, k, answers, log + seq(SendsOf(f, answers), _ => Reset));
    if ok {
      AheadEnds(body, peer, log, k, answers);
      if Stalls(peer, f, |log|, answers) { StallsOrGrants(peer, f, |log|, answers); }
      if !f.Trailers? { StopSurvives(body, k, answers); }
    }
  }

  /** Nothing comes after the frame that ends the stream. */
  lemma StopSurvives(body: Body, k: nat, answers: seq<Answer>)
    requires k < |body.frames| && !Stops(body.frames[k]) && k + 1 == |body.frames|
    ensures Surviving(body.frames[k..], answers) == Kept(body.frames[k], answers)
  {
    assert body.frames[k..][1..] == [];
  }

  lemma PassKeeps(body: Body, peer: Peer, log: seq<Sent>, k: nat, answers: seq<Answer>, log': seq<Sent>,
                  answers': seq<Answer>)
    requires OnTrack(body, peer, log, k, answers) && k < |body.frames| && peer.lateFrame != Some(k)
    requires FrameSent(peer, body.frames[k], k + 1 == |body.frames| && body.announces, log, answers,
                       Going, log', answers')
    ensures OnTrack(body, peer, log', k + 1, answers')
  {
    var f := body.frames[k];
    BalanceKept(body, peer, log, k, answers, log');
    AheadKept(body, peer, log, k, answers, log');
    if Stalls(peer, f, |log|, answers) { StallsOrGrants(peer, f, |log|, answers); }
    CutKept(body, peer, log, k, answers, log');
  }

  lemma TrackStarts(body: Body, peer: Peer)
    ensures OnTrack(body, peer, [], 0, peer.answers)
  {
    AheadStarts(body, peer);
    assert body.frames[0..] == body.frames;
  }

  /** `send_h2_response`: `head` tells whether the response head ended the stream.  A
      success delivers exactly what survives the empty grants, in order, and ends the
      stream once; and that is the whole body exactly unless a pooled frame starved.
      A failure never ends the stream, and resets it exactly if a deadline or a broken body
      was the first thing to go wrong. */
  method SendResponse(body: Body, peer: Peer) returns (ok: bool, head: bool, log: seq<Sent>)
    ensures ok <==> Completes(body, peer)
    ensures ok ==> Delivered(log) == Surviving(body.frames, peer.answers) && EndedOnce(head, log)
    ensures ok ==> (Delivered(log) == BodyBytes(body.frames) <==> !Starves(body.frames, peer.answers))
    ensures !ok ==> Delivered(log) <= Surviving(body.frames, peer.answers) && NeverEnded(log)
    ensures Resets(body, peer) ==> !ok && ResetLast(log)
    ensures !ok && !Resets(body, peer) ==> Open(log)
  {
    SurvivesUnlessStarved(body.frames, peer.answers);
    head := body.frames == [] && body.announces;
    if peer.headFails || head {
      return !peer.headFails, head, [];
    }
    ok, log := SendFrames(body, peer);
  }

  /** Its loop over the frames of the body. */
  method SendFrames(body: Body, peer: Peer) returns (ok: bool, log: seq<Sent>)
    requires !peer.headFails && !(body.frames == [] && body.announces)
    ensures Answered(body, peer, ok, false, log)
  {
    log := [];
    var k, answers := 0, peer.answers;
    TrackStarts(body, peer);
    while k < |body.frames|
      invariant 0 <= k <= |body.frames| && OnTrack(body, peer, log, k, answers)
    {
      if peer.lateFrame == Some(k) {
        LateAnswers(body, peer, log, k, answers);
        return false, log + [Reset];
      }
      var last := k + 1 == |body.frames| && body.announces;
      var outcome, after, left := SendFrame(peer, body.frames[k], last, log, answers);
      if outcome != Going {
        StopAnswers(body, peer, log, k, answers, outcome == Finished, after);
        return outcome == Finished, after;
      }
      PassKeeps(body, peer, log, k, answers, after, left);
      log, answers, k := after, left, k + 1;
    }
    if peer.lateFrame == Some(k) {
      LateAnswers(body, peer, log, k, answers);
      return false, log + [Reset];
    }
    OverAnswers(body, peer, log, answers);
    if Fails(peer, |log|) {
      return false, log;
    }
    return true, log + [Chunk([], true)];
  }

  // -------------------------------------------------------- a frame that is lost

  /** One pooled frame and one empty grant: the response completes without its data. */
  lemma EmptyGrantLosesAPooledFrame(bytes: Bytes, announces: bool)
    requires bytes != []
    ensures var body, peer := Body([Data(bytes, true)], announces), Peer(false, [Capacity(0)], None, None);
      && Completes(body, peer) && Starves(body.frames, peer.answers)
      && BodyBytes(body.frames) == bytes && Surviving(body.frames, peer.answers) == []
  {
    var f := Data(bytes, true);
    var frames, answers := [f], [Capacity(0)];
    assert frames[1..] == [];
    assert BodyBytes(frames) == bytes + BodyBytes(frames[1..]);
    assert Unbroken(frames) && Granted(frames, answers);
  }

  /** So a success may deliver nothing of a body that is not empty. */
  method SendStarved(bytes: Bytes, announces: bool) returns (ok: bool, log: seq<Sent>)
    requires bytes != []
    ensures ok && Delivered(log) == []
  {
    EmptyGrantLosesAPooledFrame(bytes, announces);
    var head;
    ok, head, log := SendResponse(Body([Data(bytes, true)], announces), Peer(false, [Capacity(0)], None, None));
  }
}
