/** The loop that serves one mobile socket after the handshake. */
module RelaySession {
  /** A frame from the device. A request without an id is given a freshly drawn one. */
  datatype Incoming =
    | Ping(ts: int) | Bye | Unhandled
    | Request(given: string, drawn: string, oversize: bool)

  /** How `hub.route` ends; `Crashed` is any exception the loop does not catch. */
  datatype Routed = Answered(body: string) | Unavailable | TooLarge | TimedOut | Crashed

  datatype Outgoing = Pong(ts: int) | Failure(id: string, code: string) | Response(id: string, body: string)

  datatype Session = Session(seen: set<string>, sent: seq<Outgoing>, routed: seq<string>, open: bool)

  const FRESH := Session({}, [], [], true)

  function IdOf(r: Incoming): string
    requires r.Request?
  {
    if r.given != "" then r.given else r.drawn
  }

  function Reply(id: string, o: Routed): Outgoing
    requires !o.Crashed?
  {
    match o
    case Answered(body) => Response(id, body)
    case Unavailable => Failure(id, "tunnel_unavailable")
    case TooLarge => Failure(id, "payload_too_large")
    case TimedOut => Failure(id, "request_timeout")
  }

  function Serve(s: Session, f: Incoming, o: Routed): Session {
    if !s.open then s
    else match f
      case Ping(ts) => s.(sent := s.sent + [Pong(ts)])
      case Bye => s.(open := false)
      case Unhandled => s
      case Request(_, _, oversize) =>
        var id := IdOf(f);
        if id in s.seen then s.(sent := s.sent + [Failure(id, "duplicate_request")])
        else if oversize then s.(seen := s.seen + {id}, sent := s.sent + [Failure(id, "payload_too_large")])
        else
          var r := s.(seen := s.seen + {id}, routed := s.routed + [id]);
          if o.Crashed? then r.(open := false) else r.(sent := r.sent + [Reply(id, o)])
  }

  function ServeAll(frames: seq<Incoming>, outcomes: seq<Routed>): Session
    requires |outcomes| == |frames|
  {
    if frames == [] then FRESH
    else
      var n := |frames| - 1;
      Serve(ServeAll(frames[..n], outcomes[..n]), frames[n], outcomes[n])
  }

  predicate RepliesTo(m: Outgoing, id: string) {
    (m.Failure? || m.Response?) && m.id == id
  }

  function Replies(sent: seq<Outgoing>, id: string): nat {
    if sent == [] then 0
    else Replies(sent[..|sent| - 1], id) + if RepliesTo(sent[|sent| - 1], id) then 1 else 0
  }

  /** Replies that do more than point out a duplicate. */
  function Answers(sent: seq<Outgoing>, id: string): nat {
    if sent == [] then 0
    else
      var m := sent[|sent| - 1];
      Answers(sent[..|sent| - 1], id) + if RepliesTo(m, id) && m != Failure(id, "duplicate_request") then 1 else 0
  }

  function Requests(frames: seq<Incoming>, id: string): nat {
    if frames == [] then 0
    else
      var f := frames[|frames| - 1];
      Requests(frames[..|frames| - 1], id) + if f.Request? && IdOf(f) == id then 1 else 0
  }

  predicate Distinct(ids: seq<string>) {
    forall i, j | 0 <= i < j < |ids| :: ids[i] != ids[j]
  }

  /** The books of one socket with `n` requests received under `id`. */
  ghost predicate Tidy(s: Session, id: string, n: nat) {
    && Distinct(s.routed) && (forall x | x in s.routed :: x in s.seen)
    && Answers(s.sent, id) <= 1 && Replies(s.sent, id) <= n
    && (id !in s.seen ==> Replies(s.sent, id) == Answers(s.sent, id) == 0)
    && (s.open ==> Replies(s.sent, id) == n && Answers(s.sent, id) == (if n > 0 then 1 else 0) && (id in s.seen <==> n > 0))
  }

  lemma OneMore(sent: seq<Outgoing>, m: Outgoing, id: string)
    ensures Replies(sent + [m], id) == Replies(sent, id) + if RepliesTo(m, id) then 1 else 0
    ensures Answers(sent + [m], id) ==
            Answers(sent, id) + if RepliesTo(m, id) && m != Failure(id, "duplicate_request") then 1 else 0
  {
  }

  lemma ServeKeeps(s: Session, f: Incoming, o: Routed, id: string, n: nat)
    requires Tidy(s, id, n)
    ensures Tidy(Serve(s, f, o), id, n + if f.Request? && IdOf(f) == id then 1 else 0)
  {
    hide Replies, Answers, Distinct;
    var t := Serve(s, f, o);
    assert Distinct(t.routed) by {
      RoutedOnce(s, f, o);
    }
    if t.sent != s.sent {
      OneMore(s.sent, t.sent[|s.sent|], id);
      assert t.sent == s.sent + [t.sent[|s.sent|]];
    }
  }

  lemma RoutedOnce(s: Session, f: Incoming, o: Routed)
    requires Distinct(s.routed) && forall x | x in s.routed :: x in s.seen
    ensures Distinct(Serve(s, f, o).routed)
  {
  }

  /** While the socket is open every request received has exactly one reply under its own id, exactly one of an
      id's replies is not a mere duplicate notice, and, open or not, no id is routed twice. */
  lemma {:induction false} OneReplyEach(frames: seq<Incoming>, outcomes: seq<Routed>, id: string)
    requires |outcomes| == |frames|
    ensures Tidy(ServeAll(frames, outcomes), id, Requests(frames, id))
  {
    if frames != [] {
      var n := |frames| - 1;
      OneReplyEach(frames[..n], outcomes[..n], id);
      ServeKeeps(ServeAll(frames[..n], outcomes[..n]), frames[n], outcomes[n], id, Requests(frames[..n], id));
    }
  }

  // ---- What each frame gets -------------------------------------------------------------------------------

  /** The id of frame `i` was used by a request before it. */
  predicate SeenBefore(frames: seq<Incoming>, i: nat)
    requires i < |frames| && frames[i].Request?
  {
    exists j | 0 <= j < i :: frames[j].Request? && IdOf(frames[j]) == IdOf(frames[i])
  }

  /** The answer that frame `i` gets, if the socket is still open when it comes: a ping its own time stamp, a request
      under its own id the body of its response, or the code of what went wrong. */
  predicate IsAnswered(frames: seq<Incoming>, outcomes: seq<Routed>, i: nat, got: seq<Outgoing>)
    requires i < |frames| == |outcomes|
  {
    var f := frames[i];
    match f
    case Ping(ts) => got == [Pong(ts)]
    case Bye => got == []
    case Unhandled => got == []
    case Request(given, drawn, oversize) =>
      var id := if given == "" then drawn else given;
      if SeenBefore(frames, i) then got == [Failure(id, "duplicate_request")]
      else if oversize then got == [Failure(id, "payload_too_large")]
      else match outcomes[i]
        case Answered(body) => got == [Response(id, body)]
        case Unavailable => got == [Failure(id, "tunnel_unavailable")]
        case TooLarge => got == [Failure(id, "payload_too_large")]
        case TimedOut => got == [Failure(id, "request_timeout")]
        case Crashed => got == []
  }

  /** The frame ends the session: a goodbye, or a request that was routed and failed in a way the loop does not catch. */
  predicate Closes(frames: seq<Incoming>, outcomes: seq<Routed>, i: nat)
    requires i < |frames| == |outcomes|
  {
    frames[i].Bye? || (frames[i].Request? && !SeenBefore(frames, i) && !frames[i].oversize && outcomes[i].Crashed?)
  }

  predicate StillOpen(frames: seq<Incoming>, outcomes: seq<Routed>, i: nat)
    requires i <= |frames| == |outcomes|
  {
    forall j | 0 <= j < i :: !Closes(frames, outcomes, j)
  }

  lemma {:induction false} SeenExactly(frames: seq<Incoming>, outcomes: seq<Routed>, i: nat, id: string)
    requires i <= |frames| == |outcomes| && StillOpen(frames, outcomes, i)
    ensures var s := ServeAll(frames[..i], outcomes[..i]);
            s.open && (id in s.seen <==> exists j | 0 <= j < i :: frames[j].Request? && IdOf(frames[j]) == id)
    decreases i
  {
    if i > 0 {
      var n := i - 1;
      assert frames[..i][..n] == frames[..n] && outcomes[..i][..n] == outcomes[..n];
      SeenExactly(frames, outcomes, n, id);
      if frames[n].Request? {
        SeenExactly(frames, outcomes, n, IdOf(frames[n]));
      }
      assert !Closes(frames, outcomes, n);
    }
  }

  /** While the session is open, frame `i` adds to what was sent before it exactly its own answer; the session is over
      with the first frame that closes it. */
  lemma EachFrameIsAnswered(frames: seq<Incoming>, outcomes: seq<Routed>, i: nat)
    requires i < |frames| == |outcomes| && StillOpen(frames, outcomes, i)
    ensures var before, after := ServeAll(frames[..i], outcomes[..i]), ServeAll(frames[..i + 1], outcomes[..i + 1]);
            && before.sent <= after.sent && IsAnswered(frames, outcomes, i, after.sent[|before.sent|..])
            && after.open == !Closes(frames, outcomes, i)
            && after.routed == before.routed + if frames[i].Request? && !SeenBefore(frames, i) && !frames[i].oversize
                                               then [IdOf(frames[i])] else []
  {
    assert frames[..i + 1][..i] == frames[..i] && outcomes[..i + 1][..i] == outcomes[..i];
    var before := ServeAll(frames[..i], outcomes[..i]);
    SeenExactly(frames, outcomes, i, if frames[i].Request? then IdOf(frames[i]) else "");
    hide Replies, Answers;
  }

  /** The loop itself: `outcomes[i]` is what routing the i-th frame would give. */
  method MobileLoop(frames: seq<Incoming>, outcomes: seq<Routed>) returns (sent: seq<Outgoing>, routed: seq<string>)
    requires |outcomes| == |frames|
    ensures sent == ServeAll(frames, outcomes).sent && routed == ServeAll(frames, outcomes).routed
  {
    sent, routed := [], [];
    var seen: set<string> := {};
    var i := 0;
    while i < |frames|
      invariant 0 <= i <= |frames|
      invariant ServeAll(frames[..i], outcomes[..i]) == Session(seen, sent, routed, true)
    {
      var f := frames[i];
      assert frames[..i + 1][..i] == frames[..i] && outcomes[..i + 1][..i] == outcomes[..i];
      var o := outcomes[i];
      i := i + 1;
      if f.Ping? {
        sent := sent + [Pong(f.ts)];
        continue;
      }
      if f.Bye? {
        ClosedStays(frames, outcomes, i);
        return;
      }
      if !f.Request? {
        continue;
      }
      var id := IdOf(f);
      if id in seen {
        sent := sent + [Failure(id, "duplicate_request")];
        continue;
      }
      seen := seen + {id};
      if f.oversize {
        sent := sent + [Failure(id, "payload_too_large")];
        continue;
      }
      routed := routed + [id];
      if o.Crashed? {
        ClosedStays(frames, outcomes, i);
        return;
      }
      sent := sent + [Reply(id, o)];
    }
    assert frames[..|frames|] == frames && outcomes[..|frames|] == outcomes;
  }

  lemma {:induction false} ClosedStays(frames: seq<Incoming>, outcomes: seq<Routed>, i: nat)
    requires |outcomes| == |frames| && i <= |frames| && !ServeAll(frames[..i], outcomes[..i]).open
    ensures ServeAll(frames, outcomes) == ServeAll(frames[..i], outcomes[..i])
    decreases |frames|
  {
    if i == |frames| {
      assert frames[..i] == frames && outcomes[..i] == outcomes;
    } else {
      var n := |frames| - 1;
      assert frames[..n][..i] == frames[..i] && outcomes[..n][..i] == outcomes[..i];
      ClosedStays(frames[..n], outcomes[..n], i);
    }
  }
}
