/** The wire between relay nodes: envelopes as JSON objects, what a receiver accepts, and the in-process bus. */
module RelayWire {
  import opened Wrappers

  datatype Value = Text(text: string) | Number(number: real) | Truth(truth: bool) | Object(body: string) | OtherValue

  type Json = map<string, Value>

  const VERSION := 1.0

  function BuildRequest(source: string, target: string, inst: string, cid: string, frame: string): Json {
    map["relay_internal_version" := Number(VERSION), "type" := Text("request"), "source_node" := Text(source),
        "target_node" := Text(target), "installation_id" := Text(inst), "correlation_id" := Text(cid),
        "frame" := Object(frame)]
  }

  function BuildResponse(source: string, target: string, inst: string, cid: string, frame: string): Json {
    BuildRequest(source, target, inst, cid, frame)["type" := Text("response")]
  }

  function BuildBroadcast(origin: string, inst: string, frame: string): Json {
    map["relay_internal_version" := Number(VERSION), "type" := Text("broadcast"), "origin_node" := Text(origin),
        "installation_id" := Text(inst), "frame" := Object(frame)]
  }

  datatype Fault = NotAnObject | UnsupportedVersion | UnknownType | InvalidField(name: string) | FrameNotAnObject

  datatype Checked = Accepted | Rejected(fault: Fault)

  predicate Holds(env: Json, key: string, v: Value) {
    key in env && env[key] == v
  }

  /** Equal to 1 in Python: the numbers 1 and 1.0, and the truth value `true`. */
  predicate IsVersion(v: Value) {
    v == Number(VERSION) || v == Truth(true)
  }

  predicate HasVersion(env: Json) {
    "relay_internal_version" in env && IsVersion(env["relay_internal_version"])
  }

  predicate Named(env: Json, key: string) {
    key in env && env[key].Text? && env[key].text != ""
  }

  predicate HasFrame(env: Json) {
    "frame" in env && env["frame"].Object?
  }

  /** `None` stands for a message that is not a JSON object. */
  function Validate(env: Option<Json>): Checked {
    if env.None? then Rejected(NotAnObject)
    else
      var e := env.value;
      if !HasVersion(e) then Rejected(UnsupportedVersion)
      else if !(Holds(e, "type", Text("request")) || Holds(e, "type", Text("response"))) then Rejected(UnknownType)
      else if !Named(e, "source_node") then Rejected(InvalidField("source_node"))
      else if !Named(e, "target_node") then Rejected(InvalidField("target_node"))
      else if !Named(e, "installation_id") then Rejected(InvalidField("installation_id"))
      else if !Named(e, "correlation_id") then Rejected(InvalidField("correlation_id"))
      else if !HasFrame(e) then Rejected(FrameNotAnObject)
      else Accepted
  }

  function ValidateBroadcast(env: Option<Json>): Checked {
    if env.None? then Rejected(NotAnObject)
    else
      var e := env.value;
      if !HasVersion(e) then Rejected(UnsupportedVersion)
      else if !Holds(e, "type", Text("broadcast")) then Rejected(UnknownType)
      else if !Named(e, "origin_node") then Rejected(InvalidField("origin_node"))
      else if !Named(e, "installation_id") then Rejected(InvalidField("installation_id"))
      else if !HasFrame(e) then Rejected(FrameNotAnObject)
      else Accepted
  }

  /** `env` says what `built` says, up to the ways of writing the version, and perhaps more. */
  ghost predicate Extends(env: Json, built: Json) {
    HasVersion(env) && forall k | k in built && k != "relay_internal_version" :: k in env && env[k] == built[k]
  }

  /** A node accepts exactly the objects that extend some request or response a node could have built with
      four nonempty ids. */
  lemma AcceptsWhatIsBuilt(env: Json)
    ensures Validate(Some(env)).Accepted? <==>
            exists s, t, i, c, f | s != "" && t != "" && i != "" && c != "" ::
              Extends(env, BuildRequest(s, t, i, c, f)) || Extends(env, BuildResponse(s, t, i, c, f))
  {
    if Validate(Some(env)).Accepted? {
      var s, t := env["source_node"].text, env["target_node"].text;
      var i, c := env["installation_id"].text, env["correlation_id"].text;
      var f := env["frame"].body;
      assert Extends(env, BuildRequest(s, t, i, c, f)) || Extends(env, BuildResponse(s, t, i, c, f));
      hide Validate, Extends, BuildRequest, BuildResponse;
    } else {
      forall s, t, i, c, f | s != "" && t != "" && i != "" && c != ""
        ensures !Extends(env, BuildRequest(s, t, i, c, f)) && !Extends(env, BuildResponse(s, t, i, c, f)) {
        BuiltIsAccepted(env, s, t, i, c, f);
      }
    }
  }

  lemma BuiltIsAccepted(env: Json, s: string, t: string, i: string, c: string, f: string)
    requires s != "" && t != "" && i != "" && c != ""
    ensures Extends(env, BuildRequest(s, t, i, c, f)) || Extends(env, BuildResponse(s, t, i, c, f))
            ==> Validate(Some(env)).Accepted?
  {
    var built := BuildRequest(s, t, i, c, f);
    assert built.Keys == BuildResponse(s, t, i, c, f).Keys;
    assert "source_node" in built && "target_node" in built && "installation_id" in built && "correlation_id" in built
           && "frame" in built && "type" in built && "relay_internal_version" in built;
  }

  /** The same for publications; and no message is taken for both. */
  lemma AcceptsWhatIsBroadcast(env: Json)
    ensures ValidateBroadcast(Some(env)).Accepted? <==>
            exists o, i, f | o != "" && i != "" :: Extends(env, BuildBroadcast(o, i, f))
    ensures !(Validate(Some(env)).Accepted? && ValidateBroadcast(Some(env)).Accepted?)
  {
    if ValidateBroadcast(Some(env)).Accepted? {
      assert Extends(env, BuildBroadcast(env["origin_node"].text, env["installation_id"].text, env["frame"].body));
    }
  }

  // ---- What the receiver reads ----------------------------------------------------------------------------

  datatype Message =
    | RequestFor(source: string, target: string, inst: string, cid: string, frame: string)
    | ResponseTo(source: string, target: string, inst: string, cid: string, frame: string)
    | Published(origin: string, inst: string, frame: string)

  function TextAt(env: Json, key: string): string {
    if key in env && env[key].Text? then env[key].text else ""
  }

  /** The fields that the handlers take out of an accepted message. */
  function Read(env: Json): Option<Message> {
    if Validate(Some(env)).Accepted? then
      var frame := env["frame"].body;
      var s, t, i, c := TextAt(env, "source_node"), TextAt(env, "target_node"), TextAt(env, "installation_id"), TextAt(env, "correlation_id");
      Some(if TextAt(env, "type") == "request" then RequestFor(s, t, i, c, frame) else ResponseTo(s, t, i, c, frame))
    else if ValidateBroadcast(Some(env)).Accepted? then
      Some(Published(TextAt(env, "origin_node"), TextAt(env, "installation_id"), env["frame"].body))
    else None
  }

  /** Whatever is built is read as it was meant. */
  lemma RoundTrip(s: string, t: string, i: string, c: string, f: string)
    requires s != "" && t != "" && i != "" && c != ""
    ensures Read(BuildRequest(s, t, i, c, f)) == Some(RequestFor(s, t, i, c, f))
    ensures Read(BuildResponse(s, t, i, c, f)) == Some(ResponseTo(s, t, i, c, f))
    ensures Read(BuildBroadcast(s, i, f)) == Some(Published(s, i, f))
  {
    ReadsRequest(s, t, i, c, f);
    ReadsResponse(s, t, i, c, f);
    ReadsBroadcast(s, i, f);
    hide Read, BuildRequest, BuildResponse, BuildBroadcast;
  }

  lemma ReadsRequest(s: string, t: string, i: string, c: string, f: string)
    requires s != "" && t != "" && i != "" && c != ""
    ensures Read(BuildRequest(s, t, i, c, f)) == Some(RequestFor(s, t, i, c, f))
  {
    hide ValidateBroadcast;
  }

  lemma ReadsResponse(s: string, t: string, i: string, c: string, f: string)
    requires s != "" && t != "" && i != "" && c != ""
    ensures Read(BuildResponse(s, t, i, c, f)) == Some(ResponseTo(s, t, i, c, f))
  {
    hide ValidateBroadcast;
  }

  lemma ReadsBroadcast(o: string, i: string, f: string)
    requires o != "" && i != ""
    ensures Read(BuildBroadcast(o, i, f)) == Some(Published(o, i, f))
  {
  }

  // ---- The in-process bus -------------------------------------------------------------------------------

  /** A handler call that the bus has scheduled. A handler is named by the node that subscribed it. */
  datatype Call<+M> = Call(handler: string, message: M)

  /** One call per handler, in order. */
  function Calls<M>(handlers: seq<string>, message: M): (r: seq<Call<M>>)
    ensures |r| == |handlers| && forall i | 0 <= i < |r| :: r[i] == Call(handlers[i], message)
  {
    seq(|handlers|, i requires 0 <= i < |handlers| => Call(handlers[i], message))
  }

  class InProcessBus<M> {
    var subs: map<string, seq<string>>
    var scheduled: seq<Call<M>>

    constructor ()
      ensures subs == map[] && scheduled == []
    {
      subs, scheduled := map[], [];
    }

    function Handlers(channel: string): seq<string>
      reads this
    {
      if channel in subs then subs[channel] else []
    }

    method Subscribe(channel: string, handler: string)
      modifies this`subs
      ensures Handlers(channel) == old(Handlers(channel)) + [handler]
      ensures forall c | c != channel :: Handlers(c) == old(Handlers(c))
    {
      subs := subs[channel := Handlers(channel) + [handler]];
    }

    method Unsubscribe(channel: string)
      modifies this`subs
      ensures Handlers(channel) == [] && forall c | c != channel :: Handlers(c) == old(Handlers(c))
    {
      subs := subs - {channel};
    }

    /** Schedules one call for each subscriber of the channel, in subscription order, and nothing else. */
    method Publish(channel: string, message: M)
      modifies this`scheduled
      ensures scheduled == old(scheduled) + Calls(Handlers(channel), message)
    {
      var handlers := Handlers(channel);
      for k := 0 to |handlers|
        invariant scheduled == old(scheduled) + Calls(handlers, message)[..k]
      {
        scheduled := scheduled + [Call(handlers[k], message)];
      }
    }
  }
}
