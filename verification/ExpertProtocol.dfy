/** The expert label protocol: clients send observations under fresh request ids, the service echoes the routing frames
    with its answer, and a receive loop resolves the future filed under the id. Messages may be reordered, lost,
    duplicated, and mixed with those of foreign clients. */
module ExpertProtocol {
  import opened Wrappers

  datatype Payload = Payload(cameraFrames: seq<real>, cameraIndices: seq<int>, egoHistoryXyz: seq<real>,
                             egoHistoryRot: seq<real>)

  datatype Reply = Labels(actionIndices: seq<nat>, xyz: seq<real>, rot: seq<real>) | Failure(error: string)

  /** A dictionary that can be pickled. */
  datatype Dict = Observation(payload: Payload) | Response(reply: Reply)

  /** One part of a multipart message: an identity or request id, a pickled dictionary, or other bytes. */
  datatype Frame = Name(id: nat) | Pickled(dict: Dict) | Bytes(content: seq<nat>)

  type Message = seq<Frame>

  type Expert = Payload -> Reply

  // ---------- the service ----------

  /** The answer to the last frame; whatever goes wrong becomes an error answer. */
  function AnswerTo(expert: Expert, frame: Frame): Reply {
    if !frame.Pickled? then Failure("not a pickle")
    else if !frame.dict.Observation? then Failure("missing key")
    else expert(frame.dict.payload)
  }

  /** The routing frames come back unchanged. */
  function Echo(expert: Expert, parts: Message): Message
    requires parts != []
  {
    [parts[0]] + (if |parts| > 1 then parts[1..|parts| - 1] else [])
    + [Pickled(Response(AnswerTo(expert, parts[|parts| - 1])))]
  }

  // ---------- the client ----------

  /** What `ExpertFuture.result` gives once the event is set. */
  datatype Outcome = Nothing | Got(dict: Dict) | Raised(error: string)

  /** A future with the payload it was created for and the number of times it was resolved. */
  datatype Future = Future(payload: Payload, outcome: Option<Outcome>, resolutions: nat)

  function Resolve(f: Future, outcome: Outcome): Future {
    f.(outcome := Some(outcome), resolutions := f.resolutions + 1)
  }

  datatype Client = Client(enabled: bool, pending: map<nat, nat>, futures: seq<Future>)

  predicate WellFiled(c: Client) {
    forall id :: id in c.pending ==> c.pending[id] < |c.futures|
  }

  function OutcomeOf(dict: Dict): Outcome {
    if dict.Response? && dict.reply.Failure? then Raised(dict.reply.error) else Got(dict)
  }

  /** The future is filed before the request is sent; a disabled client resolves it to nothing at once. */
  function Ask(c: Client, payload: Payload, reqId: nat): Client {
    var future := Future(payload, None, 0);
    if !c.enabled then c.(futures := c.futures + [Resolve(future, Nothing)])
    else c.(pending := c.pending[reqId := |c.futures|], futures := c.futures + [future])
  }

  function RequestFor(payload: Payload, reqId: nat): Message {
    [Name(reqId), Pickled(Observation(payload))]
  }

  /** One turn of the receive loop. The future is taken out of the dictionary before it is resolved. */
  function Receive(c: Client, parts: Message): Client
    requires WellFiled(c)
  {
    if |parts| < 2 || !parts[1].Pickled? then c
    else if !parts[0].Name? || parts[0].id !in c.pending then c
    else
      var k := c.pending[parts[0].id];
      Client(c.enabled, c.pending - {parts[0].id}, c.futures[k := Resolve(c.futures[k], OutcomeOf(parts[1].dict))])
  }

  class ExpertClient {
    const enabled: bool
    var pending: map<nat, nat>
    var futures: seq<Future>

    ghost function Snapshot(): Client
      reads this
    {
      Client(enabled, pending, futures)
    }

    constructor (enabled: bool)
      ensures Snapshot() == Client(enabled, map[], [])
    {
      this.enabled, pending, futures := enabled, map[], [];
    }

    method AsyncQuery(payload: Payload, reqId: nat) returns (future: nat, request: Option<Message>)
      modifies this
      ensures Snapshot() == Ask(old(Snapshot()), payload, reqId)
      ensures future == |old(futures)| && futures[future].payload == payload
      ensures request == if enabled then Some(RequestFor(payload, reqId)) else None
    {
      future := |futures|;
      if !enabled {
        futures := futures + [Resolve(Future(payload, None, 0), Nothing)];
        return future, None;
      }
      futures := futures + [Future(payload, None, 0)];
      pending := pending[reqId := future];
      request := Some(RequestFor(payload, reqId));
    }

    method ReceiveOne(parts: Message)
      requires WellFiled(Snapshot())
      modifies this
      ensures Snapshot() == Receive(old(Snapshot()), parts)
    {
      if |parts| < 2 {
        return;
      }
      var reqId, msg := parts[0], parts[1];
      if !msg.Pickled? {
        return;
      }
      if reqId.Name? && reqId.id in pending {
        var k := pending[reqId.id];
        pending := pending - {reqId.id};
        futures := futures[k := Resolve(futures[k], OutcomeOf(msg.dict))];
      }
    }
  }

  // ---------- clients, service and network together ----------

  /** The network only ever grows: any message may arrive later, again, or never. `nextId` stands for the ids still
      unused. */
  datatype World = World(clients: seq<Client>, nextId: nat, requests: set<Message>, replies: set<Message>)

  datatype Step =
    | Query(client: nat, payload: Payload)
    | Serve(request: Message)
    | Deliver(client: nat, reply: Message)
    | Foreign(request: Message)

  /** The router puts the true sender in front, so a foreign message never starts with a client's name. */
  predicate Possible(w: World, step: Step) {
    match step
    case Query(c, _) => c < |w.clients|
    case Serve(m) => m in w.requests && m != []
    case Deliver(c, m) => c < |w.clients| && m in w.replies && m != [] && m[0] == Name(c) && WellFiled(w.clients[c])
    case Foreign(m) => m != [] && (m[0].Name? ==> m[0].id >= |w.clients|)
  }

  function Next(expert: Expert, w: World, step: Step): World
    requires Possible(w, step)
  {
    match step
    case Query(c, payload) =>
      var asked := Ask(w.clients[c], payload, w.nextId);
      var sent := if w.clients[c].enabled then {[Name(c)] + RequestFor(payload, w.nextId)} else {};
      World(w.clients[c := asked], w.nextId + 1, w.requests + sent, w.replies)
    case Serve(m) => w.(replies := w.replies + {Echo(expert, m)})
    case Deliver(c, m) => w.(clients := w.clients[c := Receive(w.clients[c], m[1..])])
    case Foreign(m) => w.(requests := w.requests + {m})
  }

  function Start(enabled: seq<bool>): World {
    World(seq(|enabled|, i requires 0 <= i < |enabled| => Client(enabled[i], map[], [])), 0, {}, {})
  }

  predicate CanRun(expert: Expert, w: World, steps: seq<Step>)
    decreases |steps|
  {
    steps == [] || (Possible(w, steps[0]) && CanRun(expert, Next(expert, w, steps[0]), steps[1..]))
  }

  function After(expert: Expert, w: World, steps: seq<Step>): World
    requires CanRun(expert, w, steps)
    decreases |steps|
  {
    if steps == [] then w else After(expert, Next(expert, w, steps[0]), steps[1..])
  }

  // ---------- the invariant ----------

  /** The outcome a future must have: the expert's answer to its own payload, or nothing when labelling is off. */
  function OwnOutcome(expert: Expert, c: Client, f: Future): Outcome {
    if c.enabled then OutcomeOf(Response(expert(f.payload))) else Nothing
  }

  /** A future is unresolved, or resolved once with its own outcome. */
  predicate FutureOk(expert: Expert, c: Client, f: Future) {
    || (f.outcome.None? && f.resolutions == 0)
    || (f.outcome == Some(OwnOutcome(expert, c, f)) && f.resolutions == 1)
  }

  /** Filed futures are unresolved, and no two ids file the same future. */
  predicate ClientOk(expert: Expert, c: Client, nextId: nat) {
    && WellFiled(c)
    && (forall k :: 0 <= k < |c.futures| ==> FutureOk(expert, c, c.futures[k]))
    && (forall id :: id in c.pending ==> id < nextId && c.enabled && c.futures[c.pending[id]].outcome.None?)
    && (forall id, other :: id in c.pending && other in c.pending && id != other ==> c.pending[id] != c.pending[other])
  }

  /** A message in the name of client `c` under id `id` carries the payload of the future filed there, if any still
      is. */
  predicate About(c: Client, id: nat, payload: Payload) {
    id in c.pending ==> c.pending[id] < |c.futures| && c.futures[c.pending[id]].payload == payload
  }

  predicate RequestOk(w: World, m: Message) {
    m != [] && (m[0].Name? && m[0].id < |w.clients| ==>
                  && |m| == 3 && m[1].Name? && m[1].id < w.nextId && m[2].Pickled? && m[2].dict.Observation?
                  && About(w.clients[m[0].id], m[1].id, m[2].dict.payload))
  }

  ghost predicate ReplyOk(expert: Expert, w: World, m: Message) {
    m != [] && (m[0].Name? && m[0].id < |w.clients| ==>
                  && |m| == 3 && m[1].Name? && m[1].id < w.nextId
                  && exists payload: Payload ::
                       m[2] == Pickled(Response(expert(payload))) && About(w.clients[m[0].id], m[1].id, payload))
  }

  ghost predicate Inv(expert: Expert, w: World) {
    && (forall c :: 0 <= c < |w.clients| ==> ClientOk(expert, w.clients[c], w.nextId))
    && (forall m :: m in w.requests ==> RequestOk(w, m))
    && (forall m :: m in w.replies ==> ReplyOk(expert, w, m))
  }

  lemma AskOk(expert: Expert, c: Client, payload: Payload, nextId: nat)
    requires ClientOk(expert, c, nextId)
    ensures ClientOk(expert, Ask(c, payload, nextId), nextId + 1)
    ensures forall id: nat, p: Payload :: id < nextId && About(c, id, p) ==> About(Ask(c, payload, nextId), id, p)
    ensures About(Ask(c, payload, nextId), nextId, payload)
  {
  }

  lemma QueryStep(expert: Expert, w: World, c: nat, payload: Payload)
    requires Inv(expert, w) && c < |w.clients|
    ensures Inv(expert, Next(expert, w, Query(c, payload)))
  {
    hide Ask, ClientOk, About;
    var after := Next(expert, w, Query(c, payload));
    AskOk(expert, w.clients[c], payload, w.nextId);
    forall d | 0 <= d < |after.clients|
      ensures ClientOk(expert, after.clients[d], after.nextId)
    {
      if d != c {
        LaterId(expert, w.clients[d], w.nextId);
      }
    }
    forall m | m in after.requests
      ensures RequestOk(after, m)
    {
      if m in w.requests {
        assert RequestOk(w, m);
      }
    }
    forall m | m in after.replies
      ensures ReplyOk(expert, after, m)
    {
      assert ReplyOk(expert, w, m);
    }
  }

  lemma LaterId(expert: Expert, c: Client, nextId: nat)
    requires ClientOk(expert, c, nextId)
    ensures ClientOk(expert, c, nextId + 1)
  {
  }

  lemma ServeStep(expert: Expert, w: World, m: Message)
    requires Inv(expert, w) && m in w.requests && m != []
    ensures Inv(expert, Next(expert, w, Serve(m)))
  {
    hide ClientOk, About;
    var after := Next(expert, w, Serve(m));
    assert RequestOk(w, m);
    assert ReplyOk(expert, after, Echo(expert, m));
    forall r | r in w.requests
      ensures RequestOk(after, r)
    {
      assert RequestOk(w, r);
    }
    forall r | r in w.replies
      ensures ReplyOk(expert, after, r)
    {
      assert ReplyOk(expert, w, r);
    }
  }

  lemma ReceiveOk(expert: Expert, c: Client, nextId: nat, id: nat, payload: Payload)
    requires ClientOk(expert, c, nextId) && About(c, id, payload)
    ensures (var after := Receive(c, [Name(id), Pickled(Response(expert(payload)))]);
             && ClientOk(expert, after, nextId)
             && forall i: nat, p: Payload :: About(c, i, p) ==> About(after, i, p))
  {
  }

  lemma DeliverStep(expert: Expert, w: World, c: nat, m: Message)
    requires Inv(expert, w) && Possible(w, Deliver(c, m))
    ensures Inv(expert, Next(expert, w, Deliver(c, m)))
  {
    hide ClientOk, About, Receive;
    var after := Next(expert, w, Deliver(c, m));
    assert ReplyOk(expert, w, m);
    var payload: Payload :| m[2] == Pickled(Response(expert(payload))) && About(w.clients[c], m[1].id, payload);
    assert m[1..] == [Name(m[1].id), Pickled(Response(expert(payload)))];
    ReceiveOk(expert, w.clients[c], w.nextId, m[1].id, payload);
    forall r | r in w.requests
      ensures RequestOk(after, r)
    {
      assert RequestOk(w, r);
    }
    forall r | r in w.replies
      ensures ReplyOk(expert, after, r)
    {
      assert ReplyOk(expert, w, r);
    }
  }

  lemma ForeignStep(expert: Expert, w: World, m: Message)
    requires Inv(expert, w) && Possible(w, Foreign(m))
    ensures Inv(expert, Next(expert, w, Foreign(m)))
  {
    hide ClientOk, About;
    var after := Next(expert, w, Foreign(m));
    forall r | r in after.requests
      ensures RequestOk(after, r)
    {
      if r in w.requests {
        assert RequestOk(w, r);
      }
    }
    forall r | r in w.replies
      ensures ReplyOk(expert, after, r)
    {
      assert ReplyOk(expert, w, r);
    }
  }

  lemma StartInv(expert: Expert, enabled: seq<bool>)
    ensures Inv(expert, Start(enabled))
  {
  }

  lemma StepInv(expert: Expert, w: World, step: Step)
    requires Inv(expert, w) && Possible(w, step)
    ensures Inv(expert, Next(expert, w, step))
  {
    hide Inv, Next;
    match step {
      case Query(c, payload) => QueryStep(expert, w, c, payload);
      case Serve(m) => ServeStep(expert, w, m);
      case Deliver(c, m) => DeliverStep(expert, w, c, m);
      case Foreign(m) => ForeignStep(expert, w, m);
    }
  }

  lemma {:induction false} RunInv(expert: Expert, w: World, steps: seq<Step>)
    requires CanRun(expert, w, steps) && Inv(expert, w) && AllFiled(w)
    ensures Inv(expert, After(expert, w, steps)) && AllFiled(After(expert, w, steps))
    decreases |steps|
  {
    hide Inv, Next, AllFiled;
    if steps != [] {
      StepInv(expert, w, steps[0]);
      StepFiled(expert, w, steps[0]);
      RunInv(expert, Next(expert, w, steps[0]), steps[1..]);
    }
  }

  /** In every run each future is resolved at most once, and only with the expert's answer or error for its own
      payload. */
  lemma OwnAnswerAtMostOnce(expert: Expert, enabled: seq<bool>, steps: seq<Step>, c: nat, k: nat)
    requires CanRun(expert, Start(enabled), steps)
    requires c < |After(expert, Start(enabled), steps).clients|
    requires k < |After(expert, Start(enabled), steps).clients[c].futures|
    ensures (var client := After(expert, Start(enabled), steps).clients[c];
             var f := client.futures[k];
             && f.resolutions <= 1 && (f.resolutions == 1 <==> f.outcome.Some?)
             && (f.outcome.Some? ==> f.outcome.value == OwnOutcome(expert, client, f))
             && (f.outcome.Some? ==>
                   match expert(f.payload)
                   case Labels(_, _, _) =>
                     f.outcome.value == if client.enabled then Got(Response(expert(f.payload))) else Nothing
                   case Failure(error) =>
                     f.outcome.value == if client.enabled then Raised(error) else Nothing))
  {
    StartInv(expert, enabled);
    RunInv(expert, Start(enabled), steps);
    var w := After(expert, Start(enabled), steps);
    assert ClientOk(expert, w.clients[c], w.nextId);
    assert FutureOk(expert, w.clients[c], w.clients[c].futures[k]);
  }

  // ---------- prefixes of runs ----------

  lemma {:induction false} SplitRun(expert: Expert, w: World, steps: seq<Step>, n: nat)
    requires CanRun(expert, w, steps) && n <= |steps|
    ensures CanRun(expert, w, steps[..n]) && CanRun(expert, After(expert, w, steps[..n]), steps[n..])
    ensures After(expert, After(expert, w, steps[..n]), steps[n..]) == After(expert, w, steps)
    decreases n
  {
    hide Next, Possible;
    if n > 0 {
      SplitRun(expert, Next(expert, w, steps[0]), steps[1..], n - 1);
      assert steps[..n][0] == steps[0] && steps[..n][1..] == steps[1..][..n - 1] && steps[n..] == steps[1..][n - 1..];
    } else {
      assert steps[..0] == [] && steps[0..] == steps;
    }
  }

  /** Clients stay, and a future stays with the payload it was made for. */
  predicate KeepsFutures(w: World, w': World) {
    |w'.clients| == |w.clients| && forall c :: 0 <= c < |w.clients| ==> KeepsClient(w.clients[c], w'.clients[c])
  }

  predicate KeepsClient(c: Client, c': Client) {
    && c'.enabled == c.enabled && |c'.futures| >= |c.futures|
    && forall k :: 0 <= k < |c.futures| ==> c'.futures[k].payload == c.futures[k].payload
  }

  lemma StepKeepsFutures(expert: Expert, w: World, step: Step)
    requires Possible(w, step)
    ensures KeepsFutures(w, Next(expert, w, step))
  {
  }

  lemma {:induction false} RunKeepsFutures(expert: Expert, w: World, steps: seq<Step>)
    requires CanRun(expert, w, steps)
    ensures KeepsFutures(w, After(expert, w, steps))
    decreases |steps|
  {
    hide Next, Possible;
    if steps != [] {
      StepKeepsFutures(expert, w, steps[0]);
      RunKeepsFutures(expert, Next(expert, w, steps[0]), steps[1..]);
    }
  }

  // ---------- no future is out of reach ----------

  predicate FiledUnder(c: Client, k: nat, id: nat) {
    id in c.pending && c.pending[id] == k
  }

  /** What client `c` sent under `id` for payload `payload`, as the service receives it. */
  function Routed(c: nat, payload: Payload, id: nat): Message {
    [Name(c)] + RequestFor(payload, id)
  }

  ghost predicate Filed(w: World, c: nat)
    requires c < |w.clients|
  {
    var client := w.clients[c];
    && WellFiled(client)
    && (forall k: nat :: k < |client.futures| && client.futures[k].outcome.None? ==>
          exists id :: FiledUnder(client, k, id))
    && (forall id :: id in client.pending ==> Routed(c, client.futures[client.pending[id]].payload, id) in w.requests)
  }

  /** Every unresolved future is filed, and its request has been sent. */
  ghost predicate AllFiled(w: World) {
    forall c: nat :: c < |w.clients| ==> Filed(w, c)
  }

  lemma QueryFiled(expert: Expert, w: World, c: nat, payload: Payload)
    requires Inv(expert, w) && c < |w.clients| && Filed(w, c)
    ensures Filed(Next(expert, w, Query(c, payload)), c)
  {
    var client := w.clients[c];
    var after := Next(expert, w, Query(c, payload)).clients[c];
    assert ClientOk(expert, client, w.nextId);
    forall k: nat | k < |after.futures| && after.futures[k].outcome.None?
      ensures exists id :: FiledUnder(after, k, id)
    {
      if k < |client.futures| {
        var id :| FiledUnder(client, k, id);
        assert FiledUnder(after, k, id);
      } else {
        assert FiledUnder(after, k, w.nextId);
      }
    }
  }

  lemma DeliverFiled(expert: Expert, w: World, c: nat, m: Message)
    requires Inv(expert, w) && Possible(w, Deliver(c, m)) && Filed(w, c)
    ensures Filed(Next(expert, w, Deliver(c, m)), c)
  {
    hide OutcomeOf, About, FutureOk;
    var client := w.clients[c];
    var after := Next(expert, w, Deliver(c, m)).clients[c];
    assert ClientOk(expert, client, w.nextId);
    forall k: nat | k < |after.futures| && after.futures[k].outcome.None?
      ensures exists id :: FiledUnder(after, k, id)
    {
      ReceiveFiled(client, m[1..], k);
    }
  }

  lemma ReceiveFiled(client: Client, parts: Message, k: nat)
    requires WellFiled(client) && k < |client.futures|
    requires client.futures[k].outcome.None? ==> exists id :: FiledUnder(client, k, id)
    requires Receive(client, parts).futures[k].outcome.None?
    ensures exists id :: FiledUnder(Receive(client, parts), k, id)
  {
    hide OutcomeOf;
    var id :| FiledUnder(client, k, id);
    assert FiledUnder(Receive(client, parts), k, id);
  }

  lemma StepFiled(expert: Expert, w: World, step: Step)
    requires Inv(expert, w) && AllFiled(w) && Possible(w, step)
    ensures AllFiled(Next(expert, w, step))
  {
    hide Inv, Ask, Receive, Routed;
    var after := Next(expert, w, step);
    forall c: nat | c < |after.clients|
      ensures Filed(after, c)
    {
      if step.Query? && step.client == c {
        QueryFiled(expert, w, c, step.payload);
      } else if step.Deliver? && step.client == c {
        DeliverFiled(expert, w, c, step.reply);
      } else {
        assert Filed(w, c) && after.clients[c] == w.clients[c] && w.requests <= after.requests;
      }
    }
  }

  /** Whatever cannot be read as an observation is answered with an error, behind the same routing frames, and a client
      that gets such an answer raises it. */
  lemma MalformedIsRefused(expert: Expert, parts: Message)
    requires parts != []
    requires !parts[|parts| - 1].Pickled? || !parts[|parts| - 1].dict.Observation?
    ensures (var echo := Echo(expert, parts);
             var last := echo[|echo| - 1];
             && last.Pickled? && last.dict.Response? && last.dict.reply.Failure? && OutcomeOf(last.dict).Raised?
             && echo[0] == parts[0] && (|parts| > 1 ==> echo[..|echo| - 1] == parts[..|parts| - 1]))
  {
  }

  lemma EchoOfRouted(expert: Expert, c: nat, payload: Payload, id: nat)
    ensures Echo(expert, Routed(c, payload, id)) == [Name(c), Name(id), Pickled(Response(expert(payload)))]
  {
  }

  /** Whatever happened, the service can still be given the request of any unresolved future, and delivering the echo
      resolves it. */
  lemma AlwaysAnswerable(expert: Expert, enabled: seq<bool>, steps: seq<Step>, c: nat, k: nat) returns (id: nat)
    requires CanRun(expert, Start(enabled), steps)
    requires c < |After(expert, Start(enabled), steps).clients|
    requires k < |After(expert, Start(enabled), steps).clients[c].futures|
    requires After(expert, Start(enabled), steps).clients[c].futures[k].outcome.None?
    ensures (var w := After(expert, Start(enabled), steps);
             var request := Routed(c, w.clients[c].futures[k].payload, id);
             && Possible(w, Serve(request))
             && var served := Next(expert, w, Serve(request));
             && Possible(served, Deliver(c, Echo(expert, request)))
             && var delivered := Next(expert, served, Deliver(c, Echo(expert, request)));
             && k < |delivered.clients[c].futures|
             && delivered.clients[c].futures[k].outcome
                == Some(OwnOutcome(expert, w.clients[c], w.clients[c].futures[k])))
  {
    StartInv(expert, enabled);
    RunInv(expert, Start(enabled), steps);
    var w := After(expert, Start(enabled), steps);
    assert Filed(w, c) && ClientOk(expert, w.clients[c], w.nextId);
    id :| FiledUnder(w.clients[c], k, id);
    var payload := w.clients[c].futures[k].payload;
    EchoOfRouted(expert, c, payload, id);
    var echo := Echo(expert, Routed(c, payload, id));
    assert echo[1..] == [Name(id), Pickled(Response(expert(payload)))];
  }
}
