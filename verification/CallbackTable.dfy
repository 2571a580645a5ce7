/**
  The table of pending responses: requesters on any number of threads draw an id, register a
  callback under it and only then send; the receiver thread dispatches responses by id.
 */
module CallbackTable {
  import opened Wrappers

  type Callback = nat  // which callable

  datatype Requester =
    | Ready
    | Drawn(id: nat, callback: Option<Callback>)       // the counter was incremented
    | Registered(id: nat, callback: Option<Callback>)  // the table holds the callback, if there is one

  datatype Client = Client(
    nextId: nat,                          // current_request_id_
    pending: map<nat, Callback>,          // pending_callbacks_
    requesters: seq<Requester>,
    // what has happened so far
    sent: map<nat, Option<Callback>>,     // requests handed to the library
    registered: map<nat, Callback>,       // callbacks ever put in the table
    answered: set<nat>,                   // ids for which a response has come since they were registered
    fired: seq<(nat, Callback)>)          // callbacks called, with the id of the response

  datatype Action =
    | Draw(r: nat, callback: Option<Callback>)
    | Register(r: nat)
    | Send(r: nat)
    | Respond(id: nat)  // any response: repeated, early, or to an id that was never drawn

  function Init(requesters: nat): Client {
    Client(1, map[], seq(requesters, i => Ready), map[], map[], {}, [])
  }

  predicate Enabled(s: Client, a: Action) {
    match a
    case Draw(r, _) => r < |s.requesters| && s.requesters[r].Ready?
    case Register(r) => r < |s.requesters| && s.requesters[r].Drawn?
    case Send(r) => r < |s.requesters| && s.requesters[r].Registered?
    case Respond(_) => true
  }

  function Next(s: Client, a: Action): Client
    requires Enabled(s, a)
  {
    match a
    case Draw(r, callback) =>
      s.(requesters := s.requesters[r := Drawn(s.nextId, callback)], nextId := s.nextId + 1)
    case Register(r) =>
      var pc := s.requesters[r];
      s.(requesters := s.requesters[r := Registered(pc.id, pc.callback)],
         pending := if pc.callback.Some? then s.pending[pc.id := pc.callback.value] else s.pending,
         registered := if pc.callback.Some? then s.registered[pc.id := pc.callback.value] else s.registered)
    case Send(r) =>
      var pc := s.requesters[r];
      s.(requesters := s.requesters[r := Ready], sent := s.sent[pc.id := pc.callback])
    case Respond(id) =>
      var s' := s.(answered := if id in s.registered then s.answered + {id} else s.answered);
      if id in s.pending then s'.(pending := s.pending - {id}, fired := s.fired + [(id, s.pending[id])]) else s'
  }

  function Exec(s: Client, actions: seq<Action>): Option<Client>
    decreases |actions|
  {
    if actions == [] then Some(s)
    else if Enabled(s, actions[0]) then Exec(Next(s, actions[0]), actions[1..])
    else None
  }

  function IdOf(pc: Requester): Option<nat> {
    if pc.Ready? then None else Some(pc.id)
  }

  /** Ids in use are below the counter, belong to one requester at a time, and are not sent yet. */
  ghost predicate IdsUnique(s: Client) {
    && (forall r | 0 <= r < |s.requesters| && IdOf(s.requesters[r]).Some? ::
          IdOf(s.requesters[r]).value < s.nextId && IdOf(s.requesters[r]).value !in s.sent)
    && (forall r, q | 0 <= r < |s.requesters| && 0 <= q < |s.requesters| && IdOf(s.requesters[r]).Some? ::
          IdOf(s.requesters[r]) == IdOf(s.requesters[q]) ==> r == q)
    && (forall id | id in s.sent :: id < s.nextId)
    && (forall id | id in s.registered :: id < s.nextId)
  }

  /** What was registered under an id, if anything. */
  function RegisteredFor(s: Client, id: nat): Option<Callback> {
    if id in s.registered then Some(s.registered[id]) else None
  }

  /** The table holds what was registered and not answered; a request is sent after its registration. */
  ghost predicate TableOk(s: Client) {
    && s.answered <= s.registered.Keys
    && (forall id :: id in s.pending <==> id in s.registered && id !in s.answered)
    && (forall id | id in s.pending :: s.pending[id] == s.registered[id])
    && (forall id | id in s.sent :: s.sent[id] == RegisteredFor(s, id))
    && (forall r | 0 <= r < |s.requesters| && s.requesters[r].Drawn? :: s.requesters[r].id !in s.registered)
    && (forall r | 0 <= r < |s.requesters| && s.requesters[r].Registered? ::
          s.requesters[r].callback == RegisteredFor(s, s.requesters[r].id))
  }

  function Firings(fired: seq<(nat, Callback)>, id: nat): seq<Callback> {
    if fired == [] then []
    else
      var last := fired[|fired| - 1];
      Firings(fired[..|fired| - 1], id) + if last.0 == id then [last.1] else []
  }

  /** What has been called for an id: its callback, once, if a response has come since it was registered. */
  ghost predicate FiredOk(s: Client, id: nat)
    requires s.answered <= s.registered.Keys
  {
    Firings(s.fired, id) == if id in s.answered then [s.registered[id]] else []
  }

  ghost predicate Inv(s: Client) {
    IdsUnique(s) && TableOk(s) && forall id: nat :: FiredOk(s, id)
  }

  lemma IdsUniqueStep(s: Client, a: Action)
    requires IdsUnique(s) && Enabled(s, a)
    ensures IdsUnique(Next(s, a))
  {
  }

  lemma TableOkStep(s: Client, a: Action)
    requires IdsUnique(s) && TableOk(s) && Enabled(s, a)
    ensures TableOk(Next(s, a))
  {
  }

  lemma FiredOkStep(s: Client, a: Action, id: nat)
    requires IdsUnique(s) && TableOk(s) && FiredOk(s, id) && Enabled(s, a)
    ensures FiredOk(Next(s, a), id)
  {
    var s' := Next(s, a);
    if a.Respond? && a.id in s.pending {
      assert s'.fired[..|s'.fired| - 1] == s.fired;
    }
  }

  lemma KeepsInv(s: Client, a: Action)
    requires Inv(s) && Enabled(s, a)
    ensures Inv(Next(s, a))
  {
    IdsUniqueStep(s, a);
    TableOkStep(s, a);
    forall id: nat ensures FiredOk(Next(s, a), id) {
      FiredOkStep(s, a, id);
    }
  }

  lemma {:induction false} InvExec(s: Client, actions: seq<Action>)
    requires Inv(s) && Exec(s, actions).Some?
    ensures Inv(Exec(s, actions).value)
    decreases |actions|
  {
    if actions != [] {
      KeepsInv(s, actions[0]);
      hide Enabled, Next, Inv;
      InvExec(Next(s, actions[0]), actions[1..]);
    }
  }

  /**
    In every interleaving, whatever responses come, when and how often: under every id exactly
    the callback registered under it has been called, exactly once, if a response has come
    since, and nothing otherwise. A request that was sent has exactly its own callback
    registered, so its first response calls that one and no other response calls any.
   */
  lemma EachCallbackFiresOnce(requesters: nat, actions: seq<Action>, s: Client)
    requires Exec(Init(requesters), actions) == Some(s)
    ensures forall id: nat :: Firings(s.fired, id) == if id in s.answered && id in s.registered then [s.registered[id]] else []
    ensures forall id | id in s.sent :: s.sent[id] == RegisteredFor(s, id)
    ensures forall id :: id in s.pending <==> id in s.registered && id !in s.answered
  {
    InvExec(Init(requesters), actions);
    forall id: nat
      ensures Firings(s.fired, id) == if id in s.answered && id in s.registered then [s.registered[id]] else []
    {
      assert FiredOk(s, id);
    }
  }
}

/** The client object: each method is one step of a requester or of the receiver, in place. */
module TdlibClients {
  import opened Wrappers
  import opened CallbackTable

  class TDLibClient {
    var currentRequestId: nat
    var pendingCallbacks: map<nat, Callback>

    ghost var requesters: seq<Requester>
    ghost var sent: map<nat, Option<Callback>>
    ghost var registered: map<nat, Callback>
    ghost var answered: set<nat>
    ghost var fired: seq<(nat, Callback)>

    ghost function View(): Client
      reads this
    {
      Client(currentRequestId, pendingCallbacks, requesters, sent, registered, answered, fired)
    }

    constructor (ghost callers: nat)
      ensures View() == Init(callers)
    {
      currentRequestId, pendingCallbacks := 1, map[];
      requesters, sent, registered, answered, fired := seq(callers, i => Ready), map[], map[], {}, [];
    }

    method DrawId(ghost r: nat, ghost onResponse: Option<Callback>) returns (id: nat)
      requires Enabled(View(), Draw(r, onResponse))
      modifies this`currentRequestId, this`requesters
      ensures View() == Next(old(View()), Draw(r, onResponse))
      ensures id == old(currentRequestId)
    {
      id := currentRequestId;
      currentRequestId := currentRequestId + 1;
      requesters := requesters[r := Drawn(id, onResponse)];
    }

    method RegisterCallback(ghost r: nat, id: nat, onResponse: Option<Callback>)
      requires Enabled(View(), Register(r)) && requesters[r] == Drawn(id, onResponse)
      modifies this`pendingCallbacks, this`registered, this`requesters
      ensures View() == Next(old(View()), Register(r))
    {
      if onResponse.Some? {
        pendingCallbacks := pendingCallbacks[id := onResponse.value];
        registered := registered[id := onResponse.value];
      }
      requesters := requesters[r := Registered(id, onResponse)];
    }

    ghost method HandOver(r: nat)
      requires Enabled(View(), Send(r))
      modifies this`sent, this`requesters
      ensures View() == Next(old(View()), Send(r))
    {
      var pc := requesters[r];
      sent := sent[pc.id := pc.callback];
      requesters := requesters[r := Ready];
    }

    /** The whole call when no other thread moves meanwhile; for every interleaving see `EachCallbackFiresOnce`. */
    method SendRequest(ghost r: nat, onResponse: Option<Callback>) returns (id: nat)
      requires Inv(View()) && Enabled(View(), Draw(r, onResponse))
      modifies this
      ensures Inv(View())
      ensures id !in old(sent) && sent == old(sent)[id := onResponse]
      ensures onResponse.Some? ==> id in pendingCallbacks && pendingCallbacks[id] == onResponse.value
      ensures onResponse.None? ==> id !in pendingCallbacks
      ensures requesters == old(requesters) && fired == old(fired) && answered == old(answered)
    {
      ghost var before := requesters;
      KeepsInv(View(), Draw(r, onResponse));
      id := DrawId(r, onResponse);
      KeepsInv(View(), Register(r));
      RegisterCallback(r, id, onResponse);
      KeepsInv(View(), Send(r));
      HandOver(r);
      assert requesters == before;
    }

    /** The receiver takes the callback out of the table before it is called. Unknown ids are ignored. */
    method DispatchResponse(extra: nat) returns (callback: Option<Callback>)
      requires Inv(View())
      modifies this`pendingCallbacks, this`answered, this`fired
      ensures View() == Next(old(View()), Respond(extra)) && Inv(View())
      ensures callback == if extra in old(answered) then None else RegisteredFor(View(), extra)
      ensures extra in sent && extra !in old(answered) ==> callback == sent[extra]
      ensures callback.None? ==> pendingCallbacks == old(pendingCallbacks) && fired == old(fired)
    {
      KeepsInv(View(), Respond(extra));
      callback := None;
      if extra in pendingCallbacks {
        callback := Some(pendingCallbacks[extra]);
        fired := fired + [(extra, pendingCallbacks[extra])];
        pendingCallbacks := pendingCallbacks - {extra};
      }
      if extra in registered {
        answered := answered + {extra};
      }
    }
  }
}
