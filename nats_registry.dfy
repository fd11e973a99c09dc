/** The client registry both bridge files keep as module globals: the lazily
    created default client `nats_client` and the append-only list
    `nats_clients` that shutdown walks. The class also stands in for
    create_nats_client, the abstract connect step: `nextId` is the identity the
    next newly built client gets, and `trace` records every connect,
    subscribe and close in the order they happen. */
module NatsRegistry {
  import opened NatsCommon

  class Registry {
    var defaultClient: Option<Handle>
    var clients: seq<Handle>
    var nextId: nat
    ghost var trace: seq<Event>

    /** Every client known here was built by the connect step, and the
        default client, once made, is on the shutdown list. */
    ghost predicate Valid()
      reads this
    {
      && (defaultClient.Some? ==> defaultClient.value.id < nextId && defaultClient.value in clients)
      && (forall h :: h in clients ==> h.id < nextId)
    }

    /** Module load: no default client and an empty list. */
    constructor ()
      ensures Valid()
      ensures defaultClient == None && clients == [] && trace == [] && nextId == 0
    {
      defaultClient := None;
      clients := [];
      nextId := 0;
      trace := [];
    }

    /** The relation get_nats_client establishes between the state before
        (d0, c0, t0, n0) and after it: an existing default is returned with
        nothing else done; otherwise exactly one connect happens, its client
        becomes the default and is appended once to the list. */
    ghost predicate GotDefault(d0: Option<Handle>, c0: seq<Handle>, t0: seq<Event>, n0: nat,
                               servers: seq<string>, client: Handle)
      reads this
    {
      if d0.Some? then
        client == d0.value && defaultClient == d0 && clients == c0 && trace == t0 && nextId == n0
      else
        client == Handle(n0, servers) && defaultClient == Some(client) &&
        clients == c0 + [client] && trace == t0 + [Connect(client)] && nextId == n0 + 1
    }

    /** create_nats_client: connect a new client to `servers`. It is new,
        so it differs from every client already on the list; the registry
        itself is not touched. */
    method CreateNatsClient(servers: seq<string>) returns (client: Handle)
      requires Valid()
      modifies this
      ensures Valid()
      ensures client == Handle(old(nextId), servers) && client !in clients
      ensures nextId == old(nextId) + 1 && trace == old(trace) + [Connect(client)]
      ensures defaultClient == old(defaultClient) && clients == old(clients)
    {
      client := Handle(nextId, servers);
      nextId := nextId + 1;
      trace := trace + [Connect(client)];
    }

    /** get_nats_client: create the default client at most once. */
    method GetNatsClient(servers: seq<string>) returns (client: Handle)
      requires Valid()
      modifies this
      ensures Valid()
      ensures GotDefault(old(defaultClient), old(clients), old(trace), old(nextId), servers, client)
    {
      if defaultClient.None? {
        var created := CreateNatsClient(servers);
        defaultClient := Some(created);
        clients := clients + [created];
      }
      client := defaultClient.value;
    }

    /** subscribe: subscribe `callback` to `subject` on `client`, then append
        the client to the list, without checking whether it is there already. */
    method Subscribe(client: Handle, subject: string, callback: Callback)
      requires Valid() && client.id < nextId
      modifies this
      ensures Valid()
      ensures clients == old(clients) + [client]
      ensures trace == old(trace) + [Event.Subscribe(client, subject, callback)]
      ensures defaultClient == old(defaultClient) && nextId == old(nextId)
    {
      trace := trace + [Event.Subscribe(client, subject, callback)];
      clients := clients + [client];
    }

    /** stop_nats_clients: close the clients in list order, duplicates
        included. A close that raises ends the walk: later clients are not
        closed and the error propagates. */
    method StopNatsClients(closeOk: Handle -> bool) returns (outcome: Outcome<()>)
      requires Valid()
      modifies this
      ensures Valid()
      ensures defaultClient == old(defaultClient) && clients == old(clients) && nextId == old(nextId)
      ensures trace == old(trace) + CloseAttempts(clients, closeOk)
      ensures outcome == StopOutcome(clients, closeOk)
    {
      ghost var t0 := trace;
      var i := 0;
      while i < |clients|
        invariant 0 <= i <= |clients|
        invariant defaultClient == old(defaultClient) && clients == old(clients) && nextId == old(nextId)
        invariant forall j :: 0 <= j < i ==> closeOk(clients[j])
        invariant trace == t0 + CloseAttempts(clients[..i], closeOk)
      {
        var client := clients[i];
        trace := trace + [Close(client)];
        CloseAttemptsSnoc(clients[..i], client, closeOk);
        assert clients[..i + 1] == clients[..i] + [client];
        if !closeOk(client) {
          CloseAttemptsSplit(clients, i, closeOk);
          StopOutcomeAt(clients, i, closeOk);
          return Raised(CloseError(client));
        }
        i := i + 1;
      }
      assert clients[..i] == clients;
      StopOutcomeAllOk(clients, closeOk);
      outcome := Returned(());
    }
  }

  /** The closes stop_nats_clients attempts: each client in turn, up to and
      including the first whose close raises. */
  function CloseAttempts(hs: seq<Handle>, closeOk: Handle -> bool): seq<Event>
    decreases |hs|
  {
    if hs == [] then []
    else [Close(hs[0])] + (if closeOk(hs[0]) then CloseAttempts(hs[1..], closeOk) else [])
  }

  /** What stop_nats_clients returns: None, or the first close error. */
  function StopOutcome(hs: seq<Handle>, closeOk: Handle -> bool): Outcome<()>
    decreases |hs|
  {
    if hs == [] then Returned(())
    else if !closeOk(hs[0]) then Raised(CloseError(hs[0]))
    else StopOutcome(hs[1..], closeOk)
  }

  /** One close event per list entry, in list order. */
  function Closes(hs: seq<Handle>): (r: seq<Event>)
    ensures |r| == |hs|
    ensures forall k :: 0 <= k < |hs| ==> r[k] == Close(hs[k])
  {
    seq(|hs|, k requires 0 <= k < |hs| => Close(hs[k]))
  }

  /** Closing more clients after a run of successful closes extends the
      attempted closes. */
  lemma {:induction false} CloseAttemptsSnoc(hs: seq<Handle>, h: Handle, closeOk: Handle -> bool)
    requires forall j :: 0 <= j < |hs| ==> closeOk(hs[j])
    ensures CloseAttempts(hs + [h], closeOk) == CloseAttempts(hs, closeOk) + [Close(h)]
    decreases |hs|
  {
    if hs != [] {
      assert (hs + [h])[1..] == hs[1..] + [h];
      CloseAttemptsSnoc(hs[1..], h, closeOk);
    }
  }

  /** Past a run of successful closes, the attempts split at any point. */
  lemma {:induction false} CloseAttemptsSplit(hs: seq<Handle>, i: nat, closeOk: Handle -> bool)
    requires i <= |hs|
    requires forall j :: 0 <= j < i ==> closeOk(hs[j])
    ensures CloseAttempts(hs, closeOk) == CloseAttempts(hs[..i], closeOk) + CloseAttempts(hs[i..], closeOk)
    decreases i
  {
    if i > 0 {
      assert hs[..i][1..] == hs[1..][..i - 1];
      assert hs[i..] == hs[1..][i - 1..];
      CloseAttemptsSplit(hs[1..], i - 1, closeOk);
    }
  }

  /** The first failing close decides what the shutdown raises. */
  lemma {:induction false} StopOutcomeAt(hs: seq<Handle>, i: nat, closeOk: Handle -> bool)
    requires i < |hs|
    requires forall j :: 0 <= j < i ==> closeOk(hs[j])
    requires !closeOk(hs[i])
    ensures StopOutcome(hs, closeOk) == Raised(CloseError(hs[i]))
    decreases i
  {
    if i > 0 {
      StopOutcomeAt(hs[1..], i - 1, closeOk);
    }
  }

  /** Without a failing close, the shutdown returns normally. */
  lemma {:induction false} StopOutcomeAllOk(hs: seq<Handle>, closeOk: Handle -> bool)
    requires forall j :: 0 <= j < |hs| ==> closeOk(hs[j])
    ensures StopOutcome(hs, closeOk) == Returned(())
    decreases |hs|
  {
    if hs != [] {
      StopOutcomeAllOk(hs[1..], closeOk);
    }
  }

  /** When no close raises, every entry of the list is closed, in list order
      and once per occurrence, so a client subscribed twice is closed twice. */
  lemma {:induction false} CloseAllWhenNoFailure(hs: seq<Handle>, closeOk: Handle -> bool)
    requires forall j :: 0 <= j < |hs| ==> closeOk(hs[j])
    ensures CloseAttempts(hs, closeOk) == Closes(hs)
    decreases |hs|
  {
    if hs != [] {
      CloseAllWhenNoFailure(hs[1..], closeOk);
      assert Closes(hs) == [Close(hs[0])] + Closes(hs[1..]);
    }
  }

  /** When the close of entry i raises, exactly the entries up to and
      including i are closed, and none after it: shutdown is not best-effort. */
  lemma {:induction false} CloseStopsAtFirstFailure(hs: seq<Handle>, i: nat, closeOk: Handle -> bool)
    requires i < |hs|
    requires forall j :: 0 <= j < i ==> closeOk(hs[j])
    requires !closeOk(hs[i])
    ensures CloseAttempts(hs, closeOk) == Closes(hs[..i + 1])
  {
    CloseAttemptsSplit(hs, i, closeOk);
    CloseAllWhenNoFailure(hs[..i], closeOk);
    assert CloseAttempts(hs[i..], closeOk) == [Close(hs[i])];
    assert Closes(hs[..i + 1]) == Closes(hs[..i]) + [Close(hs[i])];
  }

  /** The clients startup connects, one per extra server: the k-th gets the
      k-th identity after `first` and the k-th server as its only endpoint. */
  function RemoteClients(servers: seq<string>, first: nat): (r: seq<Handle>)
    ensures |r| == |servers|
    ensures forall k :: 0 <= k < |servers| ==> r[k] == Handle(first + k, [servers[k]])
  {
    seq(|servers|, k requires 0 <= k < |servers| => Handle(first + k, [servers[k]]))
  }

  /** The events of the loop over extra servers: for each in order, a
      connect of a new client and a subscription on it. */
  function RemoteTrace(servers: seq<string>, first: nat, subject: string, callback: Callback): seq<Event>
    decreases |servers|
  {
    if servers == [] then []
    else
      var h := Handle(first, [servers[0]]);
      [Connect(h), Subscribe(h, subject, callback)] + RemoteTrace(servers[1..], first + 1, subject, callback)
  }

  /** One more extra server adds one connect and one subscribe at the end. */
  lemma {:induction false} RemoteTraceSnoc(servers: seq<string>, s: string, first: nat, subject: string, callback: Callback)
    ensures var h := Handle(first + |servers|, [s]);
            RemoteTrace(servers + [s], first, subject, callback)
              == RemoteTrace(servers, first, subject, callback) + [Connect(h), Subscribe(h, subject, callback)]
    decreases |servers|
  {
    if servers != [] {
      assert (servers + [s])[1..] == servers[1..] + [s];
      RemoteTraceSnoc(servers[1..], s, first + 1, subject, callback);
    }
  }

  /** The loop over extra servers alternates connect and subscribe: event 2k
      connects the client for server k and event 2k+1 subscribes that same
      client, so every extra server gets its own client, in order. */
  lemma {:induction false} RemoteTraceAt(servers: seq<string>, first: nat, subject: string, callback: Callback, k: nat)
    requires k < |servers|
    ensures |RemoteTrace(servers, first, subject, callback)| == 2 * |servers|
    ensures RemoteTrace(servers, first, subject, callback)[2 * k] == Connect(Handle(first + k, [servers[k]]))
    ensures RemoteTrace(servers, first, subject, callback)[2 * k + 1]
              == Subscribe(Handle(first + k, [servers[k]]), subject, callback)
    decreases |servers|
  {
    if k > 0 {
      RemoteTraceAt(servers[1..], first + 1, subject, callback, k - 1);
    } else if |servers| > 1 {
      RemoteTraceAt(servers[1..], first + 1, subject, callback, 0);
    } else {
      assert servers[1..] == [];
    }
  }

  /** The clients startup connects for the extra servers are all new: none
      equals a client built before them. */
  lemma RemoteClientsAreNew(servers: seq<string>, first: nat, h: Handle)
    requires h.id < first
    ensures multiset(RemoteClients(servers, first))[h] == 0
  {
  }

  /** The loop of start_sync_event_subscribers over the extra servers: for
      each, in order, connect a new client and subscribe it. */
  method SubscribeRemotes(r: Registry, subject: string, remoteServers: seq<string>, callback: Callback)
    requires r.Valid()
    modifies r
    ensures r.Valid()
    ensures r.defaultClient == old(r.defaultClient)
    ensures r.nextId == old(r.nextId) + |remoteServers|
    ensures r.clients == old(r.clients) + RemoteClients(remoteServers, old(r.nextId))
    ensures r.trace == old(r.trace) + RemoteTrace(remoteServers, old(r.nextId), subject, callback)
  {
    ghost var first := r.nextId;
    for i := 0 to |remoteServers|
      invariant r.Valid()
      invariant r.defaultClient == old(r.defaultClient)
      invariant r.nextId == first + i
      invariant r.clients == old(r.clients) + RemoteClients(remoteServers[..i], first)
      invariant r.trace == old(r.trace) + RemoteTrace(remoteServers[..i], first, subject, callback)
    {
      var remote := r.CreateNatsClient([remoteServers[i]]);
      r.Subscribe(remote, subject, callback);
      assert remoteServers[..i + 1] == remoteServers[..i] + [remoteServers[i]];
      RemoteTraceSnoc(remoteServers[..i], remoteServers[i], first, subject, callback);
      assert RemoteClients(remoteServers[..i + 1], first) == RemoteClients(remoteServers[..i], first) + [remote];
    }
    assert remoteServers[..|remoteServers|] == remoteServers;
  }

  /** start_sync_event_subscribers, the same in both files: subscribe
      `callback` to the sync subject on the default client, then connect one
      new client per extra server, in order, and subscribe it too. */
  method StartSyncEventSubscribers(r: Registry, subject: string, localServers: seq<string>,
                                   remoteServers: seq<string>, callback: Callback)
    requires r.Valid()
    modifies r
    ensures r.Valid()
    ensures r.defaultClient.Some?
    ensures old(r.defaultClient).Some? ==> r.defaultClient == old(r.defaultClient)
    ensures old(r.defaultClient).None? ==> r.defaultClient == Some(Handle(old(r.nextId), localServers))
    ensures var d := r.defaultClient.value;
            var created := if old(r.defaultClient).None? then [d] else [];
            var first := old(r.nextId) + |created|;
            && r.nextId == first + |remoteServers|
            && r.clients == old(r.clients) + created + [d] + RemoteClients(remoteServers, first)
            && r.trace == old(r.trace) + (if old(r.defaultClient).None? then [Connect(d)] else [])
                          + [Subscribe(d, subject, callback)]
                          + RemoteTrace(remoteServers, first, subject, callback)
  {
    var client := r.GetNatsClient(localServers);
    r.Subscribe(client, subject, callback);
    SubscribeRemotes(r, subject, remoteServers, callback);
  }
}
