/** Container-group provisioning of the Azure container-instance backend: the existence
    check that guards creation, and the create / wait / fetch / cross-register sequence
    with the progress events it emits. Every remote call is an abstract outcome given in
    a `Remote` record; a run returns the events emitted, the remote calls issued in order
    and the error returned (None for Go's nil). */
module AciProvision {
  import opened Optional
  import opened AciReader
  import opened AciScript

  /** http.StatusNotFound */
  const StatusNotFound: int := 404

  /** The command interpreter the cross-registration session runs. */
  const Shell: string := "/bin/sh"

  /** An error from the remote client: an autorest.DetailedError carries an HTTP status;
      ZeroDetailedError is the zero value autorest.DetailedError{} (no status code, no
      original error); any other error value is opaque. */
  datatype RemoteError =
    | DetailedError(statusCode: int, message: string)
    | ZeroDetailedError
    | OtherError(message: string)

  /** What the existence query containerGroupsClient.Get reported. */
  datatype GetOutcome = Exists | GetFailed(err: RemoteError)

  datatype CreateError =
    | AlreadyExists(group: seq<byte>)   // "container group %q already exists"
    | RemoteFailed(err: RemoteError)    // a remote error, returned unchanged

  datatype Check = ProceedToCreate | Reject(err: CreateError)

  /** The container group: its name and its containers' names, in order. */
  datatype ContainerGroup = ContainerGroup(name: seq<byte>, containers: seq<seq<byte>>)

  datatype Status = Working | Done

  /** A progress event: the entity it is about, its status and its status text. */
  datatype Event = Event(id: seq<byte>, status: Status, text: string)

  /** The remote calls a run issues. */
  datatype Call =
    | GetGroup(name: seq<byte>)
    | CreateOrUpdateGroup(name: seq<byte>)
    | WaitForCompletion
    | FetchResult
    | ExecuteCommand(command: string, group: seq<byte>, container: seq<byte>)
    | SendCommands(commands: seq<seq<byte>>)

  datatype Fetched = Fetched(group: ContainerGroup) | FetchFailed(err: RemoteError)

  /** The outcome of each remote step: CreateOrUpdate, WaitForCompletionRef, Result,
      execACIContainer (opening the exec session) and execCommands (running the script). */
  datatype Remote = Remote(
    create: Option<RemoteError>,
    wait: Option<RemoteError>,
    result: Fetched,
    execute: Option<RemoteError>,
    send: Option<RemoteError>)

  datatype Run = Run(events: seq<Event>, calls: seq<Call>, err: Option<CreateError>)

  /** The existence check as the code is written. The failed type assertion
      `err, ok := err.(autorest.DetailedError)` declares a new `err` whose scope includes
      the `else` branch, so an error that is not a DetailedError is replaced by the zero
      DetailedError: the original error is lost. */
  function ExistenceCheckAsWritten(name: seq<byte>, got: GetOutcome): (c: Check)
    ensures c == ProceedToCreate <==>
      got.GetFailed? && got.err.DetailedError? && got.err.statusCode == StatusNotFound
    ensures got.Exists? ==> c == Reject(AlreadyExists(name))
    ensures got.GetFailed? && got.err.DetailedError? && c.Reject? ==> c.err == RemoteFailed(got.err)
    ensures got.GetFailed? && !got.err.DetailedError? ==> c == Reject(RemoteFailed(ZeroDetailedError))
  {
    match got
    case Exists => Reject(AlreadyExists(name))
    case GetFailed(err) =>
      if err.DetailedError? then
        if err.statusCode != StatusNotFound then Reject(RemoteFailed(err)) else ProceedToCreate
      else Reject(RemoteFailed(ZeroDetailedError))
  }

  /** A Get failure that is not a DetailedError reaches the caller as the zero
      DetailedError, not as itself. */
  lemma ExistenceCheckLosesError(name: seq<byte>, message: string)
    ensures var got := GetFailed(OtherError(message));
      && ExistenceCheckAsWritten(name, got) == Reject(RemoteFailed(ZeroDetailedError))
      && ExistenceCheckAsWritten(name, got) != Reject(RemoteFailed(got.err))
  {
  }

  /** The existence check as intended, and as the rest of the model uses it: an existing
      group is an error, a 404 DetailedError means "go ahead and create", and every other
      error is returned unchanged. */
  function ExistenceCheck(name: seq<byte>, got: GetOutcome): (c: Check)
    ensures c == ProceedToCreate <==>
      got.GetFailed? && got.err.DetailedError? && got.err.statusCode == StatusNotFound
    ensures got.Exists? ==> c == Reject(AlreadyExists(name))
    ensures got.GetFailed? && c.Reject? ==> c.err == RemoteFailed(got.err)
  {
    match got
    case Exists => Reject(AlreadyExists(name))
    case GetFailed(err) =>
      if err.DetailedError? && err.statusCode == StatusNotFound then ProceedToCreate
      else Reject(RemoteFailed(err))
  }

  /** The two checks agree on every outcome except a Get failure that is not a
      DetailedError. */
  lemma ExistenceChecksAgree(name: seq<byte>, got: GetOutcome)
    ensures ExistenceCheckAsWritten(name, got) == ExistenceCheck(name, got) <==>
      !(got.GetFailed? && !got.err.DetailedError? && got.err != ZeroDetailedError)
  {
  }

  function WorkingEvents(names: seq<seq<byte>>): (es: seq<Event>)
  {
    seq(|names|, i requires 0 <= i < |names| => Event(names[i], Working, "Waiting"))
  }

  function DoneEvents(names: seq<seq<byte>>): (es: seq<Event>)
  {
    seq(|names|, i requires 0 <= i < |names| => Event(names[i], Done, "Done"))
  }

  /** Every event of a run that reaches the end: the group is Working, then Done once the
      create request is accepted, then each container is Working, then each is Done. */
  function SuccessEvents(def: ContainerGroup): seq<Event>
  {
    [Event(def.name, Working, "Waiting"), Event(def.name, Done, "Created")]
      + WorkingEvents(def.containers) + DoneEvents(def.containers)
  }

  /** The run of createOrUpdateACIContainers, stated as prefixes of the successful trace:
      the events stop where the first failing step returns. */
  function Provision(def: ContainerGroup, remote: Remote): Run
  {
    var full := SuccessEvents(def);
    var accepted := full[..2 + |def.containers|];
    var submit := [CreateOrUpdateGroup(def.name)];
    if remote.create.Some? then
      Run(full[..1], submit, Some(RemoteFailed(remote.create.value)))
    else if remote.wait.Some? then
      Run(accepted, submit + [WaitForCompletion], Some(RemoteFailed(remote.wait.value)))
    else if remote.result.FetchFailed? then
      Run(accepted, submit + [WaitForCompletion, FetchResult], Some(RemoteFailed(remote.result.err)))
    else
      var group := remote.result.group;
      var created := submit + [WaitForCompletion, FetchResult];
      if |group.containers| <= 1 then
        Run(full, created, None)
      else
        var session := ExecuteCommand(Shell, group.name, group.containers[0]);
        var script := SendCommands(HostScript(group.containers));
        if remote.execute.Some? then
          Run(full, created + [session], Some(RemoteFailed(remote.execute.value)))
        else if remote.send.Some? then
          Run(full, created + [session, script], Some(RemoteFailed(remote.send.value)))
        else
          Run(full, created + [session, script], None)
  }

  /** createOrUpdateACIContainers, step by step: events are appended as they are emitted. */
  method CreateOrUpdate(def: ContainerGroup, remote: Remote) returns (run: Run)
    ensures run == Provision(def, remote)
  {
    var n := |def.containers|;
    ghost var full := SuccessEvents(def);
    var events := [Event(def.name, Working, "Waiting")];
    var calls := [CreateOrUpdateGroup(def.name)];
    if remote.create.Some? {
      return Run(events, calls, Some(RemoteFailed(remote.create.value)));
    }
    events := events + [Event(def.name, Done, "Created")];
    for i := 0 to n
      invariant events == full[..2 + i]
    {
      events := events + [Event(def.containers[i], Working, "Waiting")];
    }
    calls := calls + [WaitForCompletion];
    if remote.wait.Some? {
      return Run(events, calls, Some(RemoteFailed(remote.wait.value)));
    }
    calls := calls + [FetchResult];
    if remote.result.FetchFailed? {
      return Run(events, calls, Some(RemoteFailed(remote.result.err)));
    }
    var group := remote.result.group;
    for i := 0 to n
      invariant events == full[..2 + n + i]
    {
      events := events + [Event(def.containers[i], Done, "Done")];
    }
    assert events == full;
    if |group.containers| > 1 {
      var commands := HostCommands(group.containers);
      var first := group.containers[0];
      calls := calls + [ExecuteCommand(Shell, group.name, first)];
      if remote.execute.Some? {
        return Run(events, calls, Some(RemoteFailed(remote.execute.value)));
      }
      calls := calls + [SendCommands(commands)];
      if remote.send.Some? {
        return Run(events, calls, Some(RemoteFailed(remote.send.value)));
      }
    }
    run := Run(events, calls, None);
  }

  /** createACIContainers: the existence query, then createOrUpdateACIContainers only when
      the group was not found. */
  method Create(def: ContainerGroup, got: GetOutcome, remote: Remote) returns (run: Run)
    ensures ExistenceCheck(def.name, got).Reject? ==>
      run == Run([], [GetGroup(def.name)], Some(ExistenceCheck(def.name, got).err))
    ensures ExistenceCheck(def.name, got) == ProceedToCreate ==>
      var p := Provision(def, remote);
      run == Run(p.events, [GetGroup(def.name)] + p.calls, p.err)
    ensures got.Exists? ==>
      run.err == Some(AlreadyExists(def.name)) && run.events == [] &&
      forall i :: 0 <= i < |run.calls| ==> !run.calls[i].CreateOrUpdateGroup?
  {
    var check := ExistenceCheck(def.name, got);
    if check.Reject? {
      return Run([], [GetGroup(def.name)], Some(check.err));
    }
    var p := CreateOrUpdate(def, remote);
    run := Run(p.events, [GetGroup(def.name)] + p.calls, p.err);
  }

  /** The number of elements of `xs` that satisfy `p`. */
  function Count<T>(xs: seq<T>, p: T -> bool): nat
  {
    if xs == [] then 0 else Count(xs[..|xs| - 1], p) + (if p(xs[|xs| - 1]) then 1 else 0)
  }

  lemma {:induction false} CountAppend<T>(a: seq<T>, b: seq<T>, p: T -> bool)
    ensures Count(a + b, p) == Count(a, p) + Count(b, p)
  {
    if b == [] {
      assert a + b == a;
    } else {
      var b' := b[..|b| - 1];
      assert (a + b)[..|a + b| - 1] == a + b';
      assert (a + b)[|a + b| - 1] == b[|b| - 1];
      CountAppend(a, b', p);
    }
  }

  /** Count of a sequence whose elements all agree on `p`. */
  lemma {:induction false} CountUniform<T>(xs: seq<T>, p: T -> bool, all: bool)
    requires forall i :: 0 <= i < |xs| ==> p(xs[i]) == all
    ensures Count(xs, p) == if all then |xs| else 0
  {
    if xs != [] {
      CountUniform(xs[..|xs| - 1], p, all);
    }
  }

  function HasStatus(s: Status): Event -> bool
  {
    (e: Event) => e.status == s
  }

  /** The number of events with the given status. */
  function CountStatus(events: seq<Event>, s: Status): nat
  {
    Count(events, HasStatus(s))
  }

  /** The group's own Working and Done events count once each. */
  lemma GroupPairCount(name: seq<byte>, s: Status)
    ensures CountStatus([Event(name, Working, "Waiting"), Event(name, Done, "Created")], s) == 1
    ensures CountStatus([Event(name, Working, "Waiting")], s) == if s == Working then 1 else 0
  {
    var w, d := Event(name, Working, "Waiting"), Event(name, Done, "Created");
    CountUniform([w], HasStatus(s), s == Working);
    CountUniform([d], HasStatus(s), s == Done);
    CountAppend([w], [d], HasStatus(s));
    assert [w] + [d] == [w, d];
  }

  /** A run succeeds exactly when every remote step it reaches succeeds; cross-registration
      is reached only for a realized group of more than one container. */
  lemma ProvisionSucceedsIff(def: ContainerGroup, remote: Remote)
    ensures Provision(def, remote).err.None? <==>
      && remote.create.None? && remote.wait.None? && remote.result.Fetched?
      && (|remote.result.group.containers| > 1 ==> remote.execute.None? && remote.send.None?)
  {
  }

  /** On success: one group Working then Done, then a Working event for every container
      in order, then a Done event for every container in order; N + 1 of each status. */
  lemma SuccessTrace(def: ContainerGroup, remote: Remote)
    requires Provision(def, remote).err.None?
    ensures var es := Provision(def, remote).events; var n := |def.containers|;
      && |es| == 2 + 2 * n
      && es[0] == Event(def.name, Working, "Waiting")
      && es[1] == Event(def.name, Done, "Created")
      && (forall i :: 0 <= i < n ==> es[2 + i] == Event(def.containers[i], Working, "Waiting"))
      && (forall i :: 0 <= i < n ==> es[2 + n + i] == Event(def.containers[i], Done, "Done"))
      && CountStatus(es, Working) == n + 1
      && CountStatus(es, Done) == n + 1
  {
    assert Provision(def, remote).events == SuccessEvents(def);
    SuccessEventsCount(def, Working);
    SuccessEventsCount(def, Done);
  }

  lemma SuccessEventsCount(def: ContainerGroup, s: Status)
    ensures CountStatus(SuccessEvents(def), s) == |def.containers| + 1
  {
    var names := def.containers;
    var head := [Event(def.name, Working, "Waiting"), Event(def.name, Done, "Created")];
    CountAppend(head + WorkingEvents(names), DoneEvents(names), HasStatus(s));
    CountAppend(head, WorkingEvents(names), HasStatus(s));
    CountUniform(WorkingEvents(names), HasStatus(s), s == Working);
    CountUniform(DoneEvents(names), HasStatus(s), s == Done);
    GroupPairCount(def.name, s);
  }

  /** When create, wait or fetch fails, no container is reported Done: the only Done event
      is the group's "Created". */
  lemma EarlyFailureNoContainerDone(def: ContainerGroup, remote: Remote)
    requires remote.create.Some? || remote.wait.Some? || remote.result.FetchFailed?
    ensures var es := Provision(def, remote).events;
      && Provision(def, remote).err.Some?
      && CountStatus(es, Done) <= 1
      && forall i :: 0 <= i < |es| && es[i].status == Done ==> es[i] == Event(def.name, Done, "Created")
  {
    var names := def.containers;
    var head := [Event(def.name, Working, "Waiting"), Event(def.name, Done, "Created")];
    var es := Provision(def, remote).events;
    GroupPairCount(def.name, Done);
    if remote.create.Some? {
      assert es == [head[0]];
    } else {
      assert es == head + WorkingEvents(names);
      CountAppend(head, WorkingEvents(names), HasStatus(Done));
      CountUniform(WorkingEvents(names), HasStatus(Done), false);
    }
  }

  /** A failure of the cross-registration step comes after the group was created and every
      container reported Done, and the remote error is returned as it is, with nothing
      that marks it as a configuration failure. */
  lemma ConfigurationFailure(def: ContainerGroup, remote: Remote)
    requires remote.create.None? && remote.wait.None? && remote.result.Fetched?
    requires |remote.result.group.containers| > 1
    requires remote.execute.Some? || remote.send.Some?
    ensures var r := Provision(def, remote);
      && r.err == Some(RemoteFailed(if remote.execute.Some? then remote.execute.value else remote.send.value))
      && r.events == SuccessEvents(def)
      && r.calls[..3] == [CreateOrUpdateGroup(def.name), WaitForCompletion, FetchResult]
  {
  }

  function IsSession(c: Call): bool
  {
    c.ExecuteCommand?
  }

  /** Cross-registration: exactly one /bin/sh session, against the realized group's first
      container, when the group has more than one container; none otherwise. The script it
      is sent is the hosts script of all the realized containers, first one included. */
  lemma CrossRegistration(def: ContainerGroup, remote: Remote)
    requires remote.create.None? && remote.wait.None? && remote.result.Fetched?
    ensures var r := Provision(def, remote); var g := remote.result.group;
      && Count(r.calls, IsSession) == (if |g.containers| > 1 then 1 else 0)
      && (forall i :: 0 <= i < |r.calls| && r.calls[i].ExecuteCommand? ==>
            r.calls[i] == ExecuteCommand(Shell, g.name, g.containers[0]))
      && (forall i :: 0 <= i < |r.calls| && r.calls[i].SendCommands? ==>
            r.calls[i].commands == HostScript(g.containers))
  {
    var r := Provision(def, remote);
    var g := remote.result.group;
    var created := [CreateOrUpdateGroup(def.name), WaitForCompletion, FetchResult];
    CountUniform(created, IsSession, false);
    if |g.containers| > 1 {
      var session := ExecuteCommand(Shell, g.name, g.containers[0]);
      var script := SendCommands(HostScript(g.containers));
      CountUniform([session], IsSession, true);
      if remote.execute.Some? {
        assert r.calls == created + [session];
        CountAppend(created, [session], IsSession);
      } else {
        CountUniform([script], IsSession, false);
        CountAppend(created, [session], IsSession);
        CountAppend(created + [session], [script], IsSession);
        assert r.calls == created + [session] + [script];
      }
    } else {
      assert r.calls == created;
    }
  }

  /** A two-container group "g1" with containers "web" and "db", on a backend where every
      step succeeds: one creation request, one /bin/sh session on "web", and a script that
      registers both containers, "web" included, before `exit`. */
  lemma TwoContainerScenario()
    ensures var g1, web, db := Ascii("g1"), Ascii("web"), Ascii("db");
      var def := ContainerGroup(g1, [web, db]);
      var remote := Remote(None, None, Fetched(def), None, None);
      Provision(def, remote) == Run(SuccessEvents(def),
        [CreateOrUpdateGroup(g1), WaitForCompletion, FetchResult,
         ExecuteCommand(Shell, g1, web),
         SendCommands([EchoLine(web), EchoLine(db), Exit])],
        None)
  {
    var g1, web, db := Ascii("g1"), Ascii("web"), Ascii("db");
    assert HostScript([web, db]) == [EchoLine(web), EchoLine(db), Exit];
  }
}
