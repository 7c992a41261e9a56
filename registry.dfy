/** The integration registry: a table from integration id to handler, filled by
    configuration loads, walked by the register and start passes, and consulted
    by single-target dispatch. */
module Registry {
  import opened Integration
  import Factory

  /** `s` lists no id twice. */
  ghost predicate Distinct(s: seq<IntegrationId>)
  {
    forall i, j :: 0 <= i < j < |s| ==> s[i] != s[j]
  }

  /** `s` lists every id of `keys` exactly once, and nothing else. */
  ghost predicate Enumerates(s: seq<IntegrationId>, keys: set<IntegrationId>)
  {
    Distinct(s) && forall id :: id in s <==> id in keys
  }

  /** Two repeat-free sequences with no common id concatenate to one. */
  lemma DistinctAppend(a: seq<IntegrationId>, b: seq<IntegrationId>)
    requires Distinct(a) && Distinct(b)
    requires forall id :: id in a ==> id !in b
    ensures Distinct(a + b)
  {
    forall i, j | 0 <= i < j < |a + b| ensures (a + b)[i] != (a + b)[j] {
      if j < |a| {
        assert (a + b)[i] == a[i] && (a + b)[j] == a[j];
      } else if i >= |a| {
        assert (a + b)[i] == b[i - |a|] && (a + b)[j] == b[j - |a|];
      } else {
        assert (a + b)[i] == a[i] && (a + b)[j] == b[j - |a|];
        assert a[i] in a && b[j - |a|] in b;
      }
    }
  }

  /** An enumeration of a set is as long as the set is large. */
  lemma {:induction false} EnumerationLength(s: seq<IntegrationId>, keys: set<IntegrationId>)
    requires Enumerates(s, keys)
    ensures |s| == |keys|
  {
    if s != [] {
      var rest := keys - {s[0]};
      assert Enumerates(s[1..], rest) by {
        forall i, j | 0 <= i < j < |s[1..]| ensures s[1..][i] != s[1..][j] {
          assert s[1..][i] == s[i + 1] && s[1..][j] == s[j + 1];
        }
        forall id ensures id in s[1..] <==> id in rest {
          if id in s[1..] {
            var i :| 0 <= i < |s[1..]| && s[1..][i] == id;
            assert s[i + 1] == id;
          }
        }
      }
      EnumerationLength(s[1..], rest);
    } else {
      assert forall id :: id !in keys;
    }
  }

  /** Some enumeration of a finite set of ids: the order in which a hash table
      may happen to hand out its keys. */
  ghost function Enumeration(keys: set<IntegrationId>): (s: seq<IntegrationId>)
    ensures Enumerates(s, keys)
    decreases keys
  {
    if keys == {} then []
    else
      var id :| id in keys;
      [id] + Enumeration(keys - {id})
  }

  /** The log entries for sending `call` to the handlers of `ids`, in order. */
  function Logged(ids: seq<IntegrationId>, call: Call): seq<Invocation>
  {
    seq(|ids|, i requires 0 <= i < |ids| => Invocation(ids[i], call))
  }

  /** Every id of `order` has a handler in `table`. */
  ghost predicate Covers(table: map<IntegrationId, Handler>, order: seq<IntegrationId>)
  {
    forall id :: id in order ==> id in table
  }

  /** What a bulk pass returns and which handlers it called, in call order. */
  datatype PassRun = PassRun(outcome: Outcome, invoked: seq<IntegrationId>)

  /** A bulk pass over `order`: `call` goes to each handler in turn, and the
      first error ends the pass. The handlers called are a prefix of `order`. */
  function Traverse(order: seq<IntegrationId>, table: map<IntegrationId, Handler>,
                    call: Call, backend: Backend): (r: PassRun)
    requires Covers(table, order)
    ensures r.invoked <= order
    decreases |order|
  {
    if order == [] then PassRun(Done, [])
    else
      var outcome := backend(table[order[0]], call);
      if outcome.Fail? then PassRun(outcome, [order[0]])
      else
        var rest := Traverse(order[1..], table, call, backend);
        PassRun(rest.outcome, [order[0]] + rest.invoked)
  }

  /** Concatenation regroups freely. */
  lemma AppendAssociative<T>(x: seq<T>, y: seq<T>, z: seq<T>)
    ensures x + (y + z) == (x + y) + z
  {
  }

  /** Running a pass over `a + b` is running it over `a` and, unless that
      failed, going on over `b`. */
  lemma {:induction false} TraverseAppend(a: seq<IntegrationId>, b: seq<IntegrationId>,
                                          table: map<IntegrationId, Handler>,
                                          call: Call, backend: Backend)
    requires Covers(table, a) && Covers(table, b)
    ensures Covers(table, a + b)
    ensures Traverse(a, table, call, backend).outcome.Fail? ==>
              Traverse(a + b, table, call, backend) == Traverse(a, table, call, backend)
    ensures Traverse(a, table, call, backend).outcome.Done? ==>
              Traverse(a + b, table, call, backend)
                == PassRun(Traverse(b, table, call, backend).outcome,
                           Traverse(a, table, call, backend).invoked + Traverse(b, table, call, backend).invoked)
  {
    if a == [] {
      assert a + b == b;
    } else {
      var ab := a + b;
      assert ab[0] == a[0];
      assert ab[1..] == a[1..] + b;
      assert Covers(table, a[1..]) by {
        forall id | id in a[1..] ensures id in table { assert id in a; }
      }
      if backend(table[a[0]], call).Done? {
        TraverseAppend(a[1..], b, table, call, backend);
        var ra := Traverse(a[1..], table, call, backend);
        var rb := Traverse(b, table, call, backend);
        if ra.outcome.Done? {
          AppendAssociative([a[0]], ra.invoked, rb.invoked);
        }
      }
    }
  }

  /** A pass succeeds exactly when every handler in the order accepts the call,
      and then it has called all of them, in order. */
  lemma {:induction false} TraverseSucceeds(order: seq<IntegrationId>, table: map<IntegrationId, Handler>,
                                      call: Call, backend: Backend)
    requires Covers(table, order)
    ensures Traverse(order, table, call, backend).outcome.Done? <==>
              (forall i :: 0 <= i < |order| ==> backend(table[order[i]], call).Done?)
    ensures Traverse(order, table, call, backend).outcome.Done? ==>
              Traverse(order, table, call, backend).invoked == order
  {
    if order != [] {
      TraverseSucceeds(order[1..], table, call, backend);
      assert forall i :: 1 <= i < |order| ==> order[i] == order[1..][i - 1];
    }
  }

  /** When the `k`-th handler is the first to fail, the pass returns its error
      and has called exactly the handlers up to and including the `k`-th. */
  lemma {:induction false} TraverseFails(order: seq<IntegrationId>, table: map<IntegrationId, Handler>,
                                         call: Call, backend: Backend, k: nat)
    requires Covers(table, order)
    requires k < |order|
    requires forall i :: 0 <= i < k ==> backend(table[order[i]], call).Done?
    requires backend(table[order[k]], call).Fail?
    ensures Traverse(order, table, call, backend)
              == PassRun(backend(table[order[k]], call), order[..k + 1])
  {
    if k > 0 {
      var tail := order[1..];
      assert Covers(table, tail) by {
        forall id | id in tail ensures id in table { assert id in order; }
      }
      forall i | 0 <= i < k - 1 ensures backend(table[tail[i]], call).Done? {
        assert tail[i] == order[i + 1];
      }
      assert tail[k - 1] == order[k];
      TraverseFails(tail, table, call, backend, k - 1);
      assert [order[0]] + tail[..k] == order[..k + 1];
    }
  }

  /** In a sequence without repeats, an id occurs once or not at all. */
  lemma {:induction false} DistinctOccurrences(s: seq<IntegrationId>, id: IntegrationId)
    requires Distinct(s)
    ensures multiset(s)[id] == if id in s then 1 else 0
  {
    if s != [] {
      assert s == [s[0]] + s[1..];
      assert Distinct(s[1..]) by {
        forall i, j | 0 <= i < j < |s[1..]| ensures s[1..][i] != s[1..][j] {
          assert s[1..][i] == s[i + 1] && s[1..][j] == s[j + 1];
        }
      }
      DistinctOccurrences(s[1..], id);
      assert s[0] !in s[1..] by {
        forall i | 0 <= i < |s[1..]| ensures s[1..][i] != s[0] {
          assert s[1..][i] == s[i + 1];
        }
      }
    }
  }

  /** Handler `id` receives `call` as often in the log of a pass as `id`
      occurs among the ids it visited, and no other call is logged. */
  lemma {:induction false} LoggedOccurrences(ids: seq<IntegrationId>, call: Call, inv: Invocation)
    ensures multiset(Logged(ids, call))[inv] == if inv.call == call then multiset(ids)[inv.id] else 0
  {
    if ids != [] {
      var head := Invocation(ids[0], call);
      var tail := Logged(ids[1..], call);
      assert Logged(ids, call) == [head] + tail;
      assert multiset(Logged(ids, call)) == multiset{head} + multiset(tail);
      assert multiset(ids) == multiset{ids[0]} + multiset(ids[1..]) by {
        assert ids == [ids[0]] + ids[1..];
      }
      LoggedOccurrences(ids[1..], call, inv);
    }
  }

  /** How many times the log records `call` reaching handler `id`. */
  function Times(log: seq<Invocation>, id: IntegrationId, call: Call): nat
  {
    multiset(log)[Invocation(id, call)]
  }

  /** Sending `call` along the first `k + 1` ids of a repeat-free order reaches
      the `i`-th id once if it is among them and never otherwise. */
  lemma PrefixOccurrences(order: seq<IntegrationId>, k: nat, i: nat, call: Call)
    requires Distinct(order)
    requires k < |order| && i < |order|
    ensures Times(Logged(order[..k + 1], call), order[i], call) == if i <= k then 1 else 0
  {
    var invoked := order[..k + 1];
    assert Distinct(invoked) by {
      forall a, b | 0 <= a < b < |invoked| ensures invoked[a] != invoked[b] {
        assert invoked[a] == order[a] && invoked[b] == order[b];
      }
    }
    LoggedOccurrences(invoked, call, Invocation(order[i], call));
    DistinctOccurrences(invoked, order[i]);
    if i > k {
      forall j | 0 <= j < |invoked| ensures invoked[j] != order[i] {
        assert invoked[j] == order[j];
      }
    } else {
      assert invoked[i] == order[i];
    }
  }

  /** A pass that meets its first failure at the `k`-th handler of an
      enumeration of the table returns that handler's error, has called each of
      handlers 0..k exactly once and never called the ones after `k`. */
  lemma AbortedPass(order: seq<IntegrationId>, table: map<IntegrationId, Handler>,
                    call: Call, backend: Backend, k: nat)
    requires Enumerates(order, table.Keys)
    requires k < |order|
    requires forall i :: 0 <= i < k ==> backend(table[order[i]], call).Done?
    requires backend(table[order[k]], call).Fail?
    ensures Traverse(order, table, call, backend).outcome == backend(table[order[k]], call)
    ensures forall i :: 0 <= i <= k ==>
              Times(Logged(Traverse(order, table, call, backend).invoked, call), order[i], call) == 1
    ensures forall i :: k < i < |order| ==>
              Times(Logged(Traverse(order, table, call, backend).invoked, call), order[i], call) == 0
  {
    TraverseFails(order, table, call, backend, k);
    forall i | 0 <= i < |order|
      ensures Times(Logged(order[..k + 1], call), order[i], call) == if i <= k then 1 else 0
    {
      PrefixOccurrences(order, k, i, call);
    }
  }

  /** A pass in which every handler accepts the call returns `Done` and has
      called every handler of the table exactly once. */
  lemma CompletedPass(order: seq<IntegrationId>, table: map<IntegrationId, Handler>,
                      call: Call, backend: Backend)
    requires Enumerates(order, table.Keys)
    requires forall i :: 0 <= i < |order| ==> backend(table[order[i]], call).Done?
    ensures Traverse(order, table, call, backend).outcome == Done
    ensures forall id :: id in table ==>
              Times(Logged(Traverse(order, table, call, backend).invoked, call), id, call) == 1
  {
    TraverseSucceeds(order, table, call, backend);
    var log := Logged(Traverse(order, table, call, backend).invoked, call);
    assert log == Logged(order, call);
    forall id | id in table
      ensures Times(log, id, call) == 1
    {
      LoggedOccurrences(order, call, Invocation(id, call));
      DistinctOccurrences(order, id);
    }
  }

  /** The registry. `integrations` is the table; `log` is a ghost record of
      every handler call made through the registry, oldest first. */
  class Integrations {
    var integrations: map<IntegrationId, Handler>
    const sender: EventSender
    ghost var log: seq<Invocation>

    /** A new registry holds no integrations and has called no handler. */
    constructor (sender: EventSender)
      ensures integrations == map[]
      ensures this.sender == sender
      ensures log == []
    {
      integrations := map[];
      this.sender := sender;
      log := [];
    }

    /** Builds a handler with the factory and, only if that succeeds, stores it
        under `integrationId`, replacing any handler already there. A factory
        error is returned unchanged and leaves the table as it was. */
    method LoadIntegration(moduleName: string, integrationId: IntegrationId, config: Config,
                           construct: Constructor) returns (result: Outcome)
      modifies this`integrations
      ensures var built := Factory.LoadIntegration(moduleName, integrationId, config, sender, construct);
              && (built.Ok? ==> result == Done
                                 && integrations == old(integrations)[integrationId := built.value])
              && (built.Err? ==> result == Fail(built.error) && integrations == old(integrations))
      ensures log == old(log)
    {
      var built := Factory.LoadIntegration(moduleName, integrationId, config, sender, construct);
      if built.Err? {
        return Fail(built.error);
      }
      integrations := integrations[integrationId := built.value];
      result := Done;
    }

    /** Sends `call` to every handler, in the table's own (unspecified) order,
        stopping at the first error. `order` is that order. The table keeps its
        entries; the log grows by exactly the calls made. */
    method RunPass(call: Call, backend: Backend) returns (result: Outcome, ghost order: seq<IntegrationId>)
      modifies this`log
      ensures integrations == old(integrations)
      ensures Enumerates(order, integrations.Keys)
      ensures result == Traverse(order, integrations, call, backend).outcome
      ensures log == old(log) + Logged(Traverse(order, integrations, call, backend).invoked, call)
    {
      var remaining := integrations.Keys;
      ghost var visited: seq<IntegrationId> := [];
      while remaining != {}
        invariant remaining <= integrations.Keys
        invariant Distinct(visited)
        invariant forall id :: id in visited <==> id in integrations.Keys - remaining
        invariant Traverse(visited, integrations, call, backend) == PassRun(Done, visited)
        invariant log == old(log) + Logged(visited, call)
        decreases remaining
      {
        var id :| id in remaining;
        var outcome := backend(integrations[id], call);
        log := log + [Invocation(id, call)];
        TraverseAppend(visited, [id], integrations, call, backend);
        assert Logged(visited + [id], call) == Logged(visited, call) + [Invocation(id, call)];
        AppendAssociative(old(log), Logged(visited, call), [Invocation(id, call)]);
        DistinctAppend(visited, [id]);
        visited := visited + [id];
        remaining := remaining - {id};
        if outcome.Fail? {
          var rest := Enumeration(remaining);
          assert Traverse(visited, integrations, call, backend) == PassRun(outcome, visited);
          TraverseAppend(visited, rest, integrations, call, backend);
          order := visited + rest;
          DistinctAppend(visited, rest);
          return outcome, order;
        }
      }
      order := visited;
      result := Done;
    }

    /** `register` on every handler, stopping at the first error. */
    method RunRegisterPass(backend: Backend) returns (result: Outcome, ghost order: seq<IntegrationId>)
      modifies this`log
      ensures integrations == old(integrations)
      ensures Enumerates(order, integrations.Keys)
      ensures result == Traverse(order, integrations, Register, backend).outcome
      ensures log == old(log) + Logged(Traverse(order, integrations, Register, backend).invoked, Register)
    {
      result, order := RunPass(Register, backend);
    }

    /** `start` on every handler, stopping at the first error. */
    method RunStartPass(backend: Backend) returns (result: Outcome, ghost order: seq<IntegrationId>)
      modifies this`log
      ensures integrations == old(integrations)
      ensures Enumerates(order, integrations.Keys)
      ensures result == Traverse(order, integrations, Start, backend).outcome
      ensures log == old(log) + Logged(Traverse(order, integrations, Start, backend).invoked, Start)
    {
      result, order := RunPass(Start, backend);
    }

    /** Pushes `device`'s desired state to the handler that owns it. An unknown
        owner is a not-found error naming its id, and no handler is called;
        otherwise the owner's answer is returned unchanged. */
    method SetIntegrationDeviceState(device: Device, backend: Backend) returns (result: Outcome)
      modifies this`log
      ensures integrations == old(integrations)
      ensures device.integrationId !in integrations ==>
                result == Fail(NotFound(device.integrationId)) && log == old(log)
      ensures device.integrationId in integrations ==>
                && result == backend(integrations[device.integrationId], SetDeviceState(device))
                && log == old(log) + [Invocation(device.integrationId, SetDeviceState(device))]
    {
      if device.integrationId !in integrations {
        return Fail(NotFound(device.integrationId));
      }
      var integration := integrations[device.integrationId];
      log := log + [Invocation(device.integrationId, SetDeviceState(device))];
      result := backend(integration, SetDeviceState(device));
    }

    /** Runs an action on the handler stored under `integrationId`. An unknown
        id is a not-found error naming it, and no handler is called; otherwise
        that one handler's answer is returned unchanged. */
    method RunIntegrationAction(integrationId: IntegrationId, payload: ActionPayload, backend: Backend)
      returns (result: Outcome)
      modifies this`log
      ensures integrations == old(integrations)
      ensures integrationId !in integrations ==>
                result == Fail(NotFound(integrationId)) && log == old(log)
      ensures integrationId in integrations ==>
                && result == backend(integrations[integrationId], RunAction(payload))
                && log == old(log) + [Invocation(integrationId, RunAction(payload))]
    {
      if integrationId !in integrations {
        return Fail(NotFound(integrationId));
      }
      var integration := integrations[integrationId];
      log := log + [Invocation(integrationId, RunAction(payload))];
      result := backend(integration, RunAction(payload));
    }
  }
}
