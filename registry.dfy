/** The named-component registry of `SchemaHelper`: resolvers are registered
    lazily under a component name and drained into resolved schemas. */
module Registry {
  import opened Wrappers
  import opened OrderedMaps
  import opened Schemas

  /** What running a resolver yields: the component's schema together with
      the registrations the resolver performed while running, in order; or
      the exception it threw. */
  datatype Outcome<R> = Resolved(schema: Schema, registered: seq<(string, R)>) | Failed(message: string)

  /** `registerSchema` on the pair of maps: a name already resolved is left
      alone; otherwise its pending resolver is set, replacing any earlier
      one. */
  function Register<R>(pending: seq<(string, R)>, resolved: seq<(string, Schema)>, id: string, r: R): seq<(string, R)>
  {
    if id in Keys(resolved) then pending else Put(pending, id, r)
  }

  /** Registering several resolvers one after another. */
  function RegisterAll<R>(pending: seq<(string, R)>, resolved: seq<(string, Schema)>, regs: seq<(string, R)>): seq<(string, R)>
    decreases |regs|
  {
    if regs == [] then pending
    else RegisterAll(Register(pending, resolved, regs[0].0, regs[0].1), resolved, regs[1..])
  }

  /** Registering under a resolved name changes nothing; under any other
      name the name reads back as the new resolver and every other name is
      unchanged. */
  lemma RegisterSpec<R>(pending: seq<(string, R)>, resolved: seq<(string, Schema)>, id: string, r: R, other: string)
    ensures id in Keys(resolved) ==> Register(pending, resolved, id, r) == pending
    ensures id !in Keys(resolved) ==> Get(Register(pending, resolved, id, r), id) == Some(r)
    ensures other != id ==> Get(Register(pending, resolved, id, r), other) == Get(pending, other)
  {
    GetPut(pending, id, r, id);
    GetPut(pending, id, r, other);
  }

  /** Registration only adds pending names, and afterwards every registered
      name is pending or already resolved. */
  lemma {:induction false} RegisterAllKeys<R>(pending: seq<(string, R)>, resolved: seq<(string, Schema)>, regs: seq<(string, R)>)
    ensures forall k | k in Keys(pending) :: k in Keys(RegisterAll(pending, resolved, regs))
    ensures forall k | k in Keys(RegisterAll(pending, resolved, regs)) :: k in Keys(pending) || k in Keys(regs)
    ensures forall i | 0 <= i < |regs| ::
      regs[i].0 in Keys(RegisterAll(pending, resolved, regs)) || regs[i].0 in Keys(resolved)
    decreases |regs|
  {
    if regs != [] {
      var next := Register(pending, resolved, regs[0].0, regs[0].1);
      KeysPut(pending, regs[0].0, regs[0].1);
      RegisterAllKeys(next, resolved, regs[1..]);
      KeysLength(regs);
      KeysLength(regs[1..]);
      forall i | 1 <= i < |regs|
        ensures regs[i].0 in Keys(RegisterAll(pending, resolved, regs)) || regs[i].0 in Keys(resolved)
      {
        assert regs[1..][i - 1] == regs[i];
      }
    }
  }

  lemma {:induction false} RegisterAllUnique<R>(pending: seq<(string, R)>, resolved: seq<(string, Schema)>, regs: seq<(string, R)>)
    requires UniqueKeys(pending)
    requires forall k | k in Keys(pending) :: k !in Keys(resolved)
    ensures UniqueKeys(RegisterAll(pending, resolved, regs))
    ensures forall k | k in Keys(RegisterAll(pending, resolved, regs)) :: k !in Keys(resolved)
    decreases |regs|
  {
    if regs != [] {
      var next := Register(pending, resolved, regs[0].0, regs[0].1);
      UniquePut(pending, regs[0].0, regs[0].1);
      KeysPut(pending, regs[0].0, regs[0].1);
      RegisterAllUnique(next, resolved, regs[1..]);
    }
  }

  /** Registering two batches one after the other is registering their
      concatenation. */
  lemma {:induction false} RegisterAllAppend<R>(pending: seq<(string, R)>, resolved: seq<(string, Schema)>,
                                                a: seq<(string, R)>, b: seq<(string, R)>)
    ensures RegisterAll(pending, resolved, a + b) == RegisterAll(RegisterAll(pending, resolved, a), resolved, b)
    decreases |a|
  {
    if a != [] {
      assert (a + b)[1..] == a[1..] + b;
      assert (a + b)[0] == a[0];
      RegisterAllAppend(Register(pending, resolved, a[0].0, a[0].1), resolved, a[1..], b);
    } else {
      assert a + b == b;
    }
  }

  /** Registration invents no pending pair: each is one that was pending or
      one that was registered. */
  lemma {:induction false} RegisterAllFrom<R>(pending: seq<(string, R)>, resolved: seq<(string, Schema)>, regs: seq<(string, R)>)
    ensures forall e | e in RegisterAll(pending, resolved, regs) :: e in pending || e in regs
    decreases |regs|
  {
    if regs != [] {
      var next := Register(pending, resolved, regs[0].0, regs[0].1);
      PutFrom(pending, regs[0].0, regs[0].1);
      RegisterAllFrom(next, resolved, regs[1..]);
      assert forall e | e in regs[1..] :: e in regs;
    }
  }

  /** The registrations a sequence of resolver runs performed, in order. */
  function Registrations<R>(run: R -> Outcome<R>, log: seq<(string, R)>): seq<(string, R)>
  {
    if log == [] then []
    else
      var o := run(log[0].1);
      (if o.Resolved? then o.registered else []) + Registrations(run, log[1..])
  }

  lemma {:induction false} RegistrationsConcat<R>(run: R -> Outcome<R>, a: seq<(string, R)>, b: seq<(string, R)>)
    ensures Registrations(run, a + b) == Registrations(run, a) + Registrations(run, b)
    decreases |a|
  {
    if a == [] {
      assert a + b == b;
    } else {
      assert (a + b)[1..] == a[1..] + b;
      RegistrationsConcat(run, a[1..], b);
    }
  }

  /** Each resolver run is one pending at the start or one registered by an
      earlier run. */
  ghost predicate FromStartOrEarlier<R>(run: R -> Outcome<R>, start: seq<(string, R)>, log: seq<(string, R)>)
  {
    forall i | 0 <= i < |log| :: log[i] in start || log[i] in Registrations(run, log[..i])
  }

  /** One resolver run keeps every pending pair traceable to the snapshot or
      to the runs so far. */
  lemma PendingFromStep<R>(run: R -> Outcome<R>, snapshot: seq<(string, R)>, before: seq<(string, R)>,
                           after: seq<(string, R)>, log: seq<(string, R)>, entry: (string, R))
    requires forall e | e in before :: e in snapshot || e in Registrations(run, log)
    requires run(entry.1).Resolved?
    requires forall e | e in after :: e in before || e in run(entry.1).registered
    ensures forall e | e in after :: e in snapshot || e in Registrations(run, log + [entry])
  {
    RegistrationsConcat(run, log, [entry]);
    assert Registrations(run, [entry]) == run(entry.1).registered + [] by {
      assert [entry][1..] == [];
    }
  }

  /** A pass over a snapshot of the pending map keeps every run traceable to
      the start. */
  lemma ProvenanceExtend<R>(run: R -> Outcome<R>, start: seq<(string, R)>, before: seq<(string, R)>,
                            after: seq<(string, R)>, log: seq<(string, R)>, passLog: seq<(string, R)>)
    requires FromStartOrEarlier(run, start, log)
    requires forall e | e in before :: e in start || e in Registrations(run, log)
    requires passLog <= before
    requires forall e | e in after :: e in before || e in Registrations(run, passLog)
    ensures FromStartOrEarlier(run, start, log + passLog)
    ensures forall e | e in after :: e in start || e in Registrations(run, log + passLog)
  {
    var all := log + passLog;
    RegistrationsConcat(run, log, passLog);
    forall i | 0 <= i < |all|
      ensures all[i] in start || all[i] in Registrations(run, all[..i])
    {
      if i < |log| {
        assert all[..i] == log[..i];
      } else {
        assert all[i] == passLog[i - |log|] && all[i] in before;
        assert all[..i] == log + passLog[..i - |log|];
        RegistrationsConcat(run, log, passLog[..i - |log|]);
      }
    }
  }

  /** The (name, schema) pairs a sequence of resolver runs produces. */
  function Results<R>(run: R -> Outcome<R>, log: seq<(string, R)>): seq<(string, Schema)>
  {
    if log == [] then []
    else
      var o := run(log[0].1);
      [(log[0].0, if o.Resolved? then o.schema else Blank)] + Results(run, log[1..])
  }

  /** Every resolver registers only names from `universe`. */
  ghost predicate Closed<R(!new)>(run: R -> Outcome<R>, universe: set<string>)
  {
    forall r: R :: run(r).Resolved? ==> KeySet(run(r).registered) <= universe
  }

  ghost function KeySet<V>(m: seq<(string, V)>): set<string>
  {
    set k | k in Keys(m)
  }

  class SchemaRegistry<R(!new)> {
    /** `_schemaResolvers`: name -> resolver not yet run. */
    var pending: seq<(string, R)>
    /** `_schemas`: name -> resolved schema. */
    var resolved: seq<(string, Schema)>

    /** Each name occurs once per map and is never both pending and resolved. */
    ghost predicate Valid()
      reads this
    {
      UniqueKeys(pending) && UniqueKeys(resolved) &&
      forall k | k in Keys(pending) :: k !in Keys(resolved)
    }

    constructor ()
      ensures Valid()
      ensures pending == [] && resolved == []
    {
      pending := [];
      resolved := [];
    }

    /** `registerSchema($id, $resolver)` */
    method RegisterSchema(id: string, r: R)
      requires Valid()
      modifies this
      ensures Valid()
      ensures resolved == old(resolved)
      ensures pending == Register(old(pending), old(resolved), id, r)
    {
      if id !in Keys(resolved) {
        UniquePut(pending, id, r);
        KeysPut(pending, id, r);
        pending := Put(pending, id, r);
      }
    }

    /** The registrations a resolver performed, applied in order. */
    method RegisterEach(regs: seq<(string, R)>)
      requires Valid()
      modifies this
      ensures Valid()
      ensures resolved == old(resolved)
      ensures pending == RegisterAll(old(pending), old(resolved), regs)
    {
      var i := 0;
      while i < |regs|
        invariant 0 <= i <= |regs|
        invariant Valid()
        invariant resolved == old(resolved)
        invariant RegisterAll(old(pending), resolved, regs) == RegisterAll(pending, resolved, regs[i..])
      {
        assert regs[i..][1..] == regs[i + 1..];
        RegisterSchema(regs[i].0, regs[i].1);
        i := i + 1;
      }
    }

    /** Every name the registry knows, pending or resolved. */
    ghost function Names(): set<string>
      reads this
    {
      KeySet(pending) + KeySet(resolved)
    }

    /** One iteration of the drain: run the resolver of pending name `id`,
        apply the registrations it made, store its schema under `id` and
        drop `id` from the pending map. An exception leaves the maps as they
        were. */
    method ResolveEntry(run: R -> Outcome<R>, id: string, r: R) returns (failure: Option<string>)
      requires Valid()
      requires id in Keys(pending)
      modifies this
      ensures Valid()
      ensures failure.Some? <==> run(r).Failed?
      ensures failure.Some? ==> pending == old(pending) && resolved == old(resolved)
      ensures failure.None? ==>
        resolved == old(resolved) + [(id, run(r).schema)] &&
        pending == Remove(RegisterAll(old(pending), old(resolved), run(r).registered), id)
      ensures failure.None? ==> old(Names()) <= Names() && KeySet(run(r).registered) <= Names()
      ensures failure.None? ==> KeySet(pending) <= old(KeySet(pending)) + KeySet(run(r).registered)
      ensures failure.None? ==> forall k | k in old(KeySet(pending)) && k != id :: k in KeySet(pending)
      ensures failure.None? ==> forall e | e in pending :: e in old(pending) || e in run(r).registered
    {
      var outcome := run(r);
      if outcome.Failed? {
        return Some(outcome.message);
      }
      ghost var pendingBefore := pending;
      RegisterEach(outcome.registered);
      RegisterAllKeys(pendingBefore, resolved, outcome.registered);
      RegisterAllFrom(pendingBefore, resolved, outcome.registered);
      KeysLength(outcome.registered);
      assert id in Keys(pending);
      KeysLength(resolved);
      PutNew(resolved, id, outcome.schema);
      KeysPut(resolved, id, outcome.schema);
      resolved := resolved + [(id, outcome.schema)];
      RemoveFrom(pending, id);
      UniqueRemove(pending, id);
      forall k ensures k in Keys(Remove(pending, id)) <==> k in Keys(pending) && k != id {
        KeysRemove(pending, id, k);
      }
      pending := Remove(pending, id);
      return None;
    }

    /** One iteration of a pass: run the resolver of the snapshot's entry
        `i`, the entries before it having produced `log` since the pass
        started from `startResolved` and `startNames`. */
    method ResolveStep(run: R -> Outcome<R>, ghost universe: set<string>, snapshot: seq<(string, R)>, i: nat,
                       ghost log: seq<(string, R)>, ghost startResolved: seq<(string, Schema)>, ghost startNames: set<string>)
      returns (failure: Option<string>)
      requires i < |snapshot| && UniqueKeys(snapshot)
      requires Closed(run, universe)
      requires Valid() && KeySet(pending) <= universe
      requires resolved == startResolved + Results(run, log)
      requires startNames <= Names()
      requires forall k | 0 <= k < |log| :: run(log[k].1).Resolved? && KeySet(run(log[k].1).registered) <= Names()
      requires forall j | i <= j < |snapshot| :: snapshot[j].0 in KeySet(pending)
      requires KeySet(startResolved) <= KeySet(resolved) <= universe + KeySet(startResolved)
      requires log == snapshot[..i]
      requires forall e | e in pending :: e in snapshot || e in Registrations(run, log)
      modifies this
      ensures failure.Some? ==> pending == old(pending) && resolved == old(resolved) && run(snapshot[i].1).Failed?
      ensures Valid() && KeySet(pending) <= universe
      ensures old(KeySet(resolved)) <= KeySet(resolved)
      ensures failure.None? ==>
        var log' := log + [snapshot[i]];
        resolved == startResolved + Results(run, log') &&
        startNames <= Names() &&
        (forall k | 0 <= k < |log'| :: run(log'[k].1).Resolved? && KeySet(run(log'[k].1).registered) <= Names()) &&
        (forall j | i + 1 <= j < |snapshot| :: snapshot[j].0 in KeySet(pending)) &&
        KeySet(startResolved) <= KeySet(resolved) <= universe + KeySet(startResolved) &&
        snapshot[i].0 in KeySet(resolved) - KeySet(startResolved) &&
        log' == snapshot[..i + 1] &&
        (forall e | e in pending :: e in snapshot || e in Registrations(run, log'))
    {
      var id := snapshot[i].0;
      ghost var resolvedBefore := resolved;
      ghost var pendingBefore := pending;
      ghost var namesBefore := Names();
      failure := ResolveEntry(run, id, snapshot[i].1);
      if failure.Some? {
        return;
      }
      RestStillPending(snapshot, i, KeySet(pendingBefore), KeySet(pending));
      LogResolvedSnoc(run, log, snapshot[i], namesBefore, Names());
      ResultsAppend(run, log, id, snapshot[i].1);
      PendingFromStep(run, snapshot, pendingBefore, pending, log, (id, snapshot[i].1));
      PrefixSnoc(snapshot, i);
      KeySetAppend(resolvedBefore, id, run(snapshot[i].1).schema);
    }

    /** One pass of the outer loop: the resolvers of a snapshot of the
        pending map, run in the snapshot's order. */
    method ResolvePass(run: R -> Outcome<R>, ghost universe: set<string>)
      returns (failure: Option<string>, ghost log: seq<(string, R)>)
      requires Valid() && pending != []
      requires KeySet(pending) <= universe
      requires Closed(run, universe)
      modifies this
      ensures Valid()
      ensures KeySet(pending) <= universe
      ensures resolved == old(resolved) + Results(run, log)
      ensures old(Names()) <= Names()
      ensures forall i | 0 <= i < |log| :: run(log[i].1).Resolved? && KeySet(run(log[i].1).registered) <= Names()
      ensures failure.None? ==> old(KeySet(resolved)) < KeySet(resolved) <= universe + old(KeySet(resolved))
      ensures log <= old(pending)
      ensures failure.None? ==> log == old(pending)
      ensures failure.Some? ==> |log| < |old(pending)| && run(old(pending)[|log|].1).Failed?
      ensures forall e | e in pending :: e in old(pending) || e in Registrations(run, log)
    {
      var snapshot := pending;
      KeysLength(snapshot);
      log := [];
      ghost var first := snapshot[0].0;
      ghost var startResolved := resolved;
      ghost var startNames := Names();
      var i := 0;
      while i < |snapshot|
        invariant 0 <= i <= |snapshot|
        invariant Valid()
        invariant KeySet(pending) <= universe
        invariant resolved == startResolved + Results(run, log)
        invariant startNames <= Names()
        invariant forall k | 0 <= k < |log| :: run(log[k].1).Resolved? && KeySet(run(log[k].1).registered) <= Names()
        invariant forall j | i <= j < |snapshot| :: snapshot[j].0 in KeySet(pending)
        invariant KeySet(startResolved) <= KeySet(resolved) <= universe + KeySet(startResolved)
        invariant i > 0 ==> first in KeySet(resolved) - KeySet(startResolved)
        invariant UniqueKeys(snapshot)
        invariant log == snapshot[..i]
        invariant forall e | e in pending :: e in snapshot || e in Registrations(run, log)
      {
        failure := ResolveStep(run, universe, snapshot, i, log, startResolved, startNames);
        if failure.Some? {
          return failure, log;
        }
        log := log + [snapshot[i]];
        i := i + 1;
      }
      assert snapshot[..i] == snapshot;
      return None, log;
    }

    /** `resolveAllSchemas()`: while resolvers are pending, run every
        resolver of a snapshot of the pending map, store its schema and drop
        it from the pending map; resolvers registered meanwhile wait for the
        next pass. `log` lists the resolvers run, in order. Termination rests
        on all names coming from a finite `universe`. */
    method ResolveAllSchemas(run: R -> Outcome<R>, ghost universe: set<string>)
      returns (result: Result<seq<(string, Schema)>>, ghost log: seq<(string, R)>)
      requires Valid()
      requires KeySet(pending) <= universe
      requires Closed(run, universe)
      modifies this
      ensures Valid()
      ensures resolved == old(resolved) + Results(run, log)
      ensures old(Names()) <= Names()
      ensures forall i | 0 <= i < |log| :: run(log[i].1).Resolved? && KeySet(run(log[i].1).registered) <= Names()
      ensures result.Ok? ==> pending == [] && result.value == resolved
      ensures old(pending) <= log || (result.Err? && log < old(pending))
      ensures result.Ok? ==> old(pending) <= log
      ensures FromStartOrEarlier(run, old(pending), log)
    {
      log := [];
      while pending != []
        invariant Closed(run, universe)
        invariant Valid()
        invariant KeySet(pending) <= universe
        invariant resolved == old(resolved) + Results(run, log)
        invariant old(Names()) <= Names()
        invariant forall i | 0 <= i < |log| :: run(log[i].1).Resolved? && KeySet(run(log[i].1).registered) <= Names()
        invariant KeySet(resolved) <= universe + old(KeySet(resolved))
        invariant log == [] ==> pending == old(pending)
        invariant log != [] ==> old(pending) <= log
        invariant FromStartOrEarlier(run, old(pending), log)
        invariant forall e | e in pending :: e in old(pending) || e in Registrations(run, log)
        decreases universe - KeySet(resolved)
      {
        ghost var resolvedBefore := resolved;
        ghost var pendingBefore := pending;
        var failure;
        ghost var passLog;
        failure, passLog := ResolvePass(run, universe);
        ResultsExtend(run, old(resolved), resolvedBefore, resolved, log, passLog);
        ProvenanceExtend(run, old(pending), pendingBefore, pending, log, passLog);
        assert log != [] ==> old(pending) <= log + passLog by {
          if log != [] {
            assert (log + passLog)[..|log|] == log;
          }
        }
        log := log + passLog;
        if failure.Some? {
          return Err(failure.value), log;
        }
        assert universe - KeySet(resolved) < universe - KeySet(resolvedBefore);
      }
      return Ok(resolved), log;
    }
  }

  /** Dropping the snapshot's entry `i` from the pending names keeps the
      entries after it pending. */
  lemma RestStillPending<R>(snapshot: seq<(string, R)>, i: nat, before: set<string>, after: set<string>)
    requires i < |snapshot| && UniqueKeys(snapshot)
    requires forall j | i <= j < |snapshot| :: snapshot[j].0 in before
    requires forall k | k in before && k != snapshot[i].0 :: k in after
    ensures forall j | i + 1 <= j < |snapshot| :: snapshot[j].0 in after
  {
  }

  /** Every run in the log, one more included, succeeded and registered
      only names the registry now knows. */
  lemma LogResolvedSnoc<R>(run: R -> Outcome<R>, log: seq<(string, R)>, e: (string, R), before: set<string>, after: set<string>)
    requires forall k | 0 <= k < |log| :: run(log[k].1).Resolved? && KeySet(run(log[k].1).registered) <= before
    requires before <= after
    requires run(e.1).Resolved? && KeySet(run(e.1).registered) <= after
    ensures forall k | 0 <= k < |log + [e]| :: run((log + [e])[k].1).Resolved? && KeySet(run((log + [e])[k].1).registered) <= after
  {
  }

  lemma PrefixSnoc<T>(s: seq<T>, i: nat)
    requires i < |s|
    ensures s[..i + 1] == s[..i] + [s[i]]
  {
  }

  lemma KeySetAppend<V>(m: seq<(string, V)>, k: string, v: V)
    ensures KeySet(m + [(k, v)]) == KeySet(m) + {k}
  {
    KeysLength(m);
    KeysLength(m + [(k, v)]);
    assert Keys(m + [(k, v)]) == Keys(m) + [k];
  }

  /** A pass's results follow the results of the passes before it. */
  lemma ResultsExtend<R>(run: R -> Outcome<R>, start: seq<(string, Schema)>, before: seq<(string, Schema)>,
                         after: seq<(string, Schema)>, log: seq<(string, R)>, passLog: seq<(string, R)>)
    requires before == start + Results(run, log)
    requires after == before + Results(run, passLog)
    ensures after == start + Results(run, log + passLog)
  {
    ResultsConcat(run, log, passLog);
    var a, b := Results(run, log), Results(run, passLog);
    assert (start + a) + b == start + (a + b);
  }

  lemma {:induction false} ResultsConcat<R>(run: R -> Outcome<R>, a: seq<(string, R)>, b: seq<(string, R)>)
    ensures Results(run, a + b) == Results(run, a) + Results(run, b)
  {
    if a != [] {
      assert (a + b)[0] == a[0];
      assert (a + b)[1..] == a[1..] + b;
      ResultsConcat(run, a[1..], b);
    } else {
      assert a + b == b;
    }
  }

  lemma {:induction false} ResultsAppend<R>(run: R -> Outcome<R>, log: seq<(string, R)>, id: string, r: R)
    requires run(r).Resolved?
    ensures Results(run, log + [(id, r)]) == Results(run, log) + [(id, run(r).schema)]
  {
    if log != [] {
      assert (log + [(id, r)])[1..] == log[1..] + [(id, r)];
      ResultsAppend(run, log[1..], id, r);
    }
  }
}
