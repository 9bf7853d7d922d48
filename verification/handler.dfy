/** One run of the notification handler: fetch the boost history of every
    enabled server first, then reconcile the servers one after the other,
    stopping after the first server that wrote when slow mode is on. */
module Handler {
  import opened Boosts
  import opened HistoryStore
  import opened Reconciliation

  /** One configured server, flattened out of its account: its id, whether
      it is enabled, the response its history request will get, and the
      outcomes of the notifications sent for it. */
  datatype ServerInput = ServerInput(id: int, enabled: bool, response: Option<Envelope>, outcomes: seq<bool>)

  /** The result of the fetch phase for one enabled server. */
  datatype Fetch = Fetch(id: int, boosts: Option<seq<Boost>>, outcomes: seq<bool>)

  /** What the handler returns: the success summary with the number of
      notification attempts, or the slow-mode early exit. */
  datatype RunResult = Success(newBoosts: nat) | SlowModeSuccess

  /** The parsed histories of the enabled servers, in configuration order. */
  function Fetches(inputs: seq<ServerInput>): (r: seq<Fetch>)
    ensures |r| <= |inputs|
    ensures forall f :: f in r ==>
      exists i :: 0 <= i < |inputs| && inputs[i].enabled &&
        f == Fetch(inputs[i].id, Parse(inputs[i].response), inputs[i].outcomes)
    ensures forall i :: 0 <= i < |inputs| && inputs[i].enabled ==>
      Fetch(inputs[i].id, Parse(inputs[i].response), inputs[i].outcomes) in r
    decreases |inputs|
  {
    if inputs == [] then []
    else
      var init, last := inputs[..|inputs| - 1], inputs[|inputs| - 1];
      var r := Fetches(init) + (if last.enabled then [Fetch(last.id, Parse(last.response), last.outcomes)] else []);
      assert forall f :: f in Fetches(init) ==>
               exists i :: 0 <= i < |init| && init[i] == inputs[i] && init[i].enabled &&
                             f == Fetch(init[i].id, Parse(init[i].response), init[i].outcomes);
      assert forall i :: 0 <= i < |init| ==> inputs[i] == init[i];
      r
  }

  /** The fetch phase: every enabled server's history is requested and
      parsed before any reconciliation starts. */
  method CollectFetches(inputs: seq<ServerInput>) returns (fetches: seq<Fetch>)
    ensures fetches == Fetches(inputs)
  {
    fetches := [];
    var i := 0;
    while i < |inputs|
      invariant 0 <= i <= |inputs|
      invariant fetches == Fetches(inputs[..i])
    {
      var server := inputs[i];
      assert inputs[..i + 1][..i] == inputs[..i];
      if server.enabled {
        var boosts := Parse(server.response);
        fetches := fetches + [Fetch(server.id, boosts, server.outcomes)];
      }
      i := i + 1;
    }
    assert inputs[..i] == inputs;
  }

  /** The table, the number of writes and the result left by a run. */
  datatype RunState = RunState(records: map<int, Record>, writes: nat, result: RunResult)

  function AddCount(result: RunResult, n: nat): RunResult {
    match result
    case Success(k) => Success(k + n)
    case SlowModeSuccess => SlowModeSuccess
  }

  /** The reconciliation phase as a function of the table before it. */
  function RunFrom(records: map<int, Record>, fetches: seq<Fetch>, slowMode: bool): (st: RunState)
    ensures !slowMode ==> st.result.Success?
    decreases |fetches|
  {
    if fetches == [] then RunState(records, 0, Success(0))
    else
      var f := fetches[0];
      var s := ReconcileSpec(records, f.id, f.boosts, f.outcomes);
      if s.wrote && slowMode then RunState(s.records, 1, SlowModeSuccess)
      else
        var rest := RunFrom(s.records, fetches[1..], slowMode);
        RunState(rest.records, rest.writes + (if s.wrote then 1 else 0), AddCount(rest.result, s.attempts))
  }

  /** The reconciliation loop: one reconciliation per fetched server, in
      order, returning early after the first write in slow mode. */
  method ReconcileAll(store: Store, fetches: seq<Fetch>, slowMode: bool) returns (result: RunResult)
    modifies store
    ensures var st := RunFrom(old(store.records), fetches, slowMode);
            store.records == st.records && store.writes == old(store.writes) + st.writes &&
            result == st.result
  {
    var total: nat := 0;
    ghost var written: nat := 0;
    ghost var spec := RunFrom(store.records, fetches, slowMode);
    var i := 0;
    while i < |fetches|
      invariant 0 <= i <= |fetches|
      invariant store.writes == old(store.writes) + written
      invariant spec == Combine(RunFrom(store.records, fetches[i..], slowMode), written, total)
    {
      var attempts, wrote := ReconcileNext(store, fetches[i..], slowMode, total, written);
      assert fetches[i..][1..] == fetches[i + 1..];
      if wrote && slowMode {
        return SlowModeSuccess;
      }
      total := total + attempts;
      if wrote {
        written := written + 1;
      }
      i := i + 1;
    }
    return Success(total);
  }

  /** Reconciles the first of the remaining servers; its effect is one step
      of `RunFrom`. */
  method ReconcileNext(store: Store, fetches: seq<Fetch>, slowMode: bool, total: nat, ghost written: nat)
    returns (attempts: nat, wrote: bool)
    requires fetches != []
    modifies store
    ensures store.writes == old(store.writes) + (if wrote then 1 else 0)
    ensures Combine(RunFrom(old(store.records), fetches, slowMode), written, total) ==
            if wrote && slowMode then RunState(store.records, written + 1, SlowModeSuccess)
            else Combine(RunFrom(store.records, fetches[1..], slowMode), written + (if wrote then 1 else 0), total + attempts)
  {
    var f := fetches[0];
    ghost var before := store.records;
    attempts, wrote := Reconcile(store, f.id, f.boosts, f.outcomes);
    RunFromAdvance(before, fetches, slowMode, total, written, store.records, attempts, wrote);
  }

  /** Runs the handler against `store`: the fetch phase for every enabled
      server, then the reconciliation loop. */
  method Run(store: Store, inputs: seq<ServerInput>, slowMode: bool) returns (result: RunResult)
    modifies store
    ensures var st := RunFrom(old(store.records), Fetches(inputs), slowMode);
            store.records == st.records && store.writes == old(store.writes) + st.writes &&
            result == st.result
  {
    var fetches := CollectFetches(inputs);
    result := ReconcileAll(store, fetches, slowMode);
  }

  /** A run's state after `written` writes and `total` attempts have already
      been made by the servers before it. */
  function Combine(st: RunState, written: nat, total: nat): RunState {
    RunState(st.records, st.writes + written, AddCount(st.result, total))
  }

  /** One step of `RunFrom`, given the table, attempts and write flag that
      the first server's reconciliation produced. */
  lemma RunFromAdvance(records: map<int, Record>, fetches: seq<Fetch>, slowMode: bool, total: nat, written: nat,
                       after: map<int, Record>, attempts: nat, wrote: bool)
    requires fetches != []
    requires var s := ReconcileSpec(records, fetches[0].id, fetches[0].boosts, fetches[0].outcomes);
             after == s.records && attempts == s.attempts && wrote == s.wrote
    ensures Combine(RunFrom(records, fetches, slowMode), written, total) ==
            if wrote && slowMode then RunState(after, written + 1, SlowModeSuccess)
            else Combine(RunFrom(after, fetches[1..], slowMode), written + (if wrote then 1 else 0), total + attempts)
  {
    var rest := RunFrom(after, fetches[1..], slowMode);
    if !(wrote && slowMode) {
      assert AddCount(AddCount(rest.result, attempts), total) == AddCount(rest.result, total + attempts);
    }
  }

  // ---------------------------------------------------------------------
  // Properties of a run
  // ---------------------------------------------------------------------

  /** Servers that are disabled are never fetched. */
  lemma FetchesSkipDisabled(inputs: seq<ServerInput>, id: int)
    requires forall i :: 0 <= i < |inputs| && inputs[i].id == id ==> !inputs[i].enabled
    ensures forall k :: 0 <= k < |Fetches(inputs)| ==> Fetches(inputs)[k].id != id
  {
    var r := Fetches(inputs);
    forall k | 0 <= k < |r| ensures r[k].id != id {
      assert r[k] in r;
    }
  }

  /** A server that is not among the fetches keeps its item as it was. */
  lemma {:induction false} RunLeavesOthers(records: map<int, Record>, fetches: seq<Fetch>, slowMode: bool, id: int)
    requires forall k :: 0 <= k < |fetches| ==> fetches[k].id != id
    ensures var st := RunFrom(records, fetches, slowMode);
            (id in st.records <==> id in records) && (id in records ==> st.records[id] == records[id])
    decreases |fetches|
  {
    if fetches != [] {
      var f := fetches[0];
      var s := ReconcileSpec(records, f.id, f.boosts, f.outcomes);
      if !(s.wrote && slowMode) {
        RunLeavesOthers(s.records, fetches[1..], slowMode, id);
      }
    }
  }

  /** A disabled server's item is never touched by a run. */
  lemma RunLeavesDisabled(records: map<int, Record>, inputs: seq<ServerInput>, slowMode: bool, id: int)
    requires forall i :: 0 <= i < |inputs| && inputs[i].id == id ==> !inputs[i].enabled
    ensures var st := RunFrom(records, Fetches(inputs), slowMode);
            (id in st.records <==> id in records) && (id in records ==> st.records[id] == records[id])
  {
    FetchesSkipDisabled(inputs, id);
    RunLeavesOthers(records, Fetches(inputs), slowMode, id);
  }

  /** A run writes each fetched server's item at most once, and a slow-mode
      exit follows exactly one write. */
  lemma {:induction false} RunFromWriteBounds(records: map<int, Record>, fetches: seq<Fetch>, slowMode: bool)
    ensures RunFrom(records, fetches, slowMode).writes <= |fetches|
    ensures RunFrom(records, fetches, slowMode).result == SlowModeSuccess ==>
              slowMode && RunFrom(records, fetches, slowMode).writes == 1
    decreases |fetches|
  {
    if fetches != [] {
      var f := fetches[0];
      var s := ReconcileSpec(records, f.id, f.boosts, f.outcomes);
      if !(s.wrote && slowMode) {
        RunFromWriteBounds(s.records, fetches[1..], slowMode);
      }
    }
  }

  /** In slow mode a run writes at most one item. */
  lemma {:induction false} SlowModeWritesAtMostOnce(records: map<int, Record>, fetches: seq<Fetch>)
    ensures RunFrom(records, fetches, true).writes <= 1
    ensures RunFrom(records, fetches, true).result.Success? ==> RunFrom(records, fetches, true).writes == 0
    decreases |fetches|
  {
    if fetches != [] {
      var f := fetches[0];
      var s := ReconcileSpec(records, f.id, f.boosts, f.outcomes);
      if !s.wrote {
        SlowModeWritesAtMostOnce(s.records, fetches[1..]);
      }
    }
  }

  /** In slow mode, once a server has written, the servers after it are not
      reconciled: appending more servers to the run changes nothing. */
  lemma {:induction false} SlowModeStopsAfterWrite(records: map<int, Record>, fetches: seq<Fetch>, later: seq<Fetch>)
    requires RunFrom(records, fetches, true).result == SlowModeSuccess
    ensures RunFrom(records, fetches + later, true) == RunFrom(records, fetches, true)
    decreases |fetches|
  {
    var f := fetches[0];
    assert (fetches + later)[0] == f;
    var s := ReconcileSpec(records, f.id, f.boosts, f.outcomes);
    if !s.wrote {
      assert (fetches + later)[1..] == fetches[1..] + later;
      SlowModeStopsAfterWrite(s.records, fetches[1..], later);
    }
  }

  /** The reported count covers every notification attempt, failed ones
      included, so it is never smaller than the number of items written. */
  lemma {:induction false} CountCoversWrites(records: map<int, Record>, fetches: seq<Fetch>)
    ensures RunFrom(records, fetches, false).result.newBoosts >= RunFrom(records, fetches, false).writes
    decreases |fetches|
  {
    if fetches != [] {
      var f := fetches[0];
      var s := ReconcileSpec(records, f.id, f.boosts, f.outcomes);
      CountCoversWrites(s.records, fetches[1..]);
    }
  }

  /** The fetch phase distributes over concatenation of the configuration:
      servers are fetched in configuration order, each enabled one once. */
  lemma {:induction false} FetchesAppend(a: seq<ServerInput>, b: seq<ServerInput>)
    ensures Fetches(a + b) == Fetches(a) + Fetches(b)
    decreases |b|
  {
    if b == [] {
      assert a + b == a;
    } else {
      var init, last := b[..|b| - 1], b[|b| - 1];
      assert (a + b)[..|a + b| - 1] == a + init;
      assert (a + b)[|a + b| - 1] == last;
      FetchesAppend(a, init);
    }
  }

  /** One configured server is fetched exactly when it is enabled, and its
      entry carries its parsed response. */
  lemma FetchesSingleton(server: ServerInput)
    ensures Fetches([server]) ==
            if server.enabled then [Fetch(server.id, Parse(server.response), server.outcomes)] else []
  {
    assert [server][..0] == [];
  }

  /** One server outside slow mode: the count is its number of notification
      attempts (the new boosts, failed ones included) and it adds one write
      exactly when it wrote. */
  lemma RunFromSingleton(records: map<int, Record>, f: Fetch)
    ensures var s := ReconcileSpec(records, f.id, f.boosts, f.outcomes);
            RunFrom(records, [f], false) ==
              RunState(s.records, if s.wrote then 1 else 0,
                       Success(|NewBoosts(if f.boosts.Some? then f.boosts.value else [], StoredBoosts(records, f.id))|))
  {
    assert [f][1..] == [];
  }

  /** Outside slow mode a run over `a + b` is the run over `a` followed by the
      run over `b` from the table `a` left: the counts and the writes add up. */
  lemma {:induction false} RunFromAppend(records: map<int, Record>, a: seq<Fetch>, b: seq<Fetch>)
    ensures var first := RunFrom(records, a, false);
            var second := RunFrom(first.records, b, false);
            RunFrom(records, a + b, false) ==
              RunState(second.records, first.writes + second.writes,
                       Success(first.result.newBoosts + second.result.newBoosts))
    decreases |a|
  {
    if a == [] {
      assert a + b == b;
    } else {
      var f := a[0];
      assert (a + b)[0] == f;
      assert (a + b)[1..] == a[1..] + b;
      var s := ReconcileSpec(records, f.id, f.boosts, f.outcomes);
      RunFromAppend(s.records, a[1..], b);
    }
  }

  /** One server in slow mode: when it writes, the run ends there with the
      slow-mode summary and one write; otherwise it leaves the table as it
      was and counts its attempts. */
  lemma RunFromSlowSingleton(records: map<int, Record>, f: Fetch)
    ensures var s := ReconcileSpec(records, f.id, f.boosts, f.outcomes);
            RunFrom(records, [f], true) ==
              if s.wrote then RunState(s.records, 1, SlowModeSuccess)
              else RunState(records, 0, Success(s.attempts))
  {
    assert [f][1..] == [];
  }

  /** In slow mode a run over `a + b` is the run over `a` when that run
      already exited after a write; otherwise the servers of `b` are
      reconciled from the table `a` left, with the counts and the writes
      carried forward. */
  lemma {:induction false} RunFromSlowAppend(records: map<int, Record>, a: seq<Fetch>, b: seq<Fetch>)
    ensures var first := RunFrom(records, a, true);
            var second := RunFrom(first.records, b, true);
            RunFrom(records, a + b, true) ==
              if first.result == SlowModeSuccess then first
              else RunState(second.records, first.writes + second.writes,
                            AddCount(second.result, first.result.newBoosts))
    decreases |a|
  {
    if a == [] {
      assert a + b == b;
      var second := RunFrom(records, b, true);
      assert AddCount(second.result, 0) == second.result;
    } else {
      var f := a[0];
      assert (a + b)[0] == f;
      assert (a + b)[1..] == a[1..] + b;
      var s := ReconcileSpec(records, f.id, f.boosts, f.outcomes);
      if !s.wrote {
        RunFromSlowAppend(s.records, a[1..], b);
        var first := RunFrom(s.records, a[1..], true);
        if first.result != SlowModeSuccess {
          var second := RunFrom(first.records, b, true);
          assert AddCount(AddCount(second.result, first.result.newBoosts), s.attempts) ==
                 AddCount(second.result, first.result.newBoosts + s.attempts);
        }
      }
    }
  }
}
