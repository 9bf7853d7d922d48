/** Reconciliation of one server's freshly fetched boosts against its stored
    history: find the new boosts, notify each, and append the notified ones. */
module Reconciliation {
  import opened Boosts
  import opened HistoryStore

  // ---------------------------------------------------------------------
  // Specification functions
  // ---------------------------------------------------------------------

  /** The fetched boosts that match no stored boost, in fetched order.
      Repeats inside `fetched` are kept. */
  function NewBoosts(fetched: seq<Boost>, stored: seq<Boost>): (r: seq<Boost>)
    ensures |r| <= |fetched|
    ensures forall x :: x in r <==> x in fetched && !InList(x, stored)
    decreases |fetched|
  {
    if fetched == [] then []
    else
      var init, last := fetched[..|fetched| - 1], fetched[|fetched| - 1];
      assert fetched == init + [last];
      NewBoosts(init, stored) + (if InList(last, stored) then [] else [last])
  }

  /** The notifier as an oracle: the k-th notification attempt for a server
      succeeds when `outcomes` has a true entry at k; attempts beyond the end
      of `outcomes` fail. */
  predicate Succeeded(outcomes: seq<bool>, k: nat) {
    k < |outcomes| && outcomes[k]
  }

  /** The new boosts whose notification succeeded, in discovery order. */
  function Notified(news: seq<Boost>, outcomes: seq<bool>): (r: seq<Boost>)
    ensures |r| <= |news|
    ensures forall x :: x in r ==> x in news
    decreases |news|
  {
    if news == [] then []
    else
      var init, last := news[..|news| - 1], news[|news| - 1];
      assert news == init + [last];
      Notified(init, outcomes) + (if Succeeded(outcomes, |news| - 1) then [last] else [])
  }

  /** No two boosts of `s` are the same event. */
  predicate NoDupIds(s: seq<Boost>) {
    forall i, j :: 0 <= i < j < |s| ==> !SameEvent(s[i], s[j])
  }

  /** What one server's reconciliation leaves behind: the table, the number
      of notification attempts, and whether the server's item was written. */
  datatype ServerRun = ServerRun(records: map<int, Record>, attempts: nat, wrote: bool)

  /** Reconciliation of server `id` as a function of the table before it. */
  function ReconcileSpec(records: map<int, Record>, id: int, fetched: Option<seq<Boost>>, outcomes: seq<bool>): (s: ServerRun)
    ensures forall k :: k != id ==> (k in s.records <==> k in records)
    ensures forall k :: k != id && k in records ==> s.records[k] == records[k]
    ensures !s.wrote ==> s.records == records
    ensures s.wrote ==> s.attempts > 0
  {
    var stored := StoredBoosts(records, id);
    var news := NewBoosts(if fetched.Some? then fetched.value else [], stored);
    var notified := Notified(news, outcomes);
    if notified == [] then ServerRun(records, |news|, false)
    else ServerRun(records[id := Record(Some(stored + notified))], |news|, true)
  }

  // ---------------------------------------------------------------------
  // Properties of the filter and the selection
  // ---------------------------------------------------------------------

  /** Each boost occurs in the result as often as in the fetch, unless it is
      already stored, in which case not at all: nothing is collapsed. */
  lemma {:induction false} NewBoostsCount(fetched: seq<Boost>, stored: seq<Boost>, x: Boost)
    ensures multiset(NewBoosts(fetched, stored))[x] ==
            if InList(x, stored) then 0 else multiset(fetched)[x]
    decreases |fetched|
  {
    if fetched != [] {
      var init, last := fetched[..|fetched| - 1], fetched[|fetched| - 1];
      assert fetched == init + [last];
      NewBoostsCount(init, stored, x);
    }
  }

  /** Filtering distributes over concatenation, so the fetched order is kept. */
  lemma {:induction false} NewBoostsAppend(a: seq<Boost>, b: seq<Boost>, stored: seq<Boost>)
    ensures NewBoosts(a + b, stored) == NewBoosts(a, stored) + NewBoosts(b, stored)
    decreases |b|
  {
    if b == [] {
      assert a + b == a;
    } else {
      var init, last := b[..|b| - 1], b[|b| - 1];
      assert (a + b)[..|a + b| - 1] == a + init;
      assert (a + b)[|a + b| - 1] == last;
      NewBoostsAppend(a, init, stored);
    }
  }

  /** There is nothing new exactly when every fetched boost is already stored. */
  lemma NewBoostsEmpty(fetched: seq<Boost>, stored: seq<Boost>)
    ensures NewBoosts(fetched, stored) == [] <==>
            forall i :: 0 <= i < |fetched| ==> InList(fetched[i], stored)
  {
    var r := NewBoosts(fetched, stored);
    if r != [] {
      assert r[0] in r;
    }
    if exists i :: 0 <= i < |fetched| && !InList(fetched[i], stored) {
      var i :| 0 <= i < |fetched| && !InList(fetched[i], stored);
      assert fetched[i] in r;
    }
  }

  /** Filtering against `e + n` is filtering against `e`, then against `n`. */
  lemma {:induction false} NewBoostsCompose(fetched: seq<Boost>, e: seq<Boost>, n: seq<Boost>)
    ensures NewBoosts(fetched, e + n) == NewBoosts(NewBoosts(fetched, e), n)
    decreases |fetched|
  {
    if fetched != [] {
      var init, last := fetched[..|fetched| - 1], fetched[|fetched| - 1];
      NewBoostsCompose(init, e, n);
      InListAppend(last, e, n);
      var tail := if InList(last, e) then [] else [last];
      NewBoostsAppend(NewBoosts(init, e), tail, n);
      if tail == [last] {
        assert [last][..0] == [];
      }
    }
  }

  /** A boost is in the selection exactly when some attempt for it succeeded. */
  lemma {:induction false} NotifiedMembers(news: seq<Boost>, outcomes: seq<bool>, x: Boost)
    ensures x in Notified(news, outcomes) <==>
            exists k :: 0 <= k < |news| && news[k] == x && Succeeded(outcomes, k)
    decreases |news|
  {
    if news != [] {
      var init, last := news[..|news| - 1], news[|news| - 1];
      NotifiedMembers(init, outcomes, x);
      if exists k :: 0 <= k < |news| && news[k] == x && Succeeded(outcomes, k) {
        var k :| 0 <= k < |news| && news[k] == x && Succeeded(outcomes, k);
        if k < |news| - 1 {
          assert init[k] == x;
        }
      }
      if exists k :: 0 <= k < |init| && init[k] == x && Succeeded(outcomes, k) {
        var k :| 0 <= k < |init| && init[k] == x && Succeeded(outcomes, k);
        assert news[k] == x;
      }
    }
  }

  /** When every attempt succeeds, every new boost is selected. */
  lemma {:induction false} NotifiedAll(news: seq<Boost>, outcomes: seq<bool>)
    requires forall k :: 0 <= k < |news| ==> Succeeded(outcomes, k)
    ensures Notified(news, outcomes) == news
    decreases |news|
  {
    if news != [] {
      var init := news[..|news| - 1];
      NotifiedAll(init, outcomes);
      assert news == init + [news[|news| - 1]];
    }
  }

  /** The selection is empty exactly when every attempt failed. */
  lemma NotifiedNone(news: seq<Boost>, outcomes: seq<bool>)
    ensures Notified(news, outcomes) == [] <==>
            forall k :: 0 <= k < |news| ==> !Succeeded(outcomes, k)
  {
    var r := Notified(news, outcomes);
    if r != [] {
      assert r[0] in r;
      NotifiedMembers(news, outcomes, r[0]);
    }
    if exists k :: 0 <= k < |news| && Succeeded(outcomes, k) {
      var k :| 0 <= k < |news| && Succeeded(outcomes, k);
      NotifiedMembers(news, outcomes, news[k]);
    }
  }

  /** The outcomes of the attempts after the first `n`. */
  function Shift(outcomes: seq<bool>, n: nat): (r: seq<bool>)
    ensures forall k: nat :: Succeeded(r, k) == Succeeded(outcomes, n + k)
  {
    if n <= |outcomes| then outcomes[n..] else []
  }

  /** A single new boost is kept exactly when its one attempt succeeds. */
  lemma NotifiedSingleton(x: Boost, outcomes: seq<bool>)
    ensures Notified([x], outcomes) == if Succeeded(outcomes, 0) then [x] else []
  {
    assert [x][..0] == [];
  }

  /** Selection distributes over concatenation: the boosts kept from `a`
      come first, in their order, then those kept from `b`, whose attempts
      follow those of `a`. */
  lemma {:induction false} NotifiedAppend(a: seq<Boost>, b: seq<Boost>, outcomes: seq<bool>)
    ensures Notified(a + b, outcomes) == Notified(a, outcomes) + Notified(b, Shift(outcomes, |a|))
    decreases |b|
  {
    if b == [] {
      assert a + b == a;
    } else {
      var init, last := b[..|b| - 1], b[|b| - 1];
      assert (a + b)[..|a + b| - 1] == a + init;
      assert (a + b)[|a + b| - 1] == last;
      assert Succeeded(outcomes, |a + b| - 1) == Succeeded(Shift(outcomes, |a|), |b| - 1);
      NotifiedAppend(a, init, outcomes);
    }
  }

  // ---------------------------------------------------------------------
  // Duplicate identities
  // ---------------------------------------------------------------------

  lemma NoDupIdsSnoc(s: seq<Boost>, y: Boost)
    requires NoDupIds(s)
    requires forall x :: x in s ==> !SameEvent(x, y)
    ensures NoDupIds(s + [y])
  {
    var t := s + [y];
    forall i, j | 0 <= i < j < |t| ensures !SameEvent(t[i], t[j]) {
      if j == |s| {
        assert t[i] in s;
      } else {
        assert t[i] == s[i] && t[j] == s[j];
      }
    }
  }

  /** A duplicate-free fetch yields duplicate-free new boosts. */
  lemma {:induction false} NewBoostsNoDup(fetched: seq<Boost>, stored: seq<Boost>)
    requires NoDupIds(fetched)
    ensures NoDupIds(NewBoosts(fetched, stored))
    decreases |fetched|
  {
    if fetched != [] {
      var init, last := fetched[..|fetched| - 1], fetched[|fetched| - 1];
      assert NoDupIds(init) by {
        forall i, j | 0 <= i < j < |init| ensures !SameEvent(init[i], init[j]) {
          assert init[i] == fetched[i] && init[j] == fetched[j];
        }
      }
      NewBoostsNoDup(init, stored);
      var r := NewBoosts(init, stored);
      forall x | x in r ensures !SameEvent(x, last) {
        var i :| 0 <= i < |init| && init[i] == x;
        assert fetched[i] == x;
      }
      if !InList(last, stored) {
        NoDupIdsSnoc(r, last);
      } else {
        assert r + [] == r;
      }
    }
  }

  /** A duplicate-free list of new boosts yields a duplicate-free selection. */
  lemma {:induction false} NotifiedNoDup(news: seq<Boost>, outcomes: seq<bool>)
    requires NoDupIds(news)
    ensures NoDupIds(Notified(news, outcomes))
    decreases |news|
  {
    if news != [] {
      var init, last := news[..|news| - 1], news[|news| - 1];
      assert NoDupIds(init) by {
        forall i, j | 0 <= i < j < |init| ensures !SameEvent(init[i], init[j]) {
          assert init[i] == news[i] && init[j] == news[j];
        }
      }
      NotifiedNoDup(init, outcomes);
      var r := Notified(init, outcomes);
      forall x | x in r ensures !SameEvent(x, last) {
        var i :| 0 <= i < |init| && init[i] == x;
        assert news[i] == x;
      }
      if Succeeded(outcomes, |news| - 1) {
        NoDupIdsSnoc(r, last);
      } else {
        assert r + [] == r;
      }
    }
  }

  /** The stored history stays free of duplicate identities across a
      reconciliation, provided the fetch itself lists each event once. */
  lemma StoredNoDupPreserved(stored: seq<Boost>, fetched: seq<Boost>, outcomes: seq<bool>)
    requires NoDupIds(stored) && NoDupIds(fetched)
    ensures NoDupIds(stored + Notified(NewBoosts(fetched, stored), outcomes))
  {
    var news := NewBoosts(fetched, stored);
    var n := Notified(news, outcomes);
    NewBoostsNoDup(fetched, stored);
    NotifiedNoDup(news, outcomes);
    var t := stored + n;
    forall i, j | 0 <= i < j < |t| ensures !SameEvent(t[i], t[j]) {
      if j < |stored| {
        assert t[i] == stored[i] && t[j] == stored[j];
      } else if i >= |stored| {
        assert t[i] == n[i - |stored|] && t[j] == n[j - |stored|];
      } else {
        assert t[j] == n[j - |stored|] && t[j] in n;
        assert !InList(t[j], stored);
        assert t[i] == stored[i];
      }
    }
  }

  /** Repeats inside one fetch are not collapsed: a fetch listing the same
      boost twice, both notified, stores it twice. */
  lemma DuplicateFetchStoredTwice(b: Boost)
    ensures NewBoosts([b, b], []) == [b, b]
    ensures Notified([b, b], [true, true]) == [b, b]
    ensures !NoDupIds([] + Notified(NewBoosts([b, b], []), [true, true]))
  {
    assert [b, b][..1] == [b];
    assert [b][..0] == [];
    assert NewBoosts([b], []) == [b];
    assert NewBoosts([b, b], []) == [b, b];
    assert Notified([b], [true, true]) == [b];
    assert Notified([b, b], [true, true]) == [b, b];
    var n := Notified(NewBoosts([b, b], []), [true, true]);
    var t := [] + n;
    assert t == n;
    assert SameEvent(t[0], t[1]);
  }

  // ---------------------------------------------------------------------
  // Properties of one reconciliation
  // ---------------------------------------------------------------------

  /** The item is left untouched exactly when the fetch is empty or absent,
      nothing in it is new, or every notification failed. */
  lemma ReconcileNoWrite(records: map<int, Record>, id: int, fetched: Option<seq<Boost>>, outcomes: seq<bool>)
    ensures var s := ReconcileSpec(records, id, fetched, outcomes);
            var news := NewBoosts(if fetched.Some? then fetched.value else [], StoredBoosts(records, id));
            !s.wrote <==>
              (fetched.None? || fetched.value == [] ||
               news == [] ||
               forall k :: 0 <= k < |news| ==> !Succeeded(outcomes, k))
  {
    var news := NewBoosts(if fetched.Some? then fetched.value else [], StoredBoosts(records, id));
    NotifiedNone(news, outcomes);
  }

  /** After a write the stored history is the old history followed by the
      notified boosts, and a boost is stored exactly when it was stored
      before or one of its notification attempts succeeded. */
  lemma ReconcileAppends(records: map<int, Record>, id: int, fetched: Option<seq<Boost>>, outcomes: seq<bool>, x: Boost)
    ensures var s := ReconcileSpec(records, id, fetched, outcomes);
            var stored := StoredBoosts(records, id);
            var news := NewBoosts(if fetched.Some? then fetched.value else [], stored);
            StoredBoosts(s.records, id) == stored + Notified(news, outcomes) &&
            (x in StoredBoosts(s.records, id) <==>
              x in stored || exists k :: 0 <= k < |news| && news[k] == x && Succeeded(outcomes, k))
  {
    var stored := StoredBoosts(records, id);
    var news := NewBoosts(if fetched.Some? then fetched.value else [], stored);
    NotifiedMembers(news, outcomes, x);
    ReconcileStored(records, id, fetched, outcomes);
  }

  /** A boost whose notification succeeded is not new against the
      notified boosts. */
  lemma NotifiedNotNewAgain(news: seq<Boost>, outcomes: seq<bool>, k: nat)
    requires k < |news| && Succeeded(outcomes, k)
    ensures news[k] !in NewBoosts(news, Notified(news, outcomes))
  {
    NotifiedMembers(news, outcomes, news[k]);
    InListOfMember(news[k], Notified(news, outcomes));
  }

  /** A boost whose notification failed is still new against the notified
      boosts, when no other new boost is the same event. */
  lemma FailedNewAgain(news: seq<Boost>, outcomes: seq<bool>, k: nat)
    requires NoDupIds(news)
    requires k < |news| && !Succeeded(outcomes, k)
    ensures news[k] in NewBoosts(news, Notified(news, outcomes))
  {
    var x := news[k];
    var notified := Notified(news, outcomes);
    forall j | 0 <= j < |notified| ensures !SameEvent(notified[j], x) {
      var y := notified[j];
      assert y in notified;
      NotifiedMembers(news, outcomes, y);
      var k' :| 0 <= k' < |news| && news[k'] == y && Succeeded(outcomes, k');
      assert k' != k;
    }
  }

  /** Filtering the fetch against the old history extended by the notified
      boosts leaves exactly the new boosts whose notification failed, when
      the fetch lists each event once. */
  lemma RetryOnlyFailed(fetched: seq<Boost>, stored: seq<Boost>, outcomes: seq<bool>, x: Boost)
    requires NoDupIds(fetched)
    ensures var news := NewBoosts(fetched, stored);
            x in NewBoosts(fetched, stored + Notified(news, outcomes)) <==>
              exists k :: 0 <= k < |news| && news[k] == x && !Succeeded(outcomes, k)
  {
    var news := NewBoosts(fetched, stored);
    var notified := Notified(news, outcomes);
    NewBoostsCompose(fetched, stored, notified);
    NewBoostsNoDup(fetched, stored);
    if x in NewBoosts(news, notified) {
      var k :| 0 <= k < |news| && news[k] == x;
      if Succeeded(outcomes, k) {
        NotifiedNotNewAgain(news, outcomes, k);
      }
    }
    if exists k :: 0 <= k < |news| && news[k] == x && !Succeeded(outcomes, k) {
      var k :| 0 <= k < |news| && news[k] == x && !Succeeded(outcomes, k);
      FailedNewAgain(news, outcomes, k);
    }
  }

  /** Once every new boost has been stored, filtering the same fetch again
      finds nothing new. */
  lemma NewBoostsIdempotent(fetched: seq<Boost>, stored: seq<Boost>)
    ensures NewBoosts(fetched, stored + NewBoosts(fetched, stored)) == []
  {
    var news := NewBoosts(fetched, stored);
    NewBoostsCompose(fetched, stored, news);
    forall i | 0 <= i < |news| ensures InList(news[i], news) {
      InListOfMember(news[i], news);
    }
    NewBoostsEmpty(news, news);
  }

  /** The history a reconciliation leaves behind is the old one followed by
      the boosts it notified. */
  lemma ReconcileStored(records: map<int, Record>, id: int, fetched: Option<seq<Boost>>, outcomes: seq<bool>)
    ensures var stored := StoredBoosts(records, id);
            var news := NewBoosts(if fetched.Some? then fetched.value else [], stored);
            StoredBoosts(ReconcileSpec(records, id, fetched, outcomes).records, id) ==
              stored + Notified(news, outcomes)
  {
    assert StoredBoosts(records, id) + [] == StoredBoosts(records, id);
  }

  /** Re-running a server against the history its reconciliation left
      behind attempts again exactly the new boosts whose notification
      failed (for a fetch that lists each event once). */
  lemma ReconcileRerunRetriesFailed(records: map<int, Record>, id: int, fetched: seq<Boost>, outcomes: seq<bool>, x: Boost)
    requires NoDupIds(fetched)
    ensures var s := ReconcileSpec(records, id, Some(fetched), outcomes);
            var news := NewBoosts(fetched, StoredBoosts(records, id));
            x in NewBoosts(fetched, StoredBoosts(s.records, id)) <==>
              exists k :: 0 <= k < |news| && news[k] == x && !Succeeded(outcomes, k)
  {
    ReconcileStored(records, id, Some(fetched), outcomes);
    RetryOnlyFailed(fetched, StoredBoosts(records, id), outcomes, x);
  }

  /** Idempotence: when every notification of a reconciliation succeeded,
      re-running it with the same fetch attempts nothing and writes nothing. */
  lemma ReconcileIdempotent(records: map<int, Record>, id: int, fetched: Option<seq<Boost>>, first: seq<bool>, second: seq<bool>)
    requires var news := NewBoosts(if fetched.Some? then fetched.value else [], StoredBoosts(records, id));
             forall k :: 0 <= k < |news| ==> Succeeded(first, k)
    ensures var s1 := ReconcileSpec(records, id, fetched, first);
            var s2 := ReconcileSpec(s1.records, id, fetched, second);
            s2.attempts == 0 && !s2.wrote && s2.records == s1.records
  {
    var f := if fetched.Some? then fetched.value else [];
    var stored := StoredBoosts(records, id);
    var news := NewBoosts(f, stored);
    NotifiedAll(news, first);
    ReconcileStored(records, id, fetched, first);
    NewBoostsIdempotent(f, stored);
  }

  /** Every new boost costs one notification attempt, whatever its outcome:
      the attempts a server reports are exactly its new boosts. */
  lemma ReconcileCountsAttempts(records: map<int, Record>, id: int, fetched: Option<seq<Boost>>, outcomes: seq<bool>)
    ensures ReconcileSpec(records, id, fetched, outcomes).attempts ==
            |NewBoosts(if fetched.Some? then fetched.value else [], StoredBoosts(records, id))|
    ensures ReconcileSpec(records, id, fetched, outcomes).attempts >=
            |Notified(NewBoosts(if fetched.Some? then fetched.value else [], StoredBoosts(records, id)), outcomes)|
  {
  }

  /** A failed notification still counts as an attempt: a server whose every
      new boost failed reports as many attempts as it had new boosts and
      writes nothing. */
  lemma ReconcileCountsFailures(records: map<int, Record>, id: int, fetched: seq<Boost>, outcomes: seq<bool>)
    requires forall k :: 0 <= k < |outcomes| ==> !outcomes[k]
    ensures var s := ReconcileSpec(records, id, Some(fetched), outcomes);
            !s.wrote && s.records == records &&
            s.attempts == |NewBoosts(fetched, StoredBoosts(records, id))|
  {
    var news := NewBoosts(fetched, StoredBoosts(records, id));
    NotifiedNone(news, outcomes);
  }

  // ---------------------------------------------------------------------
  // Worked scenarios
  // ---------------------------------------------------------------------

  /** Server 42 has stored `a`; the fetch returns `a` and a different event
      `b`; the one notification (for `b`) succeeds: one attempt, one write,
      and the history becomes `a`, `b`. A copy of `a` with another duration
      and message is not new. */
  lemma EndToEndExample(a: Boost, b: Boost, extendedFor: int, message: Option<string>)
    requires !SameEvent(a, b)
    ensures var s := ReconcileSpec(map[42 := Record(Some([a]))], 42, Some([a, b]), [true]);
            s.attempts == 1 && s.wrote && s.records == map[42 := Record(Some([a, b]))]
    ensures NewBoosts([a.(extendedFor := extendedFor, message := message)], [a]) == []
  {
    assert [a, b][..1] == [a];
    assert [a][..0] == [];
    assert InList(a, [a]) && !InList(b, [a]);
    assert NewBoosts([a], [a]) == [];
    assert NewBoosts([a, b], [a]) == [b];
    assert Notified([b], [true]) == [b];
    assert StoredBoosts(map[42 := Record(Some([a]))], 42) + [b] == [a, b];
    assert map[42 := Record(Some([a]))][42 := Record(Some([a, b]))] == map[42 := Record(Some([a, b]))];
    var c := a.(extendedFor := extendedFor, message := message);
    assert InList(c, [a]);
    assert NewBoosts([c], [a]) == [];
  }

  /** The same scenario with concrete users, timestamps and durations. */
  lemma EndToEndConcrete()
    ensures var a := Boost("A", "2024-01-01T00:00:00", 86400, None);
            var b := Boost("B", "2024-01-02T00:00:00", 172800, None);
            var s := ReconcileSpec(map[42 := Record(Some([a]))], 42, Some([a, b]), [true]);
            s.attempts == 1 && s.records == map[42 := Record(Some([a, b]))]
  {
    var a := Boost("A", "2024-01-01T00:00:00", 86400, None);
    var b := Boost("B", "2024-01-02T00:00:00", 172800, None);
    assert a.username[0] != b.username[0];
    EndToEndExample(a, b, 0, None);
  }

  /** With nothing stored, every fetched boost is new. */
  lemma {:induction false} NewBoostsNothingStored(fetched: seq<Boost>)
    ensures NewBoosts(fetched, []) == fetched
    decreases |fetched|
  {
    if fetched != [] {
      NewBoostsNothingStored(fetched[..|fetched| - 1]);
      assert fetched == fetched[..|fetched| - 1] + [fetched[|fetched| - 1]];
    }
  }

  lemma PartialFailureNotified(b1: Boost, b2: Boost, b3: Boost)
    ensures Notified([b1, b2, b3], [true, false, true]) == [b1, b3]
  {
    var o := [true, false, true];
    assert [b1, b2, b3][..2] == [b1, b2] && [b1, b2][..1] == [b1] && [b1][..0] == [];
    assert Notified([b1], o) == [b1];
    assert Notified([b1, b2], o) == [b1];
  }

  lemma PartialFailureRerun(b1: Boost, b2: Boost, b3: Boost)
    requires !SameEvent(b1, b2) && !SameEvent(b2, b3)
    ensures NewBoosts([b1, b2, b3], [b1, b3]) == [b2]
  {
    var st := [b1, b3];
    assert [b1, b2, b3][..2] == [b1, b2] && [b1, b2][..1] == [b1] && [b1][..0] == [];
    assert InList(b1, st) by { InListOfMember(b1, st); }
    assert InList(b3, st) by { InListOfMember(b3, st); }
    assert !InList(b2, st) by {
      assert !SameEvent(st[0], b2) && !SameEvent(st[1], b2);
    }
    assert NewBoosts([b1], st) == [];
    assert NewBoosts([b1, b2], st) == [b2];
  }

  /** Three new boosts, the second notification fails: the history holds the
      first and the third, and the next run finds only the second as new. */
  lemma PartialFailureExample(b1: Boost, b2: Boost, b3: Boost)
    requires !SameEvent(b1, b2) && !SameEvent(b2, b3)
    ensures var s := ReconcileSpec(map[], 7, Some([b1, b2, b3]), [true, false, true]);
            s.attempts == 3 && s.records == map[7 := Record(Some([b1, b3]))] &&
            NewBoosts([b1, b2, b3], StoredBoosts(s.records, 7)) == [b2]
  {
    NewBoostsNothingStored([b1, b2, b3]);
    PartialFailureNotified(b1, b2, b3);
    PartialFailureRerun(b1, b2, b3);
    assert StoredBoosts(map[], 7) + [b1, b3] == [b1, b3];
  }

  // ---------------------------------------------------------------------
  // The engine
  // ---------------------------------------------------------------------

  /** Collects the fetched boosts that are not in the stored list. */
  method FilterNew(fetched: seq<Boost>, stored: seq<Boost>) returns (news: seq<Boost>)
    ensures news == NewBoosts(fetched, stored)
  {
    news := [];
    var i := 0;
    while i < |fetched|
      invariant 0 <= i <= |fetched|
      invariant news == NewBoosts(fetched[..i], stored)
    {
      var b := fetched[i];
      assert fetched[..i + 1][..i] == fetched[..i];
      if !InList(b, stored) {
        news := news + [b];
      }
      i := i + 1;
    }
    assert fetched[..i] == fetched;
  }

  /** Attempts a notification for every new boost, counting each attempt,
      and collects the boosts whose notification succeeded. */
  method NotifyEach(news: seq<Boost>, outcomes: seq<bool>) returns (attempts: nat, notified: seq<Boost>)
    ensures attempts == |news|
    ensures notified == Notified(news, outcomes)
  {
    attempts := 0;
    notified := [];
    var i := 0;
    while i < |news|
      invariant 0 <= i <= |news|
      invariant attempts == i
      invariant notified == Notified(news[..i], outcomes)
    {
      var b := news[i];
      assert news[..i + 1][..i] == news[..i];
      var response := Succeeded(outcomes, i);
      attempts := attempts + 1;
      if response {
        notified := notified + [b];
      }
      i := i + 1;
    }
    assert news[..i] == news;
  }

  /** Reconciles server `id`: reads its item, finds the new boosts, notifies
      each, and writes the old history followed by the notified boosts with
      one create or update call, or with none. */
  method Reconcile(store: Store, id: int, fetched: Option<seq<Boost>>, outcomes: seq<bool>) returns (attempts: nat, wrote: bool)
    modifies store
    ensures var s := ReconcileSpec(old(store.records), id, fetched, outcomes);
            store.records == s.records && attempts == s.attempts && wrote == s.wrote
    ensures store.writes == old(store.writes) + (if wrote then 1 else 0)
  {
    var item := store.Get(id);
    if fetched.None? || |fetched.value| == 0 {
      return 0, false;
    }
    var dbBoosts: seq<Boost> := [];
    if item.Some? && item.value.boosts.Some? {
      dbBoosts := item.value.boosts.value;
    }
    var news := FilterNew(fetched.value, dbBoosts);
    if |news| == 0 {
      return 0, false;
    }
    var notified;
    attempts, notified := NotifyEach(news, outcomes);
    if |notified| == 0 {
      return attempts, false;
    }
    if item.None? {
      store.Create(id, notified);
    } else if item.value.boosts.None? {
      store.SetBoosts(id, notified);
    } else {
      store.SetBoosts(id, dbBoosts + notified);
    }
    assert [] + notified == notified;
    wrote := true;
  }
}
