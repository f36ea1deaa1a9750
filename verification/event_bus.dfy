/** The publish/subscribe hub. */
module EventHub {
  import opened EventMatching

  /** Who is called back: the closure that `arm` makes for a hook, which holds
      the hook, a stop condition, the timeline recorder, or other code. */
  datatype Handler = ForHook(key: nat, hook: Hook) | ForStop(n: nat) | ForRecorder | Foreign(n: nat)

  datatype Sub = Sub(id: nat, patterns: seq<string>, handler: Handler, once: bool)

  /** The subscriptions whose id is not in the set. */
  function Without(subs: seq<Sub>, ids: set<nat>): seq<Sub> {
    if subs == [] then []
    else (if subs[0].id in ids then [] else [subs[0]]) + Without(subs[1..], ids)
  }

  /** The subscriptions an event of this type reaches. */
  function Hits(subs: seq<Sub>, kind: string): seq<Sub> {
    if subs == [] then []
    else (if MatchesKind(subs[0].patterns, kind) then [subs[0]] else []) + Hits(subs[1..], kind)
  }

  function OnceIds(subs: seq<Sub>): set<nat> {
    set s | s in subs && s.once :: s.id
  }

  // ---------------------------------------------------------------- laws

  lemma {:induction false} WithoutMembers(subs: seq<Sub>, ids: set<nat>)
    ensures forall s :: s in Without(subs, ids) <==> s in subs && s.id !in ids
  {
    if subs != [] {
      WithoutMembers(subs[1..], ids);
      assert subs == [subs[0]] + subs[1..];
    }
  }

  lemma {:induction false} HitsMembers(subs: seq<Sub>, kind: string)
    ensures forall s :: s in Hits(subs, kind) <==> s in subs && MatchesKind(s.patterns, kind)
  {
    hide MatchesKind;
    if subs != [] {
      HitsMembers(subs[1..], kind);
      assert subs == [subs[0]] + subs[1..];
    }
  }

  lemma {:induction false} WithoutNone(subs: seq<Sub>, ids: set<nat>)
    requires forall s :: s in subs ==> s.id !in ids
    ensures Without(subs, ids) == subs
  {
    if subs != [] {
      assert subs[0] in subs && subs == [subs[0]] + subs[1..];
      WithoutNone(subs[1..], ids);
    }
  }

  lemma WithoutCons(s: Sub, subs: seq<Sub>, ids: set<nat>)
    ensures Without([s] + subs, ids) == (if s.id in ids then [] else [s]) + Without(subs, ids)
  {
    assert ([s] + subs)[1..] == subs;
  }

  lemma {:induction false} WithoutTwice(subs: seq<Sub>, ids: set<nat>, others: set<nat>)
    ensures Without(Without(subs, ids), others) == Without(subs, ids + others)
  {
    if subs != [] {
      WithoutTwice(subs[1..], ids, others);
      WithoutCons(subs[0], Without(subs[1..], ids), others);
      assert Without(subs, ids) == if subs[0].id in ids then Without(subs[1..], ids) else [subs[0]] + Without(subs[1..], ids);
    }
  }

  lemma WithoutEmpty(ids: set<nat>)
    ensures Without([], ids) == []
  {
  }

  lemma {:induction false} WithoutAppend(subs: seq<Sub>, more: seq<Sub>, ids: set<nat>)
    ensures Without(subs + more, ids) == Without(subs, ids) + Without(more, ids)
  {
    hide Without;
    if subs == [] {
      assert subs + more == more;
      WithoutEmpty(ids);
    } else {
      WithoutAppend(subs[1..], more, ids);
      WithoutCons(subs[0], subs[1..] + more, ids);
      WithoutCons(subs[0], subs[1..], ids);
      assert subs + more == [subs[0]] + (subs[1..] + more) && subs == [subs[0]] + subs[1..];
    }
  }

  lemma {:induction false} WithoutSame(subs: seq<Sub>, ids: set<nat>, others: set<nat>)
    requires forall s :: s in subs ==> (s.id in ids <==> s.id in others)
    ensures Without(subs, ids) == Without(subs, others)
  {
    if subs != [] {
      assert subs[0] in subs && subs == [subs[0]] + subs[1..];
      WithoutSame(subs[1..], ids, others);
    }
  }

  lemma {:induction false} HitsAppend(subs: seq<Sub>, more: seq<Sub>, kind: string)
    ensures Hits(subs + more, kind) == Hits(subs, kind) + Hits(more, kind)
  {
    hide MatchesKind;
    if subs == [] {
      assert subs + more == more;
    } else {
      HitsAppend(subs[1..], more, kind);
      assert (subs + more)[1..] == subs[1..] + more;
    }
  }

  /** The one-shot subscriptions of a list, one element at a time. */
  lemma OnceIdsAppend(subs: seq<Sub>, s: Sub)
    ensures OnceIds(subs + [s]) == OnceIds(subs) + if s.once then {s.id} else {}
  {
  }

  // --------------------------------------------------------------- the bus

  class EventBus {
    var subs: seq<Sub>
    var nextId: nat

    constructor ()
      ensures subs == [] && nextId == 1
    {
      subs, nextId := [], 1;
    }

    method Subscribe(patterns: seq<string>, handler: Handler, once: bool) returns (id: nat)
      modifies this
      ensures id == old(nextId) && nextId == id + 1
      ensures subs == old(subs) + [Sub(id, patterns, handler, once)]
    {
      id := nextId;
      nextId := nextId + 1;
      subs := subs + [Sub(id, patterns, handler, once)];
    }

    method Unsubscribe(id: nat)
      modifies this`subs
      ensures subs == Without(old(subs), {id})
    {
      Pop({id});
    }

    /** The entries with these ids leave the table. */
    method Pop(ids: set<nat>)
      modifies this`subs
      ensures subs == Without(old(subs), ids)
    {
      var all, kept: seq<Sub> := subs, [];
      for i := 0 to |all|
        invariant kept == Without(all[..i], ids)
      {
        assert all[..i + 1] == all[..i] + [all[i]];
        WithoutAppend(all[..i], [all[i]], ids);
        if all[i].id !in ids {
          kept := kept + [all[i]];
        }
      }
      assert all[..|all|] == all;
      subs := kept;
    }

    /** The subscriptions `emit` calls back, in order. */
    method Snapshot(kind: string) returns (hits: seq<Sub>)
      ensures hits == Hits(subs, kind)
    {
      hide MatchesKind;
      hits := [];
      for i := 0 to |subs|
        invariant hits == Hits(subs[..i], kind)
      {
        assert subs[..i + 1] == subs[..i] + [subs[i]];
        HitsAppend(subs[..i], [subs[i]], kind);
        var hit := AnyMatches(subs[i].patterns, kind);
        if hit {
          hits := hits + [subs[i]];
        }
      }
      assert subs[..|subs|] == subs;
    }

    /** The end of `emit`: the one-shot subscriptions it called back are removed. */
    method RemoveOnce(hits: seq<Sub>)
      modifies this`subs
      ensures subs == Without(old(subs), OnceIds(hits))
    {
      var toRemove: set<nat> := {};
      for i := 0 to |hits|
        invariant toRemove == OnceIds(hits[..i]) && subs == old(subs)
      {
        assert hits[..i + 1] == hits[..i] + [hits[i]];
        OnceIdsAppend(hits[..i], hits[i]);
        if hits[i].once {
          toRemove := toRemove + {hits[i].id};
        }
      }
      assert hits[..|hits|] == hits;
      Pop(toRemove);
    }
  }
}
