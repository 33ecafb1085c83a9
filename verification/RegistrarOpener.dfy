/**
 The registrar opener as it is written: batches kept in maps, and loops that insert, fold and
 remove names one by one. Each method is proved to do what the value model says; a method that
 answers `false` has changed nothing.
 */
module RegistrarOpener {
  import opened Bytes
  import opened Common
  import M = OpenerModel

  lemma PrefixGrows<T>(xs: seq<T>, i: nat)
    requires i < |xs|
    ensures xs[..i + 1] == xs[..i] + [xs[i]]
    ensures Elements(xs[..i + 1]) == Elements(xs[..i]) + {xs[i]}
  {
  }

  /** `assert_openable`: one walk over the list, refusing repeats and unopenable names. */
  method CheckOpenable(names: seq<M.Name>) returns (ok: bool)
    ensures ok == M.Openable(names)
  {
    if names == [] {
      return false;
    }
    var seen := {};
    for i := 0 to |names|
      invariant seen == Elements(names[..i])
      invariant forall j, k :: 0 <= j < k < i ==> names[j] != names[k]
      invariant forall j :: 0 <= j < i ==> M.OpenableName(names[j])
    {
      if names[i] in seen {
        var j :| 0 <= j < i && names[..i][j] == names[i];
        assert names[j] == names[i];
        return false;
      }
      if !M.OpenableName(names[i]) {
        return false;
      }
      PrefixGrows(names, i);
      assert forall j :: 0 <= j < i ==> names[j] in seen by {
        forall j | 0 <= j < i
          ensures names[j] in seen
        {
          assert names[j] == names[..i][j];
        }
      }
      seen := seen + {names[i]};
    }
    return true;
  }

  /** Removes names from a set one by one, counting those that were there. */
  method FreeNames(held: set<M.Name>, forgotten: seq<M.Name>) returns (stranded: set<M.Name>, freed: nat)
    ensures stranded == held - Elements(forgotten)
    ensures freed == |held * Elements(forgotten)|
  {
    stranded, freed := held, 0;
    for i := 0 to |forgotten|
      invariant stranded == held - Elements(forgotten[..i])
      invariant freed == |held * Elements(forgotten[..i])|
    {
      PrefixGrows(forgotten, i);
      ghost var before, upTo := Elements(forgotten[..i]), Elements(forgotten[..i + 1]);
      if forgotten[i] in stranded {
        assert held * upTo == held * before + {forgotten[i]};
        stranded := stranded - {forgotten[i]};
        freed := freed + 1;
      } else {
        assert held * upTo == held * before;
      }
    }
    assert forgotten[..|forgotten|] == forgotten;
  }

  class RegistrarOpener {
    const self: M.Name
    var admin: M.Name
    var pendingAdmin: Option<M.Name>
    var operator: M.Name
    var batches: map<nat, M.Batch>
    var nextBatchId: nat
    var openedCount: nat
    var failedCount: nat
    var names: map<nat, set<M.Name>>

    function Snapshot(): M.State
      reads this
    {
      M.State(self, admin, pendingAdmin, operator, batches, nextBatchId, openedCount, failedCount, names)
    }

    constructor (here: M.Name, a: M.Name, o: M.Name)
      requires M.New(here, a, o).Some?
      ensures Some(Snapshot()) == M.New(here, a, o)
    {
      self, admin, pendingAdmin, operator := here, a, None, o;
      batches, nextBatchId, names := map[], 0, map[];
      openedCount, failedCount := 0, 0;
    }

    method CreateBatch(h: M.Host, ctx: M.Ctx, setup: M.Setup) returns (ok: bool, id: nat)
      modifies this
      ensures ok == M.Create(old(Snapshot()), h, ctx, setup).Some?
      ensures Snapshot() == if ok then M.Create(old(Snapshot()), h, ctx, setup).value else old(Snapshot())
      ensures ok ==> id == old(nextBatchId)
    {
      id := nextBatchId;
      if ctx.deposit != 1 || ctx.caller != operator || !M.ValidSetup(Snapshot(), h, setup) {
        return false, id;
      }
      if |batches| >= M.MAX_LIVE_BATCHES {
        return false, id;
      }
      nextBatchId := id + 1;
      batches := batches[id := M.Batch(false, M.SeedDigest(h, setup), 0, 0, setup)];
      return true, id;
    }

    method AddNames(h: M.Host, ctx: M.Ctx, id: nat, added: seq<M.Name>) returns (ok: bool)
      modifies this`batches, this`names
      ensures ok == M.Add(old(Snapshot()), h, ctx, id, added).Some?
      ensures Snapshot() == if ok then M.Add(old(Snapshot()), h, ctx, id, added).value else old(Snapshot())
    {
      if ctx.deposit != 1 || ctx.caller != operator || |added| > M.MAX_NAMES_PER_ADD {
        return false;
      }
      ok := CheckOpenable(added);
      if !ok || id !in batches || batches[id].approved {
        return false;
      }
      var batch := batches[id];
      var held := M.NamesOf(Snapshot(), id);
      var listed, digest, count, remaining := held, batch.digest, batch.count, batch.remaining;
      for i := 0 to |added|
        invariant Snapshot() == old(Snapshot())
        invariant listed == held + Elements(added[..i])
        invariant digest == M.ListDigest(h, batch.digest, added[..i])
        invariant count == batch.count + i && remaining == batch.remaining + i
        invariant forall j :: 0 <= j < i ==> added[j] !in held
      {
        if added[i] in listed {
          return false;
        }
        PrefixGrows(added, i);
        assert added[..i + 1][..i] == added[..i];
        listed := listed + {added[i]};
        digest := M.FoldDigest(h, digest, added[i]);
        count := count + 1;
        remaining := remaining + 1;
      }
      assert added[..|added|] == added;
      names := names[id := listed];
      batches := batches[id := batch.(digest := digest, count := count, remaining := remaining)];
      return true;
    }

    method ApproveBatch(ctx: M.Ctx, id: nat, digest: M.Digest) returns (ok: bool)
      modifies this`batches
      ensures ok == M.Approve(old(Snapshot()), ctx, id, digest).Some?
      ensures Snapshot() == if ok then M.Approve(old(Snapshot()), ctx, id, digest).value else old(Snapshot())
    {
      if ctx.deposit != 1 || ctx.caller != admin || id !in batches {
        return false;
      }
      var batch := batches[id];
      if batch.approved || batch.remaining == 0 || batch.digest != digest {
        return false;
      }
      batches := batches[id := batch.(approved := true)];
      return true;
    }

    method DiscardBatch(ctx: M.Ctx, id: nat) returns (ok: bool)
      modifies this`batches
      ensures ok == M.Discard(old(Snapshot()), ctx, id).Some?
      ensures Snapshot() == if ok then M.Discard(old(Snapshot()), ctx, id).value else old(Snapshot())
    {
      if ctx.deposit != 1 || (ctx.caller != operator && ctx.caller != admin) || id !in batches {
        return false;
      }
      var revoking := ctx.caller == admin;
      var spent := batches[id].remaining == 0;
      if !revoking && !spent && batches[id].approved {
        return false;
      }
      batches := batches - {id};
      return true;
    }

    /** Frees the names a discarded batch left in storage, and answers how many there were. */
    method ForgetNames(ctx: M.Ctx, id: nat, forgotten: seq<M.Name>) returns (ok: bool, freed: nat)
      modifies this`names
      ensures ok == M.Forget(old(Snapshot()), ctx, id, forgotten).Some?
      ensures Snapshot() == if ok then M.Forget(old(Snapshot()), ctx, id, forgotten).value else old(Snapshot())
      ensures ok ==> freed == |M.NamesOf(old(Snapshot()), id) * Elements(forgotten)|
    {
      freed := 0;
      if ctx.deposit != 1 || (ctx.caller != operator && ctx.caller != admin) {
        return false, 0;
      }
      if forgotten == [] || |forgotten| > M.MAX_NAMES_PER_ADD || id >= nextBatchId || id in batches {
        return false, 0;
      }
      var stranded;
      stranded, freed := FreeNames(M.NamesOf(Snapshot(), id), forgotten);
      names := names[id := stranded];
      return true, freed;
    }

    method OpenNames(ctx: M.Ctx, id: nat, opening: seq<M.Name>) returns (ok: bool)
      modifies this`batches, this`names
      ensures ok == M.Open(old(Snapshot()), ctx, id, opening).Some?
      ensures Snapshot() == if ok then M.Open(old(Snapshot()), ctx, id, opening).value else old(Snapshot())
    {
      if ctx.caller != operator || |opening| > M.MAX_NAMES_PER_CALL {
        return false;
      }
      ok := CheckOpenable(opening);
      if !ok || id !in batches || !batches[id].approved {
        return false;
      }
      var batch := batches[id];
      if ctx.deposit != batch.setup.funding * |opening| {
        return false;
      }
      var held := M.NamesOf(Snapshot(), id);
      var listed, remaining := held, batch.remaining;
      for i := 0 to |opening|
        invariant Snapshot() == old(Snapshot())
        invariant listed == held - Elements(opening[..i])
        invariant remaining == SatSub(batch.remaining, i)
        invariant forall j :: 0 <= j < i ==> opening[j] in held
      {
        if opening[i] !in listed {
          return false;
        }
        PrefixGrows(opening, i);
        listed := listed - {opening[i]};
        remaining := SatSub(remaining, 1);
      }
      assert opening[..|opening|] == opening;
      names := names[id := listed];
      batches := batches[id := batch.(remaining := remaining)];
      return true;
    }

    method OnNameOpened(id: nat, name: M.Name, succeeded: bool)
      modifies this
      ensures Snapshot() == M.OnNameOpened(old(Snapshot()), id, name, succeeded)
    {
      if succeeded {
        openedCount := openedCount + 1;
        return;
      }
      failedCount := failedCount + 1;
      if id in batches {
        var listed := M.NamesOf(Snapshot(), id);
        if name !in listed {
          names := names[id := listed + {name}];
          batches := batches[id := batches[id].(remaining := batches[id].remaining + 1)];
        }
      }
    }
  }
}
