/**
 What every run of the opener keeps: no name of a batch is lost or opened twice, and only names
 the admin approved by digest are ever opened.
 */
module OpenerRuns {
  import opened Bytes
  import opened Common
  import opened OpenerModel

  /** What has happened around one batch: opens in flight, opens done, names given, digest approved. */
  datatype Trail = Trail(flying: multiset<Name>, done: set<Name>, added: seq<Name>, approval: Option<Digest>)

  const NO_TRAIL := Trail(multiset{}, {}, [], None)

  datatype World = World(s: State, trails: map<nat, Trail>)

  datatype Event = Called(ctx: Ctx, call: Call) | Resolved(batchId: nat, name: Name, succeeded: bool)

  function TrailOf(w: World, id: nat): Trail {
    if id in w.trails then w.trails[id] else NO_TRAIL
  }

  /** What an accepted call adds to the trail of batch `id`. */
  function Extended(t: Trail, c: Call, id: nat): Trail {
    match c
    case AddNames(k, names) => if k == id then t.(added := t.added + names) else t
    case ApproveBatch(k, digest) => if k == id then t.(approval := Some(digest)) else t
    case OpenNames(k, names) => if k == id then t.(flying := t.flying + multiset(names)) else t
    case _ => t
  }

  function Landed(t: Trail, name: Name, succeeded: bool): Trail {
    t.(flying := t.flying - multiset{name}, done := if succeeded then t.done + {name} else t.done)
  }

  /** One event: an accepted or rejected call, or the outcome of any open in flight. */
  function Next(w: World, h: Host, e: Event): World {
    match e
    case Called(ctx, call) =>
      var r := Apply(w.s, h, ctx, call);
      if r.None? then w
      else if call.AddNames? || call.ApproveBatch? || call.OpenNames? then
        World(r.value, w.trails[call.batchId := Extended(TrailOf(w, call.batchId), call, call.batchId)])
      else World(r.value, w.trails)
    case Resolved(id, name, succeeded) =>
      if name !in TrailOf(w, id).flying then w
      else World(OnNameOpened(w.s, id, name, succeeded), w.trails[id := Landed(TrailOf(w, id), name, succeeded)])
  }

  ghost predicate Run(h: Host, ws: seq<World>, events: seq<Event>) {
    && |ws| == |events| + 1
    && (exists self: Name, admin: Name, operator: Name ::
          New(self, admin, operator).Some? && ws[0] == World(New(self, admin, operator).value, map[]))
    && forall i :: 0 <= i < |events| ==> ws[i + 1] == Next(ws[i], h, events[i])
  }

  // ---------------------------------------------------------------- one batch's books

  ghost function Support<T>(m: multiset<T>): set<T> {
    set x | x in m
  }

  ghost predicate AtMostOnce<T(!new)>(m: multiset<T>) {
    forall x :: m[x] <= 1
  }

  /** `all` is the disjoint union of the other three. */
  ghost predicate Partition<T>(all: set<T>, a: set<T>, b: set<T>, c: set<T>) {
    all == a + b + c && a !! b && a !! c && b !! c
  }

  /** The names of a live batch: every name given is listed, in flight or done, and in one place only. */
  ghost predicate NamesBalanced(listed: set<Name>, t: Trail) {
    && Distinct(t.added)
    && Partition(Elements(t.added), listed, Support(t.flying), t.done)
    && AtMostOnce(t.flying)
  }

  ghost predicate Balanced(b: Batch, listed: set<Name>, t: Trail) {
    && NamesBalanced(listed, t)
    && b.count == |t.added|
    && b.remaining == |listed|
    && (!b.approved ==> Support(t.flying) == {} && t.done == {})
  }

  ghost predicate BatchSound(w: World, id: nat) {
    id in w.s.batches ==> Balanced(w.s.batches[id], NamesOf(w.s, id), TrailOf(w, id))
  }

  ghost predicate Unused(w: World, id: nat) {
    id !in w.s.batches && NamesOf(w.s, id) == {} && TrailOf(w, id) == NO_TRAIL
  }

  ghost predicate Sound(w: World) {
    && (forall id: nat :: BatchSound(w, id))
    && (forall id: nat :: id >= w.s.nextBatchId ==> Unused(w, id))
  }

  lemma SupportAdd<T(!new)>(m: multiset<T>, xs: seq<T>)
    requires AtMostOnce(m) && Distinct(xs) && Support(m) !! Elements(xs)
    ensures AtMostOnce(m + multiset(xs))
    ensures Support(m + multiset(xs)) == Support(m) + Elements(xs)
  {
    DistinctMultiset(xs);
    forall x
      ensures (m + multiset(xs))[x] <= 1
    {
      assert x in m ==> x in Support(m);
      assert x in xs ==> x in Elements(xs);
    }
  }

  lemma SupportDrop<T(!new)>(m: multiset<T>, x: T)
    requires AtMostOnce(m) && x in m
    ensures AtMostOnce(m - multiset{x})
    ensures Support(m - multiset{x}) == Support(m) - {x}
  {
    forall y
      ensures (m - multiset{x})[y] == if y == x then 0 else m[y]
    {
    }
  }

  lemma OpenMovesNames(listed: set<Name>, t: Trail, names: seq<Name>)
    requires NamesBalanced(listed, t) && Distinct(names) && Elements(names) <= listed
    ensures NamesBalanced(listed - Elements(names), t.(flying := t.flying + multiset(names)))
    ensures |listed - Elements(names)| == |listed| - |names|
  {
    SupportAdd(t.flying, names);
    DistinctCardinality(names);
    assert listed == (listed - Elements(names)) + Elements(names);
  }

  lemma LandMovesName(listed: set<Name>, t: Trail, name: Name, succeeded: bool)
    requires NamesBalanced(listed, t) && name in t.flying
    ensures name !in listed
    ensures NamesBalanced(if succeeded then listed else listed + {name}, Landed(t, name, succeeded))
  {
    SupportDrop(t.flying, name);
    assert name in Support(t.flying);
  }

  lemma ElementsOfConcat<T>(xs: seq<T>, ys: seq<T>)
    ensures Elements(xs + ys) == Elements(xs) + Elements(ys)
  {
  }

  lemma DistinctConcat<T>(xs: seq<T>, ys: seq<T>)
    requires Distinct(xs) && Distinct(ys) && Elements(xs) !! Elements(ys)
    ensures Distinct(xs + ys)
  {
    forall i, j | 0 <= i < j < |xs + ys|
      ensures (xs + ys)[i] != (xs + ys)[j]
    {
      if i < |xs| <= j {
        assert xs[i] in Elements(xs) && ys[j - |xs|] in Elements(ys);
      }
    }
  }

  lemma {:induction false} DistinctMultiset<T>(xs: seq<T>)
    requires Distinct(xs)
    ensures forall x :: multiset(xs)[x] == if x in xs then 1 else 0
  {
    if xs != [] {
      var before, last := xs[..|xs| - 1], xs[|xs| - 1];
      DistinctMultiset(before);
      assert xs == before + [last];
    }
  }

  lemma AddBalances(b: Batch, listed: set<Name>, t: Trail, names: seq<Name>)
    requires Balanced(b, listed, t) && !b.approved && Distinct(names) && listed !! Elements(names)
    ensures Balanced(b.(count := b.count + |names|, remaining := b.remaining + |names|),
                     listed + Elements(names), t.(added := t.added + names))
  {
    ElementsOfConcat(t.added, names);
    DistinctConcat(t.added, names);
    DistinctCardinality(names);
  }

  lemma LandBalances(b: Batch, listed: set<Name>, t: Trail, name: Name, succeeded: bool)
    requires Balanced(b, listed, t) && name in t.flying
    ensures name !in listed
    ensures if succeeded then Balanced(b, listed, Landed(t, name, true))
            else Balanced(b.(remaining := b.remaining + 1), listed + {name}, Landed(t, name, false))
  {
    LandMovesName(listed, t, name, succeeded);
    assert name in Support(t.flying);
  }

  // ---------------------------------------------------------------- every event keeps every batch

  lemma AddKeepsBatch(w: World, h: Host, ctx: Ctx, id: nat, names: seq<Name>)
    requires BatchSound(w, id) && Add(w.s, h, ctx, id, names).Some?
    ensures BatchSound(Next(w, h, Called(ctx, AddNames(id, names))), id)
  {
    var b, listed, t := w.s.batches[id], NamesOf(w.s, id), TrailOf(w, id);
    var s' := Add(w.s, h, ctx, id, names).value;
    AddBalances(b, listed, t, names);
    assert NamesOf(s', id) == listed + Elements(names);
  }

  lemma OpenBalances(b: Batch, listed: set<Name>, t: Trail, names: seq<Name>)
    requires Balanced(b, listed, t) && b.approved && Distinct(names) && Elements(names) <= listed
    ensures Balanced(b.(remaining := SatSub(b.remaining, |names|)), listed - Elements(names),
                     t.(flying := t.flying + multiset(names)))
  {
    OpenMovesNames(listed, t, names);
  }

  lemma OpenFits(s: State, ctx: Ctx, id: nat, names: seq<Name>)
    requires Open(s, ctx, id, names).Some?
    ensures id in s.batches && s.batches[id].approved && Distinct(names) && Elements(names) <= NamesOf(s, id)
  {
  }

  lemma OpenEffect(w: World, h: Host, ctx: Ctx, id: nat, names: seq<Name>)
    requires Open(w.s, ctx, id, names).Some?
    ensures var b, listed, t, w' := w.s.batches[id], NamesOf(w.s, id), TrailOf(w, id), Next(w, h, Called(ctx, OpenNames(id, names)));
            && id in w'.s.batches && w'.s.batches[id] == b.(remaining := SatSub(b.remaining, |names|))
            && NamesOf(w'.s, id) == listed - Elements(names)
            && TrailOf(w', id) == t.(flying := t.flying + multiset(names))
  {
  }

  lemma OpenKeepsBatch(w: World, h: Host, ctx: Ctx, id: nat, names: seq<Name>)
    requires BatchSound(w, id) && Open(w.s, ctx, id, names).Some?
    ensures BatchSound(Next(w, h, Called(ctx, OpenNames(id, names))), id)
  {
    OpenFits(w.s, ctx, id, names);
    OpenBalances(w.s.batches[id], NamesOf(w.s, id), TrailOf(w, id), names);
    OpenEffect(w, h, ctx, id, names);
  }

  lemma CreateKeepsBatch(w: World, h: Host, ctx: Ctx, c: Call)
    requires c.CreateBatch? && Unused(w, w.s.nextBatchId) && Apply(w.s, h, ctx, c).Some?
    ensures BatchSound(Next(w, h, Called(ctx, c)), w.s.nextBatchId)
  {
    var b := Batch(false, SeedDigest(h, c.setup), 0, 0, c.setup);
    assert Balanced(b, {}, NO_TRAIL);
  }

  lemma ApproveKeepsBatch(w: World, h: Host, ctx: Ctx, c: Call)
    requires c.ApproveBatch? && BatchSound(w, c.batchId) && Apply(w.s, h, ctx, c).Some?
    ensures BatchSound(Next(w, h, Called(ctx, c)), c.batchId)
  {
    var b, listed, t := w.s.batches[c.batchId], NamesOf(w.s, c.batchId), TrailOf(w, c.batchId);
    assert Balanced(b.(approved := true), listed, t.(approval := Some(c.digest)));
  }

  /** What a call leaves alone: every batch it does not name, and what is listed and recorded for it. */
  lemma CallFrame(w: World, h: Host, ctx: Ctx, c: Call, id: nat)
    requires Apply(w.s, h, ctx, c).Some?
    requires !(c.CreateBatch? && id == w.s.nextBatchId)
    requires !((c.AddNames? || c.OpenNames? || c.ApproveBatch?) && id == c.batchId)
    ensures var w' := Next(w, h, Called(ctx, c));
            && TrailOf(w', id) == TrailOf(w, id)
            && (id in w'.s.batches ==>
                  && id in w.s.batches && w'.s.batches[id] == w.s.batches[id]
                  && NamesOf(w'.s, id) == NamesOf(w.s, id))
  {
  }

  lemma CallKeepsBatch(w: World, h: Host, ctx: Ctx, c: Call, id: nat)
    requires BatchSound(w, id) && (id >= w.s.nextBatchId ==> Unused(w, id)) && Apply(w.s, h, ctx, c).Some?
    ensures BatchSound(Next(w, h, Called(ctx, c)), id)
  {
    if c.CreateBatch? && id == w.s.nextBatchId {
      CreateKeepsBatch(w, h, ctx, c);
    } else if c.AddNames? && id == c.batchId {
      AddKeepsBatch(w, h, ctx, id, c.added);
    } else if c.OpenNames? && id == c.batchId {
      OpenKeepsBatch(w, h, ctx, id, c.opening);
    } else if c.ApproveBatch? && id == c.batchId {
      ApproveKeepsBatch(w, h, ctx, c);
    } else {
      CallFrame(w, h, ctx, c, id);
    }
  }

  lemma ResolvedFrame(w: World, h: Host, e: Event, id: nat)
    requires e.Resolved? && e.name in TrailOf(w, e.batchId).flying
    requires id in w.s.batches
    requires id == e.batchId ==> e.name !in NamesOf(w.s, id)
    ensures var w', b, listed, t := Next(w, h, e), w.s.batches[id], NamesOf(w.s, id), TrailOf(w, id);
            && id in w'.s.batches
            && if id != e.batchId then w'.s.batches[id] == b && NamesOf(w'.s, id) == listed && TrailOf(w', id) == t
               else
                 && TrailOf(w', id) == Landed(t, e.name, e.succeeded)
                 && NamesOf(w'.s, id) == (if e.succeeded then listed else listed + {e.name})
                 && w'.s.batches[id] == (if e.succeeded then b else b.(remaining := b.remaining + 1))
  {
  }

  lemma ResolvedKeepsBatch(w: World, h: Host, e: Event, id: nat)
    requires BatchSound(w, id) && e.Resolved? && e.name in TrailOf(w, e.batchId).flying
    ensures BatchSound(Next(w, h, e), id)
  {
    if id in w.s.batches {
      if id == e.batchId {
        LandBalances(w.s.batches[id], NamesOf(w.s, id), TrailOf(w, id), e.name, e.succeeded);
      }
      ResolvedFrame(w, h, e, id);
    }
  }

  lemma UnusedStays(w: World, h: Host, e: Event, id: nat)
    requires Sound(w) && id >= Next(w, h, e).s.nextBatchId
    ensures Unused(Next(w, h, e), id)
  {
    assert Unused(w, id);
    if e.Called? && Apply(w.s, h, e.ctx, e.call).Some? {
      CallFrame(w, h, e.ctx, e.call, id);
    }
  }

  lemma EventKeepsSound(w: World, h: Host, e: Event)
    requires Sound(w)
    ensures Sound(Next(w, h, e))
  {
    forall id: nat
      ensures BatchSound(Next(w, h, e), id)
    {
      assert BatchSound(w, id);
      if e.Resolved? {
        if e.name in TrailOf(w, e.batchId).flying {
          ResolvedKeepsBatch(w, h, e, id);
        }
      } else if Apply(w.s, h, e.ctx, e.call).Some? {
        CallKeepsBatch(w, h, e.ctx, e.call, id);
      }
    }
    forall id: nat | id >= Next(w, h, e).s.nextBatchId
      ensures Unused(Next(w, h, e), id)
    {
      UnusedStays(w, h, e, id);
    }
  }

  /**
   Conservation: in every state of every run, for every live batch, the names it was ever given
   are exactly those still listed, those in flight and those opened; the three never overlap;
   no open is in flight twice; and the counters agree with the sets they count.
   */
  lemma {:induction false} NamesAreConserved(h: Host, ws: seq<World>, events: seq<Event>, i: nat)
    requires Run(h, ws, events) && i < |ws|
    ensures Sound(ws[i])
  {
    if i > 0 {
      NamesAreConserved(h, ws, events, i - 1);
      EventKeepsSound(ws[i - 1], h, events[i - 1]);
    }
  }

  // ---------------------------------------------------------------- digests and approval

  /** The digest does not depend on how a list was split into calls. */
  lemma {:induction false} DigestSplits(h: Host, d: Digest, xs: seq<Name>, ys: seq<Name>)
    ensures ListDigest(h, d, xs + ys) == ListDigest(h, ListDigest(h, d, xs), ys)
    decreases |ys|
  {
    if ys == [] {
      assert xs + ys == xs;
    } else {
      var before, last := ys[..|ys| - 1], ys[|ys| - 1];
      DigestSplits(h, d, xs, before);
      assert (xs + ys)[..|xs + ys| - 1] == xs + before;
    }
  }

  /** A live batch's digest is that of its setup and of every name it was given, in order. */
  ghost predicate DigestSound(w: World, h: Host, id: nat) {
    id in w.s.batches ==>
      var b, t := w.s.batches[id], TrailOf(w, id);
      && b.digest == ListDigest(h, SeedDigest(h, b.setup), t.added)
      && (b.approved ==> t.approval == Some(b.digest))
      && |b.setup.initArgs| <= MAX_INIT_ARGS_LEN
      && (forall i :: 0 <= i < |t.added| ==> ValidAccountId(t.added[i]))
  }

  lemma CallKeepsDigest(w: World, h: Host, ctx: Ctx, c: Call, id: nat)
    requires Sound(w) && DigestSound(w, h, id) && Apply(w.s, h, ctx, c).Some?
    ensures DigestSound(Next(w, h, Called(ctx, c)), h, id)
  {
    if c.CreateBatch? && id == w.s.nextBatchId {
      assert Unused(w, id);
    } else if c.AddNames? && id == c.batchId {
      DigestSplits(h, SeedDigest(h, w.s.batches[id].setup), TrailOf(w, id).added, c.added);
    } else if !((c.ApproveBatch? || c.OpenNames?) && id == c.batchId) {
      CallFrame(w, h, ctx, c, id);
    }
  }

  lemma ResolvedKeepsDigest(w: World, h: Host, e: Event, id: nat)
    requires DigestSound(w, h, id) && e.Resolved?
    ensures DigestSound(Next(w, h, e), h, id)
  {
  }

  lemma StepKeepsDigest(w: World, h: Host, e: Event, id: nat)
    requires Sound(w) && DigestSound(w, h, id)
    ensures DigestSound(Next(w, h, e), h, id)
  {
    if e.Resolved? {
      ResolvedKeepsDigest(w, h, e, id);
    } else if Apply(w.s, h, e.ctx, e.call).Some? {
      CallKeepsDigest(w, h, e.ctx, e.call, id);
    }
  }

  lemma {:induction false} DigestsCoverTheirNames(h: Host, ws: seq<World>, events: seq<Event>, i: nat, id: nat)
    requires Run(h, ws, events) && i < |ws|
    ensures DigestSound(ws[i], h, id)
  {
    if i > 0 {
      DigestsCoverTheirNames(h, ws, events, i - 1, id);
      NamesAreConserved(h, ws, events, i - 1);
      assert ws[i - 1 + 1] == Next(ws[i - 1], h, events[i - 1]);
      StepKeepsDigest(ws[i - 1], h, events[i - 1], id);
    }
  }

  /**
   Only approved names are opened: when the operator's open is accepted, each name it sends was
   folded into the digest the admin named when approving that batch.
   */
  lemma OpenedNamesWereApproved(h: Host, ws: seq<World>, events: seq<Event>, i: nat, n: Name)
    requires Run(h, ws, events) && i < |events|
    requires events[i].Called? && events[i].call.OpenNames? && n in events[i].call.opening
    requires Apply(ws[i].s, h, events[i].ctx, events[i].call).Some?
    ensures var id := events[i].call.batchId;
            var t := TrailOf(ws[i], id);
            && id in ws[i].s.batches
            && n in t.added
            && t.approval == Some(ListDigest(h, SeedDigest(h, ws[i].s.batches[id].setup), t.added))
  {
    var id := events[i].call.batchId;
    NamesAreConserved(h, ws, events, i);
    DigestsCoverTheirNames(h, ws, events, i, id);
    assert BatchSound(ws[i], id);
    assert n in NamesOf(ws[i].s, id);
    assert n in Elements(TrailOf(ws[i], id).added);
  }

  /** The admin of the moment approves the batch by its digest. */
  ghost predicate Approves(w: World, h: Host, e: Event, id: nat, digest: Digest) {
    && e.Called? && e.call == ApproveBatch(id, digest) && Apply(w.s, h, e.ctx, e.call).Some?
    && e.ctx.caller == w.s.admin && e.ctx.deposit == 1
  }

  lemma IntoApproval(w: World, h: Host, e: Event, id: nat, digest: Digest)
    requires TrailOf(Next(w, h, e), id).approval == Some(digest)
    ensures TrailOf(w, id).approval == Some(digest) || Approves(w, h, e, id, digest)
  {
  }

  /** An approval on record was given by the admin, to that digest. */
  lemma {:induction false} ApprovalOrigin(h: Host, ws: seq<World>, events: seq<Event>, i: nat, id: nat, digest: Digest) returns (j: nat)
    requires Run(h, ws, events) && i < |ws| && TrailOf(ws[i], id).approval == Some(digest)
    ensures j < i && Approves(ws[j], h, events[j], id, digest)
  {
    assert ws[i - 1 + 1] == Next(ws[i - 1], h, events[i - 1]);
    IntoApproval(ws[i - 1], h, events[i - 1], id, digest);
    if Approves(ws[i - 1], h, events[i - 1], id, digest) {
      j := i - 1;
    } else {
      j := ApprovalOrigin(h, ws, events, i - 1, id, digest);
    }
  }

  /** So every name the operator opens stands in a list whose digest the admin had approved before. */
  lemma OpensFollowTheAdmin(h: Host, ws: seq<World>, events: seq<Event>, i: nat, n: Name) returns (j: nat)
    requires Run(h, ws, events) && i < |events|
    requires events[i].Called? && events[i].call.OpenNames? && n in events[i].call.opening
    requires Apply(ws[i].s, h, events[i].ctx, events[i].call).Some?
    ensures events[i].ctx.caller == ws[i].s.operator
    ensures var id := events[i].call.batchId;
            && id in ws[i].s.batches && n in TrailOf(ws[i], id).added
            && j < i && Approves(ws[j], h, events[j], id, ListDigest(h, SeedDigest(h, ws[i].s.batches[id].setup), TrailOf(ws[i], id).added))
  {
    OpenedNamesWereApproved(h, ws, events, i, n);
    j := ApprovalOrigin(h, ws, events, i, events[i].call.batchId, TrailOf(ws[i], events[i].call.batchId).approval.value);
  }

  /** An approved batch with names left goes only by the admin's hand. */
  lemma LiveBatchesGoByTheAdmin(h: Host, ws: seq<World>, events: seq<Event>, i: nat, id: nat)
    requires Run(h, ws, events) && i < |events| && id in ws[i].s.batches && id !in ws[i + 1].s.batches
    requires ws[i].s.batches[id].approved && NamesOf(ws[i].s, id) != {}
    ensures events[i].Called? && events[i].call.DiscardBatch? && events[i].call.batchId == id && events[i].ctx.caller == ws[i].s.admin
  {
    NamesAreConserved(h, ws, events, i);
    assert ws[i + 1] == Next(ws[i], h, events[i]);
    assert BatchSound(ws[i], id);
    BatchGone(ws[i], h, events[i], id);
  }

  lemma BatchGone(w: World, h: Host, e: Event, id: nat)
    requires id in w.s.batches && id !in Next(w, h, e).s.batches
    ensures e.Called? && e.call.DiscardBatch? && e.call.batchId == id
    ensures e.ctx.caller == w.s.admin || w.s.batches[id].remaining == 0 || !w.s.batches[id].approved
  {
  }

  // ---------------------------------------------------------------- what a digest pins down

  /** Every byte string that is hashed on the way to a list's digest. */
  ghost function Hashed(h: Host, setup: Setup, names: seq<Name>): set<seq<Byte>> {
    if names == [] then {SeedBytes(setup)}
    else
      var before := names[..|names| - 1];
      Hashed(h, setup, before) + {ListDigest(h, SeedDigest(h, setup), before) + names[|names| - 1]}
  }

  lemma SeedPinsSetup(a: Setup, b: Setup)
    requires SeedBytes(a) == SeedBytes(b)
    ensures a == b
  {
    var fundA, fundB := LeBytes(a.funding, 16), LeBytes(b.funding, 16);
    var argsA, argsB := TextBytes(a.initArgs) + fundA, TextBytes(b.initArgs) + fundB;
    var codeA, codeB := TextBytes(a.globalCode) + argsA, TextBytes(b.globalCode) + argsB;
    assert SeedBytes(a)[|DIGEST_DOMAIN|..] == codeA && SeedBytes(b)[|DIGEST_DOMAIN|..] == codeB;
    TextBack(a.globalCode, argsA);
    TextBack(b.globalCode, argsB);
    TextBack(a.initArgs, fundA);
    TextBack(b.initArgs, fundB);
    FundingFits();
    LeValueOfBytes(a.funding, 16);
    LeValueOfBytes(b.funding, 16);
  }

  lemma FundingFits()
    ensures Pow256(16) == MAX_U128 + 1
  {
    Widths();
    assert Pow256(10) == 65536 * Pow256(8);
    assert Pow256(12) == 65536 * Pow256(10);
    assert Pow256(14) == 65536 * Pow256(12);
    assert Pow256(16) == 65536 * Pow256(14);
  }

  /** A seed is never mistaken for a fold: past byte 32 it has a zero, which no account id has. */
  lemma SeedIsNoFold(setup: Setup, d: Digest, name: Name)
    requires |setup.initArgs| <= MAX_INIT_ARGS_LEN && ValidAccountId(name)
    ensures SeedBytes(setup) != d + name
  {
    var args := LeBytes(|setup.initArgs|, 4);
    assert args[3] == 0 by {
      assert args == [args[0]] + LeBytes(|setup.initArgs| / 256, 3);
      assert LeBytes(|setup.initArgs| / 256, 3)[1..] == LeBytes(|setup.initArgs| / 256 / 256, 2);
      assert LeBytes(0, 2) == [0, 0];
    }
    var k := 32 + |setup.globalCode|;
    assert SeedBytes(setup)[k] == args[3];
  }

  /** The last string hashed for a list, and how it enters the list's digest. */
  function LastHashed(h: Host, setup: Setup, names: seq<Name>): seq<Byte> {
    if names == [] then SeedBytes(setup) else ListDigest(h, SeedDigest(h, setup), names[..|names| - 1]) + names[|names| - 1]
  }

  lemma DigestHashesLast(h: Host, setup: Setup, names: seq<Name>)
    ensures LastHashed(h, setup, names) in Hashed(h, setup, names)
    ensures ListDigest(h, SeedDigest(h, setup), names) == h.sha256(LastHashed(h, setup, names))
    ensures names != [] ==> Hashed(h, setup, names[..|names| - 1]) <= Hashed(h, setup, names)
  {
  }

  lemma FoldsPin(d: Digest, name: Name, d': Digest, name': Name)
    requires d + name == d' + name'
    ensures d == d' && name == name'
  {
    assert (d + name)[..32] == d && (d' + name')[..32] == d';
    assert (d + name)[32..] == name && (d' + name')[32..] == name';
  }

  /** Equal last strings: both are seeds of one setup, or folds of one name into equal digests. */
  lemma LastPins(h: Host, a: Setup, xs: seq<Name>, b: Setup, ys: seq<Name>)
    requires LastHashed(h, a, xs) == LastHashed(h, b, ys)
    requires |a.initArgs| <= MAX_INIT_ARGS_LEN && |b.initArgs| <= MAX_INIT_ARGS_LEN
    requires xs != [] ==> ValidAccountId(xs[|xs| - 1])
    requires ys != [] ==> ValidAccountId(ys[|ys| - 1])
    ensures xs == [] <==> ys == []
    ensures xs == [] ==> a == b
    ensures xs != [] ==> xs[|xs| - 1] == ys[|ys| - 1]
                         && ListDigest(h, SeedDigest(h, a), xs[..|xs| - 1]) == ListDigest(h, SeedDigest(h, b), ys[..|ys| - 1])
  {
    if xs == [] && ys == [] {
      SeedPinsSetup(a, b);
    } else if xs == [] {
      SeedIsNoFold(a, ListDigest(h, SeedDigest(h, b), ys[..|ys| - 1]), ys[|ys| - 1]);
    } else if ys == [] {
      SeedIsNoFold(b, ListDigest(h, SeedDigest(h, a), xs[..|xs| - 1]), xs[|xs| - 1]);
    } else {
      FoldsPin(ListDigest(h, SeedDigest(h, a), xs[..|xs| - 1]), xs[|xs| - 1],
               ListDigest(h, SeedDigest(h, b), ys[..|ys| - 1]), ys[|ys| - 1]);
    }
  }

  /**
   An approved digest pins the code, the arguments, the funding and the exact list, in order:
   two drafts with one digest are the same draft, or two different byte strings hashed on the
   way there collide under the host's hash.
   */
  lemma {:induction false} DigestPinsDraft(h: Host, a: Setup, xs: seq<Name>, b: Setup, ys: seq<Name>)
    returns (p: seq<Byte>, q: seq<Byte>)
    requires ListDigest(h, SeedDigest(h, a), xs) == ListDigest(h, SeedDigest(h, b), ys)
    requires |a.initArgs| <= MAX_INIT_ARGS_LEN && |b.initArgs| <= MAX_INIT_ARGS_LEN
    requires forall i :: 0 <= i < |xs| ==> ValidAccountId(xs[i])
    requires forall i :: 0 <= i < |ys| ==> ValidAccountId(ys[i])
    ensures p in Hashed(h, a, xs) && q in Hashed(h, b, ys) && h.sha256(p) == h.sha256(q)
    ensures (a == b && xs == ys) || p != q
  {
    DigestHashesLast(h, a, xs);
    DigestHashesLast(h, b, ys);
    p, q := LastHashed(h, a, xs), LastHashed(h, b, ys);
    if p == q {
      LastPins(h, a, xs, b, ys);
      if xs != [] {
        p, q := DigestPinsDraft(h, a, xs[..|xs| - 1], b, ys[..|ys| - 1]);
        assert xs == xs[..|xs| - 1] + [xs[|xs| - 1]] && ys == ys[..|ys| - 1] + [ys[|ys| - 1]];
      }
    }
  }
}
