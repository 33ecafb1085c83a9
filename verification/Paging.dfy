/** Listing an owner's names page by page behind a cursor (`tla-registry/src/nft.rs`). */
module Paging {
  import opened Common
  import opened RegistryTypes
  import opened NameTable

  const MAX_PAGE_LIMIT: nat := 500

  datatype Token = Token(id: Key, owner: AccountId, rentedAt: nat, expiresAt: nat)

  datatype Page = Page(tokens: seq<Token>, next: Option<Key>)

  function TokenOf(key: Key, sub: Sub): Token {
    Token(key, sub.owner, sub.rentedAt, sub.expiresAt)
  }

  function Take(limit: Option<nat>): (n: nat)
    ensures 1 <= n <= MAX_PAGE_LIMIT
  {
    if limit.None? then MAX_PAGE_LIMIT else Max(1, Min(limit.value, MAX_PAGE_LIMIT))
  }

  ghost predicate AllPresent(keys: seq<Key>, subs: map<Key, Sub>) {
    forall i :: 0 <= i < |keys| ==> keys[i] in subs
  }

  /** The tokens of the keys from `i` up to `j`. */
  function Tokens(keys: seq<Key>, subs: map<Key, Sub>, i: nat, j: nat): seq<Token>
    requires i <= j <= |keys|
    decreases j
  {
    if i == j then []
    else
      var before, k := Tokens(keys, subs, i, j - 1), keys[j - 1];
      if k in subs then before + [TokenOf(k, subs[k])] else before
  }

  lemma {:induction false} TokensAligned(keys: seq<Key>, subs: map<Key, Sub>, i: nat, j: nat)
    requires i <= j <= |keys| && AllPresent(keys, subs)
    ensures |Tokens(keys, subs, i, j)| == j - i
    ensures forall k :: 0 <= k < j - i ==> Tokens(keys, subs, i, j)[k] == TokenOf(keys[i + k], subs[keys[i + k]])
    decreases j
  {
    if i < j {
      TokensAligned(keys, subs, i, j - 1);
    }
  }

  lemma {:induction false} TokensSplit(keys: seq<Key>, subs: map<Key, Sub>, i: nat, j: nat, k: nat)
    requires i <= j <= k <= |keys|
    ensures Tokens(keys, subs, i, k) == Tokens(keys, subs, i, j) + Tokens(keys, subs, j, k)
    decreases k
  {
    if j < k {
      TokensSplit(keys, subs, i, j, k - 1);
    }
  }

  predicate KnownCursor(keys: seq<Key>, after: Option<Key>) {
    after.Some? ==> after.value in keys
  }

  /** The position just past the cursor. */
  function Start(keys: seq<Key>, after: Option<Key>): (i: nat)
    requires KnownCursor(keys, after)
    ensures i <= |keys|
  {
    if after.None? then 0 else Position(keys, after.value) + 1
  }

  /** The page that begins just past the cursor, and the cursor for the rest. */
  function PageAfter(keys: seq<Key>, subs: map<Key, Sub>, after: Option<Key>, take: nat): Page
    requires KnownCursor(keys, after) && take > 0
  {
    var start := Start(keys, after);
    var stop := Min(start + take, |keys|);
    Page(Tokens(keys, subs, start, stop), if stop < |keys| then Some(keys[stop - 1]) else None)
  }

  /** The cursor was first met just before `start`, or there is none. */
  ghost predicate ResumesAt(keys: seq<Key>, after: Option<Key>, start: nat) {
    if after.None? then start == 0
    else 0 < start <= |keys| && keys[start - 1] == after.value && NotAmong(keys, after.value, start - 1)
  }

  ghost predicate NotAmong(keys: seq<Key>, key: Key, i: nat)
    requires i <= |keys|
  {
    forall j :: 0 <= j < i ==> keys[j] != key
  }

  lemma ResumesAtStart(keys: seq<Key>, after: Option<Key>, start: nat)
    requires ResumesAt(keys, after, start)
    ensures KnownCursor(keys, after) && Start(keys, after) == start
  {
    if after.Some? {
      PositionIsFirst(keys, after.value, start - 1);
    }
  }

  lemma {:induction false} PositionIsFirst(keys: seq<Key>, key: Key, i: nat)
    requires i < |keys| && keys[i] == key
    ensures Position(keys, key) <= i
  {
    if keys[0] != key {
      PositionIsFirst(keys[1..], key, i - 1);
    }
  }

  /** The loop over the bucket: skips to the cursor, fills the page, stops at the first name that no longer fits. */
  method TokensForOwnerPage(index: Index, subs: map<Key, Sub>, account: AccountId, after: Option<Key>, limit: Option<nat>)
    returns (page: Option<Page>)
    ensures page.None? <==> !KnownCursor(Bucket(index, account), after)
    ensures page.Some? && AllPresent(Bucket(index, account), subs) ==>
              page.value == PageAfter(Bucket(index, account), subs, after, Take(limit))
  {
    if account !in index {
      return if after.Some? then None else Some(Page([], None));
    }
    var keys := index[account];
    var take := Take(limit);
    var resumed, tokens, visited, more := after.None?, [], None, false;
    ghost var start := 0;
    var i := 0;
    while i < |keys|
      invariant i <= |keys| && !more
      invariant !resumed ==> after.Some? && NotAmong(keys, after.value, i) && tokens == []
      invariant resumed ==> ResumesAt(keys, after, start) && start <= i && tokens == Tokens(keys, subs, start, i)
      invariant resumed && AllPresent(keys, subs) ==> |tokens| == i - start <= take
      invariant visited == if resumed && i > start then Some(keys[i - 1]) else None
    {
      var key := keys[i];
      if !resumed {
        resumed := after == Some(key);
        i := i + 1;
        start := i;
      } else if |tokens| == take {
        more := true;
        break;
      } else {
        if key in subs {
          tokens := tokens + [TokenOf(key, subs[key])];
        }
        visited := Some(key);
        i := i + 1;
      }
    }
    if !resumed {
      return None;
    }
    ResumesAtStart(keys, after, start);
    page := Some(Page(tokens, if !more then None else if visited.Some? then visited else after));
  }

  // ---------------------------------------------------------------- following the cursor

  lemma CursorAdvances(keys: seq<Key>, i: nat)
    requires Distinct(keys) && i < |keys|
    ensures keys[i] in keys && Start(keys, Some(keys[i])) == i + 1
  {
  }

  /** All pages from a cursor on, asking for `limits(n)`, `limits(n + 1)`, ... names in turn. */
  function AllPages(keys: seq<Key>, subs: map<Key, Sub>, after: Option<Key>, limits: nat -> Option<nat>, n: nat): seq<Token>
    requires Distinct(keys) && KnownCursor(keys, after)
    decreases |keys| - Start(keys, after)
  {
    var page := PageAfter(keys, subs, after, Take(limits(n)));
    if page.next.None? then page.tokens
    else
      var stop := Start(keys, after) + Take(limits(n));
      CursorAdvances(keys, stop - 1);
      page.tokens + AllPages(keys, subs, page.next, limits, n + 1)
  }

  lemma {:induction false} PagesFrom(keys: seq<Key>, subs: map<Key, Sub>, after: Option<Key>, limits: nat -> Option<nat>, n: nat)
    requires Distinct(keys) && KnownCursor(keys, after)
    ensures AllPages(keys, subs, after, limits, n) == Tokens(keys, subs, Start(keys, after), |keys|)
    decreases |keys| - Start(keys, after)
  {
    var start, take := Start(keys, after), Take(limits(n));
    var page := PageAfter(keys, subs, after, take);
    if start + take < |keys| {
      var stop := start + take;
      CursorAdvances(keys, stop - 1);
      assert page == Page(Tokens(keys, subs, start, stop), Some(keys[stop - 1]));
      PagesFrom(keys, subs, page.next, limits, n + 1);
      TokensSplit(keys, subs, start, stop, |keys|);
    } else {
      assert page == Page(Tokens(keys, subs, start, |keys|), None);
    }
  }

  /** `ts` is the listing of `keys`: same order, each once, and exactly the names `account` owns. */
  ghost predicate ListsOwner(ts: seq<Token>, keys: seq<Key>, subs: map<Key, Sub>, account: AccountId) {
    && |ts| == |keys|
    && (forall i :: 0 <= i < |ts| ==> ts[i].id == keys[i] && keys[i] in subs && ts[i] == TokenOf(keys[i], subs[keys[i]]))
    && (forall i, j :: 0 <= i < j < |ts| ==> ts[i].id != ts[j].id)
    && (forall key :: key in keys <==> key in subs && subs[key].owner == account)
  }

  lemma BucketOwns(l: Table, account: AccountId)
    requires Indexed(l)
    ensures Distinct(Bucket(l.byOwner, account)) && AllPresent(Bucket(l.byOwner, account), l.subs)
    ensures forall key :: key in Bucket(l.byOwner, account) <==> key in l.subs && l.subs[key].owner == account
  {
    forall key
      ensures key in Bucket(l.byOwner, account) <==> key in l.subs && l.subs[key].owner == account
    {
      assert Lists(l.byOwner, account, key) <==> key in Bucket(l.byOwner, account);
    }
  }

  /** Following the cursor through an exact index lists each of the owner's names once, in index order, whatever the limits. */
  lemma PagesListEachNameOnce(l: Table, account: AccountId, limits: nat -> Option<nat>)
    requires Indexed(l)
    ensures Distinct(Bucket(l.byOwner, account))
    ensures ListsOwner(AllPages(Bucket(l.byOwner, account), l.subs, None, limits, 0), Bucket(l.byOwner, account), l.subs, account)
  {
    var keys := Bucket(l.byOwner, account);
    BucketOwns(l, account);
    PagesFrom(keys, l.subs, None, limits, 0);
    TokensAligned(keys, l.subs, 0, |keys|);
  }
}
