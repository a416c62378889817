/** ReclaimStale: the cursor loop over XAUTOCLAIM, with other clients active between its pages. */
module Reclaim {
  import opened Options
  import opened Queue

  /** One stream and its consumer group as the server sees them; ids do not exceed `top`. */
  datatype Snap = Snap(now: nat, top: nat, pel: map<nat, Pending>, stored: map<nat, Payload>)
  {
    predicate Valid()
    {
      && (forall id :: id in pel ==> id <= top)
      && (forall id :: id in stored ==> id <= top)
    }
  }

  predicate Stale(snap: Snap, idle: nat, id: nat)
  {
    id in snap.pel && snap.pel[id].since + idle <= snap.now
  }

  /** What a one-shot reclaim would return. */
  predicate Eligible(snap: Snap, idle: nat, id: nat)
  {
    Stale(snap, idle, id) && id in snap.stored && snap.stored[id].Job?
  }

  predicate Increasing(ids: seq<nat>)
  {
    forall i, k :: 0 <= i < k < |ids| ==> ids[i] < ids[k]
  }

  /** The pending ids from lo up, in id order. */
  function Ascending(keys: set<nat>, lo: nat, hi: nat): (r: seq<nat>)
    ensures Increasing(r)
    ensures forall id :: id in r <==> id in keys && lo <= id < hi
    decreases if lo < hi then hi - lo else 0
  {
    if hi <= lo then []
    else
      var rest := Ascending(keys, lo + 1, hi);
      if lo in keys then
        var r := [lo] + rest;
        assert forall i :: 0 < i < |r| ==> r[i] == rest[i - 1] && rest[i - 1] in rest;
        r
      else rest
  }

  /** How many of the ids one XAUTOCLAIM examines: it stops after `count` claims or purges, or `attempts` ids. */
  function Examined(snap: Snap, idle: nat, ids: seq<nat>, count: nat, attempts: nat): (n: nat)
    ensures n <= |ids|
    ensures ids != [] && 0 < count && 0 < attempts ==> 0 < n
  {
    if ids == [] || count == 0 || attempts == 0 then 0
    else
      var spent := if ids[0] !in snap.stored || Stale(snap, idle, ids[0]) then 1 else 0;
      1 + Examined(snap, idle, ids[1..], count - spent, attempts - 1)
  }

  /** How many of the ids the command claims, being stale, or purges, being trimmed. */
  function Spent(snap: Snap, idle: nat, ids: seq<nat>): nat
  {
    if ids == [] then 0
    else
      var id := ids[0];
      (if id in snap.stored && (id in snap.pel ==> snap.now < snap.pel[id].since + idle) then 0 else 1)
      + Spent(snap, idle, ids[1..])
  }

  /** It examines as many as it may: the ids run out, `attempts` were looked at, or `count` claimed or purged. */
  lemma {:induction false} ExaminedExact(snap: Snap, idle: nat, ids: seq<nat>, count: nat, attempts: nat)
    ensures var n := Examined(snap, idle, ids, count, attempts);
            && n <= attempts && Spent(snap, idle, ids[..n]) <= count
            && (n == |ids| || n == attempts || Spent(snap, idle, ids[..n]) == count)
  {
    if ids != [] && count != 0 && attempts != 0 {
      var n := Examined(snap, idle, ids, count, attempts);
      var spent := if ids[0] !in snap.stored || Stale(snap, idle, ids[0]) then 1 else 0;
      ExaminedExact(snap, idle, ids[1..], count - spent, attempts - 1);
      assert ids[..n][1..] == ids[1..][..n - 1];
    }
  }

  /** The examined ids that are stored and stale: the messages of the reply, in order. */
  function Claimable(snap: Snap, idle: nat, ids: seq<nat>): (r: seq<nat>)
    ensures forall id :: id in r <==> id in ids && id in snap.stored && Stale(snap, idle, id)
  {
    if ids == [] then []
    else
      var n := |ids| - 1;
      var front := Claimable(snap, idle, ids[..n]);
      assert ids == ids[..n] + [ids[n]];
      if ids[n] in snap.stored && Stale(snap, idle, ids[n]) then front + [ids[n]] else front
  }

  lemma {:induction false} ClaimableIncreasing(snap: Snap, idle: nat, ids: seq<nat>)
    requires Increasing(ids)
    ensures Increasing(Claimable(snap, idle, ids))
  {
    if ids != [] {
      var n := |ids| - 1;
      ClaimableIncreasing(snap, idle, ids[..n]);
      var front := Claimable(snap, idle, ids[..n]);
      forall i | 0 <= i < |front| ensures front[i] < ids[n] {
        assert front[i] in ids[..n];
      }
    }
  }

  /** The pending list after the page: claimed ids change owner and idle time, trimmed ones are dropped. */
  function AfterPage(snap: Snap, worker: nat, idle: nat, ids: seq<nat>): Snap
  {
    snap.(pel := map id | id in snap.pel && (id in ids ==> id in snap.stored) ::
                   if id in ids && Stale(snap, idle, id) then Pending(worker, snap.now) else snap.pel[id])
  }

  datatype PageEnd = Replied | NilReply | Failed(applied: bool)

  /** The pending ids one command looks at. */
  function ExaminedIds(snap: Snap, idle: nat, cursor: nat, batch: nat): seq<nat>
  {
    var ids := Ascending(snap.pel.Keys, cursor, snap.top + 1);
    ids[..Examined(snap, idle, ids, batch, 10 * batch)]
  }

  /** The first pending id it did not look at. */
  function NextOf(snap: Snap, idle: nat, cursor: nat, batch: nat): Option<nat>
  {
    var ids := Ascending(snap.pel.Keys, cursor, snap.top + 1);
    var n := Examined(snap, idle, ids, batch, 10 * batch);
    if n < |ids| then Some(ids[n]) else None
  }

  /** One command looks at no more than ten times the batch size and claims or purges no more than the batch; it hands
      back a cursor only when it reached one of the two limits. */
  lemma PageStops(snap: Snap, idle: nat, cursor: nat, batch: nat)
    ensures var ids := ExaminedIds(snap, idle, cursor, batch);
            && |ids| <= 10 * batch && Spent(snap, idle, ids) <= batch
            && (NextOf(snap, idle, cursor, batch).Some? ==> |ids| == 10 * batch || Spent(snap, idle, ids) == batch)
  {
    ExaminedExact(snap, idle, Ascending(snap.pel.Keys, cursor, snap.top + 1), batch, 10 * batch);
  }

  function AfterClaim(snap: Snap, worker: nat, idle: nat, cursor: nat, batch: nat): Snap
  {
    AfterPage(snap, worker, idle, ExaminedIds(snap, idle, cursor, batch))
  }

  function ReplyOf(snap: Snap, idle: nat, cursor: nat, batch: nat): seq<(nat, Payload)>
  {
    var claimed := Claimable(snap, idle, ExaminedIds(snap, idle, cursor, batch));
    seq(|claimed|, i requires 0 <= i < |claimed| => assert claimed[i] in claimed; (claimed[i], snap.stored[claimed[i]]))
  }

  /** One XAUTOCLAIM: its arguments, the group before and after it, whether it was replied to, or with nil, and the next
      cursor if it was. */
  datatype Page = Page(
    worker: nat,
    idle: nat,
    batch: nat,
    cursor: nat,
    before: Snap,
    after: Snap,
    replied: bool,
    nil: bool,
    next: Option<nat>)

  /** The page is what the command does: it examines pending ids from the cursor up, claims or purges them, and hands
      back the first id it did not examine; without a reply it may also not have been applied. */
  ghost predicate IsClaim(page: Page)
  {
    && page.before.Valid() && 0 < page.batch
    && (page.after == AfterClaim(page.before, page.worker, page.idle, page.cursor, page.batch)
        || (!page.replied && page.after == page.before))
    && page.next == if page.replied then NextOf(page.before, page.idle, page.cursor, page.batch) else None
  }

  /** What happened to the group: an XAUTOCLAIM of ours, or anything by other clients. */
  datatype Event = Asked(page: Page) | Others(from: Snap, to: Snap)

  function Before(e: Event): Snap
  {
    match e case Asked(page) => page.before case Others(from, _) => from
  }

  function After(e: Event): Snap
  {
    match e case Asked(page) => page.after case Others(_, to) => to
  }

  ghost predicate EventOk(e: Event)
  {
    match e
    case Asked(page) => IsClaim(page)
    case Others(from, to) => to.Valid() && from.now <= to.now
  }

  /** Each event starts in the state the one before it left. */
  ghost predicate Continuous(trail: seq<Event>)
  {
    trail == [] ||
    var n := |trail| - 1;
    Continuous(trail[..n]) && EventOk(trail[n]) && (0 < n ==> Before(trail[n]) == After(trail[n - 1]))
  }

  /** The pages asked, in order. */
  ghost function Pages(trail: seq<Event>): seq<Page>
  {
    if trail == [] then []
    else
      var last := trail[|trail| - 1];
      Pages(trail[..|trail| - 1]) + if last.Asked? then [last.page] else []
  }

  lemma TrailGrows(trail: seq<Event>, e: Event)
    requires Continuous(trail) && EventOk(e) && (trail != [] ==> Before(e) == After(trail[|trail| - 1]))
    ensures Continuous(trail + [e]) && Pages(trail + [e]) == Pages(trail) + if e.Asked? then [e.page] else []
  {
    hide EventOk;
    var longer := trail + [e];
    assert longer[..|longer| - 1] == trail && longer[|longer| - 1] == e;
  }

  class Group {
    var snap: Snap
    ghost var trail: seq<Event>

    /** The present state is the one the events so far led to. */
    ghost predicate Valid()
      reads this
    {
      snap.Valid() && Continuous(trail) && (trail != [] ==> After(trail[|trail| - 1]) == snap)
    }

    constructor (snap: Snap)
      requires snap.Valid()
      ensures Valid() && this.snap == snap && trail == []
    {
      this.snap := snap;
      trail := [];
    }

    /** XAUTOCLAIM from `cursor`; None as next cursor stands for 0-0. */
    method XAutoClaim(worker: nat, idle: nat, cursor: nat, batch: nat)
        returns (reply: seq<(nat, Payload)>, next: Option<nat>, end: PageEnd, ghost page: Page)
      requires Valid() && 0 < batch
      modifies this
      ensures Valid() && snap.top == old(snap.top) && snap.now == old(snap.now) && snap.stored == old(snap.stored)
      ensures page == Page(worker, idle, batch, cursor, old(snap), snap, end == Replied, end == NilReply, page.next)
      ensures trail == old(trail) + [Asked(page)] && IsClaim(page)
      ensures Pages(trail) == Pages(old(trail)) + [page]
      ensures end == Replied ==> next == page.next && PageOf(old(snap), idle, cursor, next, reply)
      // In its range the command makes what is stale and stored the worker's, drops what was trimmed, and leaves the
      // rest alone.
      ensures end == Replied ==> Swept(old(snap), snap, worker, idle, cursor, next)
      // No page, failed or not, takes a stored entry off the pending list; what it replied is the worker's own now.
      ensures StillPending(old(snap), snap)
      ensures end == Replied ==> forall i :: 0 <= i < |reply| ==> OwnedBy(snap, worker, reply[i].0)
    {
      var was := snap;
      hide Continuous, Pages, PageOf, IsClaim, StillPending, Swept, AfterClaim, OwnedBy, ReplyOf, NextOf;
      reply, next := ReplyOf(snap, idle, cursor, batch), NextOf(snap, idle, cursor, batch);
      ClaimFacts(was, worker, idle, cursor, batch);
      ClaimSweeps(was, worker, idle, cursor, batch);
      end := *;
      if end != Failed(false) {
        snap := AfterClaim(snap, worker, idle, cursor, batch);
      }
      page := Page(worker, idle, batch, cursor, was, snap, end == Replied, end == NilReply,
                   if end == Replied then next else None);
      Record(page);
    }

    /** The command goes on record. */
    ghost method Record(page: Page)
      requires snap.Valid() && Continuous(trail) && (trail != [] ==> After(trail[|trail| - 1]) == page.before)
      requires page.after == snap && page.before.Valid() && 0 < page.batch
      requires page.after == AfterClaim(page.before, page.worker, page.idle, page.cursor, page.batch)
               || (!page.replied && page.after == page.before)
      requires page.next == if page.replied then NextOf(page.before, page.idle, page.cursor, page.batch) else None
      modifies this`trail
      ensures Valid() && trail == old(trail) + [Asked(page)] && IsClaim(page)
      ensures Pages(trail) == Pages(old(trail)) + [page]
    {
      TrailGrows(trail, Asked(page));
      trail := trail + [Asked(page)];
    }

    /** Other clients: time passes, entries are delivered, claimed, acknowledged and trimmed; ids stay within bound. */
    method Interfere(bound: nat)
      requires Valid() && snap.top <= bound
      modifies this
      ensures Valid() && snap.top <= bound && old(snap.now) <= snap.now
      ensures old(trail) <= trail && Pages(trail) == Pages(old(trail))
    {
      var elapsed: nat, top: nat, pel: map<nat, Pending>, stored: map<nat, Payload> := *, *, *, *;
      var after := Snap(snap.now + elapsed, top, pel, stored);
      if after.Valid() && top <= bound {
        TrailGrows(trail, Others(snap, after));
        trail := trail + [Others(snap, after)];
        snap := after;
      }
    }
  }

  ghost predicate InRange(id: nat, cursor: nat, next: Option<nat>)
  {
    cursor <= id && (next.Some? ==> id < next.value)
  }

  /** The pending list between the two cursors was gone through, and nothing else was touched. */
  ghost predicate Swept(before: Snap, after: Snap, worker: nat, idle: nat, cursor: nat, next: Option<nat>)
  {
    && (forall id: nat :: id in after.pel <==>
          id in before.pel && (InRange(id, cursor, next) ==> id in before.stored))
    && (forall id: nat :: id in after.pel && id in before.pel ==>
          after.pel[id] == if InRange(id, cursor, next) && before.pel[id].since + idle <= before.now
                           then Pending(worker, before.now) else before.pel[id])
  }

  ghost predicate OwnedBy(snap: Snap, worker: nat, id: nat)
  {
    id in snap.pel && snap.pel[id] == Pending(worker, snap.now)
  }

  /** The reply lists, in id order, the stale stored entries between the cursor and the next one. */
  ghost predicate PageOf(snap: Snap, idle: nat, cursor: nat, next: Option<nat>, reply: seq<(nat, Payload)>)
  {
    && (next.Some? ==> cursor < next.value <= snap.top)
    && (forall i, k :: 0 <= i < k < |reply| ==> reply[i].0 < reply[k].0)
    && (forall i :: 0 <= i < |reply| ==>
         && cursor <= reply[i].0 && (next.Some? ==> reply[i].0 < next.value)
         && Stale(snap, idle, reply[i].0) && reply[i].0 in snap.stored && reply[i].1 == snap.stored[reply[i].0])
    && (forall id :: cursor <= id && (next.Some? ==> id < next.value) && Stale(snap, idle, id) && id in snap.stored ==>
         exists i :: 0 <= i < |reply| && reply[i].0 == id)
  }

  /** The reply pairs each claimed id with its entry. */
  ghost predicate Replies(snap: Snap, claimed: seq<nat>, reply: seq<(nat, Payload)>)
  {
    && |reply| == |claimed|
    && forall i :: 0 <= i < |reply| ==> claimed[i] in snap.stored && reply[i] == (claimed[i], snap.stored[claimed[i]])
  }

  /** What the command gives: a page of the reply, and the group after it. No stored entry leaves the pending list, and
      what is claimed becomes the worker's. */
  lemma ClaimFacts(snap: Snap, worker: nat, idle: nat, cursor: nat, batch: nat)
    requires snap.Valid() && 0 < batch
    ensures var after := AfterClaim(snap, worker, idle, cursor, batch); var reply := ReplyOf(snap, idle, cursor, batch);
            && PageOf(snap, idle, cursor, NextOf(snap, idle, cursor, batch), reply)
            && after.Valid() && after.now == snap.now && after.top == snap.top && after.stored == snap.stored
            && StillPending(snap, after) && StillPending(snap, snap)
            && forall i :: 0 <= i < |reply| ==> OwnedBy(after, worker, reply[i].0)
  {
    var ids := Ascending(snap.pel.Keys, cursor, snap.top + 1);
    var n := Examined(snap, idle, ids, batch, 10 * batch);
    var claimed := Claimable(snap, idle, ids[..n]);
    assert forall i :: 0 <= i < |claimed| ==> claimed[i] in claimed;
    PageComplete(snap, idle, cursor, ids, n, ReplyOf(snap, idle, cursor, batch));
  }

  /** Each examined id lies between the cursor and the first id not examined. */
  lemma ExaminedRange(keys: set<nat>, cursor: nat, top: nat, ids: seq<nat>, n: nat, id: nat)
    requires ids == Ascending(keys, cursor, top + 1) && n <= |ids| && id in ids[..n]
    ensures cursor <= id && (n < |ids| ==> id < ids[n])
  {
    var k :| 0 <= k < n && ids[k] == id;
    assert ids[k] in ids;
  }

  /** Conversely, a pending id between them was examined. */
  lemma ExaminedAll(keys: set<nat>, cursor: nat, top: nat, ids: seq<nat>, n: nat, id: nat)
    requires ids == Ascending(keys, cursor, top + 1) && n <= |ids|
    requires id in keys && cursor <= id <= top && (n < |ids| ==> id < ids[n])
    ensures id in ids[..n]
  {
    assert id in ids;
    var k :| 0 <= k < |ids| && ids[k] == id;
    assert k < n;
    assert ids[..n][k] == id;
  }

  lemma ClaimSweeps(snap: Snap, worker: nat, idle: nat, cursor: nat, batch: nat)
    requires snap.Valid()
    ensures Swept(snap, AfterClaim(snap, worker, idle, cursor, batch), worker, idle, cursor,
                  NextOf(snap, idle, cursor, batch))
  {
    var ids := Ascending(snap.pel.Keys, cursor, snap.top + 1);
    var n := Examined(snap, idle, ids, batch, 10 * batch);
    var next := NextOf(snap, idle, cursor, batch);
    hide Ascending, Examined;
    forall id: nat | id in snap.pel ensures id in ids[..n] <==> InRange(id, cursor, next) {
      if id in ids[..n] {
        ExaminedRange(snap.pel.Keys, cursor, snap.top, ids, n, id);
      }
      if InRange(id, cursor, next) {
        ExaminedAll(snap.pel.Keys, cursor, snap.top, ids, n, id);
      }
    }
  }

  lemma PageComplete(snap: Snap, idle: nat, cursor: nat, ids: seq<nat>, n: nat, reply: seq<(nat, Payload)>)
    requires snap.Valid() && ids == Ascending(snap.pel.Keys, cursor, snap.top + 1)
    requires n <= |ids| && (ids != [] ==> 0 < n) && Replies(snap, Claimable(snap, idle, ids[..n]), reply)
    ensures PageOf(snap, idle, cursor, if n < |ids| then Some(ids[n]) else None, reply)
  {
    hide Ascending, Claimable;
    var claimed := Claimable(snap, idle, ids[..n]);
    var next := if n < |ids| then Some(ids[n]) else None;
    ClaimableIncreasing(snap, idle, ids[..n]);
    assert n < |ids| ==> ids[n] in ids && ids[0] in ids;
    forall i | 0 <= i < |reply| ensures cursor <= reply[i].0 && (next.Some? ==> reply[i].0 < next.value) {
      assert claimed[i] in claimed;
      ExaminedRange(snap.pel.Keys, cursor, snap.top, ids, n, claimed[i]);
    }
    forall i | 0 <= i < |reply| ensures Stale(snap, idle, reply[i].0) {
      assert claimed[i] in claimed;
    }
    forall id | cursor <= id && (next.Some? ==> id < next.value) && Stale(snap, idle, id) && id in snap.stored
      ensures exists i :: 0 <= i < |reply| && reply[i].0 == id
    {
      ExaminedAll(snap.pel.Keys, cursor, snap.top, ids, n, id);
      assert id in claimed;
      var i :| 0 <= i < |claimed| && claimed[i] == id;
      assert reply[i].0 == id;
    }
  }

  // ---- The scan ----

  /** The id lies between the page's cursor and the next one. */
  predicate Covers(page: Page, id: nat)
  {
    page.replied && page.cursor <= id && (page.next.Some? ==> id < page.next.value)
  }

  /** Each page starts where the one before it ended, the first at 0. */
  ghost predicate Chained(log: seq<Page>)
  {
    && (log != [] ==> log[0].cursor == 0)
    && (forall k :: 0 <= k < |log| - 1 ==> log[k].replied && log[k].next == Some(log[k + 1].cursor))
    && forall k :: 0 <= k < |log| && log[k].next.Some? ==> log[k].cursor < log[k].next.value
  }

  /** Where the scan goes on. */
  function NextCursor(log: seq<Page>): Option<nat>
  {
    if log == [] then Some(0) else if log[|log| - 1].replied then log[|log| - 1].next else None
  }

  /** The ids a page covers are returned exactly if they were eligible at that page, whatever happened to them later. */
  ghost predicate ExactAt(page: Page, idle: nat, ids: seq<nat>)
  {
    forall id: nat :: Covers(page, id) ==> (id in ids <==> Eligible(page.before, idle, id))
  }

  /** The page returned this pair, and left the id pending for the worker. */
  ghost predicate FromPage(page: Page, worker: nat, idle: nat, id: nat, env: Envelope)
  {
    && Covers(page, id) && Eligible(page.before, idle, id) && page.before.stored[id] == Job(env)
    && OwnedBy(page.after, worker, id)
  }

  ghost predicate Returned(log: seq<Page>, worker: nat, idle: nat, id: nat, env: Envelope)
  {
    exists k :: 0 <= k < |log| && FromPage(log[k], worker, idle, id, env)
  }

  /** Envelopes and ids are aligned, in id order without repeats; each pair was returned by a page, and each page
      returned exactly what was eligible in its range; no page took a stored entry off the pending list. */
  ghost predicate Scanned(log: seq<Page>, worker: nat, idle: nat, envs: seq<Envelope>, ids: seq<nat>)
  {
    && Chained(log) && |envs| == |ids| && Increasing(ids)
    && (forall i :: 0 <= i < |ids| ==> Returned(log, worker, idle, ids[i], envs[i]))
    && (forall k :: 0 <= k < |log| ==> ExactAt(log[k], idle, ids))
    && (forall k :: 0 <= k < |log| ==> StillPending(log[k].before, log[k].after))
  }

  /** Below the next cursor every id is covered by a page, and so is every id of a scan that came to its end. */
  lemma {:induction false} EveryIdCovered(log: seq<Page>, id: nat) returns (k: nat)
    requires Chained(log) && log != [] && log[|log| - 1].replied
    requires log[|log| - 1].next.Some? ==> id < log[|log| - 1].next.value
    ensures k < |log| && Covers(log[k], id)
  {
    var n := |log| - 1;
    if log[n].cursor <= id {
      k := n;
    } else {
      k := EveryIdCovered(log[..n], id);
    }
  }

  /** Decode the messages of one page, skipping those that do not parse. */
  method Decode(reply: seq<(nat, Payload)>) returns (envs: seq<Envelope>, ids: seq<nat>)
    requires forall i, k :: 0 <= i < k < |reply| ==> reply[i].0 < reply[k].0
    ensures |envs| == |ids| && Increasing(ids)
    ensures forall i :: 0 <= i < |ids| ==> (ids[i], Job(envs[i])) in reply
    ensures forall i :: 0 <= i < |reply| && reply[i].1.Job? ==> reply[i].0 in ids
  {
    envs, ids := [], [];
    for n := 0 to |reply|
      invariant |envs| == |ids| && Increasing(ids)
      invariant forall i :: 0 <= i < |ids| ==> (ids[i], Job(envs[i])) in reply[..n]
      invariant forall i :: 0 <= i < n && reply[i].1.Job? ==> reply[i].0 in ids
    {
      assert reply[..n + 1] == reply[..n] + [reply[n]];
      if reply[n].1.Job? {
        forall i | 0 <= i < |ids| ensures ids[i] < reply[n].0 {
          var k :| 0 <= k < n && reply[k] == (ids[i], Job(envs[i]));
        }
        envs, ids := envs + [reply[n].1.env], ids + [reply[n].0];
      }
    }
    assert reply[..|reply|] == reply;
  }

  /** What one reply decodes to is exactly what was eligible between the two cursors. */
  lemma DecodedExact(page: Page, worker: nat, idle: nat, reply: seq<(nat, Payload)>, envs: seq<Envelope>, ids: seq<nat>)
    requires page.replied && PageOf(page.before, idle, page.cursor, page.next, reply)
    requires forall i :: 0 <= i < |reply| ==> OwnedBy(page.after, worker, reply[i].0)
    requires |envs| == |ids|
    requires forall i :: 0 <= i < |ids| ==> (ids[i], Job(envs[i])) in reply
    requires forall i :: 0 <= i < |reply| && reply[i].1.Job? ==> reply[i].0 in ids
    ensures ExactAt(page, idle, ids) && forall i :: 0 <= i < |ids| ==> FromPage(page, worker, idle, ids[i], envs[i])
  {
    forall i | 0 <= i < |ids| ensures FromPage(page, worker, idle, ids[i], envs[i]) {
      assert (ids[i], Job(envs[i])) in reply;
      var k :| 0 <= k < |reply| && reply[k] == (ids[i], Job(envs[i]));
    }
    forall id: nat | Covers(page, id) && Eligible(page.before, idle, id) ensures id in ids {
      var i :| 0 <= i < |reply| && reply[i].0 == id;
      assert reply[i].1.Job?;
    }
  }

  /** One more page leaves what earlier pages returned, and adds its own. */
  lemma PageAdded(log: seq<Page>, page: Page, worker: nat, idle: nat, envs: seq<Envelope>, ids: seq<nat>,
                  envs1: seq<Envelope>, ids1: seq<nat>)
    requires Scanned(log, worker, idle, envs, ids) && NextCursor(log) == Some(page.cursor)
    requires StillPending(page.before, page.after) && |envs1| == |ids1| && Increasing(ids1)
    requires page.next.Some? ==> page.cursor < page.next.value
    requires page.replied ==> ExactAt(page, idle, ids1)
    requires forall i :: 0 <= i < |ids1| ==> FromPage(page, worker, idle, ids1[i], envs1[i])
    ensures Scanned(log + [page], worker, idle, envs + envs1, ids + ids1)
  {
    var log', ids' := log + [page], ids + ids1;
    BelowCursor(log, worker, idle, envs, ids, page.cursor);
    forall i | 0 <= i < |ids'| ensures Returned(log', worker, idle, ids'[i], (envs + envs1)[i]) {
      if i < |ids| {
        var k :| 0 <= k < |log| && FromPage(log[k], worker, idle, ids[i], envs[i]);
        assert FromPage(log'[k], worker, idle, ids[i], envs[i]);
      } else {
        assert FromPage(log'[|log|], worker, idle, ids1[i - |ids|], envs1[i - |ids|]);
      }
    }
    forall i, k | 0 <= i < k < |ids'| ensures ids'[i] < ids'[k] {
      assert |ids| <= k ==> page.cursor <= ids'[k];
      assert i < |ids| ==> ids[i] in ids;
    }
    forall k | 0 <= k < |log'| ensures ExactAt(log'[k], idle, ids') {
      ExactKept(log, page, worker, idle, ids, ids1, k);
    }
    assert forall k :: 0 <= k < |log| ==> log'[k] == log[k];
  }

  lemma ExactKept(log: seq<Page>, page: Page, worker: nat, idle: nat, ids: seq<nat>, ids1: seq<nat>, k: nat)
    requires Chained(log) && NextCursor(log) == Some(page.cursor) && k <= |log|
    requires forall k :: 0 <= k < |log| ==> ExactAt(log[k], idle, ids)
    requires page.replied ==> ExactAt(page, idle, ids1)
    requires (forall id :: id in ids ==> id < page.cursor) && forall id :: id in ids1 ==> page.cursor <= id
    ensures ExactAt((log + [page])[k], idle, ids + ids1)
  {
    if k < |log| {
      CursorsAscend(log, k, page.cursor);
      assert ExactAt(log[k], idle, ids);
    }
  }

  /** A page's range ends at or before every later cursor. */
  lemma {:induction false} CursorsAscend(log: seq<Page>, k: nat, cursor: nat)
    requires Chained(log) && k < |log| && NextCursor(log) == Some(cursor)
    ensures forall id: nat :: Covers(log[k], id) ==> id < cursor
  {
    var n := |log| - 1;
    if k < n {
      CursorsAscend(log[..n], k, log[n].cursor);
    }
  }

  /** Everything returned so far lies below the next cursor. */
  lemma BelowCursor(log: seq<Page>, worker: nat, idle: nat, envs: seq<Envelope>, ids: seq<nat>, cursor: nat)
    requires Scanned(log, worker, idle, envs, ids) && NextCursor(log) == Some(cursor)
    ensures forall id :: id in ids ==> id < cursor
  {
    forall id | id in ids ensures id < cursor {
      var i :| 0 <= i < |ids| && ids[i] == id;
      var k :| 0 <= k < |log| && FromPage(log[k], worker, idle, ids[i], envs[i]);
      CursorsAscend(log, k, cursor);
    }
  }

  // ---- Without interference ----

  /** Entries that are stored and pending stay pending through claims. */
  ghost predicate StillPending(start: Snap, snap: Snap)
  {
    forall id :: id in start.pel && id in start.stored ==> id in snap.pel
  }

  /** From the cursor up nothing has changed since the scan began. */
  ghost predicate Frozen(start: Snap, snap: Snap, cursor: nat)
  {
    && snap.now == start.now && snap.top == start.top && snap.stored == start.stored
    && (forall id :: cursor <= id ==> (id in snap.pel <==> id in start.pel))
    && (forall id :: cursor <= id && id in start.pel && id in snap.pel ==> snap.pel[id] == start.pel[id])
    && StillPending(start, snap)
  }

  ghost predicate ExactlyBelow(start: Snap, idle: nat, ids: seq<nat>, cursor: nat)
  {
    forall id: nat :: id in ids <==> id < cursor && Eligible(start, idle, id)
  }

  lemma PageFreezes(start: Snap, snap: Snap, worker: nat, idle: nat, cursor: nat, batch: nat)
    requires snap.Valid() && Frozen(start, snap, cursor) && 0 < batch
    ensures var snap', next := AfterClaim(snap, worker, idle, cursor, batch), NextOf(snap, idle, cursor, batch);
            StillPending(start, snap') && (next.Some? ==> Frozen(start, snap', next.value))
  {
    var ids := Ascending(snap.pel.Keys, cursor, snap.top + 1);
    var n := Examined(snap, idle, ids, batch, 10 * batch);
    if n < |ids| {
      assert ids[n] in ids;
      forall id | id in ids[..n] ensures id < ids[n] {
        var k :| 0 <= k < n && ids[k] == id;
      }
    }
  }

  lemma PageExact(start: Snap, snap: Snap, idle: nat, ids: seq<nat>, cursor: nat, next: Option<nat>,
                  reply: seq<(nat, Payload)>, envs1: seq<Envelope>, ids1: seq<nat>)
    requires snap.Valid() && Frozen(start, snap, cursor) && ExactlyBelow(start, idle, ids, cursor)
    requires PageOf(snap, idle, cursor, next, reply)
    requires |envs1| == |ids1|
    requires forall i :: 0 <= i < |ids1| ==> (ids1[i], Job(envs1[i])) in reply
    requires forall i :: 0 <= i < |reply| && reply[i].1.Job? ==> reply[i].0 in ids1
    ensures next.Some? ==> ExactlyBelow(start, idle, ids + ids1, next.value)
    ensures next.None? ==> forall id: nat :: id in ids + ids1 <==> Eligible(start, idle, id)
  {
    forall id: nat
      ensures id in ids1 <==> cursor <= id && (next.Some? ==> id < next.value) && Eligible(start, idle, id)
    {
      if id in ids1 {
        var i :| 0 <= i < |ids1| && ids1[i] == id;
        var k :| 0 <= k < |reply| && reply[k] == (ids1[i], Job(envs1[i]));
      }
      if cursor <= id && (next.Some? ==> id < next.value) && Eligible(start, idle, id) {
        assert Stale(snap, idle, id);
        var i :| 0 <= i < |reply| && reply[i].0 == id;
      }
    }
  }

  /** Alone, between two pages: nothing from the cursor up has changed, and what lies below was returned exactly. */
  ghost predicate QuietOk(start: Snap, snap: Snap, idle: nat, ids: seq<nat>, cursor: nat)
  {
    Frozen(start, snap, cursor) && ExactlyBelow(start, idle, ids, cursor)
  }

  /** Alone, after a page: nothing stored has left the pending list, and a finished scan is the one-shot reclaim. */
  ghost predicate QuietDone(start: Snap, snap: Snap, idle: nat, ids: seq<nat>, complete: bool)
  {
    StillPending(start, snap) && (complete ==> forall id: nat :: id in ids <==> Eligible(start, idle, id))
  }

  datatype ScanEnd = Complete | Nil | Erred | Cancelled

  /** One page of the scan: XAUTOCLAIM and the decoding of its reply. */
  method ScanPage(g: Group, worker: nat, idle: nat, batch: nat, quiet: bool, cursor: nat, ghost start: Snap,
                  ghost log: seq<Page>, envs: seq<Envelope>, ids: seq<nat>)
      returns (envs': seq<Envelope>, ids': seq<nat>, next: Option<nat>, end: PageEnd, ghost page: Page)
    requires g.Valid() && 0 < batch && Scanned(log, worker, idle, envs, ids) && NextCursor(log) == Some(cursor)
    requires quiet ==> QuietOk(start, g.snap, idle, ids, cursor)
    modifies g
    ensures g.Valid() && g.snap.top == old(g.snap.top)
    ensures page == Page(worker, idle, batch, cursor, old(g.snap), g.snap, end == Replied, end == NilReply, page.next)
    ensures end == Replied ==> page.next == next
    ensures g.trail == old(g.trail) + [Asked(page)] && Pages(g.trail) == Pages(old(g.trail)) + [page]
    ensures Scanned(log + [page], worker, idle, envs', ids')
    ensures end == Replied && next.Some? ==> cursor < next.value <= g.snap.top
    ensures end == Replied && next.Some? ==> NextCursor(log + [page]) == Some(next.value)
    ensures quiet ==> QuietDone(start, g.snap, idle, ids', end == Replied && next == None)
    ensures quiet && end == Replied && next.Some? ==> QuietOk(start, g.snap, idle, ids', next.value)
  {
    ghost var before := g.snap;
    if quiet {
      PageFreezes(start, before, worker, idle, cursor, batch);
      assert StillPending(start, before);
    }
    hide Frozen, ExactlyBelow, StillPending, Scanned, Continuous, Pages, AfterClaim, NextOf;
    var reply;
    reply, next, end, page := g.XAutoClaim(worker, idle, cursor, batch);
    if end != Replied {
      PageAdded(log, page, worker, idle, envs, ids, [], []);
      assert envs + [] == envs && ids + [] == ids;
      return envs, ids, next, end, page;
    }
    var envs1, ids1 := Decode(reply);
    DecodedExact(page, worker, idle, reply, envs1, ids1);
    PageAdded(log, page, worker, idle, envs, ids, envs1, ids1);
    if quiet {
      PageExact(start, before, idle, ids, cursor, next, reply, envs1, ids1);
    }
    envs', ids' := envs + envs1, ids + ids1;
  }

  lemma ScanStarts(start: Snap, worker: nat, idle: nat)
    ensures Scanned([], worker, idle, [], []) && QuietOk(start, start, idle, [], 0)
  {
  }

  /** How a scan ended, by its last page; the context is looked at after each page and found cancelled after page
      number `patience`, if that is not 0. */
  ghost predicate EndsWith(log: seq<Page>, patience: nat, end: ScanEnd)
  {
    && log != [] && (0 < patience ==> |log| <= patience)
    && var last := log[|log| - 1];
       match end
       case Complete => last.replied && last.next == None
       case Cancelled => last.replied && last.next.Some? && |log| == patience
       case Nil => !last.replied && last.nil
       case Erred => !last.replied && !last.nil
  }

  /** The events of these pages with nothing in between. */
  ghost function Askings(log: seq<Page>): seq<Event>
  {
    seq(|log|, i requires 0 <= i < |log| => Asked(log[i]))
  }

  /** Since `start`, exactly these pages were asked of the group, and with `quiet` nothing else happened to it. */
  ghost predicate Tracks(start: seq<Event>, trail: seq<Event>, log: seq<Page>, quiet: bool)
  {
    start <= trail && Pages(trail) == Pages(start) + log && (quiet ==> trail == start + Askings(log))
  }

  lemma PageTracked(start: seq<Event>, trail: seq<Event>, log: seq<Page>, quiet: bool, worker: nat, idle: nat,
                    batch: nat, page: Page)
    requires Tracks(start, trail, log, quiet) && AskedBy(log, worker, idle, batch)
    requires page.worker == worker && page.idle == idle && page.batch == batch
    ensures Tracks(start, trail + [Asked(page)], log + [page], quiet) && AskedBy(log + [page], worker, idle, batch)
  {
    assert (trail + [Asked(page)])[..|trail|] == trail;
    assert Askings(log + [page]) == Askings(log) + [Asked(page)];
  }

  lemma OthersTracked(start: seq<Event>, trail: seq<Event>, trail': seq<Event>, log: seq<Page>)
    requires Tracks(start, trail, log, false) && trail <= trail' && Pages(trail') == Pages(trail)
    ensures Tracks(start, trail', log, false)
  {
  }

  /** All pages were asked by this worker, with these arguments. */
  ghost predicate AskedBy(log: seq<Page>, worker: nat, idle: nat, batch: nat)
  {
    forall k :: 0 <= k < |log| ==> log[k].worker == worker && log[k].idle == idle && log[k].batch == batch
  }

  /** What the caller of a scan is left with: the pages are exactly those asked of the group, with these arguments; each
      returned what was eligible in its range; and nothing happened after the last one. */
  ghost predicate ScanStops(start: Snap, from: seq<Event>, trail: seq<Event>, snap: Snap, args: ScanArgs,
                            log: seq<Page>, envs: seq<Envelope>, ids: seq<nat>, complete: bool)
  {
    && Tracks(from, trail, log, args.quiet) && AskedBy(log, args.worker, args.idle, args.batch)
    && Scanned(log, args.worker, args.idle, envs, ids)
    && log != [] && log[0].before == start && snap == log[|log| - 1].after
    && (args.quiet ==> QuietDone(start, snap, args.idle, ids, complete))
  }

  /** Between two pages. */
  ghost predicate ScanGoes(start: Snap, from: seq<Event>, trail: seq<Event>, snap: Snap, args: ScanArgs, log: seq<Page>,
                           envs: seq<Envelope>, ids: seq<nat>, cursor: nat)
  {
    && Tracks(from, trail, log, args.quiet) && AskedBy(log, args.worker, args.idle, args.batch)
    && Scanned(log, args.worker, args.idle, envs, ids) && NextCursor(log) == Some(cursor)
    && (if log == [] then snap == start else log[0].before == start)
    && (args.quiet ==> QuietOk(start, snap, args.idle, ids, cursor))
  }

  /** With `quiet` no other client is active. */
  datatype ScanArgs = ScanArgs(worker: nat, idle: nat, batch: nat, quiet: bool)

  method NextPage(g: Group, args: ScanArgs, ghost start: Snap, ghost from: seq<Event>, ghost log: seq<Page>,
                  envs: seq<Envelope>, ids: seq<nat>, cursor: nat)
      returns (envs': seq<Envelope>, ids': seq<nat>, next: Option<nat>, end: PageEnd, ghost page: Page)
    requires g.Valid() && 0 < args.batch && ScanGoes(start, from, g.trail, g.snap, args, log, envs, ids, cursor)
    modifies g
    ensures g.Valid() && g.snap.top == old(g.snap.top)
    ensures page.replied == (end == Replied) && page.nil == (end == NilReply) && (end == Replied ==> page.next == next)
    ensures ScanStops(start, from, g.trail, g.snap, args, log + [page], envs', ids', end == Replied && next == None)
    ensures end == Replied && next.Some? ==>
              && cursor < next.value <= g.snap.top
              && ScanGoes(start, from, g.trail, g.snap, args, log + [page], envs', ids', next.value)
  {
    hide Scanned, QuietOk, QuietDone, Tracks, AskedBy, Group.Valid, Pages, NextCursor;
    ghost var before := g.trail;
    envs', ids', next, end, page :=
      ScanPage(g, args.worker, args.idle, args.batch, args.quiet, cursor, start, log, envs, ids);
    PageTracked(from, before, log, args.quiet, args.worker, args.idle, args.batch, page);
    assert (log + [page])[0] == if log == [] then page else log[0];
  }

  lemma ScanBegins(snap: Snap, trail: seq<Event>, args: ScanArgs)
    ensures ScanGoes(snap, trail, trail, snap, args, [], [], [], 0)
  {
    ScanStarts(snap, args.worker, args.idle);
  }

  lemma ScanGoesOn(start: Snap, from: seq<Event>, trail: seq<Event>, trail': seq<Event>, snap: Snap, snap': Snap,
                   args: ScanArgs, log: seq<Page>, envs: seq<Envelope>, ids: seq<nat>, cursor: nat)
    requires ScanGoes(start, from, trail, snap, args, log, envs, ids, cursor) && !args.quiet && log != []
    requires trail <= trail' && Pages(trail') == Pages(trail)
    ensures ScanGoes(start, from, trail', snap', args, log, envs, ids, cursor)
  {
    OthersTracked(from, trail, trail', log);
  }

  /**
   * ReclaimStale. `log` is the pages it asked of the group, in order; `bound` limits the ids that exist while it runs.
   *
   * Under interference each page returned exactly what was eligible in its range when it was asked (Scanned), the
   * pages of a complete scan cover all ids (EveryIdCovered), and nothing happened after the last page, so a scan that
   * errs leaves pending what it claimed. Alone, a complete scan is the one-shot reclaim.
   */
  method ReclaimStale(g: Group, args: ScanArgs, bound: nat, patience: nat)
      returns (envs: seq<Envelope>, ids: seq<nat>, end: ScanEnd, ghost log: seq<Page>)
    requires g.Valid() && g.snap.top <= bound && 0 < args.batch
    modifies g
    ensures g.Valid() && EndsWith(log, patience, end)
    ensures ScanStops(old(g.snap), old(g.trail), g.trail, g.snap, args, log, envs, ids, end == Complete)
  {
    envs, ids, end, log := [], [], Complete, [];
    ghost var start, from := g.snap, g.trail;
    ScanBegins(start, from, args);
    hide ScanGoes, ScanStops, Group.Valid, Pages;
    var cursor, asked := 0, 0;
    while true
      invariant g.Valid() && g.snap.top <= bound && cursor <= bound + 1
      invariant ScanGoes(start, from, g.trail, g.snap, args, log, envs, ids, cursor)
      invariant asked == |log| && (0 < patience ==> asked < patience)
      decreases bound + 1 - cursor
    {
      var next, pageEnd;
      ghost var page;
      envs, ids, next, pageEnd, page := NextPage(g, args, start, from, log, envs, ids, cursor);
      log, asked := log + [page], asked + 1;
      if pageEnd != Replied {
        end := if pageEnd == NilReply then Nil else Erred;
        return;
      }
      if next == None {
        return;
      }
      cursor := next.value;
      if asked == patience {
        end := Cancelled;
        return;
      }
      if !args.quiet {
        ghost var trail, snap := g.trail, g.snap;
        g.Interfere(bound);
        ScanGoesOn(start, from, trail, g.trail, snap, g.snap, args, log, envs, ids, cursor);
      }
    }
  }
}
