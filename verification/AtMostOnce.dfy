/** At most once: the paused calls of a session, each in one place. `Safe` is the exact condition
    under which no later run, as long as its workers read, commit and write back while they hold
    the session, starts a call twice; and it says exactly which late steps do harm. */
module AtMostOnce {
  import opened Text
  import opened Resume

  // ----- the condition -----

  predicate StartedOnce(begun: seq<Begin>) {
    forall i, j :: 0 <= i < j < |begun| ==> (begun[i].id, begun[i].k) != (begun[j].id, begun[j].k)
  }

  predicate Started(begun: seq<Begin>, id: Name, k: nat) {
    exists i :: 0 <= i < |begun| && begun[i].id == id && begun[i].k == k
  }

  /** The worker reads, commits its startup and writes its offers back while it holds the session. */
  predicate InTime(s: State, a: Action) {
    match a
    case ReadStart(r, _) => s.active == Some(r)
    case CommitStart(r) => s.active == Some(r)
    case OfferOverride(r, _, _, _) => s.active == Some(r)
    case _ => true
  }

  predicate AllInTime(s: State, actions: seq<Action>)
    decreases |actions|
  {
    actions == [] || (InTime(s, actions[0]) && AllInTime(Step(s, actions[0]), actions[1..]))
  }

  /** Some state of the world lets the call be started. */
  predicate Startable(kind: Kind, item: Item) {
    match kind
    case Bundle => item.status != Denied
    case Legacy => item.status == Approved
    case Override => item.hash.Some?
  }

  lemma {:induction false} MayStartIff(kind: Kind, item: Item, env: Env)
    ensures MayStart(kind, item, env) ==> Startable(kind, item)
    ensures Startable(kind, item) ==> MayStart(kind, item, Env(false, true, Allow, item.hash, true))
  {
  }

  predicate Runnable(record: Record, next: nat, id: Name, k: nat) {
    record.id == id && next <= k < |record.items| && Startable(record.kind, record.items[k])
  }

  /** The worker may still start the call. */
  predicate Ahead(s: State, r: nat, id: Name, k: nat) {
    r in s.workers && s.workers[r].Resuming? && Runnable(s.workers[r].record, s.workers[r].next, id, k)
  }

  /** A decision can name the item. */
  predicate Decidable(items: seq<Item>, k: nat)
    requires k < |items|
  {
    items[k].callId != "" && Lookup(items, items[k].callId) == Some(k)
  }

  predicate AllDecidable(items: seq<Item>) {
    forall j :: 0 <= j < |items| && items[j].status == Waiting ==> Decidable(items, j)
  }

  /** One request can approve the waiting item and decide all the others that wait. */
  predicate Approvable(items: seq<Item>, k: nat)
    requires k < |items|
  {
    (exists scope :: scope in items[k].scopes && scope != "") && AllDecidable(items)
  }

  /** Some request of the user makes the call startable. */
  predicate Takable(record: Record, id: Name, k: nat) {
    && record.id == id && k < |record.items|
    && match record.kind
       case Bundle =>
         record.items[k].status != Denied && (record.items[k].status == Waiting ==> Approvable(record.items, k))
       case Legacy => record.items[k].status == Approved || |record.items| == 1
       case Override => false
  }

  /** The startup takes the call. */
  predicate Takes(p: Phase, id: Name, k: nat)
    requires p.Reading?
  {
    JobOf(p).Resuming? && Runnable(JobOf(p).record, 0, id, k)
  }

  predicate Offering(offers: map<nat, Item>, id: Name, k: nat) {
    id.Offered? && k == 0 && id.n in offers && offers[id.n].hash.Some?
  }

  /** The copy that the run holding the session can write back. */
  function HolderOffers(s: State): map<nat, Item> {
    if s.active.None? || s.active.value !in s.workers then map[]
    else match s.workers[s.active.value]
      case Resuming(_, _, offers) => offers
      case Working(offers) => offers
      case _ => map[]
  }

  /** What is pending can outlive the run that holds the session. */
  predicate KeepsPending(s: State) {
    s.active.None? || (s.active.value in s.workers &&
      match s.workers[s.active.value]
      case Fresh(_) => false
      case Reading(_, pending, _, _) => pending.None? && !Fails(s.workers[s.active.value])
      case Gone => false
      case _ => true)
  }

  /** The run that holds the session is to read what is pending. */
  predicate HolderIsFresh(s: State) {
    s.active.Some? && s.active.value in s.workers && s.workers[s.active.value].Fresh?
  }

  /** A later run can take the pending call, or the run that holds the session is about to. */
  predicate Pends(s: State, id: Name, k: nat) {
    && s.pending.Some?
    && ((KeepsPending(s) && Takable(s.pending.value, id, k)) ||
      (HolderIsFresh(s) && Takes(Reading(s.workers[s.active.value].request, s.pending, map[], false), id, k)))
  }

  /** Some run can take the call. */
  predicate Stored(s: State, id: Name, k: nat) {
    Pends(s, id, k) || Offering(s.overrides, id, k) || Offering(HolderOffers(s), id, k)
  }

  ghost predicate AheadIsFree(s: State) {
    forall r: nat, id: Name, k: nat :: Ahead(s, r, id, k) ==>
      !Started(s.begun, id, k) && !Stored(s, id, k) && forall q: nat :: q != r ==> !Ahead(s, q, id, k)
  }

  /** Each call is in one place: started, ahead of one worker, or stored. */
  ghost predicate Free(s: State) {
    StartedOnce(s.begun) && AheadIsFree(s) && forall id: Name, k: nat :: Stored(s, id, k) ==> !Started(s.begun, id, k)
  }

  predicate HolderReads(s: State) {
    s.active.Some? && s.active.value in s.workers && s.workers[s.active.value].Reading?
  }

  function HolderCommits(s: State): State
    requires HolderReads(s)
  {
    Startup(s, s.active.value, s.workers[s.active.value])
  }

  /** Each call is in one place, also once the run that holds the session commits what it has read. */
  ghost predicate Safe(s: State) {
    Free(s) && (HolderReads(s) ==> Free(HolderCommits(s)))
  }

  // ----- what is known of names -----

  predicate KnownRecord(n: nat, record: Record) { record.id.Paused? && record.id.n < n && record.kind != Override }

  predicate KnownOffers(n: nat, offers: map<nat, Item>) { forall id :: id in offers ==> id < n }

  predicate KnownPhase(n: nat, p: Phase) {
    match p
    case Reading(_, pending, offers, _) => KnownOffers(n, offers) && (pending.Some? ==> KnownRecord(n, pending.value))
    case Resuming(record, _, offers) =>
      record.id.n < n && KnownOffers(n, offers) && (record.id.Offered? ==> record.id.n !in offers)
    case Working(offers) => KnownOffers(n, offers)
    case _ => true
  }

  ghost predicate Known(s: State) {
    && (s.active.Some? ==> s.active.value < s.nextRun)
    && (s.pending.Some? ==> KnownRecord(s.nextRecord, s.pending.value))
    && KnownOffers(s.nextRecord, s.overrides)
    && (forall r :: r in s.workers ==> r < s.nextRun && KnownPhase(s.nextRecord, s.workers[r]))
    && (forall i :: 0 <= i < |s.begun| ==> s.begun[i].id.n < s.nextRecord)
  }

  lemma {:induction false} StepKeepsKnown(s: State, a: Action)
    requires Known(s)
    ensures Known(Step(s, a))
  {
    hide Resume.Startup, MayStart;
    if a.CommitStart? && a.run in s.workers && s.workers[a.run].Reading? { StartupKeepsKnown(s, a.run); }
  }

  lemma {:induction false} StartupKeepsKnown(s: State, r: nat)
    requires Known(s) && r in s.workers && s.workers[r].Reading?
    ensures Known(Startup(s, r, s.workers[r]))
  {
    hide Rule, Resolved, NewFacts;
    assert KnownPhase(s.nextRecord, s.workers[r]);
  }

  /** Names are known whatever the workers do, in time or not. */
  lemma {:induction false} RunKeepsKnown(s: State, actions: seq<Action>)
    requires Known(s)
    ensures Known(Run(s, actions))
    decreases |actions|
  {
    if actions != [] {
      StepKeepsKnown(s, actions[0]);
      hide Step, Known;
      RunKeepsKnown(Step(s, actions[0]), actions[1..]);
    }
  }

  lemma {:induction false} NewName(s: State, id: Name)
    requires Known(s) && s.nextRecord <= id.n
    ensures forall k: nat :: !Started(s.begun, id, k)
    ensures forall r: nat, k: nat :: !Ahead(s, r, id, k)
  {
  }

  // ----- safe states stay safe -----

  /** Nothing more is ahead, and nothing more is stored but under new names. */
  lemma {:induction false} LessIsFree(s: State, t: State)
    requires Free(s) && t.begun == s.begun
    requires forall r: nat, id: Name, k: nat :: Ahead(t, r, id, k) ==> Ahead(s, r, id, k)
    requires forall id: Name, k: nat :: Stored(t, id, k) ==>
      Stored(s, id, k) || (!Started(s.begun, id, k) && forall r: nat :: !Ahead(s, r, id, k))
    ensures Free(t)
  {
    hide Ahead, Stored, Started, StartedOnce;
  }

  /** A worker goes past one call, starting it or not. */
  lemma {:induction false} PassIsFree(s: State, t: State, r: nat)
    requires Free(s) && r in s.workers && s.workers[r].Resuming?
    requires
      var Resuming(record, next, offers) := s.workers[r];
      && next < |record.items|
      && t == s.(workers := s.workers[r := Resuming(record, next + 1, offers)], begun := t.begun)
      && (t.begun == s.begun || (|t.begun| == |s.begun| + 1 && t.begun[..|s.begun|] == s.begun &&
            Runnable(record, next, t.begun[|s.begun|].id, t.begun[|s.begun|].k) && t.begun[|s.begun|].k == next))
    ensures Free(t)
  {
    var Resuming(record, next, offers) := s.workers[r];
    assert forall id: Name, k: nat :: Stored(t, id, k) == Stored(s, id, k);
    hide Stored;
    if t.begun != s.begun {
      var b := t.begun[|s.begun|];
      assert Ahead(s, r, b.id, b.k);
      StartsAnother(s.begun, b);
      assert t.begun == s.begun + [b];
      assert !Ahead(t, r, b.id, b.k);
      assert forall q: nat, id: Name, k: nat :: Ahead(t, q, id, k) ==> Ahead(s, q, id, k);
      hide Ahead, Started, StartedOnce;
    } else {
      assert forall q: nat, id: Name, k: nat :: Ahead(t, q, id, k) ==> Ahead(s, q, id, k);
      hide Ahead;
    }
  }

  lemma {:induction false} StartsAnother(begun: seq<Begin>, b: Begin)
    ensures forall id: Name, k: nat :: Started(begun + [b], id, k) <==>
      Started(begun, id, k) || (id == b.id && k == b.k)
    ensures StartedOnce(begun) && !Started(begun, b.id, b.k) ==> StartedOnce(begun + [b])
  {
    var more := begun + [b];
    forall id: Name, k: nat ensures Started(more, id, k) <==> Started(begun, id, k) || (id == b.id && k == b.k) {
      if Started(begun, id, k) {
        var i :| 0 <= i < |begun| && begun[i].id == id && begun[i].k == k;
        assert more[i].id == id && more[i].k == k;
      }
      if id == b.id && k == b.k { assert more[|begun|].id == id && more[|begun|].k == k; }
    }
  }

  /** The startup puts the override back on the list. */
  predicate Returns(p: Phase, id: Name, k: nat)
    requires p.Reading?
  {
    !Fails(p) && (p.request.UseOverride? || p.pruned) && Offering(OffersAfter(p), id, k)
  }

  /** The startup leaves the call stored, by what it writes. */
  predicate WritesBack(s: State, p: Phase, id: Name, k: nat)
    requires p.Reading?
  {
    Returns(p, id, k) || (!Fails(p) && Partial(p) && Pends(s.(pending := Some(Ruled(p))), id, k))
  }

  /** What ruling makes startable was takable. */
  lemma {:induction false} RulingTakes(record: Record, request: Request, id: Name, k: nat)
    requires Rule(record, request).Some? && record.kind != Override
    ensures
      var now := record.(items := Rule(record, request).value);
      Runnable(now, 0, id, k) && (record.kind == Bundle ==> Resolved(now.items)) ==> Takable(record, id, k)
  {
    RuleLength(record, request);
    if record.kind == Bundle && request.Confirm? {
      DecideAllRules(record.items, request.decisions, {});
      DecideAllApproves(record.items, request.decisions, {});
    }
    hide DecideAll, Lookup;
  }

  lemma {:induction false} DecideAllApproves(items: seq<Item>, ds: seq<Decision>, seen: set<string>)
    requires DecideAll(items, ds, seen).Some?
    ensures
      var after := DecideAll(items, ds, seen).value;
      && |after| == |items|
      && forall k :: 0 <= k < |after| && after[k].status != items[k].status ==>
           Decidable(items, k) &&
           (after[k].status == Approved ==> exists scope :: scope in items[k].scopes && scope != "")
    decreases |ds|
  {
    if ds != [] {
      var d, next := ds[0], Decide(items, ds[0]);
      var at := Lookup(items, d.callId).value;
      LookupSame(items, next);
      DecideAllApproves(next, ds[1..], seen + {d.callId});
      hide Lookup, DecideAll;
      if d.verb == Approve { assert ScopeOf(d) in items[at].scopes && ScopeOf(d) != ""; }
    }
  }

  lemma {:induction false} TakesStored(p: Phase, id: Name, k: nat)
    requires p.Reading? && (p.pending.Some? ==> p.pending.value.kind != Override)
    ensures Takes(p, id, k) ==> (p.pending.Some? && Takable(p.pending.value, id, k)) || Offering(p.offers, id, k)
  {
    if p.pending.Some? && !Fails(p) { RulingTakes(p.pending.value, p.request, id, k); }
    hide Rule, Takable, Resolved;
  }

  /** What pends was takable from the record, and has its name. */
  lemma {:induction false} PendsTakable(s: State, id: Name, k: nat)
    requires Known(s)
    ensures Pends(s, id, k) ==> Takable(s.pending.value, id, k) && id.Paused?
  {
    if s.pending.Some? && HolderIsFresh(s) {
      TakesStored(Reading(s.workers[s.active.value].request, s.pending, map[], false), id, k);
    }
    hide Takes;
  }

  lemma {:induction false} TakenIsCleared(s: State, r: nat, p: Phase, id: Name, k: nat)
    requires Known(s) && r in s.workers && s.workers[r] == p && p.Reading? && Known(Startup(s, r, p))
    ensures
      var t := Startup(s, r, p);
      Takes(p, id, k) ==>
        !Pends(t, id, k) && !Offering(t.overrides, id, k) && !Offering(OffersAfter(p), id, k)
  {
    assert KnownPhase(s.nextRecord, p);
    PendsTakable(Startup(s, r, p), id, k);
    hide Rule, Resolved, Pends, Known;
  }

  /** The call is taken whatever else was read, unless it is an override. */
  lemma {:induction false} TakesPaused(request: Request, pending: Option<Record>, offers: map<nat, Item>, pruned: bool,
          id: Name, k: nat)
    requires pending.Some? ==> pending.value.id.Paused?
    ensures Takes(Reading(request, pending, offers, pruned), id, k) && id.Paused? <==>
      pending.Some? && Takes(Reading(request, pending, map[], false), id, k)
  {
    hide Rule, Resolved;
  }

  /** A commit on what is stored when it reads takes only what was stored, and nothing twice. */
  lemma {:induction false} FreshCommitIsFree(s: State, r: nat, dropped: set<nat>)
    requires Free(s) && Known(s) && r in s.workers && s.workers[r].Fresh? && s.active == Some(r)
    ensures
      var t := Step(s, ReadStart(r, dropped));
      Free(Startup(t, r, t.workers[r]))
  {
    var t := Step(s, ReadStart(r, dropped));
    var p := t.workers[r];
    var v := Startup(t, r, p);
    StepKeepsKnown(s, ReadStart(r, dropped));
    StepKeepsKnown(t, CommitStart(r));
    forall id: Name, k: nat ensures Takes(p, id, k) ==> Stored(s, id, k) && !Stored(v, id, k) {
      TakesStored(p, id, k);
      TakesPaused(p.request, p.pending, p.offers, p.pruned, id, k);
      TakenIsCleared(t, r, p, id, k);
      HolderOffersAfter(t, r, p);
      hide Takes, Rule, Runnable, Takable, Startup, JobOf;
    }
    forall id: Name, k: nat ensures Stored(v, id, k) ==> Stored(s, id, k) {
      HolderOffersAfter(t, r, p);
      hide Takable, Rule, Runnable;
    }
    CommitIsFree(s, v, r, p);
  }

  lemma {:induction false} HolderOffersAfter(s: State, r: nat, p: Phase)
    requires r in s.workers && s.workers[r] == p && p.Reading? && s.active == Some(r)
    ensures HolderOffers(Startup(s, r, p)) == if JobOf(p).Gone? then map[] else OffersAfter(p)
  {
  }

  lemma {:induction false} CommitIsFree(s: State, t: State, r: nat, p: Phase)
    requires Free(s) && p.Reading? && t.begun == s.begun && t.workers == s.workers[r := JobOf(p)]
    requires forall id: Name, k: nat :: Stored(t, id, k) ==>
      !Started(s.begun, id, k) && forall q: nat :: q != r ==> !Ahead(s, q, id, k)
    requires forall id: Name, k: nat :: Takes(p, id, k) ==>
      !Started(s.begun, id, k) && !Stored(t, id, k) && forall q: nat :: q != r ==> !Ahead(s, q, id, k)
    ensures Free(t)
  {
    assert forall q: nat, id: Name, k: nat :: q != r ==> Ahead(t, q, id, k) == Ahead(s, q, id, k);
    assert forall id: Name, k: nat :: Ahead(t, r, id, k) == Takes(p, id, k);
    hide Ahead, Takes, Stored, Started, StartedOnce;
  }

  lemma {:induction false} NextIsFree(s: State, r: nat, env: Env)
    requires Free(s)
    ensures Free(Step(s, Next(r, env)))
  {
    var t := Step(s, Next(r, env));
    if r in s.workers && s.workers[r].Resuming? {
      var Resuming(record, next, offers) := s.workers[r];
      if next < |record.items| {
        MayStartIff(record.kind, record.items[next], env);
        hide Free, MayStart;
        PassIsFree(s, t, r);
      } else {
        LessIsFree(s, t);
      }
    }
  }

  /** A worker that settles its turn with a paused hop, or that is gone. */
  lemma {:induction false} StopIsFree(s: State, t: State, r: nat)
    requires Free(s) && Known(s) && r in s.workers
    requires t.workers == s.workers[r := Gone] || (s.workers[r].Working? && t.workers == s.workers[r := Settled])
    requires t.begun == s.begun && t.overrides == s.overrides && t.active == s.active
    requires t.pending == s.pending || (t.pending.Some? && t.pending.value.id == Paused(s.nextRecord))
    requires Known(t)
    ensures Free(t)
  {
    NewName(s, Paused(s.nextRecord));
    forall id: Name, k: nat | Stored(t, id, k) ensures Stored(s, id, k) || id == Paused(s.nextRecord) {
      PendsTakable(t, id, k);
      hide Takable, Takes, Known, Free;
    }
    hide Takable, Runnable, Known, Pends;
    LessIsFree(s, t);
  }

  /** The end of a turn writes the worker's copy back, with one more. */
  lemma {:induction false} OfferIsFree(s: State, r: nat, callId: string, hash: string, dropped: set<nat>)
    requires Free(s) && Known(s) && s.active == Some(r)
    ensures Free(Step(s, OfferOverride(r, callId, hash, dropped)))
  {
    NewName(s, Offered(s.nextRecord));
    hide Takable, Runnable, Known;
    LessIsFree(s, Step(s, OfferOverride(r, callId, hash, dropped)));
  }

  /** Claiming and reading the session, and letting go of it. */
  lemma {:induction false} OtherIsFree(s: State, a: Action)
    requires Free(s) && Known(s) && InTime(s, a) && (a.Claim? || a.ReadStart? || a.Release? || a.Terminalize?)
    ensures Free(Step(s, a))
  {
    var t := Step(s, a);
    StepKeepsKnown(s, a);
    forall id: Name, k: nat | Stored(t, id, k) ensures Stored(s, id, k) {
      PendsTakable(t, id, k);
      hide Takable, Takes, Known, Free;
    }
    hide Takable, Runnable, Pends, Known;
    LessIsFree(s, t);
  }

  lemma {:induction false} StepIsFree(s: State, a: Action)
    requires Safe(s) && Known(s) && InTime(s, a)
    ensures Free(Step(s, a))
  {
    hide Free, Known, MayStart, Startup;
    match a {
      case Next(r, env) => NextIsFree(s, r, env);
      case CommitStart(r) =>
      case PauseHop(r, _) =>
        StepKeepsKnown(s, a);
        if r in s.workers && s.workers[r].Working? { StopIsFree(s, Step(s, a), r); }
      case Crash(r) =>
        StepKeepsKnown(s, a);
        if r in s.workers { StopIsFree(s, Step(s, a), r); }
      case OfferOverride(r, callId, hash, dropped) => OfferIsFree(s, r, callId, hash, dropped);
      case _ => OtherIsFree(s, a);
    }
  }

  lemma {:induction false} HolderStaysFree(s: State, a: Action)
    requires Safe(s) && Known(s) && InTime(s, a) && HolderReads(Step(s, a))
    ensures Free(HolderCommits(Step(s, a)))
  {
    var t := Step(s, a);
    var q := t.active.value;
    var p := t.workers[q];
    if a.ReadStart? && s.workers[q].Fresh? {
      hide Free, Known;
      FreshCommitIsFree(s, q, a.dropped);
    } else {
      hide Free, Known, JobOf, MayStart, HolderCommits;
      if t != s { OthersStayFree(s, a); }
    }
  }

  /** A startup does not look at other workers, nor at what was started. */
  lemma {:induction false} StartupFrame(s: State, t: State, q: nat, p: Phase)
    requires p.Reading? && t == s.(workers := t.workers, begun := t.begun)
    ensures Startup(s, q, p).workers == s.workers[q := JobOf(p)]
    ensures Startup(t, q, p) == Startup(s, q, p).(workers := t.workers[q := JobOf(p)], begun := t.begun)
  {
    hide Rule, Partial, NewFacts, OffersAfter;
  }

  /** The commit of the holder and the next call of another worker can be exchanged. */
  lemma {:induction false} NextCommutes(s: State, r: nat, env: Env)
    requires HolderReads(s) && s.active != Some(r) && r in s.workers && s.workers[r].Resuming?
    ensures
      var t := Step(s, Next(r, env));
      HolderReads(t) && HolderCommits(t) == Step(HolderCommits(s), Next(r, env))
  {
    var q := s.active.value;
    var p, t := s.workers[q], Step(s, Next(r, env));
    hide MayStart, Startup, JobOf;
    StartupFrame(s, t, q, p);
    var u := Startup(s, q, p);
    assert u.workers[r] == s.workers[r] && u.begun == s.begun by { StartupFrame(s, s, q, p); }
    assert t.workers[q := JobOf(p)] == u.workers[r := t.workers[r]];
  }

  lemma {:induction false} StopCommutes(s: State, t: State, r: nat, end: Phase)
    requires HolderReads(s) && s.active != Some(r) && t.active == s.active
    requires t.workers == s.workers[r := end] && t.overrides == s.overrides && t.begun == s.begun
    ensures HolderReads(t)
    ensures
      var u, v := HolderCommits(s), HolderCommits(t);
      && v.workers == u.workers[r := end] && v.begun == u.begun && v.overrides == u.overrides && v.active == u.active
      && (v.pending == u.pending || v.pending == t.pending) && (t.pending == s.pending ==> v.pending == u.pending)
      && u.nextRecord == s.nextRecord && (r in s.workers ==> r in u.workers && u.workers[r] == s.workers[r])
  {
    var q := s.active.value;
    assert t.workers[q] == s.workers[q];
    hide Fails, Partial, NewFacts, OffersAfter, JobOf;
    assert HolderCommits(t).workers == HolderCommits(s).workers[r := end];
  }

  /** What other workers do meanwhile leaves the commit of the holder as free as it was. */
  lemma {:induction false} OthersStayFree(s: State, a: Action)
    requires Safe(s) && Known(s) && HolderReads(s) && InTime(s, a)
    requires Step(s, a) != s && HolderReads(Step(s, a))
    ensures Free(HolderCommits(Step(s, a)))
  {
    var t, u := Step(s, a), HolderCommits(s);
    StepKeepsKnown(s, CommitStart(s.active.value));
    StepKeepsKnown(s, a);
    StepKeepsKnown(t, CommitStart(t.active.value));
    assert u == Step(s, CommitStart(s.active.value));
    hide Free, Known, MayStart, Startup, HolderCommits, JobOf;
    match a {
      case Next(r, env) =>
        NextCommutes(s, r, env);
        NextIsFree(u, r, env);
      case PauseHop(r, _) =>
        StopCommutes(s, t, r, Settled);
        StopIsFree(u, HolderCommits(t), r);
      case Release(r) =>
        StopCommutes(s, t, r, Gone);
        StopIsFree(u, HolderCommits(t), r);
      case Crash(r) =>
        StopCommutes(s, t, r, Gone);
        StopIsFree(u, HolderCommits(t), r);
      case _ =>
    }
  }

  lemma {:induction false} StepKeepsSafe(s: State, a: Action)
    requires Safe(s) && Known(s) && InTime(s, a)
    ensures Safe(Step(s, a))
  {
    hide Step, Free, Known, HolderReads, HolderCommits;
    StepIsFree(s, a);
    if HolderReads(Step(s, a)) { HolderStaysFree(s, a); }
  }

  lemma {:induction false} RunKeepsSafe(s: State, actions: seq<Action>)
    requires Safe(s) && Known(s) && AllInTime(s, actions)
    ensures Safe(Run(s, actions))
    decreases |actions|
  {
    if actions != [] {
      StepKeepsSafe(s, actions[0]);
      StepKeepsKnown(s, actions[0]);
      hide Step, Safe, Known, InTime;
      RunKeepsSafe(Step(s, actions[0]), actions[1..]);
    }
  }

  // ----- unsafe states go wrong -----

  lemma {:induction false} RunOne(s: State, a: Action)
    requires InTime(s, a)
    ensures AllInTime(s, [a]) && Run(s, [a]) == Step(s, a)
  {
    var t := Step(s, a);
    assert [a][1..] == [] && Run(t, []) == t && AllInTime(t, []);
    hide Step, InTime;
  }

  lemma {:induction false} RunConcat(s: State, a: seq<Action>, b: seq<Action>)
    ensures Run(s, a + b) == Run(Run(s, a), b)
    ensures AllInTime(s, a) && AllInTime(Run(s, a), b) ==> AllInTime(s, a + b)
    decreases |a|
  {
    hide Step, InTime;
    if a == [] {
      assert a + b == b;
    } else {
      assert (a + b)[1..] == a[1..] + b;
      RunConcat(Step(s, a[0]), a[1..], b);
    }
  }

  /** A worker can be made to start any call ahead of it, all else standing still. */
  lemma {:induction false} Reach(s: State, r: nat, id: Name, k: nat) returns (actions: seq<Action>)
    requires Ahead(s, r, id, k)
    ensures AllInTime(s, actions)
    ensures
      var t := Run(s, actions);
      && s.begun < t.begun && Started(t.begun[|s.begun|..], id, k)
      && t == s.(workers := t.workers, begun := t.begun)
      && t.workers == s.workers[r := Resuming(s.workers[r].record, k + 1, s.workers[r].offers)]
    decreases k - s.workers[r].next
  {
    var Resuming(record, next, offers) := s.workers[r];
    if next == k {
      var a := Next(r, Env(false, true, Allow, record.items[k].hash, true));
      MayStartIff(record.kind, record.items[k], a.env);
      actions := [a];
      var t := Step(s, a);
      RunOne(s, a);
      assert t.begun[|s.begun|..][0] == t.begun[|s.begun|];
    } else {
      var a := Next(r, Env(true, false, Deny, None, false));
      var t := Step(s, a);
      var rest := Reach(t, r, id, k);
      actions := [a] + rest;
      assert actions[1..] == rest;
      assert t.workers[r := Resuming(record, k + 1, offers)] == s.workers[r := Resuming(record, k + 1, offers)];
    }
  }

  lemma {:induction false} StartedTwice(a: seq<Begin>, b: seq<Begin>, id: Name, k: nat)
    requires Started(a, id, k) && Started(b, id, k)
    ensures !StartedOnce(a + b)
  {
    var i :| 0 <= i < |a| && a[i].id == id && a[i].k == k;
    var j :| 0 <= j < |b| && b[j].id == id && b[j].k == k;
    assert (a + b)[i] == a[i] && (a + b)[|a| + j] == b[j];
  }

  lemma {:induction false} StartedLater(a: seq<Begin>, b: seq<Begin>, id: Name, k: nat)
    requires Started(b, id, k)
    ensures Started(a + b, id, k)
  {
    var j :| 0 <= j < |b| && b[j].id == id && b[j].k == k;
    assert (a + b)[|a| + j] == b[j];
  }

  /** Some run that is in time from now on starts a call twice. */
  ghost predicate CanRepeat(s: State) {
    exists actions :: AllInTime(s, actions) && !StartedOnce(Run(s, actions).begun)
  }

  lemma {:induction false} RepeatsLater(s: State, actions: seq<Action>)
    requires AllInTime(s, actions) && CanRepeat(Run(s, actions))
    ensures CanRepeat(s)
  {
    var t := Run(s, actions);
    var more :| AllInTime(t, more) && !StartedOnce(Run(t, more).begun);
    RunConcat(s, actions, more);
    assert AllInTime(s, actions + more);
  }

  /** A call that was started before is ahead of a worker. */
  lemma {:induction false} OldCallRepeats(s: State, r: nat, id: Name, k: nat)
    requires Ahead(s, r, id, k) && Started(s.begun, id, k)
    ensures CanRepeat(s)
  {
    var actions := Reach(s, r, id, k);
    var t := Run(s, actions);
    assert t.begun == s.begun + t.begun[|s.begun|..];
    StartedTwice(s.begun, t.begun[|s.begun|..], id, k);
  }

  /** A call is ahead of two workers. */
  lemma {:induction false} SharedCallRepeats(s: State, r: nat, q: nat, id: Name, k: nat)
    requires Ahead(s, r, id, k) && Ahead(s, q, id, k) && r != q
    ensures CanRepeat(s)
  {
    var actions := Reach(s, r, id, k);
    var t := Run(s, actions);
    assert t.begun == s.begun + t.begun[|s.begun|..];
    StartedLater(s.begun, t.begun[|s.begun|..], id, k);
    hide Run, AllInTime, Started, CanRepeat;
    assert Ahead(t, q, id, k);
    OldCallRepeats(t, q, id, k);
    RepeatsLater(s, actions);
  }

  /** The next run reads, and commits, its startup at once. */
  function Turn(s: State, request: Request): seq<Action> {
    [Claim(request), ReadStart(s.nextRun, {}), CommitStart(s.nextRun)]
  }

  function Claimed(s: State, request: Request): State {
    s.(active := Some(s.nextRun), nextRun := s.nextRun + 1,
       workers := s.workers[s.nextRun := Reading(request, s.pending, s.overrides, false)])
  }

  lemma {:induction false} TurnIs(s: State, request: Request)
    requires s.active.None? && Accepts(s, request)
    ensures AllInTime(s, Turn(s, request))
    ensures Run(s, Turn(s, request)) ==
      Startup(Claimed(s, request), s.nextRun, Reading(request, s.pending, s.overrides, false))
  {
    var r, actions := s.nextRun, Turn(s, request);
    var s1 := Step(s, actions[0]);
    var s2 := Step(s1, actions[1]);
    hide Startup, Accepts;
    assert s1.workers[r] == Fresh(request);
    assert s.overrides - {} == s.overrides && {} * s.overrides.Keys == {};
    assert s2.workers == s.workers[r := Reading(request, s.pending, s.overrides, false)];
    assert s2 == Claimed(s, request);
    var s3 := Step(s2, actions[2]);
    hide Step;
    assert actions[1..] == [actions[1], actions[2]] && actions[1..][1..] == [actions[2]] && [actions[2]][1..] == [];
    assert Run(s, actions) == Run(s1, actions[1..]) == Run(s2, [actions[2]]) == Run(s3, []) == s3;
    assert AllInTime(s3, []) && AllInTime(s2, [actions[2]]) && AllInTime(s1, actions[1..]);
  }

  /** The state after some run of actions in which a new worker took the call, and no other worker
      moved. */
  ghost predicate Fetched(s: State, t: State, id: Name, k: nat) {
    && t.begun == s.begun
    && (exists r: nat :: r !in s.workers && Ahead(t, r, id, k))
    && forall q :: q in s.workers ==> q in t.workers && t.workers[q] == s.workers[q]
  }

  /** The call was started, or is ahead of a worker. */
  ghost predicate Clashes(s: State, id: Name, k: nat) { Started(s.begun, id, k) || exists q: nat :: Ahead(s, q, id, k) }

  lemma {:induction false} FetchedRepeats(s: State, t: State, id: Name, k: nat)
    requires Fetched(s, t, id, k) && Clashes(s, id, k)
    ensures CanRepeat(t)
  {
    var r: nat :| r !in s.workers && Ahead(t, r, id, k);
    hide CanRepeat, Runnable;
    if Started(s.begun, id, k) {
      OldCallRepeats(t, r, id, k);
    } else {
      var q: nat :| Ahead(s, q, id, k);
      assert q in s.workers && Ahead(t, q, id, k);
      SharedCallRepeats(t, r, q, id, k);
    }
  }

  /** What only moves other workers leaves a clash standing. */
  lemma {:induction false} ClashStays(s: State, t: State, id: Name, k: nat)
    requires t.begun == s.begun && forall q :: q in s.workers && Ahead(s, q, id, k) ==>
      q in t.workers && t.workers[q] == s.workers[q]
    ensures Clashes(s, id, k) ==> Clashes(t, id, k)
  {
    hide Runnable;
    if q: nat :| Ahead(s, q, id, k) { assert q in s.workers && Ahead(t, q, id, k); }
  }

  /** One turn takes an override, or a pending call. */
  lemma {:induction false} TurnFetches(s: State, request: Request, id: Name, k: nat)
    requires Known(s) && s.active.None? && Accepts(s, request)
    requires Takes(Reading(request, s.pending, s.overrides, false), id, k)
    ensures Fetched(s, Run(s, Turn(s, request)), id, k)
  {
    TurnIs(s, request);
    var r, p := s.nextRun, Reading(request, s.pending, s.overrides, false);
    var t := Startup(Claimed(s, request), r, p);
    hide JobOf, NewFacts, Partial, Fails, Run, Turn, OffersAfter;
    assert r !in s.workers;
    assert t.workers[r] == JobOf(p);
    assert Ahead(t, r, id, k);
  }

  lemma {:induction false} PlainTakes(s: State, id: Name, k: nat)
    requires s.pending.Some? && Takable(s.pending.value, id, k)
    requires s.pending.value.kind == Bundle ==> s.pending.value.items[k].status != Waiting
    requires s.pending.value.kind == Legacy ==> s.pending.value.items[k].status == Approved
    ensures Takes(Reading(Plain, s.pending, s.overrides, false), id, k)
  {
  }

  lemma {:induction false} ApprovalTakes(s: State, id: Name, k: nat)
    requires s.pending.Some? && Takable(s.pending.value, id, k) && s.pending.value.kind == Legacy &&
      |s.pending.value.items| == 1
    ensures
      var request := Confirm(None, true, [Decision(s.pending.value.items[0].callId, Approve, None)]);
      Takes(Reading(request, s.pending, s.overrides, false), id, k)
  {
  }

  lemma {:induction false} TurnRepeats(s: State, request: Request, id: Name, k: nat)
    requires Known(s) && s.active.None? && Accepts(s, request)
    requires Takes(Reading(request, s.pending, s.overrides, false), id, k) && Clashes(s, id, k)
    ensures CanRepeat(s)
  {
    hide *;
    TurnFetches(s, request, id, k);
    TurnIs(s, request);
    FetchedRepeats(s, Run(s, Turn(s, request)), id, k);
    RepeatsLater(s, Turn(s, request));
  }

  /** Approve one of the waiting calls, and reject the others from the given one on. */
  function DecisionsOn(items: seq<Item>, k: nat, scope: string, from: nat): (ds: seq<Decision>)
    requires from <= |items|
    decreases |items| - from
  {
    if from == |items| then []
    else
      (if items[from].status != Waiting then []
       else [Decision(items[from].callId, if from == k then Approve else Reject, Some(scope))]) +
      DecisionsOn(items, k, scope, from + 1)
  }

  lemma {:induction false} DecisionsName(items: seq<Item>, k: nat, scope: string, from: nat)
    requires from <= |items|
    ensures forall d :: d in DecisionsOn(items, k, scope, from) ==> NamesWaiting(items, d)
    ensures from <= k < |items| && items[k].status == Waiting ==> DecisionsOn(items, k, scope, from) != []
    decreases |items| - from
  {
    if from < |items| { DecisionsName(items, k, scope, from + 1); }
  }

  /** The items from the given one on are as they were, and the ones before it are decided. */
  predicate DecidedTo(items: seq<Item>, now: seq<Item>, from: nat, seen: set<string>)
    requires from <= |items|
  {
    && |now| == |items|
    && (forall j :: 0 <= j < |items| ==> now[j].callId == items[j].callId)
    && (forall j :: 0 <= j < from ==> now[j].status != Waiting)
    && (forall j :: from <= j < |items| ==> now[j] == items[j])
    && forall id :: id in seen ==> exists j :: 0 <= j < from && items[j].status == Waiting && items[j].callId == id
  }

  lemma {:induction false} DecidesNext(items: seq<Item>, k: nat, scope: string, from: nat, now: seq<Item>,
          seen: set<string>)
    requires k < |items| && scope in items[k].scopes && scope != "" && from < |items|
    requires AllDecidable(items) && DecidedTo(items, now, from, seen) && items[from].status == Waiting
    ensures
      var d := Decision(items[from].callId, if from == k then Approve else Reject, Some(scope));
      && Acceptable(now, d, seen) && Decide(now, d) == now[from := now[from].(status := Verdict(d))]
      && DecidedTo(items, Decide(now, d), from + 1, seen + {d.callId})
  {
    LookupSame(items, now);
    assert Decidable(items, from);
    hide Lookup;
    forall j | 0 <= j < from && items[j].status == Waiting ensures items[j].callId != items[from].callId {
      assert Decidable(items, j);
    }
  }

  lemma {:induction false} DecisionsResolve(items: seq<Item>, k: nat, scope: string, from: nat, now: seq<Item>,
          seen: set<string>)
    requires k < |items| && scope in items[k].scopes && scope != "" && from <= |items|
    requires AllDecidable(items) && DecidedTo(items, now, from, seen)
    ensures
      var r := DecideAll(now, DecisionsOn(items, k, scope, from), seen);
      && r.Some? && |r.value| == |items| && Resolved(r.value)
      && (k < from ==> r.value[k].status == now[k].status)
      && (from <= k && items[k].status == Waiting ==> r.value[k].status == Approved)
    decreases |items| - from
  {
    hide Decidable, Acceptable, Lookup;
    if from < |items| {
      var ds, rest := DecisionsOn(items, k, scope, from), DecisionsOn(items, k, scope, from + 1);
      if items[from].status != Waiting {
        assert ds == rest;
        hide AllDecidable;
        DecisionsResolve(items, k, scope, from + 1, now, seen);
      } else {
        DecidesNext(items, k, scope, from, now, seen);
        var d := ds[0];
        assert ds[1..] == rest;
        hide AllDecidable, DecidedTo, Decide;
        DecisionsResolve(items, k, scope, from + 1, Decide(now, d), seen + {d.callId});
      }
    }
  }

  /** The user approves the waiting call and rejects the others: the call is taken. */
  lemma {:induction false} ApprovalOfOneTakes(s: State, k: nat) returns (request: Request)
    requires Known(s) && s.pending.Some? && s.pending.value.kind == Bundle && k < |s.pending.value.items|
    requires s.pending.value.items[k].status == Waiting && Approvable(s.pending.value.items, k)
    ensures Accepts(s, request)
    ensures Takes(Reading(request, s.pending, s.overrides, false), s.pending.value.id, k)
  {
    var record := s.pending.value;
    var scope :| scope in record.items[k].scopes && scope != "";
    var ds := DecisionsOn(record.items, k, scope, 0);
    request := Confirm(Some(record.id.n), false, ds);
    DecisionsName(record.items, k, scope, 0);
    DecisionsResolve(record.items, k, scope, 0, record.items, {});
    hide DecisionsOn, DecideAll, Decidable, NamesWaiting;
  }

  /** Some request takes the pending call. */
  lemma {:induction false} SomeRequestTakes(s: State, id: Name, k: nat) returns (request: Request)
    requires Known(s) && s.pending.Some? && Takable(s.pending.value, id, k)
    ensures Accepts(s, request) && Takes(Reading(request, s.pending, s.overrides, false), id, k)
  {
    var record := s.pending.value;
    if record.kind == Bundle && record.items[k].status == Waiting {
      request := ApprovalOfOneTakes(s, k);
    } else if record.kind == Legacy && record.items[k].status != Approved {
      ApprovalTakes(s, id, k);
      request := Confirm(None, true, [Decision(record.items[0].callId, Approve, None)]);
    } else {
      PlainTakes(s, id, k);
      request := Plain;
    }
  }

  lemma {:induction false} PendingRepeats(s: State, id: Name, k: nat)
    requires Known(s) && s.active.None? && s.pending.Some? && Takable(s.pending.value, id, k) && Clashes(s, id, k)
    ensures CanRepeat(s)
  {
    var request := SomeRequestTakes(s, id, k);
    hide CanRepeat, Known, Clashes, Takes, Accepts;
    TurnRepeats(s, request, id, k);
  }

  /** The session can be made free with nothing pending. */
  lemma {:induction false} Quiet(s: State) returns (actions: seq<Action>)
    requires Known(s)
    ensures AllInTime(s, actions)
    ensures
      var t := Run(s, actions);
      && t.active.None? && t.pending.None? && t.overrides == s.overrides && t.begun == s.begun
      && forall q :: q in s.workers ==> q in t.workers && t.workers[q] == s.workers[q]
  {
    var a := if s.active.Some? then Terminalize(s.active.value) else Claim(Plain);
    RunOne(s, a);
    actions := [a];
    if s.active.None? {
      var t := Step(s, a);
      var b := Terminalize(s.nextRun);
      RunOne(t, b);
      RunConcat(s, [a], [b]);
      actions := [a] + [b];
    }
  }

  lemma {:induction false} OverrideRepeats(s: State, id: Name, k: nat)
    requires Known(s) && Offering(s.overrides, id, k) && Clashes(s, id, k)
    ensures CanRepeat(s)
  {
    var actions := Quiet(s);
    var t := Run(s, actions);
    RunKeepsKnown(s, actions);
    ClashStays(s, t, id, k);
    assert Takes(Reading(UseOverride(id.n), t.pending, t.overrides, false), id, k);
    hide CanRepeat, Run, AllInTime, Known, Clashes, Takes;
    TurnRepeats(t, UseOverride(id.n), id, k);
    RepeatsLater(s, actions);
  }

  /** The holder ends its turn. */
  lemma {:induction false} Finish(s: State, r: nat) returns (actions: seq<Action>)
    requires r in s.workers && (s.workers[r].Resuming? || s.workers[r].Working?)
    ensures AllInTime(s, actions) && Run(s, actions) == Put(s, r, Working(s.workers[r].offers))
    decreases if s.workers[r].Working? then 0 else 1 + Max(|s.workers[r].record.items| - s.workers[r].next, 0)
  {
    if s.workers[r].Working? {
      actions := [];
      assert s.workers[r := s.workers[r]] == s.workers;
    } else {
      var a := Next(r, Env(true, false, Deny, None, false));
      var t := Step(s, a);
      var rest := Finish(t, r);
      actions := [a] + rest;
      assert actions[1..] == rest;
      assert t.workers[r := Working(s.workers[r].offers)] == s.workers[r := Working(s.workers[r].offers)];
    }
  }

  /** The holder ends its turn, writes its copy back, and is terminated. */
  lemma {:induction false} HolderRepeats(s: State, id: Name, k: nat)
    requires Known(s) && Offering(HolderOffers(s), id, k) && Clashes(s, id, k)
    ensures CanRepeat(s)
  {
    var w := s.active.value;
    var actions := Finish(s, w);
    var t, a := Put(s, w, Working(s.workers[w].offers)), OfferOverride(w, "", "", {});
    var u := Step(t, a);
    RunKeepsKnown(s, actions);
    StepKeepsKnown(t, a);
    RunOne(t, a);
    assert KnownPhase(s.nextRecord, s.workers[w]);
    assert u.workers == t.workers[w := u.workers[w]];
    ClashStays(s, u, id, k);
    assert Offering(u.overrides, id, k);
    hide CanRepeat, Run, AllInTime, Known, Ahead, Step, Clashes;
    OverrideRepeats(u, id, k);
    RepeatsLater(t, [a]);
    RepeatsLater(s, actions);
  }

  /** A run that starts, or has settled, nothing more of the call lets the session go. */
  lemma {:induction false} ReleaseRepeats(s: State, id: Name, k: nat)
    requires Known(s) && s.active.Some? && KeepsPending(s) && !s.workers[s.active.value].Reading?
    requires s.pending.Some? && Takable(s.pending.value, id, k)
    requires Clashes(s, id, k) && !Ahead(s, s.active.value, id, k)
    ensures CanRepeat(s)
  {
    var w := s.active.value;
    var actions: seq<Action> := [];
    if !s.workers[w].Settled? { actions := Finish(s, w); }
    var t, a := Run(s, actions), Release(w);
    assert t == s.(workers := s.workers[w := t.workers[w]]) && (t.workers[w].Working? || t.workers[w].Settled?) by {
      assert s.workers[w := s.workers[w]] == s.workers;
    }
    var u := Step(t, a);
    RunKeepsKnown(s, actions);
    StepKeepsKnown(t, a);
    RunOne(t, a);
    ClashStays(s, u, id, k);
    assert u.active.None? && u.pending == s.pending;
    hide CanRepeat, Run, AllInTime, Known, Ahead, Step, Clashes, Takable;
    PendingRepeats(u, id, k);
    RepeatsLater(t, [a]);
    RepeatsLater(s, actions);
  }

  /** The holder starts the call first if it is ahead of it. */
  lemma {:induction false} KeptRepeats(s: State, id: Name, k: nat)
    requires Known(s) && s.active.Some? && KeepsPending(s) && !s.workers[s.active.value].Reading?
    requires s.pending.Some? && Takable(s.pending.value, id, k) && Clashes(s, id, k)
    ensures CanRepeat(s)
  {
    var w := s.active.value;
    if Ahead(s, w, id, k) {
      var actions := Reach(s, w, id, k);
      var t := Run(s, actions);
      RunKeepsKnown(s, actions);
      assert t.begun == s.begun + t.begun[|s.begun|..];
      StartedLater(s.begun, t.begun[|s.begun|..], id, k);
      assert !Ahead(t, w, id, k) && KeepsPending(t);
      hide CanRepeat, Run, AllInTime, Known, Takable, Started;
      ReleaseRepeats(t, id, k);
      RepeatsLater(s, actions);
    } else {
      hide CanRepeat, Known, Takable, Clashes, Ahead;
      ReleaseRepeats(s, id, k);
    }
  }

  /** The holder has read a session with nothing pending, and commits. */
  lemma {:induction false} ReadingRepeats(s: State, id: Name, k: nat)
    requires Known(s) && HolderReads(s) && KeepsPending(s)
    requires s.pending.Some? && Takable(s.pending.value, id, k) && Clashes(s, id, k)
    ensures CanRepeat(s)
  {
    var w := s.active.value;
    var a := CommitStart(w);
    var t := Step(s, a);
    StepKeepsKnown(s, a);
    RunOne(s, a);
    assert t.workers == s.workers[w := JobOf(s.workers[w])] && t.begun == s.begun && t.pending == s.pending;
    assert !JobOf(s.workers[w]).Gone? && t.active == s.active;
    ClashStays(s, t, id, k);
    hide CanRepeat, Run, AllInTime, Known, Takable, Step, Clashes, Startup;
    KeptRepeats(t, id, k);
    RepeatsLater(s, [a]);
  }

  /** The holder reads, and takes the call. */
  lemma {:induction false} FreshRepeats(s: State, id: Name, k: nat)
    requires Known(s) && HolderIsFresh(s) && s.pending.Some? && Clashes(s, id, k)
    requires Takes(Reading(s.workers[s.active.value].request, s.pending, map[], false), id, k)
    ensures CanRepeat(s)
  {
    var w := s.active.value;
    var a, b := ReadStart(w, {}), CommitStart(w);
    var t := Step(s, a);
    var p := t.workers[w];
    var u := Step(t, b);
    StepKeepsKnown(s, a);
    RunOne(s, a);
    RunOne(t, b);
    TakesPaused(p.request, p.pending, p.offers, p.pruned, id, k);
    CommitParts(t, w, p);
    hide Startup, Takes, Known, CanRepeat, Run, AllInTime, Runnable;
    assert t.workers == s.workers[w := p] && u.workers == t.workers[w := JobOf(p)] && u.begun == s.begun;
    assert Ahead(u, w, id, k);
    if Started(s.begun, id, k) {
      OldCallRepeats(u, w, id, k);
    } else {
      var q: nat :| Ahead(s, q, id, k);
      assert q != w && Ahead(u, q, id, k);
      SharedCallRepeats(u, w, q, id, k);
    }
    RepeatsLater(t, [b]);
    RepeatsLater(s, [a]);
  }

  lemma {:induction false} StoredRepeats(s: State, id: Name, k: nat)
    requires Known(s) && Stored(s, id, k) && Clashes(s, id, k)
    ensures CanRepeat(s)
  {
    hide CanRepeat, Takes, Takable, Clashes, Known;
    if Offering(HolderOffers(s), id, k) {
      HolderRepeats(s, id, k);
    } else if Offering(s.overrides, id, k) {
      OverrideRepeats(s, id, k);
    } else if HolderIsFresh(s) {
      FreshRepeats(s, id, k);
    } else if s.active.None? {
      PendingRepeats(s, id, k);
    } else if HolderReads(s) {
      ReadingRepeats(s, id, k);
    } else {
      KeptRepeats(s, id, k);
    }
  }

  lemma {:induction false} UnfreeRepeats(s: State)
    requires Known(s) && !Free(s)
    ensures CanRepeat(s)
  {
    hide Ahead, Stored, Known, Started;
    if !StartedOnce(s.begun) {
      assert AllInTime(s, []) && Run(s, []) == s;
    } else if !AheadIsFree(s) {
      hide CanRepeat;
      var r: nat, id: Name, k: nat :| Ahead(s, r, id, k) &&
        !(!Started(s.begun, id, k) && !Stored(s, id, k) && forall q: nat :: q != r ==> !Ahead(s, q, id, k));
      if Started(s.begun, id, k) {
        OldCallRepeats(s, r, id, k);
      } else if Stored(s, id, k) {
        StoredRepeats(s, id, k);
      } else {
        var q: nat :| q != r && Ahead(s, q, id, k);
        SharedCallRepeats(s, r, q, id, k);
      }
    } else {
      hide CanRepeat;
      var id: Name, k: nat :| Stored(s, id, k) && Started(s.begun, id, k);
      StoredRepeats(s, id, k);
    }
  }

  /** In every run from here, in time from now on, no call is started twice. */
  ghost predicate StartsOnce(s: State) {
    forall actions :: AllInTime(s, actions) ==> StartedOnce(Run(s, actions).begun)
  }

  lemma {:induction false} OnceOrRepeats(s: State)
    ensures StartsOnce(s) <==> !CanRepeat(s)
  {
    hide Step, InTime, StartedOnce;
  }

  /** Whenever its names are known, exactly the safe states never lead to a call being started
      twice, as long as reading, committing and writing back are in time from then on. */
  lemma {:induction false} AtMostOnceIff(s: State)
    requires Known(s)
    ensures StartsOnce(s) <==> Safe(s)
  {
    hide Known, Free, HolderReads, HolderCommits, StartedOnce, CanRepeat;
    OnceOrRepeats(s);
    if Safe(s) {
      forall actions | AllInTime(s, actions) ensures StartedOnce(Run(s, actions).begun) {
        RunKeepsSafe(s, actions);
        SafeStarts(Run(s, actions));
      }
    } else if !Free(s) {
      UnfreeRepeats(s);
    } else {
      HolderRepeatsToo(s);
    }
  }

  lemma {:induction false} SafeStarts(s: State)
    requires Safe(s)
    ensures StartedOnce(s.begun)
  {
  }

  lemma {:induction false} HolderRepeatsToo(s: State)
    requires Known(s) && HolderReads(s) && !Free(HolderCommits(s))
    ensures CanRepeat(s)
  {
    var a := CommitStart(s.active.value);
    var t := Step(s, a);
    hide Free, Known, Startup, CanRepeat;
    StepKeepsKnown(s, a);
    assert t == HolderCommits(s);
    RunOne(s, a);
    UnfreeRepeats(t);
    RepeatsLater(s, [a]);
  }

  lemma {:induction false} StartIsSafe(legacy: Option<Item>)
    ensures Known(Start(legacy)) && Safe(Start(legacy))
  {
    hide Takable;
  }

  /** If every startup and every write-back is in time, each paused call is started at most once,
      however workers crash, retry or are terminated. */
  lemma {:induction false} ResumeAtMostOnce(legacy: Option<Item>, actions: seq<Action>)
    requires AllInTime(Start(legacy), actions)
    ensures StartedOnce(Run(Start(legacy), actions).begun)
  {
    StartIsSafe(legacy);
    hide Safe, Known, StartedOnce;
    RunKeepsSafe(Start(legacy), actions);
    SafeStarts(Run(Start(legacy), actions));
  }

  /** After any run, in time or not, safety is exactly what keeps starts apart from then on. */
  lemma {:induction false} ReachableOnceIff(legacy: Option<Item>, actions: seq<Action>)
    ensures var s := Run(Start(legacy), actions); StartsOnce(s) <==> Safe(s)
  {
    StartIsSafe(legacy);
    hide Safe, Known, StartsOnce;
    RunKeepsKnown(Start(legacy), actions);
    AtMostOnceIff(Run(Start(legacy), actions));
  }

  // ----- what a run that does not settle its turn leaves -----

  /** The claim of the dead run stands, or nothing is left of what was pending under an old name. */
  ghost predicate DropsOld(s: State, r: nat, n: nat) {
    || (s.active == Some(r) && r in s.workers && s.workers[r].Gone?)
    || ((s.pending.Some? ==> n <= s.pending.value.id.n) &&
      (HolderReads(s) ==>
           var pending := s.workers[s.active.value].pending;
           pending.Some? ==> n <= pending.value.id.n))
  }

  lemma {:induction false} StepDropsOld(s: State, r: nat, n: nat, a: Action)
    requires Known(s) && n <= s.nextRecord && DropsOld(s, r, n) && InTime(s, a)
    ensures DropsOld(Step(s, a), r, n) && n <= Step(s, a).nextRecord
  {
    hide MayStart, Rule, Resolved, NewFacts, Partial, Accepts, OffersAfter, KnownPhase, KnownOffers;
    if a.CommitStart? && s.active == Some(a.run) && HolderReads(s) {
      assert !JobOf(s.workers[a.run]).Reading?;
    }
  }

  lemma {:induction false} RunDropsOld(s: State, r: nat, n: nat, actions: seq<Action>)
    requires Known(s) && n <= s.nextRecord && DropsOld(s, r, n) && AllInTime(s, actions)
    ensures DropsOld(Run(s, actions), r, n)
    decreases |actions|
  {
    if actions != [] {
      StepDropsOld(s, r, n, actions[0]);
      StepKeepsKnown(s, actions[0]);
      hide Step, DropsOld, Known, InTime;
      RunDropsOld(Step(s, actions[0]), r, n, actions[1..]);
    }
  }

  /** A request that leaves calls undecided, or that fails, does not keep the record for another
      one: once its run no longer holds the session, nothing that was pending then is. */
  lemma {:induction false} PartlyDecidedIsDropped(s: State, actions: seq<Action>)
    requires Known(s) && HolderReads(s)
    requires var p := s.workers[s.active.value]; Fails(p) || Partial(p)
    requires AllInTime(HolderCommits(s), actions)
    ensures
      var t := Run(HolderCommits(s), actions);
      t.active == s.active || (t.pending.Some? ==> s.nextRecord <= t.pending.value.id.n)
  {
    var r := s.active.value;
    var t := HolderCommits(s);
    StepKeepsKnown(s, CommitStart(r));
    assert t == Step(s, CommitStart(r));
    assert DropsOld(t, r, s.nextRecord) && t.nextRecord == s.nextRecord;
    hide Known, Startup, HolderCommits, AllInTime, Run;
    RunDropsOld(t, r, s.nextRecord, actions);
  }

  // ----- what can be started, and what never is -----

  /** The user can have a call of a paused hop started: each call that was allowed or waits, if ids
      tell the calls apart. */
  lemma {:induction false} PausedCallCanStart(s: State, r: nat, calls: seq<PausedCall>, k: nat)
    returns (actions: seq<Action>)
    requires Known(s) && s.active == Some(r) && r in s.workers && s.workers[r].Working?
    requires k < |calls| && calls[k].verdict != Deny
    requires forall i :: 0 <= i < |calls| ==> calls[i].callId != ""
    requires forall i, j :: 0 <= i < j < |calls| ==> calls[i].callId != calls[j].callId
    ensures
      var t := Step(s, PauseHop(r, calls));
      && AllInTime(t, actions) && t.begun <= Run(t, actions).begun
      && Started(Run(t, actions).begun[|t.begun|..], Paused(s.nextRecord), k)
  {
    var t, id := Step(s, PauseHop(r, calls)), Paused(s.nextRecord);
    var u := Step(t, Release(r));
    StepKeepsKnown(s, PauseHop(r, calls));
    StepKeepsKnown(t, Release(r));
    RunOne(t, Release(r));
    PausedIsTakable(s, r, calls, k);
    assert u.active.None? && u.pending == t.pending && u.begun == t.begun;
    hide Known, Run, AllInTime, Takable, Step, InTime;
    var more := PendingCanStart(u, id, k);
    RunConcat(t, [Release(r)], more);
    actions := [Release(r)] + more;
  }

  lemma {:induction false} PausedIsTakable(s: State, r: nat, calls: seq<PausedCall>, k: nat)
    requires r in s.workers && s.workers[r].Working?
    requires k < |calls| && calls[k].verdict != Deny
    requires forall i :: 0 <= i < |calls| ==> calls[i].callId != ""
    requires forall i, j :: 0 <= i < j < |calls| ==> calls[i].callId != calls[j].callId
    ensures
      var t := Step(s, PauseHop(r, calls));
      t.pending.Some? && Takable(t.pending.value, Paused(s.nextRecord), k)
  {
    var items := Step(s, PauseHop(r, calls)).pending.value.items;
    assert |items| == |calls| && forall i :: 0 <= i < |items| ==> items[i] == PausedItem(calls[i]);
    forall i | 0 <= i < |items| ensures Decidable(items, i) { LookupIs(items, items[i].callId); }
    hide Lookup;
    assert ONCE in items[k].scopes && ONCE != "";
    hide Step, Decidable;
  }

  lemma {:induction false} PendingCanStart(s: State, id: Name, k: nat) returns (actions: seq<Action>)
    requires Known(s) && s.active.None? && s.pending.Some? && Takable(s.pending.value, id, k)
    ensures AllInTime(s, actions) && s.begun <= Run(s, actions).begun
    ensures Started(Run(s, actions).begun[|s.begun|..], id, k)
  {
    var request := SomeRequestTakes(s, id, k);
    hide Known, Takes, Accepts, Takable, Run, AllInTime;
    actions := TakenCanStart(s, request, id, k);
  }

  /** And a call that the reviewer denied, once it was offered for an override. */
  lemma {:induction false} OfferedCanStart(s: State, r: nat, callId: string, hash: string, dropped: set<nat>)
    returns (actions: seq<Action>)
    requires Known(s) && r in s.workers && s.workers[r].Working?
    ensures
      var t := Step(s, OfferOverride(r, callId, hash, dropped));
      && AllInTime(t, actions) && t.begun <= Run(t, actions).begun
      && Started(Run(t, actions).begun[|t.begun|..], Offered(s.nextRecord), 0)
  {
    var t, id := Step(s, OfferOverride(r, callId, hash, dropped)), Offered(s.nextRecord);
    StepKeepsKnown(s, OfferOverride(r, callId, hash, dropped));
    assert Offering(t.overrides, id, 0);
    hide Step;
    var quiet := Quiet(t);
    var u := Run(t, quiet);
    RunKeepsKnown(t, quiet);
    assert Takes(Reading(UseOverride(id.n), u.pending, u.overrides, false), id, 0);
    hide Known, Takes, Run, AllInTime, InTime;
    var more := TakenCanStart(u, UseOverride(id.n), id, 0);
    RunConcat(t, quiet, more);
    actions := quiet + more;
  }

  lemma {:induction false} TakenCanStart(s: State, request: Request, id: Name, k: nat) returns (actions: seq<Action>)
    requires Known(s) && s.active.None? && Accepts(s, request)
    requires Takes(Reading(request, s.pending, s.overrides, false), id, k)
    ensures AllInTime(s, actions) && s.begun <= Run(s, actions).begun
    ensures Started(Run(s, actions).begun[|s.begun|..], id, k)
  {
    hide Known, Takes, Accepts, Run, AllInTime, Turn;
    TurnFetches(s, request, id, k);
    TurnIs(s, request);
    var t := Run(s, Turn(s, request));
    var r: nat :| r !in s.workers && Ahead(t, r, id, k);
    var more := Reach(t, r, id, k);
    RunConcat(s, Turn(s, request), more);
    actions := Turn(s, request) + more;
  }

  /** The state as if the call had been started at the very beginning. */
  function With(s: State, b: Begin): State { s.(begun := [b] + s.begun) }

  lemma {:induction false} StepIgnoresBegun(s: State, b: Begin, a: Action)
    ensures Step(With(s, b), a) == With(Step(s, a), b) && InTime(With(s, b), a) == InTime(s, a)
  {
    hide MayStart, JobOf, Fails, Partial, NewFacts, Rule, NamesWaiting;
    if a.Next? && Step(s, a).begun != s.begun {
      var c := Step(s, a).begun[|s.begun|];
      assert [b] + s.begun + [c] == [b] + (s.begun + [c]);
    }
  }

  lemma {:induction false} RunIgnoresBegun(s: State, b: Begin, actions: seq<Action>)
    ensures Run(With(s, b), actions) == With(Run(s, actions), b)
    ensures AllInTime(s, actions) ==> AllInTime(With(s, b), actions)
    decreases |actions|
  {
    if actions != [] {
      hide Step, With, InTime;
      StepIgnoresBegun(s, b, actions[0]);
      RunIgnoresBegun(Step(s, actions[0]), b, actions[1..]);
    }
  }

  /** No worker can start the call, and it is stored nowhere. */
  ghost predicate IsGone(s: State, id: Name, k: nat) {
    !Started(s.begun, id, k) && !Stored(s, id, k) && forall q: nat :: !Ahead(s, q, id, k)
  }

  lemma {:induction false} GoneStaysFree(s: State, b: Begin)
    requires Free(s) && IsGone(s, b.id, b.k)
    ensures Free(With(s, b))
  {
    var t := With(s, b);
    StartsFirst(s.begun, b);
    assert forall q: nat, id: Name, k: nat :: Ahead(t, q, id, k) == Ahead(s, q, id, k);
    assert forall id: Name, k: nat :: Stored(t, id, k) == Stored(s, id, k);
    hide Ahead, Stored, Started, StartedOnce;
  }

  lemma {:induction false} StartsFirst(begun: seq<Begin>, b: Begin)
    ensures forall id: Name, k: nat :: Started([b] + begun, id, k) <==>
      Started(begun, id, k) || (id == b.id && k == b.k)
    ensures StartedOnce([b] + begun) <==> StartedOnce(begun) && !Started(begun, b.id, b.k)
  {
    var more := [b] + begun;
    forall id: Name, k: nat ensures Started(more, id, k) <==> Started(begun, id, k) || (id == b.id && k == b.k) {
      if Started(begun, id, k) {
        var i :| 0 <= i < |begun| && begun[i].id == id && begun[i].k == k;
        assert more[i + 1].id == id && more[i + 1].k == k;
      }
      if id == b.id && k == b.k { assert more[0].id == id && more[0].k == k; }
    }
    if StartedOnce(more) {
      forall i, j | 0 <= i < j < |begun| ensures (begun[i].id, begun[i].k) != (begun[j].id, begun[j].k) {
        assert more[i + 1] == begun[i] && more[j + 1] == begun[j];
      }
      forall i | 0 <= i < |begun| ensures !(begun[i].id == b.id && begun[i].k == b.k) {
        assert more[i + 1] == begun[i] && more[0] == b;
      }
    }
  }

  /** What is gone in a safe state is never started, whatever happens in time. */
  lemma {:induction false} GoneNeverStarts(s: State, id: Name, k: nat, actions: seq<Action>)
    requires Known(s) && Safe(s) && IsGone(s, id, k) && id.n < s.nextRecord && !HolderReads(s) && AllInTime(s, actions)
    ensures !Started(Run(s, actions).begun, id, k)
  {
    var b := Begin(id, k, "", Bundle, Env(false, true, Allow, None, true));
    var t := With(s, b);
    GoneStaysFree(s, b);
    assert Known(t) && Safe(t);
    RunIgnoresBegun(s, b, actions);
    hide Known, Safe, Started, StartedOnce, Run, AllInTime;
    RunKeepsSafe(t, actions);
    SafeStarts(Run(t, actions));
    StartsFirst(Run(s, actions).begun, b);
  }

  /** Once a run has committed in time what its request makes of a paused hop, no call that it
      rejected is ever started, whatever happens in time. */
  lemma {:induction false} RejectedNeverStarts(s: State, k: nat, actions: seq<Action>)
    requires Known(s) && Safe(s) && HolderReads(s)
    requires
      var p := s.workers[s.active.value];
      && p.pending.Some? && !Fails(p) && k < |Ruled(p).items| && Ruled(p).items[k].status == Denied
      && !Started(s.begun, p.pending.value.id, k) && forall q: nat :: !Ahead(s, q, p.pending.value.id, k)
    requires AllInTime(HolderCommits(s), actions)
    ensures !Started(Run(HolderCommits(s), actions).begun, s.workers[s.active.value].pending.value.id, k)
  {
    var r := s.active.value;
    var p, t := s.workers[r], HolderCommits(s);
    assert t == Step(s, CommitStart(r));
    StepKeepsKnown(s, CommitStart(r));
    StepKeepsSafe(s, CommitStart(r));
    DeniedIsGone(s, k);
    hide Known, Safe, Step, Startup, Run, AllInTime, IsGone, Fails, Rule;
    GoneNeverStarts(t, p.pending.value.id, k, actions);
  }

  lemma {:induction false} DeniedIsGone(s: State, k: nat)
    requires Known(s) && Safe(s) && HolderReads(s)
    requires
      var p := s.workers[s.active.value];
      && p.pending.Some? && !Fails(p) && k < |Ruled(p).items| && Ruled(p).items[k].status == Denied
      && !Started(s.begun, p.pending.value.id, k) && forall q: nat :: !Ahead(s, q, p.pending.value.id, k)
    ensures
      var p := s.workers[s.active.value];
      && IsGone(HolderCommits(s), p.pending.value.id, k) && !HolderReads(HolderCommits(s))
      && p.pending.value.id.n < HolderCommits(s).nextRecord
  {
    var r := s.active.value;
    var p, t := s.workers[r], HolderCommits(s);
    var id := p.pending.value.id;
    assert KnownPhase(s.nextRecord, p);
    CommitParts(s, r, p);
    assert !Takes(p, id, k) by { DeniedIsNotTaken(p, k); }
    assert t.pending.None? || JobOf(p).Gone?;
    hide Rule, Takes, Started, Safe, Resolved, NewFacts, Offering, Takable;
    assert !Stored(t, id, k) by { OnlyOffered(t, id, k); }
  }

  lemma {:induction false} DeniedIsNotTaken(p: Phase, k: nat)
    requires p.Reading? && p.pending.Some? && !Fails(p) && k < |Ruled(p).items| && Ruled(p).items[k].status == Denied
    requires p.pending.value.id.Paused? && p.pending.value.kind != Override
    ensures !Takes(p, p.pending.value.id, k)
  {
    hide Rule, Resolved;
  }

  lemma {:induction false} OnlyOffered(t: State, id: Name, k: nat)
    requires id.Paused? && (t.pending.None? || (!KeepsPending(t) && !HolderIsFresh(t)))
    ensures !Stored(t, id, k)
  {
  }

  // ----- when a startup is too late -----

  /** The worker has the call in what it has read, and can take it or write it back. */
  predicate Holds(p: Phase, id: Name, k: nat) {
    match p
    case Reading(_, _, _, _) =>
      Takes(p, id, k) || Returns(p, id, k) || (!JobOf(p).Gone? && Offering(JobOf(p).offers, id, k))
    case Resuming(_, _, offers) => Offering(offers, id, k)
    case Working(offers) => Offering(offers, id, k)
    case _ => false
  }

  /** No startable call of the record that is taken was started or is ahead of another worker. */
  ghost predicate TakesNew(s: State, r: nat, p: Phase)
    requires p.Reading?
  {
    forall id: Name, k: nat ::
      Takes(p, id, k) ==> !Started(s.begun, id, k) && forall q: nat :: q != r ==> !Ahead(s, q, id, k)
  }

  /** Nor does the run that holds the session have it in what it has read. */
  ghost predicate HolderLacks(s: State, r: nat, p: Phase)
    requires p.Reading?
  {
    s.active.Some? && s.active != Some(r) && s.active.value in s.workers ==>
      forall id: Name, k: nat :: Takes(p, id, k) ==> !Holds(s.workers[s.active.value], id, k)
  }

  /** And nothing that is written back was started or is ahead of another worker. */
  ghost predicate WritesBackNew(s: State, r: nat, p: Phase)
    requires p.Reading?
  {
    forall id: Name, k: nat :: WritesBack(s, p, id, k) ==>
      !Started(s.begun, id, k) && forall q: nat :: q != r ==> !Ahead(s, q, id, k)
  }

  /** What a commit leaves ahead and stored. */
  lemma {:induction false} CommitParts(s: State, r: nat, p: Phase)
    requires Known(s) && r in s.workers && s.workers[r] == p && p.Reading?
    ensures
      var t := Startup(s, r, p);
      && t.begun == s.begun && t.workers == s.workers[r := JobOf(p)] && t.active == s.active
      && (forall q: nat, id: Name, k: nat :: q != r ==> Ahead(t, q, id, k) == Ahead(s, q, id, k))
      && (forall id: Name, k: nat :: Ahead(t, r, id, k) == Takes(p, id, k))
  {
    hide Runnable, Fails, Partial, OffersAfter, NewFacts;
  }

  lemma {:induction false} CommitStores(s: State, r: nat, p: Phase, id: Name, k: nat)
    requires Known(s) && r in s.workers && s.workers[r] == p && p.Reading?
    ensures
      var t := Startup(s, r, p);
      && (WritesBack(s, p, id, k) ==> Stored(t, id, k))
      && (s.active == Some(r) && !JobOf(p).Gone? && Offering(JobOf(p).offers, id, k) ==> Stored(t, id, k))
      && (Stored(t, id, k) ==>
            || Stored(s, id, k) || (s.active != Some(r) && WritesBack(s, p, id, k))
            || (s.active == Some(r) && Holds(p, id, k)))
      && (s.active != Some(r) ==> HolderOffers(t) == HolderOffers(s))
  {
    hide Rule, Takable, Takes, Resolved, NewFacts;
  }

  /** A startup that is in time keeps a safe state safe, and meets the conditions. */
  lemma {:induction false} HolderIsNew(s: State, r: nat)
    requires Known(s) && Safe(s) && r in s.workers && s.workers[r].Reading? && s.active == Some(r)
    ensures Safe(Startup(s, r, s.workers[r]))
    ensures TakesNew(s, r, s.workers[r]) && WritesBackNew(s, r, s.workers[r])
  {
    var p := s.workers[r];
    var t := Startup(s, r, p);
    CommitParts(s, r, p);
    hide Startup;
    assert t == HolderCommits(s) && !HolderReads(t);
    MeetsConditions(s, t, r, p);
  }

  /** A state that is free after a commit met the conditions on what is taken and written back. */
  lemma {:induction false} MeetsConditions(s: State, t: State, r: nat, p: Phase)
    requires Known(s) && r in s.workers && s.workers[r] == p && p.Reading? && t == Startup(s, r, p) && Free(t)
    ensures TakesNew(s, r, p) && WritesBackNew(s, r, p)
  {
    CommitParts(s, r, p);
    forall id: Name, k: nat | WritesBack(s, p, id, k) ensures Stored(t, id, k) { CommitStores(s, r, p, id, k); }
    hide Startup, JobOf, Ahead, Takes, WritesBack, Stored, Started, StartedOnce;
  }

  lemma {:induction false} LateIsFree(s: State, r: nat)
    requires Known(s) && Free(s) && r in s.workers && s.workers[r].Reading? && s.active != Some(r)
    requires var p := s.workers[r]; TakesNew(s, r, p) && HolderLacks(s, r, p) && WritesBackNew(s, r, p)
    ensures Free(Startup(s, r, s.workers[r]))
  {
    var p := s.workers[r];
    var t := Startup(s, r, p);
    CommitParts(s, r, p);
    forall id: Name, k: nat | Stored(t, id, k)
      ensures !Started(s.begun, id, k) && forall q: nat :: q != r ==> !Ahead(s, q, id, k)
    {
      CommitStores(s, r, p, id, k);
      hide Startup, JobOf, Ahead, WritesBack, Stored, Started, StartedOnce, HolderLacks;
    }
    forall id: Name, k: nat | Takes(p, id, k) ensures !Stored(t, id, k) {
      CommitStores(s, r, p, id, k);
      TakenIsCleared(s, r, p, id, k);
      hide Startup, JobOf, Ahead, WritesBack, Takes, Offering, Takable, Started, StartedOnce, Free;
    }
    hide Startup, Known, Free, Stored, Takes, HolderLacks;
    CommitIsFree(s, t, r, p);
  }

  /** The holder's commit after the late one: what is stored then. */
  lemma {:induction false} LateHolderStores(s: State, r: nat, id: Name, k: nat)
    requires Known(s) && Safe(s) && r in s.workers && s.workers[r].Reading? && s.active != Some(r)
    requires HolderLacks(s, r, s.workers[r])
    requires var t := Startup(s, r, s.workers[r]); Known(t) && Free(t) && HolderReads(t)
    ensures
      var t := Startup(s, r, s.workers[r]);
      Stored(HolderCommits(t), id, k) ==>
        !Started(t.begun, id, k) && forall w: nat :: t.active != Some(w) ==> !Ahead(t, w, id, k)
  {
    var p, q := s.workers[r], s.active.value;
    var t := Startup(s, r, p);
    CommitParts(s, r, p);
    assert t.workers[q] == s.workers[q] && HolderReads(s);
    var pq := s.workers[q];
    CommitParts(s, q, pq);
    CommitParts(t, q, pq);
    CommitStores(t, q, pq, id, k);
    CommitStores(s, q, pq, id, k);
    hide Startup, JobOf, Ahead, WritesBack, Takes, Stored, Started, StartedOnce;
  }

  /** And what the holder takes. */
  lemma {:induction false} LateHolderTakes(s: State, r: nat, id: Name, k: nat)
    requires Known(s) && Safe(s) && r in s.workers && s.workers[r].Reading? && s.active != Some(r)
    requires HolderLacks(s, r, s.workers[r])
    requires var t := Startup(s, r, s.workers[r]); Known(t) && Free(t) && HolderReads(t)
    requires Takes(s.workers[s.active.value], id, k)
    ensures
      var t := Startup(s, r, s.workers[r]);
      && !Started(t.begun, id, k) && !Stored(HolderCommits(t), id, k)
      && forall w: nat :: t.active != Some(w) ==> !Ahead(t, w, id, k)
  {
    var p, q := s.workers[r], s.active.value;
    var t := Startup(s, r, p);
    CommitParts(s, r, p);
    assert t.workers[q] == s.workers[q] && HolderReads(s);
    var pq, u := s.workers[q], HolderCommits(s);
    CommitParts(s, q, pq);
    StepKeepsKnown(t, CommitStart(q));
    TakenIsCleared(t, q, pq, id, k);
    HolderOffersAfter(t, q, pq);
    assert Ahead(u, q, id, k);
    hide Startup, JobOf, Ahead, WritesBack, Takes, Offering, Takable, Started, StartedOnce;
  }

  lemma {:induction false} LateHolderIsFree(s: State, r: nat)
    requires Known(s) && Safe(s) && r in s.workers && s.workers[r].Reading? && s.active != Some(r)
    requires HolderLacks(s, r, s.workers[r])
    requires var t := Startup(s, r, s.workers[r]); Known(t) && Free(t) && HolderReads(t)
    ensures Free(HolderCommits(Startup(s, r, s.workers[r])))
  {
    var p, q := s.workers[r], s.active.value;
    var t := Startup(s, r, p);
    CommitParts(s, r, p);
    assert t.workers[q] == s.workers[q] && t.active == Some(q);
    var pq, v := s.workers[q], HolderCommits(t);
    CommitParts(t, q, pq);
    hide Startup, Known, Free, Stored, Takes, HolderLacks, Ahead, Started;
    forall id: Name, k: nat | Stored(v, id, k)
      ensures !Started(t.begun, id, k) && forall w: nat :: w != q ==> !Ahead(t, w, id, k)
    {
      LateHolderStores(s, r, id, k);
    }
    forall id: Name, k: nat | Takes(pq, id, k)
      ensures !Started(t.begun, id, k) && !Stored(v, id, k) && forall w: nat :: w != q ==> !Ahead(t, w, id, k)
    {
      LateHolderTakes(s, r, id, k);
    }
    CommitIsFree(t, v, q, pq);
  }

  lemma {:induction false} LateHolderLacks(s: State, r: nat)
    requires Known(s) && r in s.workers && s.workers[r].Reading? && s.active != Some(r)
    requires var t := Startup(s, r, s.workers[r]); Known(t) && Safe(t)
    ensures HolderLacks(s, r, s.workers[r])
  {
    var p := s.workers[r];
    var t := Startup(s, r, p);
    CommitParts(s, r, p);
    if s.active.Some? && s.active.value in s.workers {
      var q := s.active.value;
      var pq := s.workers[q];
      assert t.workers[q] == pq;
      forall id: Name, k: nat | Takes(p, id, k) ensures !Holds(pq, id, k) {
        assert Ahead(t, r, id, k);
        if pq.Reading? {
          CommitParts(t, q, pq);
          CommitStores(t, q, pq, id, k);
          var v := HolderCommits(t);
          assert Ahead(v, r, id, k);
          hide Startup, JobOf, Ahead, WritesBack, Takes, Stored, Started, StartedOnce, Known;
        } else {
          hide Startup, JobOf, Ahead, WritesBack, Takes, Takable, Started, StartedOnce, Known;
        }
      }
    }
  }

  lemma {:induction false} LateIsSafeIff(s: State, r: nat)
    requires Known(s) && Safe(s) && r in s.workers && s.workers[r].Reading? && s.active != Some(r)
    requires Known(Startup(s, r, s.workers[r]))
    ensures
      var p := s.workers[r];
      Safe(Startup(s, r, p)) <==> TakesNew(s, r, p) && HolderLacks(s, r, p) && WritesBackNew(s, r, p)
  {
    var p := s.workers[r];
    var t := Startup(s, r, p);
    hide Known, Free, Startup, HolderCommits, HolderReads, TakesNew, HolderLacks, WritesBackNew;
    if Safe(t) {
      MeetsConditions(s, t, r, p);
      LateHolderLacks(s, r);
    } else if TakesNew(s, r, p) && HolderLacks(s, r, p) && WritesBackNew(s, r, p) {
      LateIsFree(s, r);
      if HolderReads(t) { LateHolderIsFree(s, r); }
    }
  }

  /** However late the startup of a run is, each call is started at most once in every run from
      there exactly if the three conditions hold before it commits. */
  lemma {:induction false} LateStartupIsSafeIff(s: State, r: nat)
    requires Known(s) && Safe(s) && r in s.workers && s.workers[r].Reading?
    ensures
      var p := s.workers[r];
      StartsOnce(Step(s, CommitStart(r))) <==> TakesNew(s, r, p) && HolderLacks(s, r, p) && WritesBackNew(s, r, p)
  {
    StepKeepsKnown(s, CommitStart(r));
    var t := Step(s, CommitStart(r));
    hide Known, Safe, StartsOnce, TakesNew, HolderLacks, WritesBackNew;
    AtMostOnceIff(t);
    if s.active == Some(r) { HolderIsNew(s, r); } else { LateIsSafeIff(s, r); }
  }

  /** No startable call in the worker's copy was started or is ahead of a worker. */
  ghost predicate OffersNew(s: State, offers: map<nat, Item>) {
    forall id: Name, k: nat ::
      Offering(offers, id, k) ==> !Started(s.begun, id, k) && forall q: nat :: !Ahead(s, q, id, k)
  }

  /** The same for the write-back at the end of a turn, however late. */
  lemma {:induction false} LateOfferIsSafeIff(s: State, r: nat, callId: string, hash: string, dropped: set<nat>)
    requires Known(s) && Safe(s) && r in s.workers && s.workers[r].Working?
    ensures StartsOnce(Step(s, OfferOverride(r, callId, hash, dropped))) <==>
      OffersNew(s, s.workers[r].offers - dropped)
  {
    var a := OfferOverride(r, callId, hash, dropped);
    var t, offers := Step(s, a), s.workers[r].offers - dropped;
    StepKeepsKnown(s, a);
    AtMostOnceIff(t);
    assert forall id: Name, k: nat :: Offering(offers, id, k) ==> id.n != s.nextRecord && Offering(t.overrides, id, k);
    assert forall q: nat, id: Name, k: nat :: Ahead(s, q, id, k) == Ahead(t, q, id, k);
    if OffersNew(s, offers) {
      OfferedIsFree(s, r, callId, hash, dropped);
      if HolderReads(t) { OfferedHolderIsFree(s, r, callId, hash, dropped); }
      hide Known, StartsOnce, OffersNew, Free, HolderCommits, Step;
    }
    if Safe(t) {
      forall id: Name, k: nat | Offering(offers, id, k)
        ensures !Started(s.begun, id, k) && forall q: nat :: !Ahead(s, q, id, k)
      {
        assert Stored(t, id, k);
        hide Ahead, Offering, Started, StartedOnce, Step;
      }
    }
  }

  lemma {:induction false} OfferedIsFree(s: State, r: nat, callId: string, hash: string, dropped: set<nat>)
    requires Known(s) && Free(s) && r in s.workers && s.workers[r].Working? &&
      OffersNew(s, s.workers[r].offers - dropped)
    ensures Free(Step(s, OfferOverride(r, callId, hash, dropped)))
  {
    NewName(s, Offered(s.nextRecord));
    hide Takable, Runnable, Known, Started, StartedOnce;
    LessIsFree(s, Step(s, OfferOverride(r, callId, hash, dropped)));
  }

  lemma {:induction false} OfferedHolderIsFree(s: State, r: nat, callId: string, hash: string, dropped: set<nat>)
    requires Known(s) && Safe(s) && r in s.workers && s.workers[r].Working? &&
      OffersNew(s, s.workers[r].offers - dropped)
    requires HolderReads(Step(s, OfferOverride(r, callId, hash, dropped)))
    ensures Free(HolderCommits(Step(s, OfferOverride(r, callId, hash, dropped))))
  {
    var t, offers := Step(s, OfferOverride(r, callId, hash, dropped)), s.workers[r].offers - dropped;
    var q := s.active.value;
    assert r != q && t.workers[q] == s.workers[q];
    var p, u, v := s.workers[q], HolderCommits(s), HolderCommits(t);
    StepKeepsKnown(s, CommitStart(q));
    assert u == Step(s, CommitStart(q));
    NewName(u, Offered(s.nextRecord));
    assert v.workers == u.workers[r := t.workers[r]] && v.begun == u.begun == s.begun by {
      CommitParts(s, q, p);
      CommitParts(t, q, p);
    }
    assert forall id: Name, k: nat ::
      Offering(offers, id, k) && !Takes(p, id, k) ==> forall w: nat :: !Ahead(u, w, id, k) by {
      CommitParts(s, q, p);
      hide Resume.Startup, Takes, Offering;
    }
    assert forall w: nat, id: Name, k: nat :: Ahead(v, w, id, k) ==> Ahead(u, w, id, k);
    forall id: Name, k: nat | Stored(v, id, k)
      ensures Stored(u, id, k) || (!Started(u.begun, id, k) && forall w: nat :: !Ahead(u, w, id, k))
    {
      OfferedStores(s, r, callId, hash, dropped, id, k);
      hide Startup, JobOf, Runnable, Takable, Stored, Started, StartedOnce, Free, Step, HolderCommits;
    }
    hide Startup, Known, Free, Stored, Ahead, Step, HolderCommits, OffersNew;
    LessIsFree(u, v);
  }

  lemma {:induction false} OfferedStores(s: State, r: nat, callId: string, hash: string, dropped: set<nat>, id: Name,
          k: nat)
    requires Known(s) && HolderReads(s) && s.active != Some(r) && r in s.workers && s.workers[r].Working?
    requires HolderReads(Step(s, OfferOverride(r, callId, hash, dropped)))
    ensures
      var q, t := s.active.value, Step(s, OfferOverride(r, callId, hash, dropped));
      Stored(HolderCommits(t), id, k) ==>
        || Stored(HolderCommits(s), id, k) || id == Offered(s.nextRecord)
        || (Offering(s.workers[r].offers - dropped, id, k) && !Takes(s.workers[q], id, k))
  {
    var q, t := s.active.value, Step(s, OfferOverride(r, callId, hash, dropped));
    var p := s.workers[q];
    assert t.workers[q] == p &&
      t.overrides == (s.workers[r].offers - dropped)[s.nextRecord := Item(callId, Denied, Some(hash), {ONCE})];
    HolderOffersAfter(s, q, p);
    HolderOffersAfter(t, q, p);
    assert KnownPhase(s.nextRecord, p);
    hide Step, Known, KnownOffers;
    if Offering(HolderCommits(t).overrides, id, k) && !p.request.UseOverride? && !p.pruned {
      PlainTakesPaused(p, id, k);
    }
    hide JobOf, Takable, Takes, NewFacts, Rule, Resolved, Partial;
  }

  /** Without an override to take, only a call of a pending record is taken. */
  lemma {:induction false} PlainTakesPaused(p: Phase, id: Name, k: nat)
    requires p.Reading? && !p.request.UseOverride? && (p.pending.Some? ==> p.pending.value.id.Paused?)
    ensures Takes(p, id, k) ==> id.Paused?
  {
    hide Rule, Resolved;
  }

  // ----- what a late startup can do -----

  const OFFER_C: Item := Item("c", Denied, Some("h"), {ONCE})
  const OFFER_D: Item := Item("d", Denied, Some("h"), {ONCE})
  const OFFERS: map<nat, Item> := map[1 := OFFER_C, 2 := OFFER_D]
  const RIGHT: Env := Env(false, true, Allow, Some("h"), true)

  function OverrideJob(id: nat, item: Item): Record { Record(Offered(id), Override, [item.(status := Approved)]) }

  /** A run offers two overrides and releases the session. */
  function TwoOffers(): State {
    var s := Step(Step(Step(Start(None), Claim(Plain)), ReadStart(0, {})), CommitStart(0));
    Step(Step(Step(s, OfferOverride(0, "c", "h", {})), OfferOverride(0, "d", "h", {})), Release(0))
  }

  function ClaimAndRead(s: State, id: nat): State { Step(Step(s, Claim(UseOverride(id))), ReadStart(s.nextRun, {})) }

  /** The first run has read the empty session and works. */
  const AT_WORK: State := State(Some(0), None, map[], map[0 := Working(map[])], 1, 1, {}, [])

  lemma {:induction false} FirstRunWorks()
    ensures Step(Step(Step(Start(None), Claim(Plain)), ReadStart(0, {})), CommitStart(0)) == AT_WORK
  {
    var s1 := Step(Start(None), Claim(Plain));
    assert s1.workers == map[0 := Fresh(Plain)];
    var none: map<nat, Item> := map[];
    assert none - {} == none;
    var s2 := Step(s1, ReadStart(0, {}));
    assert s2.workers == map[0 := Reading(Plain, None, map[], false)];
  }

  lemma {:induction false} Offers(s: State, offers: map<nat, Item>, callId: string)
    requires s.workers == map[0 := Working(offers)]
    ensures
      var t, more := Step(s, OfferOverride(0, callId, "h", {})),
        offers[s.nextRecord := Item(callId, Denied, Some("h"), {ONCE})];
      && t.overrides == more && t.workers == map[0 := Working(more)] && t.nextRecord == s.nextRecord + 1
      && t.active == s.active && t.pending == s.pending && t.nextRun == s.nextRun && t.begun == s.begun
  {
    assert offers - {} == offers;
    hide Startup, MayStart, Accepts;
  }

  lemma {:induction false} TwoOffersAre()
    ensures
      var s := TwoOffers();
      && s.active == None && s.pending == None && s.overrides == OFFERS && s.nextRun == 1 && s.begun == []
      && s.workers == map[0 := Gone]
  {
    hide Step;
    FirstRunWorks();
    Offers(AT_WORK, map[], "c");
    var s2 := Step(AT_WORK, OfferOverride(0, "c", "h", {}));
    assert s2.overrides == map[1 := OFFER_C];
    Offers(s2, map[1 := OFFER_C], "d");
    var s3 := Step(s2, OfferOverride(0, "d", "h", {}));
    assert s3.overrides == OFFERS;
    LetsGo(s3, OFFERS);
  }

  lemma {:induction false} LetsGo(s: State, offers: map<nat, Item>)
    requires s.workers == map[0 := Working(offers)] && s.active == Some(0)
    ensures Step(s, Release(0)) == s.(active := None, workers := map[0 := Gone])
  {
    hide Startup, MayStart, Accepts;
    assert s.workers[0 := Gone] == map[0 := Gone];
  }

  lemma {:induction false} Reads(s: State, id: nat)
    requires s.active.None? && s.pending.None? && id in s.overrides
    ensures
      var t := ClaimAndRead(s, id);
      && t.active == Some(s.nextRun) && t.nextRun == s.nextRun + 1 && t.pending == None
      && t.workers == s.workers[s.nextRun := Reading(UseOverride(id), None, s.overrides, false)]
      && t.overrides == s.overrides && t.begun == s.begun
  {
    var s1 := Step(s, Claim(UseOverride(id)));
    assert s1.workers[s.nextRun] == Fresh(UseOverride(id));
    hide Startup;
    assert s.overrides - {} == s.overrides && {} * s.overrides.Keys == {};
    assert Step(s1, ReadStart(s.nextRun, {})).workers ==
      s.workers[s.nextRun := Reading(UseOverride(id), None, s.overrides, false)];
  }

  lemma {:induction false} Commits(s: State, r: nat, id: nat, offers: map<nat, Item>)
    requires r in s.workers && s.workers[r] == Reading(UseOverride(id), None, offers, false) && id in offers
    ensures
      var t := Step(s, CommitStart(r));
      && t.workers == s.workers[r := Resuming(OverrideJob(id, offers[id]), 0, offers - {id})]
      && t.overrides == offers - {id} && t == s.(workers := t.workers, overrides := t.overrides, facts := t.facts)
  {
  }

  lemma {:induction false} Begins(s: State, r: nat, id: nat, item: Item, offers: map<nat, Item>)
    requires r in s.workers && s.workers[r] == Resuming(OverrideJob(id, item), 0, offers) && item.hash == Some("h")
    ensures
      var t := Step(s, Next(r, RIGHT));
      && t.begun == s.begun + [Begin(Offered(id), 0, item.callId, Override, RIGHT)]
      && t == s.(workers := s.workers[r := Resuming(OverrideJob(id, item), 1, offers)], begun := t.begun)
  {
  }

  /** A run that is to take the first override is terminated between reading and committing. */
  function LateReader(): State { Step(ClaimAndRead(TwoOffers(), 1), Terminalize(1)) }

  lemma {:induction false} LateReaderIs()
    ensures
      var s := LateReader();
      && s.active == None && s.pending == None && s.nextRun == 2 && s.begun == [] && s.overrides == OFFERS
      && s.workers == map[0 := Gone, 1 := Reading(UseOverride(1), None, OFFERS, false)]
  {
    TwoOffersAre();
    Reads(TwoOffers(), 1);
    hide TwoOffers, ClaimAndRead, Resume.Startup, MayStart;
    var s1 := ClaimAndRead(TwoOffers(), 1);
    assert s1.workers == map[0 := Gone, 1 := Reading(UseOverride(1), None, OFFERS, false)];
    assert Step(s1, Terminalize(1)) == s1.(active := None);
  }

  /** The next run takes the same override in time, and the first one takes it as well: the call is
      started twice. */
  lemma {:induction false} LateStartupRepeats()
    ensures
      var taken := Step(Step(ClaimAndRead(LateReader(), 1), CommitStart(1)), CommitStart(2));
      var begun := Step(Step(taken, Next(1, RIGHT)), Next(2, RIGHT)).begun;
      |begun| == 2 && begun[0] == begun[1] && !StartedOnce(begun)
  {
    LateReaderIs();
    hide LateReader, ClaimAndRead, Step;
    var s1 := ClaimAndRead(LateReader(), 1);
    Reads(LateReader(), 1);
    var s2 := Step(s1, CommitStart(1));
    Commits(s1, 1, 1, OFFERS);
    var s3 := Step(s2, CommitStart(2));
    Commits(s2, 2, 1, OFFERS);
    BeginTwice(s3, OFFERS - {1});
  }

  lemma {:induction false} BeginTwice(s: State, offers: map<nat, Item>)
    requires 1 in s.workers && s.workers[1] == Resuming(OverrideJob(1, OFFER_C), 0, offers)
    requires 2 in s.workers && s.workers[2] == Resuming(OverrideJob(1, OFFER_C), 0, offers) && s.begun == []
    ensures
      var begun := Step(Step(s, Next(1, RIGHT)), Next(2, RIGHT)).begun;
      |begun| == 2 && begun[0] == begun[1] && !StartedOnce(begun)
  {
    hide Step;
    Begins(s, 1, 1, OFFER_C, offers);
    Begins(Step(s, Next(1, RIGHT)), 2, 1, OFFER_C, offers);
  }

  /** The next run takes the other override, in time, and is done. */
  function StaleReader(): State {
    Step(Step(Step(Step(ClaimAndRead(LateReader(), 2), CommitStart(2)), Next(2, RIGHT)), Next(2, RIGHT)), Release(2))
  }

  lemma {:induction false} StaleReaderIs()
    ensures
      var s := StaleReader();
      && s.active == None && s.pending == None && s.nextRun == 3
      && s.begun == [Begin(Offered(2), 0, "d", Override, RIGHT)]
      && 1 in s.workers && s.workers[1] == Reading(UseOverride(1), None, OFFERS, false)
  {
    LateReaderIs();
    hide LateReader, ClaimAndRead, Resume.Startup, MayStart;
    var s1 := ClaimAndRead(LateReader(), 2);
    Reads(LateReader(), 2);
    var s2 := Step(s1, CommitStart(2));
    Commits(s1, 2, 2, OFFERS);
    var s3 := Step(s2, Next(2, RIGHT));
    Begins(s2, 2, 2, OFFER_D, OFFERS - {2});
    var s4 := Step(s3, Next(2, RIGHT));
    assert s4 == Put(s3, 2, Working(OFFERS - {2}));
    assert Step(s4, Release(2)) == Put(s4.(active := None), 2, Gone);
    hide Step;
  }

  /** The late commit writes back the list it read, and a third run, in time, starts the second
      override again. */
  lemma {:induction false} StaleWriteBackRepeats()
    ensures
      var again := Step(ClaimAndRead(Step(StaleReader(), CommitStart(1)), 2), CommitStart(3));
      var begun := Step(again, Next(3, RIGHT)).begun;
      |begun| == 2 && begun[0] == begun[1] && !StartedOnce(begun)
  {
    StaleReaderIs();
    var s := StaleReader();
    hide StaleReader, ClaimAndRead, Step;
    var s1 := Step(s, CommitStart(1));
    Commits(s, 1, 1, OFFERS);
    var s2 := ClaimAndRead(s1, 2);
    Reads(s1, 2);
    var s3 := Step(s2, CommitStart(3));
    Commits(s2, 3, 2, OFFERS - {1});
    Begins(s3, 3, 2, OFFER_D, OFFERS - {1} - {2});
  }
}
