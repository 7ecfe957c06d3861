/** Resuming a paused call: the decisions a user takes on an approval bundle, and the protocol by
    which workers read the pending record, clear it, commit, and only then execute. */
module Resume {
  import opened Text

  datatype Permission = Allow | Ask | Deny

  datatype ItemStatus = Waiting | Allowed | Denied | Approved

  /** One call of a paused hop; `hash` is the fingerprint recorded with it, if any. */
  datatype Item = Item(callId: string, status: ItemStatus, hash: Option<string>, scopes: set<string>)

  // ----- decisions -----

  datatype Verb = Approve | Reject | OtherVerb

  datatype Decision = Decision(callId: string, verb: Verb, scope: Option<string>)

  const ONCE := "once"
  const SESSION_TOOL := "session_tool"

  function ScopeOf(d: Decision): string {
    if d.verb == Reject || d.scope.None? || d.scope.value == "" then ONCE else d.scope.value
  }

  /** The item a call id names; the last one if ids repeat. */
  function Lookup(items: seq<Item>, callId: string): (r: Option<nat>)
    ensures r.Some? ==> r.value < |items| && items[r.value].callId == callId
    decreases |items|
  {
    if items == [] then None
    else if items[|items| - 1].callId == callId then Some(|items| - 1)
    else Lookup(items[..|items| - 1], callId)
  }

  function Verdict(d: Decision): ItemStatus { if d.verb == Approve then Approved else Denied }

  predicate Acceptable(items: seq<Item>, d: Decision, seen: set<string>) {
    && d.callId != "" && d.callId !in seen && d.verb != OtherVerb
    && var k := Lookup(items, d.callId);
       k.Some? && items[k.value].status == Waiting && (d.verb == Approve ==> ScopeOf(d) in items[k.value].scopes)
  }

  function Decide(items: seq<Item>, d: Decision): seq<Item> {
    var k := Lookup(items, d.callId);
    if k.None? then items
    else items[k.value := items[k.value].(status := Verdict(d))]
  }

  /** `None` is the `ApprovalDecisionError` of any one bad decision. */
  function DecideAll(items: seq<Item>, ds: seq<Decision>, seen: set<string>): Option<seq<Item>>
    decreases |ds|
  {
    if ds == [] then Some(items)
    else if !Acceptable(items, ds[0], seen) then None
    else DecideAll(Decide(items, ds[0]), ds[1..], seen + {ds[0].callId})
  }

  method ApplyApprovalDecisions(items0: seq<Item>, ds: seq<Decision>) returns (r: Option<seq<Item>>)
    ensures r == DecideAll(items0, ds, {})
  {
    var items := items0;
    var seen: set<string> := {};
    assert ds[0..] == ds;
    for i := 0 to |ds|
      invariant DecideAll(items, ds[i..], seen) == DecideAll(items0, ds, {})
    {
      assert ds[i..][1..] == ds[i + 1..];
      if !Acceptable(items, ds[i], seen) {
        return None;
      }
      items := Decide(items, ds[i]);
      seen := seen + {ds[i].callId};
    }
    r := Some(items);
  }

  /** Decisions touch waiting items only, and an item ends up approved only if some decision
      approved its call, and denied only if some decision rejected it. */
  predicate Follows(before: seq<Item>, after: seq<Item>, ds: seq<Decision>) {
    && |after| == |before|
    && forall k :: 0 <= k < |before| ==>
         && after[k] == before[k].(status := after[k].status)
         && (after[k].status != before[k].status ==>
           before[k].status == Waiting && DecidedBy(ds, before[k].callId, after[k].status))
  }

  predicate DecidedBy(ds: seq<Decision>, callId: string, status: ItemStatus) {
    exists d :: d in ds && d.callId == callId && Verdict(d) == status
  }

  lemma {:induction false} DecideAllRules(items: seq<Item>, ds: seq<Decision>, seen: set<string>)
    requires DecideAll(items, ds, seen).Some?
    ensures Follows(items, DecideAll(items, ds, seen).value, ds)
    ensures forall d :: d in ds ==> Lookup(items, d.callId).Some?
    ensures forall d :: d in ds ==> DecideAll(items, ds, seen).value[Lookup(items, d.callId).value].status == Verdict(d)
    decreases |ds|
  {
    if ds != [] {
      var d, next := ds[0], Decide(items, ds[0]);
      var k := Lookup(items, d.callId).value;
      LookupSame(items, next);
      DecideAllRules(next, ds[1..], seen + {d.callId});
      var after := DecideAll(items, ds, seen).value;
      assert ds == [d] + ds[1..];
      assert after[k].status == next[k].status;
      assert forall e :: e in ds ==> e == d || e in ds[1..];
    }
  }

  lemma {:induction false} LookupSame(a: seq<Item>, b: seq<Item>)
    requires |a| == |b| && forall k :: 0 <= k < |a| ==> a[k].callId == b[k].callId
    ensures forall id :: Lookup(a, id) == Lookup(b, id)
    decreases |a|
  {
    if a != [] {
      LookupSame(a[..|a| - 1], b[..|b| - 1]);
    }
  }

  lemma {:induction false} LookupIs(items: seq<Item>, callId: string)
    ensures
      match Lookup(items, callId)
      case None => forall k :: 0 <= k < |items| ==> items[k].callId != callId
      case Some(m) => items[m].callId == callId && forall k :: m < k < |items| ==> items[k].callId != callId
    decreases |items|
  {
    if items != [] && items[|items| - 1].callId != callId { LookupIs(items[..|items| - 1], callId); }
  }

  /** The decision is one the item it names can take: the item waits, and an approval is for a scope
      that it offers. */
  predicate Fits(items: seq<Item>, d: Decision) {
    && d.callId != "" && d.verb != OtherVerb
    && exists k :: 0 <= k < |items| && Named(items, k, d.callId) && items[k].status == Waiting &&
         (d.verb == Approve ==> ScopeOf(d) in items[k].scopes)
  }

  /** Item `k` is the last one of this call id. */
  predicate Named(items: seq<Item>, k: nat, callId: string)
    requires k < |items|
  {
    items[k].callId == callId && forall j :: k < j < |items| ==> items[j].callId != callId
  }

  lemma {:induction false} FitsIff(items: seq<Item>, d: Decision, seen: set<string>)
    ensures Acceptable(items, d, seen) <==> Fits(items, d) && d.callId !in seen
  {
    LookupIs(items, d.callId);
    hide Lookup;
    if Acceptable(items, d, seen) { assert Named(items, Lookup(items, d.callId).value, d.callId); }
  }

  /** Each decision fits the items as they are, and none names a call that another one names. */
  predicate AllFit(items: seq<Item>, ds: seq<Decision>, seen: set<string>) {
    && (forall i :: 0 <= i < |ds| ==> Fits(items, ds[i]) && ds[i].callId !in seen)
    && forall i, j :: 0 <= i < j < |ds| ==> ds[i].callId != ds[j].callId
  }

  lemma {:induction false} AllFitStep(items: seq<Item>, ds: seq<Decision>, seen: set<string>)
    requires ds != []
    ensures AllFit(items, ds, seen) <==>
      Fits(items, ds[0]) && ds[0].callId !in seen && AllFit(items, ds[1..], seen + {ds[0].callId})
  {
    hide Fits;
    var rest, more := ds[1..], seen + {ds[0].callId};
    if AllFit(items, ds, seen) {
      forall i | 0 <= i < |rest| ensures Fits(items, rest[i]) &&
        rest[i].callId !in more { assert rest[i] == ds[i + 1]; }
    }
    if Fits(items, ds[0]) && ds[0].callId !in seen && AllFit(items, rest, more) {
      forall i | 0 <= i < |ds| ensures Fits(items, ds[i]) && ds[i].callId !in seen {
        if i > 0 { assert ds[i] == rest[i - 1]; }
      }
      forall i, j | 0 <= i < j < |ds| ensures ds[i].callId != ds[j].callId {
        assert ds[j] == rest[j - 1];
        if i > 0 { assert ds[i] == rest[i - 1]; }
      }
    }
  }

  /** Decisions are applied exactly if all of them fit, and else none is. */
  lemma {:induction false} DecideAllIff(items: seq<Item>, ds: seq<Decision>, seen: set<string>)
    ensures DecideAll(items, ds, seen).Some? <==> AllFit(items, ds, seen)
    decreases |ds|
  {
    if ds != [] {
      var d, rest, more := ds[0], ds[1..], seen + {ds[0].callId};
      hide Fits, Acceptable, Decide, Lookup, AllFit;
      FitsIff(items, d, seen);
      AllFitStep(items, ds, seen);
      if Acceptable(items, d, seen) {
        DecideAllIff(Decide(items, d), rest, more);
        StillFit(items, d, rest, more, seen);
      }
    } else {
      assert AllFit(items, ds, seen) by { hide Fits; }
    }
  }

  lemma {:induction false} StillFit(items: seq<Item>, d: Decision, rest: seq<Decision>, more: set<string>,
          seen: set<string>)
    requires Acceptable(items, d, seen) && more == seen + {d.callId}
    ensures AllFit(Decide(items, d), rest, more) <==> AllFit(items, rest, more)
  {
    forall i | 0 <= i < |rest| && rest[i].callId !in more
      ensures Fits(Decide(items, d), rest[i]) <==> Fits(items, rest[i])
    {
      DecideKeepsFits(items, d, rest[i]);
    }
    hide Fits, Decide, Lookup;
  }

  lemma {:induction false} DecideKeepsFits(items: seq<Item>, d: Decision, e: Decision)
    requires Lookup(items, d.callId).Some? && e.callId != d.callId
    ensures Fits(Decide(items, d), e) <==> Fits(items, e)
  {
    var next := Decide(items, d);
    assert forall k :: 0 <= k < |items| ==> next[k].callId == items[k].callId && next[k].scopes == items[k].scopes;
    assert forall k :: 0 <= k < |items| && items[k].callId == e.callId ==> next[k] == items[k];
    assert forall k: nat :: k < |items| ==> (Named(items, k, e.callId) <==> Named(next, k, e.callId));
    hide Lookup, Named, ScopeOf;
  }

  /** A new message instead of a decision rejects whatever waits. */
  function Supersede(items: seq<Item>): (r: seq<Item>)
    ensures |r| == |items|
    ensures forall k :: 0 <= k < |r| ==> r[k] == Dismiss(items[k])
  {
    seq(|items|, k requires 0 <= k < |items| => Dismiss(items[k]))
  }

  function Dismiss(item: Item): Item { if item.status == Waiting then item.(status := Denied) else item }

  predicate Resolved(items: seq<Item>) { forall k :: 0 <= k < |items| ==> items[k].status != Waiting }

  // ----- the protocol -----

  datatype Kind = Bundle | Legacy | Override

  /** Pending records and reviewer overrides are named apart. */
  datatype Name = Paused(n: nat) | Offered(n: nat)

  /** A paused hop, an old single confirmation, or a reviewer override: something to be resumed. */
  datatype Record = Record(id: Name, kind: Kind, items: seq<Item>)

  datatype Request =
    | Plain
    | Confirm(bundle: Option<nat>, single: bool, decisions: seq<Decision>)
    | UseOverride(id: nat)
    | OtherAction

  /** A worker reads the session once; `offers` is its own copy of the overrides, to which the end
      of its turn adds and which it then writes back whole. `pruned` says that some were dropped
      from it at once, having expired. Only a worker that works, or has settled its turn, can release
      the session; what a failing or half-decided startup and a crash leave behind is terminated. */
  datatype Phase =
    | Fresh(request: Request)
    | Reading(request: Request, pending: Option<Record>, offers: map<nat, Item>, pruned: bool)
    | Resuming(record: Record, next: nat, offers: map<nat, Item>)
    | Working(offers: map<nat, Item>)
    | Settled
    | Gone

  datatype Fact =
    | AllowedAtPause(id: Name, k: nat)
    | UserApproved(id: Name, k: nat, callId: string)
    | Recorded(id: Name, k: nat, hash: Option<string>)

  /** A call was started: which one, and what the worker saw at that moment. */
  datatype Begin = Begin(id: Name, k: nat, callId: string, kind: Kind, env: Env)

  datatype State = State(active: Option<nat>, pending: Option<Record>, overrides: map<nat, Item>,
                         workers: map<nat, Phase>, nextRun: nat, nextRecord: nat, facts: set<Fact>, begun: seq<Begin>)

  /** A call of a hop that needs the user; `delegable` if an approval can cover the session. */
  datatype PausedCall = PausedCall(callId: string, verdict: Permission, hash: Option<string>, delegable: bool)

  /** What a worker sees when it is about to start a call. */
  datatype Env = Env(halted: bool, toolAllowed: bool, now: Permission, hash: Option<string>, overridable: bool)

  datatype Action =
    | Claim(request: Request)
    | ReadStart(run: nat, dropped: set<nat>)
    | CommitStart(run: nat)
    | Next(run: nat, env: Env)
    | PauseHop(run: nat, calls: seq<PausedCall>)
    | OfferOverride(run: nat, callId: string, hash: string, dropped: set<nat>)
    | Release(run: nat)
    | Terminalize(run: nat)
    | Crash(run: nat)

  predicate MayStart(kind: Kind, item: Item, env: Env) {
    !env.halted && env.toolAllowed &&
    match kind
    case Bundle =>
      && item.status != Denied && (item.hash.None? || item.hash == env.hash)
      && env.now != Deny && (item.status == Allowed ==> env.now == Allow)
    case Legacy => item.status == Approved
    case Override => item.hash.Some? && item.hash == env.hash && env.now != Deny && env.overridable
  }

  /** What the user's request makes of a pending record; `None` is an error that aborts the turn. */
  function Rule(record: Record, request: Request): Option<seq<Item>> {
    if record.kind == Bundle then
      if !request.Confirm? then Some(Supersede(record.items))
      else if request.bundle.Some? && Paused(request.bundle.value) != record.id then None
      else DecideAll(record.items, request.decisions, {})
    else
      var approved :=
        && request.Confirm? && request.single && |request.decisions| == 1 && |record.items| == 1
        && request.decisions[0].verb == Approve && request.decisions[0].callId == record.items[0].callId;
      Some(if approved then [record.items[0].(status := Approved)] else Supersede(record.items))
  }

  function Approvals(id: Name, before: seq<Item>, after: seq<Item>): set<Fact>
    requires |after| <= |before|
  {
    set k: nat | 0 <= k < |after| && after[k].status == Approved && before[k].status != Approved ::
      UserApproved(id, k, before[k].callId)
  }

  function Put(s: State, r: nat, phase: Phase): State { s.(workers := s.workers[r := phase]) }

  lemma {:induction false} RuleLength(record: Record, request: Request)
    ensures Rule(record, request).Some? ==> |Rule(record, request).value| == |record.items|
    ensures Rule(record, request).Some? ==>
      forall k :: 0 <= k < |record.items| && Rule(record, request).value[k].status == Allowed ==>
        record.items[k].status == Allowed
    ensures Rule(record, request).Some? ==>
      forall k :: 0 <= k < |record.items| ==>
        Rule(record, request).value[k].hash == record.items[k].hash &&
        Rule(record, request).value[k].callId == record.items[k].callId
  {
    if request.Confirm? && DecideAll(record.items, request.decisions, {}).Some? {
      DecideAllRules(record.items, request.decisions, {});
    }
  }

  predicate ApprovesSingle(record: Record, request: Request) {
    && request.Confirm? && request.single && |record.items| == 1
    && |request.decisions| == 1 &&
      request.decisions[0] == Decision(record.items[0].callId, Approve, request.decisions[0].scope)
  }

  /** What a request makes of the items: anything but a confirmation rejects what waits; decisions on
      another bundle, or that do not fit, are an error; and a single confirmation either approves its
      call or rejects it. */
  lemma {:induction false} RuleIs(record: Record, request: Request)
    ensures record.kind == Bundle ==>
      (Rule(record, request).None? <==>
        request.Confirm? && !((request.bundle.Some? ==> record.id == Paused(request.bundle.value))
          && DecideAll(record.items, request.decisions, {}).Some?))
    ensures record.kind != Bundle ==> Rule(record, request).Some?
    ensures Rule(record, request).Some? && (record.kind == Bundle ==> !request.Confirm?) ==>
      forall k :: 0 <= k < |record.items| ==>
        var now := Rule(record, request).value;
        |now| == |record.items| && now[k].status ==
          if record.kind != Bundle && ApprovesSingle(record, request) then Approved
          else if record.items[k].status == Waiting then Denied else record.items[k].status
  {
    hide DecideAll;
  }

  /** The startup fails, and writes nothing. */
  predicate Fails(p: Phase)
    requires p.Reading?
  {
    || (p.request.UseOverride? && p.request.id !in p.offers)
    || (p.pending.Some? && Rule(p.pending.value, p.request).None?)
  }

  function Ruled(p: Phase): Record
    requires p.Reading? && p.pending.Some? && !Fails(p)
  {
    p.pending.value.(items := Rule(p.pending.value, p.request).value)
  }

  /** Some call of the bundle still waits for its decision. */
  predicate Partial(p: Phase)
    requires p.Reading? && !Fails(p)
  {
    p.pending.Some? && p.pending.value.kind == Bundle && !Resolved(Ruled(p).items)
  }

  function OffersAfter(p: Phase): map<nat, Item>
    requires p.Reading?
  {
    if p.request.UseOverride? then p.offers - {p.request.id} else p.offers
  }

  function JobOf(p: Phase): Phase
    requires p.Reading?
  {
    if Fails(p) || Partial(p) then Gone
    else if p.request.UseOverride? then
      Resuming(Record(Offered(p.request.id), Override, [p.offers[p.request.id].(status := Approved)]), 0,
        OffersAfter(p))
    else if p.pending.Some? && !p.request.OtherAction? then Resuming(Ruled(p), 0, OffersAfter(p))
    else Working(OffersAfter(p))
  }

  function NewFacts(p: Phase): set<Fact>
    requires p.Reading? && !Fails(p)
  {
    (if p.request.UseOverride? then {UserApproved(Offered(p.request.id), 0, p.offers[p.request.id].callId)} else {}) +
    (if p.pending.None? then {} else
       RuleLength(p.pending.value, p.request);
       Approvals(p.pending.value.id, p.pending.value.items, Ruled(p).items))
  }

  /** The startup commit: rule on the pending record, consume the override, clear, and only then
      go on to execute. All is done on what was read; nothing is read again. */
  function Startup(s: State, r: nat, p: Phase): State
    requires p.Reading?
  {
    if Fails(p) then Put(s, r, Gone)
    else
      Put(s.(pending := if p.pending.None? then s.pending else if Partial(p) then Some(Ruled(p)) else None,
             overrides := if p.request.UseOverride? || p.pruned then OffersAfter(p) else s.overrides,
             facts := s.facts + NewFacts(p)), r, JobOf(p))
  }

  function PausedItem(call: PausedCall): Item {
    Item(call.callId, match call.verdict { case Ask => Waiting case Allow => Allowed case Deny => Denied }, call.hash,
         if call.delegable then {ONCE, SESSION_TOOL} else {ONCE})
  }

  function PauseFacts(id: Name, calls: seq<PausedCall>): set<Fact> {
    (set k: nat | 0 <= k < |calls| && calls[k].verdict == Allow :: AllowedAtPause(id, k)) +
    (set k: nat | 0 <= k < |calls| :: Recorded(id, k, calls[k].hash))
  }

  /** The decision names a waiting item. */
  predicate NamesWaiting(items: seq<Item>, d: Decision) {
    exists k :: 0 <= k < |items| && items[k].status == Waiting && items[k].callId == d.callId
  }

  /** What the interface checks under the lock before it claims the session for a request. */
  predicate Accepts(s: State, request: Request) {
    match request
    case Confirm(bundle, single, decisions) =>
      && s.pending.Some? && decisions != []
      && var record := s.pending.value;
         if record.kind == Bundle then
           && (if bundle.Some? then record.id == Paused(bundle.value) else |decisions| == 1)
           && forall d :: d in decisions ==> NamesWaiting(record.items, d)
         else single && |record.items| == 1 && |decisions| == 1 && decisions[0].callId == record.items[0].callId
    case UseOverride(id) => s.pending.None? && id in s.overrides
    case _ => true
  }

  function Step(s: State, a: Action): State {
    match a
    case Claim(request) =>
      if s.active.Some? || !Accepts(s, request) then s
      else Put(s.(active := Some(s.nextRun), nextRun := s.nextRun + 1), s.nextRun, Fresh(request))
    case ReadStart(r, dropped) =>
      if r in s.workers && s.workers[r].Fresh?
      then Put(s, r, Reading(s.workers[r].request, s.pending, s.overrides - dropped, dropped * s.overrides.Keys != {}))
      else s
    case CommitStart(r) => if r in s.workers && s.workers[r].Reading? then Startup(s, r, s.workers[r]) else s
    case Next(r, env) =>
      if r !in s.workers || !s.workers[r].Resuming? then s
      else
        var Resuming(record, k, offers) := s.workers[r];
        if k >= |record.items| then Put(s, r, Working(offers))
        else
          var next := Put(s, r, Resuming(record, k + 1, offers));
          if MayStart(record.kind, record.items[k], env)
          then next.(begun := s.begun + [Begin(record.id, k, record.items[k].callId, record.kind, env)]) else next
    case PauseHop(r, calls) =>
      if r !in s.workers || !s.workers[r].Working? then s
      else
        var items := seq(|calls|, k requires 0 <= k < |calls| => PausedItem(calls[k]));
        var id := Paused(s.nextRecord);
        Put(s.(pending := Some(Record(id, Bundle, items)), nextRecord := s.nextRecord + 1,
               facts := s.facts + PauseFacts(id, calls)), r, Settled)
    case OfferOverride(r, callId, hash, dropped) =>
      if r !in s.workers || !s.workers[r].Working? then s
      else
        var offers := (s.workers[r].offers - dropped)[s.nextRecord := Item(callId, Denied, Some(hash), {ONCE})];
        Put(s.(overrides := offers, nextRecord := s.nextRecord + 1,
               facts := s.facts + {Recorded(Offered(s.nextRecord), 0, Some(hash))}), r, Working(offers))
    case Release(r) =>
      if r !in s.workers || !(s.workers[r].Working? || s.workers[r].Settled?) then s
      else Put(if s.active == Some(r) then s.(active := None) else s, r, Gone)
    case Terminalize(r) => if s.active == Some(r) then s.(active := None, pending := None) else s
    case Crash(r) => if r in s.workers then Put(s, r, Gone) else s
  }

  function Run(s: State, actions: seq<Action>): State
    decreases |actions|
  {
    if actions == [] then s else Run(Step(s, actions[0]), actions[1..])
  }

  /** A session, with an old single confirmation still pending or not. */
  function Start(legacy: Option<Item>): State {
    State(None, if legacy.Some? then Some(Record(Paused(0), Legacy, [legacy.value.(status := Waiting)])) else None,
          map[], map[], 0, 1, {}, [])
  }

  // ----- authority -----

  predicate AllApproved(items: seq<Item>) { forall k :: 0 <= k < |items| ==> items[k].status == Approved }

  /** Nothing is approved or allowed but by the user or by the policy at pause time. */
  ghost predicate Honest(s: State, record: Record) {
    forall k :: 0 <= k < |record.items| ==>
      && (record.items[k].status == Approved ==> UserApproved(record.id, k, record.items[k].callId) in s.facts)
      && (record.items[k].status == Allowed ==> AllowedAtPause(record.id, k) in s.facts)
      && (record.kind != Legacy ==> Recorded(record.id, k, record.items[k].hash) in s.facts)
  }

  ghost predicate HonestOffers(s: State, offers: map<nat, Item>) {
    forall id :: id in offers ==> Recorded(Offered(id), 0, offers[id].hash) in s.facts
  }

  /** One fingerprint is recorded for a call, when its hop pauses or its override is offered. */
  ghost predicate OneFingerprint(s: State) {
    && (forall id: Name, k: nat, hash :: Recorded(id, k, hash) in s.facts ==> id.n < s.nextRecord)
    && (forall id: Name, k: nat, hash, other ::
         Recorded(id, k, hash) in s.facts && Recorded(id, k, other) in s.facts ==> hash == other)
  }

  /** The run was not halted, the tool was allowed, and the call was approved by the user, or was
      allowed when the hop paused and still is. Except for an old single confirmation, a prohibition
      in force at the start always wins, and the call still has the fingerprint recorded for it; a
      bundle item may have none recorded. An override is one that may still be overridden. */
  ghost predicate Authorised(s: State, b: Begin) {
    && !b.env.halted && b.env.toolAllowed
    && (UserApproved(b.id, b.k, b.callId) in s.facts || (AllowedAtPause(b.id, b.k) in s.facts && b.env.now == Allow))
    && (b.kind != Legacy ==> b.env.now != Deny)
    && (b.kind == Bundle ==> Recorded(b.id, b.k, None) in s.facts || Recorded(b.id, b.k, b.env.hash) in s.facts)
    && (b.kind == Override ==> b.env.hash.Some? && Recorded(b.id, b.k, b.env.hash) in s.facts && b.env.overridable)
  }

  ghost predicate HonestPhase(s: State, p: Phase) {
    match p
    case Reading(_, pending, offers, _) =>
      HonestOffers(s, offers) && (pending.Some? ==> Honest(s, pending.value) && pending.value.kind != Override)
    case Resuming(record, _, offers) =>
      && HonestOffers(s, offers) && Honest(s, record)
      && (record.kind == Bundle ==> Resolved(record.items)) && (record.kind == Override ==> AllApproved(record.items))
    case Working(offers) => HonestOffers(s, offers)
    case _ => true
  }

  ghost predicate Authority(s: State) {
    && OneFingerprint(s)
    && HonestOffers(s, s.overrides)
    && (s.pending.Some? ==> Honest(s, s.pending.value) && s.pending.value.kind != Override)
    && (forall r :: r in s.workers ==> HonestPhase(s, s.workers[r]))
    && (forall i :: 0 <= i < |s.begun| ==> Authorised(s, s.begun[i]))
  }

  lemma {:induction false} FactsGrow(s: State, t: State)
    requires s.facts <= t.facts
    ensures forall record :: Honest(s, record) ==> Honest(t, record)
    ensures forall p :: HonestPhase(s, p) ==> HonestPhase(t, p)
    ensures forall b :: Authorised(s, b) ==> Authorised(t, b)
    ensures forall o :: HonestOffers(s, o) ==> HonestOffers(t, o)
  {
  }

  lemma {:induction false} RuleIsHonest(s: State, record: Record, request: Request, t: State)
    requires Honest(s, record) && Rule(record, request).Some?
    requires s.facts <= t.facts
    requires |Rule(record, request).value| == |record.items| ==>
      Approvals(record.id, record.items, Rule(record, request).value) <= t.facts
    ensures Honest(t, record.(items := Rule(record, request).value))
  {
    RuleLength(record, request);
    var after := Rule(record, request).value;
    hide Rule;
    forall k | 0 <= k < |after| && after[k].status == Approved
      ensures UserApproved(record.id, k, after[k].callId) in t.facts
    {
      if record.items[k].status != Approved {
        assert UserApproved(record.id, k, after[k].callId) in Approvals(record.id, record.items, after);
      }
    }
  }

  lemma {:induction false} StartupKeepsAuthority(s: State, r: nat)
    requires Authority(s) && r in s.workers && s.workers[r].Reading?
    ensures Authority(Startup(s, r, s.workers[r]))
  {
    var p := s.workers[r];
    var t := Startup(s, r, p);
    FactsGrow(s, t);
    assert HonestPhase(s, p);
    if !Fails(p) {
      if p.pending.Some? {
        RuleLength(p.pending.value, p.request);
        RuleIsHonest(s, p.pending.value, p.request, t);
      }
      JobIsHonest(s, t, p);
    }
    hide Rule, Approvals, Honest, Authorised, JobOf, Fails, Partial;
  }

  lemma {:induction false} JobIsHonest(s: State, t: State, p: Phase)
    requires p.Reading? && !Fails(p) && HonestPhase(s, p) && s.facts + NewFacts(p) <= t.facts
    requires p.pending.Some? ==> Honest(t, Ruled(p))
    ensures HonestPhase(t, JobOf(p))
  {
    FactsGrow(s, t);
    hide Rule, Approvals;
    if p.request.UseOverride? { assert HonestOffers(t, OffersAfter(p)); }
  }

  lemma {:induction false} NextKeepsAuthority(s: State, r: nat, env: Env)
    requires Authority(s)
    ensures Authority(Step(s, Next(r, env)))
  {
    FactsGrow(s, Step(s, Next(r, env)));
    if r in s.workers { assert HonestPhase(s, s.workers[r]); }
    hide OneFingerprint, HonestOffers;
  }

  lemma {:induction false} PauseKeepsAuthority(s: State, r: nat, calls: seq<PausedCall>)
    requires Authority(s)
    ensures Authority(Step(s, PauseHop(r, calls)))
  {
    FactsGrow(s, Step(s, PauseHop(r, calls)));
    hide HonestPhase, Authorised;
  }

  lemma {:induction false} StepKeepsAuthority(s: State, a: Action)
    requires Authority(s)
    ensures Authority(Step(s, a))
  {
    match a {
      case CommitStart(r) =>
        if r in s.workers && s.workers[r].Reading? { StartupKeepsAuthority(s, r); }
        hide Startup;
      case Next(r, env) => NextKeepsAuthority(s, r, env); hide *;
      case PauseHop(r, calls) => PauseKeepsAuthority(s, r, calls); hide *;
      case _ => FactsGrow(s, Step(s, a)); hide Honest, Authorised;
    }
  }

  lemma {:induction false} RunKeepsAuthority(s: State, actions: seq<Action>)
    requires Authority(s)
    ensures Authority(Run(s, actions))
    decreases |actions|
  {
    if actions != [] {
      hide Step, Authority;
      StepKeepsAuthority(s, actions[0]);
      RunKeepsAuthority(Step(s, actions[0]), actions[1..]);
    }
  }

  /** Whatever crashes, retries, partial decisions and stale workers there are, no paused call is
      ever started on anything but the user's approval, or a permission given when the hop paused
      that still stands; never against a prohibition in force at the start, nor with a fingerprint
      other than the recorded one. */
  lemma {:induction false} EveryStartIsAuthorised(legacy: Option<Item>, actions: seq<Action>)
    ensures
      var s := Run(Start(legacy), actions);
      OneFingerprint(s) && forall i :: 0 <= i < |s.begun| ==> Authorised(s, s.begun[i])
  {
    RunKeepsAuthority(Start(legacy), actions);
  }

  // ----- where approvals come from -----

  /** The request approves the call, or is for the override. */
  predicate Asks(request: Request, id: Name, callId: string) {
    match request
    case Confirm(_, _, decisions) => id.Paused? && exists d :: d in decisions && d.verb == Approve && d.callId == callId
    case UseOverride(n) => id == Offered(n)
    case _ => false
  }

  /** Ruling approves a call only if the request names it. */
  lemma {:induction false} RuleAsks(record: Record, request: Request, k: nat)
    requires Rule(record, request).Some? && |Rule(record, request).value| == |record.items| && k < |record.items|
    requires Rule(record, request).value[k].status == Approved != record.items[k].status
    ensures request.Confirm? && exists d ::
      d in request.decisions && d.verb == Approve && d.callId == record.items[k].callId
  {
    if record.kind == Bundle && request.Confirm? {
      DecideAllRules(record.items, request.decisions, {});
      assert DecidedBy(request.decisions, record.items[k].callId, Approved);
    }
    hide DecideAll;
  }

  /** A worker acts on a request that was made. */
  predicate MadeBy(p: Phase, asked: seq<Request>) {
    match p
    case Fresh(request) => request in asked
    case Reading(request, pending, _, _) => request in asked && (pending.Some? ==> pending.value.id.Paused?)
    case _ => true
  }

  /** Every approval so far was asked for, and every worker to come acts on a request that was made. */
  ghost predicate AllAsked(s: State, asked: seq<Request>) {
    && (forall id: Name, k: nat, callId: string :: UserApproved(id, k, callId) in s.facts ==>
         exists request :: request in asked && Asks(request, id, callId))
    && (forall r :: r in s.workers ==> MadeBy(s.workers[r], asked))
    && (s.pending.Some? ==> s.pending.value.id.Paused?)
  }

  function RequestsOf(actions: seq<Action>): seq<Request>
    decreases |actions|
  {
    if actions == [] then []
    else (if actions[0].Claim? then [actions[0].request] else []) + RequestsOf(actions[1..])
  }

  lemma {:induction false} StartupIsAsked(s: State, r: nat, asked: seq<Request>)
    requires AllAsked(s, asked) && r in s.workers && s.workers[r].Reading?
    ensures AllAsked(Startup(s, r, s.workers[r]), asked)
  {
    var p := s.workers[r];
    var t := Startup(s, r, p);
    assert MadeBy(p, asked);
    forall id: Name, k: nat, callId: string | UserApproved(id, k, callId) in t.facts
      ensures exists request :: request in asked && Asks(request, id, callId)
    {
      if UserApproved(id, k, callId) !in s.facts {
        FactIsAsked(p, id, k, callId);
        assert p.request in asked;
      }
      hide Startup, NewFacts, Asks, Rule;
    }
    hide Rule, NewFacts, Resolved, Asks;
  }

  lemma {:induction false} FactIsAsked(p: Phase, id: Name, k: nat, callId: string)
    requires p.Reading? && !Fails(p) && UserApproved(id, k, callId) in NewFacts(p)
    requires p.pending.Some? ==> p.pending.value.id.Paused?
    ensures Asks(p.request, id, callId)
  {
    if p.pending.Some? {
      RuleLength(p.pending.value, p.request);
      if k < |p.pending.value.items| && Ruled(p).items[k].status == Approved != p.pending.value.items[k].status {
        RuleAsks(p.pending.value, p.request, k);
      }
    }
    hide Rule;
  }

  lemma {:induction false} StepIsAsked(s: State, a: Action, asked: seq<Request>)
    requires AllAsked(s, asked)
    ensures AllAsked(Step(s, a), asked + if a.Claim? then [a.request] else [])
  {
    var more := asked + if a.Claim? then [a.request] else [];
    assert forall request :: request in asked ==> request in more;
    hide Asks, MayStart, Accepts, Rule, Resolved, JobOf, Fails, Partial, NewFacts, PausedItem;
    if a.CommitStart? && a.run in s.workers && s.workers[a.run].Reading? {
      StartupIsAsked(s, a.run, asked);
      assert more == asked;
    }
    hide Startup;
  }

  lemma {:induction false} RunIsAsked(s: State, actions: seq<Action>, asked: seq<Request>)
    requires AllAsked(s, asked)
    ensures AllAsked(Run(s, actions), asked + RequestsOf(actions))
    decreases |actions|
  {
    hide Step, AllAsked;
    if actions != [] {
      var first, rest := if actions[0].Claim? then [actions[0].request] else [], RequestsOf(actions[1..]);
      assert RequestsOf(actions) == first + rest;
      hide RequestsOf;
      StepIsAsked(s, actions[0], asked);
      RunIsAsked(Step(s, actions[0]), actions[1..], asked + first);
      Assoc(asked, first, rest);
    } else {
      assert asked + [] == asked;
    }
  }

  /** Over any run the user's approval of a call is a request that was made: one that approves a call
      of this id, or one that names the override. */
  lemma {:induction false} EveryApprovalWasAsked(legacy: Option<Item>, actions: seq<Action>, id: Name, k: nat,
          callId: string)
    requires UserApproved(id, k, callId) in Run(Start(legacy), actions).facts
    ensures exists request :: request in RequestsOf(actions) && Asks(request, id, callId)
  {
    assert AllAsked(Start(legacy), []);
    RunIsAsked(Start(legacy), actions, []);
    assert [] + RequestsOf(actions) == RequestsOf(actions);
    hide Run, Asks, RequestsOf;
  }

  // ----- what starts, exactly -----

  /** The worker may start the call of the item now. */
  predicate IsTime(kind: Kind, item: Item, env: Env) {
    var agreed := item.status == Approved || (item.status == Allowed && env.now == Allow);
    && !env.halted && env.toolAllowed
    && match kind
       case Legacy => item.status == Approved
       case Bundle => agreed && env.now != Deny && (item.hash.Some? ==> item.hash == env.hash)
       case Override => agreed && env.now != Deny && env.overridable && item.hash.Some? && item.hash == env.hash
  }

  /** In any state a run reaches, the next call of a resumed record is started exactly if the time is
      right: the run goes on, the tool is allowed, and the call is agreed to as it is now. */
  lemma {:induction false} NextStartsIff(s: State, r: nat, env: Env)
    requires Authority(s) && r in s.workers && s.workers[r].Resuming? && s.workers[r].next < |s.workers[r].record.items|
    ensures
      var Resuming(record, k, _) := s.workers[r];
      var begun := Step(s, Next(r, env)).begun;
      && (IsTime(record.kind, record.items[k], env) ==>
            begun == s.begun + [Begin(record.id, k, record.items[k].callId, record.kind, env)])
      && (!IsTime(record.kind, record.items[k], env) ==> begun == s.begun)
  {
    assert HonestPhase(s, s.workers[r]);
    hide Honest, HonestOffers, OneFingerprint, Authorised;
  }

  predicate Halting(a: Action) { a.Next? ==> a.env.halted || !a.env.toolAllowed }

  /** A cancelled or timed-out run starts nothing more, nor does one whose tools are not allowed. */
  lemma {:induction false} HaltedStartsNothing(s: State, actions: seq<Action>)
    requires forall a :: a in actions ==> Halting(a)
    ensures Run(s, actions).begun == s.begun
    decreases |actions|
  {
    if actions != [] {
      var a := actions[0];
      assert a in actions && forall b :: b in actions[1..] ==> b in actions;
      assert Step(s, a).begun == s.begun by { hide Startup, Accepts, Rule; }
      hide Step;
      HaltedStartsNothing(Step(s, a), actions[1..]);
    }
  }
}
