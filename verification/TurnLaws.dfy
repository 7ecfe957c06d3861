/** What one request of the user does to a paused bundle, from the claim of its run to the commit of
    its startup, as long as no other worker moves in between. */
module TurnLaws {
  import opened Text
  import opened Resume
  import opened AtMostOnce

  // ----- decisions -----

  /** Each item carries the decision that names it, and the others are as they were. */
  ghost predicate IsDecided(items: seq<Item>, ds: seq<Decision>, after: seq<Item>) {
    |after| == |items| && forall k: nat :: k < |items| ==> ItemIsDecided(items, ds, after, k)
  }

  ghost predicate ItemIsDecided(items: seq<Item>, ds: seq<Decision>, after: seq<Item>, k: nat)
    requires |after| == |items| && k < |items|
  {
    && after[k] == items[k].(status := after[k].status)
    && (forall d :: d in ds && Named(items, k, d.callId) ==>
          after[k].status == if d.verb == Approve then Approved else Denied)
    && ((forall d :: d in ds ==> !Named(items, k, d.callId)) ==> after[k] == items[k])
  }

  lemma {:induction false} DecideIs(items: seq<Item>, d: Decision, k: nat)
    requires Lookup(items, d.callId).Some? && k < |items|
    ensures |Decide(items, d)| == |items|
    ensures Decide(items, d)[k] ==
      if Named(items, k, d.callId) then items[k].(status := if d.verb == Approve then Approved else Denied)
        else items[k]
    ensures forall id :: Named(Decide(items, d), k, id) <==> Named(items, k, id)
  {
    LookupIs(items, d.callId);
    hide Lookup;
    var next := Decide(items, d);
    assert forall j :: 0 <= j < |items| ==> next[j].callId == items[j].callId;
  }

  lemma {:induction false} DecidedIs(items: seq<Item>, ds: seq<Decision>, seen: set<string>)
    requires DecideAll(items, ds, seen).Some?
    ensures IsDecided(items, ds, DecideAll(items, ds, seen).value)
    decreases |ds|
  {
    if ds != [] {
      var d, next, after := ds[0], Decide(items, ds[0]), DecideAll(items, ds, seen).value;
      DecideAllIff(items, ds, seen);
      DecidedIs(next, ds[1..], seen + {d.callId});
      hide DecideAll, Decide, Fits;
      forall k: nat | k < |items| ensures ItemIsDecided(items, ds, after, k) {
        DecideIs(items, d, k);
        hide Lookup, Acceptable;
        OthersName(items, ds, seen, k);
        assert ItemIsDecided(next, ds[1..], after, k);
        assert forall e :: e in ds ==> e == d || e in ds[1..];
      }
    }
  }

  /** No other decision names what the first one names. */
  lemma {:induction false} OthersName(items: seq<Item>, ds: seq<Decision>, seen: set<string>, k: nat)
    requires ds != [] && AllFit(items, ds, seen) && k < |items|
    ensures Named(items, k, ds[0].callId) ==> forall e :: e in ds[1..] ==> !Named(items, k, e.callId)
  {
    hide Fits;
    forall e | e in ds[1..] ensures e.callId != ds[0].callId {
      var i :| 0 <= i < |ds[1..]| && ds[1..][i] == e;
      assert ds[i + 1] == e;
    }
  }

  // ----- requests -----

  /** The state after the request's run has claimed the session, read it and committed its startup. */
  function After(s: State, request: Request): State { Run(s, Turn(s, request)) }

  /** A refused request changes nothing. */
  lemma {:induction false} RefusedIs(s: State, request: Request)
    requires Known(s) && s.active.None? && !Accepts(s, request)
    ensures After(s, request) == s
  {
    hide Accepts;
    var actions := Turn(s, request);
    assert actions[1..] == [actions[1], actions[2]] && actions[1..][1..] == [actions[2]] && [actions[2]][1..] == [];
    assert Run(s, actions) == Run(s, actions[1..]) == Run(s, [actions[2]]) == Run(s, []);
  }

  lemma {:induction false} AcceptedIs(s: State, request: Request)
    requires Known(s) && s.active.None? && Accepts(s, request)
    ensures
      var r, p, t := s.nextRun, Reading(request, s.pending, s.overrides, false), After(s, request);
      && t.begun == s.begun && t.active == Some(r) && t.workers == s.workers[r := JobOf(p)]
      && if Fails(p) then t.pending == s.pending && t.overrides == s.overrides
         else
           && t.pending == (if s.pending.Some? && Partial(p) then Some(Ruled(p)) else None)
           && t.overrides == OffersAfter(p)
  {
    TurnIs(s, request);
    hide Run, Turn, NewFacts, Accepts, Fails, Partial, Ruled;
    assert s.workers[s.nextRun := Reading(request, s.pending, s.overrides, false)][s.nextRun :=
        JobOf(Reading(request, s.pending, s.overrides, false))] ==
      s.workers[s.nextRun := JobOf(Reading(request, s.pending, s.overrides, false))];
    hide JobOf;
  }

  /** The confirmation names the pending bundle, or gives one decision for it. */
  predicate Addressed(record: Record, bundle: Option<nat>, ds: seq<Decision>) {
    ds != [] && if bundle.Some? then record.id == Paused(bundle.value) else |ds| == 1
  }

  /** What is left of the record: with all items settled the run goes on to execute them, and else the
      record is stored again and the run ends. */
  predicate Settles(s: State, t: State, record: Record, after: seq<Item>) {
    && s.nextRun in t.workers && t.active == Some(s.nextRun)
    && if forall k :: 0 <= k < |after| ==> after[k].status != Waiting
       then t.pending == None && t.workers[s.nextRun] == Resuming(record.(items := after), 0, s.overrides)
       else t.pending == Some(record.(items := after)) && t.workers[s.nextRun] == Gone
  }

  /** Decisions on a pending bundle are carried out exactly if they are addressed to it and all of them
      fit; else the bundle stays as it was. */
  lemma {:induction false} ConfirmIsCarriedOut(s: State, bundle: Option<nat>, single: bool, ds: seq<Decision>)
    requires Known(s) && s.active.None? && s.pending.Some? && s.pending.value.kind == Bundle
    ensures
      var record, t := s.pending.value, After(s, Confirm(bundle, single, ds));
      && t.begun == s.begun && t.overrides == s.overrides
      && if Addressed(record, bundle, ds) && AllFit(record.items, ds, {})
         then exists after :: IsDecided(record.items, ds, after) && Settles(s, t, record, after)
         else t.pending == s.pending && (t == s || t.workers == s.workers[s.nextRun := Gone])
    ensures
      var named := forall d :: d in ds ==> NamesWaiting(s.pending.value.items, d);
      !Addressed(s.pending.value, bundle, ds) || !named ==> After(s, Confirm(bundle, single, ds)) == s
  {
    var request, record := Confirm(bundle, single, ds), s.pending.value;
    DecideAllIff(record.items, ds, {});
    if DecideAll(record.items, ds, {}).Some? {
      DecidedIs(record.items, ds, {});
      FittingIsNamed(record.items, ds);
    }
    if Accepts(s, request) { AcceptedIs(s, request); } else { RefusedIs(s, request); }
    hide After, DecideAll, IsDecided, AllFit, NamesWaiting;
    if Accepts(s, request) && DecideAll(record.items, ds, {}).Some? {
      assert Settles(s, After(s, request), record, DecideAll(record.items, ds, {}).value);
    }
  }

  lemma {:induction false} FittingIsNamed(items: seq<Item>, ds: seq<Decision>)
    requires AllFit(items, ds, {})
    ensures forall d :: d in ds ==> NamesWaiting(items, d)
  {
    forall d | d in ds ensures NamesWaiting(items, d) {
      var i :| 0 <= i < |ds| && ds[i] == d;
      assert Fits(items, ds[i]);
    }
  }

  /** A new message rejects what waits and has the results recorded; any other action of the user drops
      the record. */
  lemma {:induction false} MessageDismisses(s: State)
    requires Known(s) && s.active.None? && s.pending.Some?
    ensures
      var r, record, t := s.nextRun, s.pending.value, After(s, Plain);
      && t.begun == s.begun && t.overrides == s.overrides && t.active == Some(r) && t.pending == None && r in t.workers
      && exists after: seq<Item> ::
           && t.workers[r] == Resuming(record.(items := after), 0, s.overrides) && |after| == |record.items|
           && forall k :: 0 <= k < |after| ==>
                after[k] == if record.items[k].status == Waiting then record.items[k].(status := Denied)
                            else record.items[k]
    ensures
      var r, t := s.nextRun, After(s, OtherAction);
      && t.begun == s.begun && t.overrides == s.overrides && t.active == Some(r) && t.pending == None
      && t.workers == s.workers[r := Working(s.overrides)]
  {
    AcceptedIs(s, Plain);
    AcceptedIs(s, OtherAction);
    assert Resolved(Supersede(s.pending.value.items));
    hide After, Resolved, Supersede;
  }

  /** An override is taken exactly if it is still offered and no bundle is pending; it is used up at once. */
  lemma {:induction false} OverrideIsTaken(s: State, id: nat)
    requires Known(s) && s.active.None?
    ensures
      var r, t := s.nextRun, After(s, UseOverride(id));
      if s.pending.Some? || id !in s.overrides then t == s
      else
        && t.begun == s.begun && t.pending == None && t.active == Some(r) && t.overrides == s.overrides - {id}
        && t.workers == s.workers[r :=
             Resuming(Record(Offered(id), Override, [s.overrides[id].(status := Approved)]), 0, s.overrides - {id})]
  {
    if Accepts(s, UseOverride(id)) { AcceptedIs(s, UseOverride(id)); } else { RefusedIs(s, UseOverride(id)); }
    hide After;
  }

  /** A call paused before there were bundles is approved by its own confirmation alone, and rejected by
      any other decision on it. */
  lemma {:induction false} SingleIsCarriedOut(s: State, bundle: Option<nat>, single: bool, ds: seq<Decision>)
    requires Known(s) && s.active.None? && s.pending.Some? && s.pending.value.kind != Bundle
    requires |s.pending.value.items| == 1 && s.pending.value.items[0].status == Waiting
    ensures
      var r, item, t := s.nextRun, s.pending.value.items[0], After(s, Confirm(bundle, single, ds));
      if !single || |ds| != 1 || ds[0].callId != item.callId then t == s
      else
        && t.begun == s.begun && t.pending == None && t.active == Some(r) && t.overrides == s.overrides
        && t.workers == s.workers[r := Resuming(s.pending.value.(items :=
             [item.(status := if ds[0].verb == Approve then Approved else Denied)]), 0, s.overrides)]
  {
    var request := Confirm(bundle, single, ds);
    if Accepts(s, request) { AcceptedIs(s, request); } else { RefusedIs(s, request); }
    hide After;
    assert Supersede(s.pending.value.items) == [Dismiss(s.pending.value.items[0])];
  }

  // ----- the record of a paused hop -----

  /** A paused hop stores its calls in order: those to be asked about wait, the others keep their verdict,
      and only a delegable one may be approved for the session. */
  lemma {:induction false} PausedHopIsStored(s: State, r: nat, calls: seq<PausedCall>)
    requires r in s.workers && s.workers[r].Working?
    ensures
      var t := Step(s, PauseHop(r, calls));
      && t.active == s.active && t.overrides == s.overrides && t.begun == s.begun &&
        t.workers == s.workers[r := Settled]
      && t.pending.Some? && t.pending.value.kind == Bundle && |t.pending.value.items| == |calls|
      && forall k :: 0 <= k < |calls| ==>
           var item, call := t.pending.value.items[k], calls[k];
           && item.callId == call.callId && item.hash == call.hash
           && (item.status == Waiting <==> call.verdict == Ask) && (item.status == Allowed <==> call.verdict == Allow)
           && (item.status == Denied <==> call.verdict == Deny)
           && (forall scope :: scope in item.scopes <==>
                 scope == "once" || (call.delegable && scope == "session_tool"))
  {
  }

  // ----- what only the holder does, and what has expired -----

  /** A terminal commit by the run that holds the session drops what is pending; a release lets go of the
      session alone; and from any other run neither touches the session. */
  lemma {:induction false} OnlyHolderEnds(s: State, r: nat)
    ensures Step(s, Terminalize(r)) == if s.active == Some(r) then s.(active := None, pending := None) else s
    ensures
      var t := Step(s, Release(r));
      t.pending == s.pending && t.overrides == s.overrides && t.begun == s.begun && t.nextRun == s.nextRun
    ensures Step(s, Release(r)).active == if s.active == Some(r) && r in s.workers &&
                                             (s.workers[r].Working? || s.workers[r].Settled?) then None else s.active
  {
  }

  /** An override that has expired when the run reads the session is not used, and is written away with
      the next startup that succeeds. */
  lemma {:induction false} ExpiredAreDropped(s: State, request: Request, dropped: set<nat>)
    requires Known(s) && s.active.None? && Accepts(s, request)
    ensures
      var r := s.nextRun;
      var t := Run(s, [Claim(request), ReadStart(r, dropped), CommitStart(r)]);
      && (request.UseOverride? && request.id in dropped ==>
            t.workers == s.workers[r := Gone] && t.overrides == s.overrides && t.pending == s.pending)
      && (request.Plain? && s.pending.None? ==>
            t.workers == s.workers[r := Working(s.overrides - dropped)] && t.overrides == s.overrides - dropped)
  {
    ReadsWithout(s, request, dropped);
    hide Accepts, NewFacts, Rule, Run;
    var r, p := s.nextRun, Reading(request, s.pending, s.overrides - dropped, dropped * s.overrides.Keys != {});
    assert s.workers[r := p][r := Gone] == s.workers[r := Gone];
    assert s.workers[r := p][r := Working(p.offers)] == s.workers[r := Working(p.offers)];
    assert forall id :: id in s.overrides && id in dropped ==> id in dropped * s.overrides.Keys;
    if dropped * s.overrides.Keys == {} { assert s.overrides - dropped == s.overrides; }
  }

  lemma {:induction false} ReadsWithout(s: State, request: Request, dropped: set<nat>)
    requires s.active.None? && Accepts(s, request)
    ensures
      var r, p := s.nextRun, Reading(request, s.pending, s.overrides - dropped, dropped * s.overrides.Keys != {});
      Run(s, [Claim(request), ReadStart(r, dropped), CommitStart(r)]) ==
        Startup(s.(active := Some(r), nextRun := r + 1, workers := s.workers[r := p]), r, p)
  {
    var r := s.nextRun;
    var actions := [Claim(request), ReadStart(r, dropped), CommitStart(r)];
    var s1 := Step(s, actions[0]);
    var s2 := Step(s1, actions[1]);
    hide Startup, Accepts;
    assert s1.workers[r] == Fresh(request);
    assert s2.workers == s.workers[r := s2.workers[r]];
    assert actions[1..] == [actions[1], actions[2]] && actions[1..][1..] == [actions[2]] && [actions[2]][1..] == [];
    assert Run(s, actions) == Run(s1, actions[1..]) == Run(s2, [actions[2]]) == Run(Step(s2, actions[2]), []);
  }
}
