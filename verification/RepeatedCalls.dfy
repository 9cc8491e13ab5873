// A bulk save with hooks that call on more than once. A core then checks what the earlier call left in its builder, and
// the insert may fire again.
module RepeatedCalls {
  import opened Wrappers
  import opened AccountCreation
  import opened BulkRun
  import BulkGuarantees

  // A hook as before, one that calls on twice, or one that calls on again if the first call failed.
  datatype Caller = Once(hook: Hook) | Twice | Retry

  // The callers and the runtime of every builder, and the database's answer to each insert.
  datatype Plan = Plan(callers: seq<seq<Caller>>, runtimes: seq<Runtime>, answer: nat -> Answer)

  // The builders' own mutations, the changes of all mutations, and how often the batch has been inserted.
  datatype State = State(own: seq<AccountMutation>, changes: map<AccountMutation, Changes>, inserts: nat)

  datatype Ending = Ending(err: Option<SaveError>, trace: seq<Event>, state: State)

  ghost predicate Sound(p: Plan, s: State) {
    && |p.callers| == |p.runtimes| == |s.own|
    && (forall i | 0 <= i < |s.own| :: s.own[i] in s.changes)
    && forall i, h | 0 <= i < |p.callers| && 0 <= h < |p.callers[i]| ::
         p.callers[i][h].Once? && p.callers[i][h].hook.Swap? ==> p.callers[i][h].hook.other in s.changes
  }

  ghost function Touched(s: State, hook: Hook, m: AccountMutation): State
    requires m in s.changes
  {
    if hook.Edit? then s.(changes := s.changes[m := hook.change(s.changes[m])]) else s
  }

  function Around(i: nat, h: nat, trace: seq<Event>): seq<Event> { [Enter(i, h)] + trace + [Exit(i, h)] }

  // The run from caller `h` of builder `i` on, with mutation `m` in hand.
  ghost function Play(p: Plan, s: State, i: nat, h: nat, m: AccountMutation): (e: Ending)
    requires Sound(p, s) && i < |p.callers| && h <= |p.callers[i]| && m in s.changes
    ensures Sound(p, e.state) && e.state.changes.Keys == s.changes.Keys
    decreases |p.callers| - i, |p.callers[i]| - h
  {
    if h < |p.callers[i]| then PlayCaller(p, s, i, h, m)
    else
      var refused := Checked(p.runtimes[i], s.changes[s.own[i]]);
      if refused.Some? then Ending(Some(CheckFailure(i, refused.value)), [Refused(i)], s)
      else
        var taken := s.(own := s.own[i := m]);
        if i + 1 < |p.callers| then Play(p, taken, i + 1, 0, taken.own[i + 1])
        else Ending(BulkGuarantees.InsertError(p.answer(s.inserts)), [Insert], taken.(inserts := s.inserts + 1))
  }

  ghost function PlayCaller(p: Plan, s: State, i: nat, h: nat, m: AccountMutation): (e: Ending)
    requires Sound(p, s) && i < |p.callers| && h < |p.callers[i]| && m in s.changes
    ensures Sound(p, e.state) && e.state.changes.Keys == s.changes.Keys
    decreases |p.callers| - i, |p.callers[i]| - h, 0
  {
    match p.callers[i][h]
    case Once(hook) =>
      if CallsOn(hook) then
        var inner := Play(p, Touched(s, hook, m), i, h + 1, PassedOn(hook, m));
        Ending(HookError(i, h, hook, inner.err), Around(i, h, inner.trace), inner.state)
      else Ending(if hook.Reject? then Some(Rejected(i, h)) else None, Around(i, h, []), s)
    case _ =>
      var first := Play(p, s, i, h + 1, m);
      if p.callers[i][h].Retry? && first.err.None? then
        Ending(first.err, Around(i, h, first.trace), first.state)
      else
        var second := Play(p, first.state, i, h + 1, m);
        Ending(second.err, Around(i, h, first.trace + second.trace), second.state)
  }

  // ---- Hooks that call on once ----

  ghost predicate CallsOnce(p: Plan, w: World) {
    && |p.callers| == |p.runtimes| == |w.builders|
    && forall i | 0 <= i < |w.builders| ::
         && p.runtimes[i] == w.builders[i].runtime && |p.callers[i]| == |w.builders[i].hooks|
         && forall h | 0 <= h < |w.builders[i].hooks| :: p.callers[i][h] == Once(w.builders[i].hooks[h])
  }

  // The builders from `i` on have not been called, and the rest is as in `w`.
  ghost predicate Untouched(p: Plan, s: State, w: World, i: nat) {
    && |s.own| == |w.builders| && s.changes == w.changes && p.answer(s.inserts) == w.answer
    && forall j | i <= j < |w.builders| :: s.own[j] == w.builders[j].mutation
  }

  // Such a run is the run of the bulk save.
  lemma {:induction false} SingleCalls(p: Plan, s: State, w: World, i: nat, h: nat, m: AccountMutation)
    requires Known(w) && CallsOnce(p, w) && Sound(p, s) && Untouched(p, s, w, i)
    requires i < |w.builders| && h <= |w.builders[i].hooks| && m in w.changes
    ensures var e, o := Play(p, s, i, h, m), Run(w, i, h, m);
      e.err == o.err && e.trace == o.trace && e.state.inserts == s.inserts + if o.inserted then 1 else 0
    decreases |w.builders| - i, |w.builders[i].hooks| - h
  {
    hide Checked;
    var b := w.builders[i];
    if h < |b.hooks| {
      var hook := b.hooks[h];
      assert p.callers[i][h] == Once(hook);
      if CallsOn(hook) {
        SingleCalls(p, Touched(s, hook, m), Edited(w, hook, m), i, h + 1, PassedOn(hook, m));
      }
    } else if Passes(b, w.changes[b.mutation]) {
      var taken := s.(own := s.own[i := m]);
      if i + 1 < |w.builders| {
        SingleCalls(p, taken, w, i + 1, 0, w.builders[i + 1].mutation);
      }
    }
  }

  // ---- What every run keeps ----

  lemma InsertsAround(i: nat, h: nat, trace: seq<Event>)
    ensures Inserts(Around(i, h, trace)) == Inserts(trace)
  {
    InsertsAppend([Enter(i, h)] + trace, [Exit(i, h)]);
    InsertsAppend([Enter(i, h)], trace);
  }

  // The batch is inserted as often as the trace says.
  lemma {:induction false} InsertsCounted(p: Plan, s: State, i: nat, h: nat, m: AccountMutation)
    requires Sound(p, s) && i < |p.callers| && h <= |p.callers[i]| && m in s.changes
    ensures var e := Play(p, s, i, h, m); e.state.inserts == s.inserts + Inserts(e.trace)
    decreases |p.callers| - i, |p.callers[i]| - h
  {
    hide Checked, Around;
    if h < |p.callers[i]| {
      match p.callers[i][h] {
        case Once(hook) =>
          if CallsOn(hook) {
            InsertsCounted(p, Touched(s, hook, m), i, h + 1, PassedOn(hook, m));
            InsertsAround(i, h, Play(p, Touched(s, hook, m), i, h + 1, PassedOn(hook, m)).trace);
          } else {
            InsertsAround(i, h, []);
          }
        case _ =>
          var first := Play(p, s, i, h + 1, m);
          var second := Play(p, first.state, i, h + 1, m);
          InsertsCounted(p, s, i, h + 1, m);
          InsertsCounted(p, first.state, i, h + 1, m);
          InsertsAround(i, h, first.trace);
          InsertsAround(i, h, first.trace + second.trace);
          InsertsAppend(first.trace, second.trace);
      }
    } else if Checked(p.runtimes[i], s.changes[s.own[i]]).None? && i + 1 < |p.callers| {
      var taken := s.(own := s.own[i := m]);
      InsertsCounted(p, taken, i + 1, 0, taken.own[i + 1]);
    }
  }

  // However often hooks call on, the trace is properly nested.
  lemma {:induction false} StillNested(p: Plan, s: State, i: nat, h: nat, m: AccountMutation, open: seq<(nat, nat)>)
    requires Sound(p, s) && i < |p.callers| && h <= |p.callers[i]| && m in s.changes
    ensures Replay(Play(p, s, i, h, m).trace, open) == Some(open)
    decreases |p.callers| - i, |p.callers[i]| - h
  {
    hide Checked;
    if h < |p.callers[i]| {
      var within := open + [(i, h)];
      match p.callers[i][h] {
        case Once(hook) =>
          if CallsOn(hook) {
            var w', m' := Touched(s, hook, m), PassedOn(hook, m);
            StillNested(p, w', i, h + 1, m', within);
            Bracketed(i, h, Play(p, w', i, h + 1, m').trace, open);
          } else {
            Bracketed(i, h, [], open);
          }
        case _ =>
          var first := Play(p, s, i, h + 1, m);
          var second := Play(p, first.state, i, h + 1, m);
          StillNested(p, s, i, h + 1, m, within);
          StillNested(p, first.state, i, h + 1, m, within);
          ReplayAppend(first.trace, second.trace, within);
          Bracketed(i, h, first.trace, open);
          Bracketed(i, h, first.trace + second.trace, open);
      }
    } else if Checked(p.runtimes[i], s.changes[s.own[i]]).None? && i + 1 < |p.callers| {
      var taken := s.(own := s.own[i := m]);
      StillNested(p, taken, i + 1, 0, taken.own[i + 1], open);
    }
  }

  // How often the insert can be called at most: twice for every hook that may call on twice.
  function Calls(p: Plan, i: nat, h: nat): (n: nat)
    requires i < |p.callers| && h <= |p.callers[i]|
    ensures n >= 1
    decreases |p.callers| - i, |p.callers[i]| - h
  {
    if h < |p.callers[i]| then (if p.callers[i][h].Once? then 1 else 2) * Calls(p, i, h + 1)
    else if i + 1 < |p.callers| then Calls(p, i + 1, 0)
    else 1
  }

  lemma {:induction false} InsertsBounded(p: Plan, s: State, i: nat, h: nat, m: AccountMutation)
    requires Sound(p, s) && i < |p.callers| && h <= |p.callers[i]| && m in s.changes
    ensures s.inserts <= Play(p, s, i, h, m).state.inserts <= s.inserts + Calls(p, i, h)
    decreases |p.callers| - i, |p.callers[i]| - h
  {
    hide Checked, Around;
    if h < |p.callers[i]| {
      match p.callers[i][h] {
        case Once(hook) =>
          if CallsOn(hook) {
            InsertsBounded(p, Touched(s, hook, m), i, h + 1, PassedOn(hook, m));
          }
        case _ =>
          InsertsBounded(p, s, i, h + 1, m);
          InsertsBounded(p, Play(p, s, i, h + 1, m).state, i, h + 1, m);
      }
    } else if Checked(p.runtimes[i], s.changes[s.own[i]]).None? && i + 1 < |p.callers| {
      var taken := s.(own := s.own[i := m]);
      InsertsBounded(p, taken, i + 1, 0, taken.own[i + 1]);
    }
  }

  // ---- Exactly how often ----

  // Hooks that pass the mutation on as it is, once or twice.
  ghost predicate Forwarding(p: Plan) {
    forall i, h | 0 <= i < |p.callers| && 0 <= h < |p.callers[i]| ::
      p.callers[i][h] == Once(Forward) || p.callers[i][h] == Twice
  }

  ghost predicate AllPass(p: Plan, s: State, i: nat)
    requires Sound(p, s)
  {
    forall j | i <= j < |p.callers| :: Checked(p.runtimes[j], s.changes[s.own[j]]).None?
  }

  // If all checks pass the batch is inserted once for every way through the hooks, and otherwise never; nothing else
  // changes.
  lemma {:induction false} ForwardInserts(p: Plan, s: State, i: nat, h: nat)
    requires Sound(p, s) && Forwarding(p) && i < |p.callers| && h <= |p.callers[i]|
    ensures Play(p, s, i, h, s.own[i]).state
         == s.(inserts := s.inserts + if AllPass(p, s, i) then Calls(p, i, h) else 0)
    decreases |p.callers| - i, |p.callers[i]| - h
  {
    hide Checked, Around;
    var m := s.own[i];
    if h < |p.callers[i]| {
      ForwardInserts(p, s, i, h + 1);
      if p.callers[i][h] == Once(Forward) {
        assert Touched(s, Forward, m) == s;
      } else {
        assert p.callers[i][h] == Twice;
        var first := Play(p, s, i, h + 1, m);
        ForwardInserts(p, first.state, i, h + 1);
      }
    } else if Checked(p.runtimes[i], s.changes[m]).None? {
      assert s.own[i := m] == s.own;
      if i + 1 < |p.callers| {
        ForwardInserts(p, s, i + 1, 0);
        assert AllPass(p, s, i) <==> AllPass(p, s, i + 1);
      }
    }
  }

  // So the insert fires at most once exactly if no such hook calls on twice or some check fails.
  lemma OnceExactly(p: Plan, s: State)
    requires Sound(p, s) && Forwarding(p) && p.callers != []
    ensures Play(p, s, 0, 0, s.own[0]).state.inserts <= s.inserts + 1
      <==> !AllPass(p, s, 0) || forall i, h | 0 <= i < |p.callers| && 0 <= h < |p.callers[i]| :: p.callers[i][h].Once?
  {
    hide Play, AllPass, Forwarding;
    ForwardInserts(p, s, 0, 0);
    OneWay(p, 0, 0);
  }

  lemma {:induction false} OneWay(p: Plan, i: nat, h: nat)
    requires i < |p.callers| && h <= |p.callers[i]|
    ensures Calls(p, i, h) == 1 <==>
      forall j, k | i <= j < |p.callers| && 0 <= k < |p.callers[j]| && (j == i ==> h <= k) :: p.callers[j][k].Once?
    decreases |p.callers| - i, |p.callers[i]| - h
  {
    if h < |p.callers[i]| {
      OneWay(p, i, h + 1);
    } else if i + 1 < |p.callers| {
      OneWay(p, i + 1, 0);
    }
  }

  // A hook that tries again after a failure behind it that came after the insert stores the batch twice.
  lemma RetryStoresTwice(own: AccountMutation, r: Runtime, changes: Changes, ids: nat -> Option<int>)
    requires Checked(r, changes).None?
    ensures var p := Plan([[Retry, Once(FailAfter)]], [r], _ => Stores(ids));
      var s := State([own], map[own := changes], 0);
      && Sound(p, s)
      && var e := Play(p, s, 0, 0, own);
         Inserts(e.trace) == 2 == e.state.inserts && e.err == Some(HookFailure(0, 1))
  {
    hide Checked;
    var p, s := Plan([[Retry, Once(FailAfter)]], [r], _ => Stores(ids)), State([own], map[own := changes], 0);
    assert p.callers[0] == [Retry, Once(FailAfter)];
    InsertsCounted(p, s, 0, 0, own);
    var one := s.(inserts := 1);
    assert s.own[0 := own] == s.own;
    assert Play(p, s, 0, 2, own) == Ending(None, [Insert], one);
    assert Play(p, s, 0, 1, own).state == one && Play(p, s, 0, 1, own).err == Some(HookFailure(0, 1));
    assert Play(p, one, 0, 2, own) == Ending(None, [Insert], s.(inserts := 2));
    assert Play(p, one, 0, 1, own).state == s.(inserts := 2);
  }
}
