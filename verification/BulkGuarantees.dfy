// What a bulk save guarantees, and which hooks take the guarantees away.
module BulkGuarantees {
  import opened Wrappers
  import opened AccountCreation
  import opened BulkRun

  // ---- Forwarding hooks ----

  // A hook that calls on with the mutation it was given, changed or not.
  predicate Forwards(hook: Hook) { hook.Forward? || hook.Edit? }

  ghost predicate AllForward(w: World) {
    forall i | 0 <= i < |w.builders| :: forall k | 0 <= k < |w.builders[i].hooks| :: Forwards(w.builders[i].hooks[k])
  }

  ghost predicate OwnMutations(w: World) {
    forall i, j | 0 <= i < j < |w.builders| :: w.builders[i].mutation != w.builders[j].mutation
  }

  // What the hooks from hook `h` on make of a mutation's changes.
  function EditedBy(hooks: seq<Hook>, h: nat, changes: Changes): Changes
    requires h <= |hooks|
    decreases |hooks| - h
  {
    if h == |hooks| then changes
    else EditedBy(hooks, h + 1, if hooks[h].Edit? then hooks[h].change(changes) else changes)
  }

  // The changes that builder `j`'s mutation holds at its check, in a run from hook `h` of builder `i` on.
  ghost function Held(w: World, i: nat, h: nat, j: nat): Changes
    requires Known(w) && i <= j < |w.builders| && h <= |w.builders[i].hooks|
  {
    EditedBy(w.builders[j].hooks, if j == i then h else 0, w.changes[w.builders[j].mutation])
  }

  // The first builder from `i` on whose check fails, or their number.
  ghost function FirstRefused(w: World, i: nat, h: nat): (f: nat)
    requires Known(w) && i < |w.builders| && h <= |w.builders[i].hooks|
    ensures i <= f <= |w.builders|
    ensures forall j | i <= j < f :: Passes(w.builders[j], Held(w, i, h, j))
    ensures f < |w.builders| ==> !Passes(w.builders[f], Held(w, i, h, f))
    decreases |w.builders| - i
  {
    if !Passes(w.builders[i], Held(w, i, h, i)) then i
    else if i + 1 < |w.builders| then FirstRefused(w, i + 1, 0)
    else |w.builders|
  }

  // Entering the hooks from hook `h` of builder `i` to the last hook of builder `k`.
  ghost function Entries(w: World, i: nat, h: nat, k: nat): seq<Event>
    requires i <= k < |w.builders| && h <= |w.builders[i].hooks|
    decreases k - i, |w.builders[i].hooks| - h
  {
    if h < |w.builders[i].hooks| then [Enter(i, h)] + Entries(w, i, h + 1, k)
    else if i < k then Entries(w, i + 1, 0, k)
    else []
  }

  // The exits that mirror entries.
  function Mirror(entries: seq<Event>): seq<Event> {
    if entries == [] then []
    else Mirror(entries[1..]) + if entries[0].Enter? then [Exit(entries[0].builder, entries[0].hook)] else []
  }

  predicate Before(a: Event, b: Event)
    requires a.Enter? && b.Enter?
  {
    a.builder < b.builder || (a.builder == b.builder && a.hook < b.hook)
  }

  // The entries are all hooks in between, in (builder, hook) sequence, each once.
  lemma {:induction false} EntriesExact(w: World, i: nat, h: nat, k: nat)
    requires i <= k < |w.builders| && h <= |w.builders[i].hooks|
    ensures var es := Entries(w, i, h, k);
      && (forall e | e in es :: e.Enter?)
      && (forall j: nat, x: nat ::
            Enter(j, x) in es <==> i <= j <= k && x < |w.builders[j].hooks| && (j == i ==> h <= x))
      && (forall a, b | 0 <= a < b < |es| :: Before(es[a], es[b]))
    decreases k - i, |w.builders[i].hooks| - h
  {
    if h < |w.builders[i].hooks| {
      EntriesExact(w, i, h + 1, k);
      var rest := Entries(w, i, h + 1, k);
      forall b | 0 <= b < |rest| ensures Before(Enter(i, h), rest[b]) {
        assert rest[b] in rest && rest[b] == Enter(rest[b].builder, rest[b].hook);
      }
    } else if i < k {
      EntriesExact(w, i + 1, 0, k);
    }
  }

  function CountDown(low: nat, high: nat): seq<nat>
    requires low <= high
    decreases high - low
  {
    if low == high then [] else CountDown(low + 1, high) + [low]
  }

  lemma {:induction false} CountDownExact(low: nat, high: nat)
    requires low <= high
    ensures |CountDown(low, high)| == high - low
    ensures forall x: nat :: (x in CountDown(low, high) <==> low <= x < high)
    decreases high - low
  {
    if low < high {
      CountDownExact(low + 1, high);
    }
  }

  // How a run ends if every check passes from builder `i` on.
  function InsertError(answer: Answer): Option<SaveError> {
    if answer.Fails? then Some(InsertFailure(answer.constraint)) else None
  }

  lemma MirrorOuter(e: Event, es: seq<Event>, middle: Event)
    requires e.Enter?
    ensures [e] + (es + [middle] + Mirror(es)) + [Exit(e.builder, e.hook)] == ([e] + es) + [middle] + Mirror([e] + es)
  {
  }

  // What the cores from builder `i` on go on with.
  ghost function OwnReceived(w: World, i: nat, h: nat): seq<Received>
    requires Known(w) && i < |w.builders| && h <= |w.builders[i].hooks|
    decreases |w.builders| - i
  {
    [Received(w.builders[i].mutation, Held(w, i, h, i))]
    + if i + 1 < |w.builders| then OwnReceived(w, i + 1, 0) else []
  }

  // The hooks are entered in (builder, hook) sequence up to the first builder whose check fails, or
  // else to the insert; then they are left in the exact reverse. Either the insert has stored the
  // batch and every mutation is committed, or none is.
  ghost predicate RunsAsForwarded(w: World, i: nat, h: nat, o: Outcome)
    requires Known(w) && i < |w.builders| && h <= |w.builders[i].hooks|
  {
    var f, n := FirstRefused(w, i, h), |w.builders|;
    var es := Entries(w, i, h, if f < n then f else n - 1);
    && o.trace == es + [if f < n then Refused(f) else Insert] + Mirror(es)
    && o.inserted == (f == n)
    && o.err == (if f < n then Some(CheckFailure(f, Checked(w.builders[f].runtime, Held(w, i, h, f)).value))
                 else InsertError(w.answer))
    && o.commits == (if o.err.None? then CountDown(i, n) else [])
    && (o.inserted ==> o.received == OwnReceived(w, i, h))
  }

  // Builders from `k` on are not touched by what happens to the mutations of earlier ones.
  lemma {:induction false} SameLater(w: World, w': World, k: nat)
    requires Known(w) && Known(w') && w.builders == w'.builders && k < |w.builders|
    requires forall j | k <= j < |w.builders| ::
      w.changes[w.builders[j].mutation] == w'.changes[w.builders[j].mutation]
    ensures FirstRefused(w, k, 0) == FirstRefused(w', k, 0) && OwnReceived(w, k, 0) == OwnReceived(w', k, 0)
    ensures forall j | k <= j < |w.builders| :: Held(w, k, 0, j) == Held(w', k, 0, j)
    decreases |w.builders| - k
  {
    hide Checked;
    if k + 1 < |w.builders| {
      SameLater(w, w', k + 1);
    }
  }

  lemma EditedStep(w: World, i: nat, h: nat)
    requires Known(w) && OwnMutations(w) && i < |w.builders| && h < |w.builders[i].hooks|
    requires Forwards(w.builders[i].hooks[h])
    ensures var w' := Edited(w, w.builders[i].hooks[h], w.builders[i].mutation);
      && FirstRefused(w, i, h) == FirstRefused(w', i, h + 1) && OwnReceived(w, i, h) == OwnReceived(w', i, h + 1)
      && forall j | i <= j < |w.builders| :: Held(w, i, h, j) == Held(w', i, h + 1, j)
  {
    hide Checked;
    var w' := Edited(w, w.builders[i].hooks[h], w.builders[i].mutation);
    if i + 1 < |w.builders| {
      SameLater(w, w', i + 1);
    }
  }

  lemma {:induction false} SameEntries(w: World, w': World, i: nat, h: nat, k: nat)
    requires w.builders == w'.builders && i <= k < |w.builders| && h <= |w.builders[i].hooks|
    ensures Entries(w, i, h, k) == Entries(w', i, h, k)
    decreases k - i, |w.builders[i].hooks| - h
  {
    if h < |w.builders[i].hooks| {
      SameEntries(w, w', i, h + 1, k);
    } else if i < k {
      SameEntries(w, w', i + 1, 0, k);
    }
  }

  lemma ForwardHook(w: World, i: nat, h: nat, inner: Outcome)
    requires Known(w) && OwnMutations(w) && i < |w.builders| && h < |w.builders[i].hooks|
    requires Forwards(w.builders[i].hooks[h])
    requires RunsAsForwarded(Edited(w, w.builders[i].hooks[h], w.builders[i].mutation), i, h + 1, inner)
    ensures RunsAsForwarded(w, i, h, HookOutcome(i, h, w.builders[i].hooks[h], inner))
  {
    hide Checked, FirstRefused, OwnReceived, CountDown, Held;
    var w' := Edited(w, w.builders[i].hooks[h], w.builders[i].mutation);
    var f, n := FirstRefused(w, i, h), |w.builders|;
    var k := if f < n then f else n - 1;
    EditedStep(w, i, h);
    SameEntries(w, w', i, h + 1, k);
    MirrorOuter(Enter(i, h), Entries(w, i, h + 1, k), if f < n then Refused(f) else Insert);
  }

  lemma ForwardCore(w: World, i: nat, inner: Outcome)
    requires Known(w) && i < |w.builders| && Passes(w.builders[i], w.changes[w.builders[i].mutation])
    requires if i + 1 < |w.builders| then RunsAsForwarded(w, i + 1, 0, inner) else inner == InsertOutcome(w.answer)
    ensures var m := w.builders[i].mutation;
      RunsAsForwarded(w, i, |w.builders[i].hooks|, CoreOutcome(i, Received(m, w.changes[m]), inner))
  {
    hide Checked, Entries, Mirror, FirstRefused, OwnReceived, CountDown;
    var n := |w.builders|;
    CoreFacts(w, i);
    if i + 1 == n {
      NothingEntered(w, i);
      assert [] + [Insert] + [] == [Insert];
    }
  }

  // Passing builder `i`'s core is starting at the next builder.
  lemma CoreFacts(w: World, i: nat)
    requires Known(w) && i < |w.builders| && Passes(w.builders[i], w.changes[w.builders[i].mutation])
    ensures var h, n, m := |w.builders[i].hooks|, |w.builders|, w.builders[i].mutation;
      && FirstRefused(w, i, h) == (if i + 1 < n then FirstRefused(w, i + 1, 0) else n)
      && OwnReceived(w, i, h)
         == [Received(m, w.changes[m])] + (if i + 1 < n then OwnReceived(w, i + 1, 0) else [])
      && (forall j | i < j < n :: Held(w, i, h, j) == Held(w, i + 1, 0, j))
      && (forall k | i < k < n :: Entries(w, i, h, k) == Entries(w, i + 1, 0, k))
      && CountDown(i, n) == CountDown(i + 1, n) + [i] && CountDown(n, n) == []
  {
    hide Checked;
  }

  // So runs a bulk save whose hooks all forward.
  lemma {:induction false} ForwardRun(w: World, i: nat, h: nat)
    requires Known(w) && AllForward(w) && OwnMutations(w) && i < |w.builders| && h <= |w.builders[i].hooks|
    ensures RunsAsForwarded(w, i, h, Run(w, i, h, w.builders[i].mutation))
    decreases |w.builders| - i, |w.builders[i].hooks| - h
  {
    hide RunsAsForwarded;
    var b, n, m := w.builders[i], |w.builders|, w.builders[i].mutation;
    if h < |b.hooks| {
      assert Forwards(b.hooks[h]);
      var w' := Edited(w, b.hooks[h], m);
      ForwardRun(w', i, h + 1);
      ForwardHook(w, i, h, Run(w', i, h + 1, m));
    } else if Passes(b, w.changes[m]) {
      if i + 1 < n {
        ForwardRun(w, i + 1, 0);
      }
      ForwardCore(w, i, if i + 1 < n then Run(w, i + 1, 0, w.builders[i + 1].mutation) else InsertOutcome(w.answer));
    } else {
      ForwardRefused(w, i);
    }
  }

  lemma ForwardRefused(w: World, i: nat)
    requires Known(w) && i < |w.builders| && !Passes(w.builders[i], w.changes[w.builders[i].mutation])
    ensures RunsAsForwarded(w, i, |w.builders[i].hooks|, Run(w, i, |w.builders[i].hooks|, w.builders[i].mutation))
  {
    hide Checked, Entries, Mirror;
    var h, m := |w.builders[i].hooks|, w.builders[i].mutation;
    assert Held(w, i, h, i) == w.changes[m];
    assert FirstRefused(w, i, h) == i;
    NothingEntered(w, i);
    assert [] + [Refused(i)] + [] == [Refused(i)];
  }

  lemma NothingEntered(w: World, i: nat)
    requires i < |w.builders|
    ensures Entries(w, i, |w.builders[i].hooks|, i) == [] && Mirror([]) == []
  {
  }

  // ---- Other hooks ----

  // The mutation a builder's core goes on with: the last one swapped in, or the one it was called with.
  ghost function Final(hooks: seq<Hook>, h: nat, m: AccountMutation): AccountMutation
    requires h <= |hooks|
    decreases |hooks| - h
  {
    if h == |hooks| then m else Final(hooks, h + 1, PassedOn(hooks[h], m))
  }

  // The first hook, from hook `h` on, that does more than call on with a mutation.
  function FirstActing(hooks: seq<Hook>, h: nat): Option<Hook>
    requires h <= |hooks|
    decreases |hooks| - h
  {
    if h == |hooks| then None
    else if Plain(hooks[h]) then FirstActing(hooks, h + 1)
    else Some(hooks[h])
  }

  predicate Plain(hook: Hook) { hook.Forward? || hook.Swap? || hook.Edit? }

  // A builder's hooks turn the success of what they wrap into a failure.
  predicate FailsAfter(hooks: seq<Hook>) {
    var acting := FirstActing(hooks, 0);
    acting.Some? && acting.value.FailAfter?
  }

  // A builder's hooks report success whatever they wrap.
  predicate Feigns(hooks: seq<Hook>) {
    var acting := FirstActing(hooks, 0);
    acting.Some? && (acting.value.Hide? || acting.value.Swallow?)
  }

  predicate ReachesCore(hooks: seq<Hook>, h: nat) { forall x | h <= x < |hooks| :: CallsOn(hooks[x]) }

  // What a call of a builder's hooks makes of the call of its core.
  lemma {:induction false} ThroughHooks(w: World, i: nat, h: nat, m: AccountMutation)
    requires Known(w) && i < |w.builders| && h <= |w.builders[i].hooks| && m in w.changes
    ensures var hooks := w.builders[i].hooks;
      var o, acting, m' := Run(w, i, h, m), FirstActing(hooks, h), Final(hooks, h, m);
      && (ReachesCore(hooks, h) ==>
            && m' in w.changes
            && (acting.Some? ==> acting.value.FailAfter? || acting.value.Hide?)
            && var core := Run(Reaching(w, i, h, m), i, |hooks|, m');
               o.commits == core.commits && (acting.None? ==> o.err == core.err))
      && (!ReachesCore(hooks, h) ==> o.commits == [] && acting.Some?)
      && (acting.Some? ==> (o.err.None? <==> acting.value.Hide? || acting.value.Swallow?))
    decreases |w.builders[i].hooks| - h
  {
    hide Checked;
    var hooks := w.builders[i].hooks;
    if h < |hooks| && CallsOn(hooks[h]) {
      ThroughHooks(Edited(w, hooks[h], m), i, h + 1, PassedOn(hooks[h], m));
      assert ReachesCore(hooks, h) <==> ReachesCore(hooks, h + 1);
    } else if h < |hooks| {
      assert !ReachesCore(hooks, h);
    }
  }

  // All builders from `i` on call on and pass their checks, and the database stores the batch.
  ghost predicate Stored(w: World, i: nat, m: AccountMutation)
    requires Known(w) && i < |w.builders| && m in w.changes
  {
    w.answer.Stores? && OpenOn(w, i, 0, m)
  }

  // No call of a chain from builder `i` on fails after what it wraps has succeeded.
  predicate NoneFailsAfter(w: World, i: nat) {
    forall j | i <= j < |w.builders| :: !FailsAfter(w.builders[j].hooks)
  }

  // No call of a chain that is reached from builder `i` on reports success of its own.
  ghost predicate NoneFeigns(w: World, i: nat, m: AccountMutation)
    requires Known(w) && i < |w.builders| && m in w.changes
    decreases |w.builders| - i
  {
    && !Feigns(w.builders[i].hooks)
    && (Open(w, i, 0, m) && i + 1 < |w.builders| ==>
          NoneFeigns(Reaching(w, i, 0, m), i + 1, w.builders[i + 1].mutation))
  }

  lemma SplitFirst(w: World, i: nat, m: AccountMutation)
    requires Known(w) && i < |w.builders| && m in w.changes
    ensures var w', b := Reaching(w, i, 0, m), w.builders[i];
      && (Open(w, i, 0, m) <==> ReachesCore(b.hooks, 0) && Passes(b, w'.changes[b.mutation]))
      && (i + 1 < |w.builders| ==>
            (Stored(w, i, m) <==> Open(w, i, 0, m) && Stored(w', i + 1, w.builders[i + 1].mutation)))
      && (i + 1 == |w.builders| ==> (Stored(w, i, m) <==> Open(w, i, 0, m) && w.answer.Stores?))
      && (NoneFailsAfter(w, i) <==> !FailsAfter(b.hooks) && (i + 1 < |w.builders| ==> NoneFailsAfter(w', i + 1)))
  {
    hide Passes, FailsAfter, Reaching;
  }

  // A core commits exactly on success.
  lemma CoreCommits(w: World, i: nat, m: AccountMutation)
    requires Known(w) && i < |w.builders| && m in w.changes
    ensures var o, n := Run(w, i, |w.builders[i].hooks|, m), |w.builders|;
      && (!Passes(w.builders[i], w.changes[w.builders[i].mutation]) ==> o.err.Some? && o.commits == [])
      && (Passes(w.builders[i], w.changes[w.builders[i].mutation]) ==>
            && (i + 1 == n ==> (o.err.None? <==> w.answer.Stores?) && o.commits == if w.answer.Stores? then [i] else [])
            && (i + 1 < n ==>
                  var next := Run(w, i + 1, 0, w.builders[i + 1].mutation);
                  o.err == next.err && o.commits == next.commits + if next.err.None? then [i] else []))
  {
    hide Checked;
  }

  // Whatever the hooks: a save succeeds with every mutation committed exactly if the batch is stored and no
  // builder's first acting hook fails afterwards; and it fails with none committed exactly if the batch is not
  // stored and no first acting hook that is reached hides that.
  lemma {:induction false} AllOrNothing(w: World, i: nat, m: AccountMutation)
    requires Known(w) && i < |w.builders| && m in w.changes
    ensures var o, n := Run(w, i, 0, m), |w.builders|;
      && (o.err.None? && o.commits == CountDown(i, n) <==> Stored(w, i, m) && NoneFailsAfter(w, i))
      && (o.err.Some? && o.commits == [] <==> !Stored(w, i, m) && NoneFeigns(w, i, m))
      && (forall x | x in o.commits :: i <= x)
    decreases |w.builders| - i
  {
    hide Checked, Run, Final, FirstActing, Open, Stored, NoneFailsAfter, ReachesCore, Reaching, OpenOn;
    var hooks, n, w' := w.builders[i].hooks, |w.builders|, Reaching(w, i, 0, m);
    ThroughHooks(w, i, 0, m);
    if ReachesCore(hooks, 0) {
      CoreCommits(w', i, Final(hooks, 0, m));
    }
    SplitFirst(w, i, m);
    if i + 1 < n {
      AllOrNothing(w', i + 1, w.builders[i + 1].mutation);
      Ends(Run(w', i + 1, 0, w.builders[i + 1].mutation).commits, i, n);
    } else {
      assert CountDown(n, n) == [];
    }
  }

  lemma Ends(commits: seq<nat>, i: nat, n: nat)
    requires i < n && forall x | x in commits :: i < x
    ensures commits + [] == commits != CountDown(i, n)
    ensures commits + [i] == CountDown(i, n) <==> commits == CountDown(i + 1, n)
  {
    assert i in CountDown(i, n);
    if commits + [i] == CountDown(i, n) {
      assert commits == (commits + [i])[..|commits|] && CountDown(i + 1, n) == CountDown(i, n)[..|CountDown(i, n)| - 1];
    }
  }

  // The guarantee as a caller reads it.
  ghost predicate Guarantee(w: World)
    requires Known(w) && w.builders != []
  {
    var o := WholeRun(w);
    && (o.err.Some? ==> o.commits == [])
    && (o.err.None? ==> o.inserted && w.answer.Stores? && o.commits == CountDown(0, |w.builders|))
  }

  // The guarantee holds exactly if no builder's first acting hook has the wrong last word: a failure, when the batch is
  // stored; a success, when it is not.
  lemma GuaranteeExactly(w: World)
    requires Known(w) && w.builders != []
    ensures var m := w.builders[0].mutation;
      Guarantee(w) <==> if Stored(w, 0, m) then NoneFailsAfter(w, 0) else NoneFeigns(w, 0, m)
  {
    hide Run, Open, OpenOn, NoneFailsAfter, NoneFeigns, Reaching;
    AllOrNothing(w, 0, w.builders[0].mutation);
    InsertReached(w, 0, 0, w.builders[0].mutation);
    assert Stored(w, 0, w.builders[0].mutation) ==> WholeRun(w).inserted;
    CountDownExact(0, |w.builders|);
  }

  // The world in which builder `k` is called, if all builders before it let the run through.
  ghost function Arriving(w: World, i: nat, m: AccountMutation, k: nat): (w': World)
    requires Known(w) && i <= k < |w.builders| && m in w.changes
    ensures w'.builders == w.builders && w'.changes.Keys == w.changes.Keys && Known(w')
    decreases k - i
  {
    if i == k then w else Arriving(Reaching(w, i, 0, m), i + 1, w.builders[i + 1].mutation, k)
  }

  ghost predicate LetThrough(w: World, i: nat, m: AccountMutation, k: nat)
    requires Known(w) && i <= k < |w.builders| && m in w.changes
    decreases k - i
  {
    i < k ==> Open(w, i, 0, m) && LetThrough(Reaching(w, i, 0, m), i + 1, w.builders[i + 1].mutation, k)
  }

  // So a hook that reports success without calling on breaks it, unless a hook around it fails.
  lemma SwallowBreaksGuarantee(w: World, k: nat, h: nat)
    requires Known(w) && k < |w.builders| && LetThrough(w, 0, w.builders[0].mutation, k)
    requires h < |w.builders[k].hooks| && w.builders[k].hooks[h].Swallow?
    requires forall x | 0 <= x < h :: Plain(w.builders[k].hooks[x])
    ensures !Guarantee(w)
  {
    GuaranteeExactly(w);
    FirstActingAt(w.builders[k].hooks, 0, h);
    SwallowReached(w, 0, w.builders[0].mutation, k, h);
  }

  lemma {:induction false} SwallowReached(w: World, i: nat, m: AccountMutation, k: nat, h: nat)
    requires Known(w) && i <= k < |w.builders| && m in w.changes && LetThrough(w, i, m, k)
    requires h < |w.builders[k].hooks| && w.builders[k].hooks[h].Swallow? && Feigns(w.builders[k].hooks)
    ensures !OpenOn(w, i, 0, m) && !NoneFeigns(w, i, m)
    decreases k - i
  {
    if i < k {
      SwallowReached(Reaching(w, i, 0, m), i + 1, w.builders[i + 1].mutation, k, h);
    } else {
      assert !CallsOn(w.builders[k].hooks[h]);
    }
  }

  lemma {:induction false} FirstActingAt(hooks: seq<Hook>, h: nat, k: nat)
    requires h <= k < |hooks| && (forall x | h <= x < k :: Plain(hooks[x])) && !Plain(hooks[k])
    ensures FirstActing(hooks, h) == Some(hooks[k])
    decreases k - h
  {
    if h < k {
      FirstActingAt(hooks, h + 1, k);
    }
  }

  // What is inserted for a builder is the mutation it was handed, with the changes it held by then, while the check
  // looked at the builder's own.
  lemma {:induction false} InsertedMutations(w: World, i: nat, m: AccountMutation, j: nat)
    requires Known(w) && i < |w.builders| && m in w.changes
    requires var o := Run(w, i, 0, m); i <= j < i + |o.received|
    ensures j < |w.builders|
    ensures var there, given := Arriving(w, i, m, j), if j == i then m else w.builders[j].mutation;
      var at, m' := Reaching(there, j, 0, given), Final(w.builders[j].hooks, 0, given);
      && m' in at.changes && Run(w, i, 0, m).received[j - i] == Received(m', at.changes[m'])
      && Passes(w.builders[j], at.changes[w.builders[j].mutation])
    decreases |w.builders| - i
  {
    hide Checked, Run, Final, Reaching;
    ReceivedThrough(w, i, 0, m);
    if j > i {
      InsertedMutations(Reaching(w, i, 0, m), i + 1, w.builders[i + 1].mutation, j);
    }
  }

  // The part of a run that one builder's hooks and core add to what is received.
  lemma {:induction false} ReceivedThrough(w: World, i: nat, h: nat, m: AccountMutation)
    requires Known(w) && i < |w.builders| && h <= |w.builders[i].hooks| && m in w.changes
    requires Run(w, i, h, m).received != []
    ensures var w', m', b := Reaching(w, i, h, m), Final(w.builders[i].hooks, h, m), w.builders[i];
      && m' in w.changes && Passes(b, w'.changes[b.mutation])
      && Run(w, i, h, m).received == [Received(m', w'.changes[m'])]
           + if i + 1 < |w.builders| then Run(w', i + 1, 0, w.builders[i + 1].mutation).received else []
    decreases |w.builders[i].hooks| - h
  {
    hide Checked;
    var hooks := w.builders[i].hooks;
    if h < |hooks| {
      ReceivedThrough(Edited(w, hooks[h], m), i, h + 1, PassedOn(hooks[h], m));
    }
  }

  // So a hook that swaps the mutation gets changes inserted that the check never saw.
  lemma SwapSkipsCheck(own: AccountMutation, other: AccountMutation, r: Runtime, good: Changes, bad: Changes,
      ids: nat -> Option<int>)
    requires own != other && Checked(r, good) == None && Checked(r, bad) != None
    ensures var w := World([Builder(own, [Swap(other)], r)], map[own := good, other := bad], Stores(ids));
      && Known(w)
      && var o := WholeRun(w);
         o.err.None? && o.inserted && o.received == [Received(other, bad)] && Checked(r, bad) != None
  {
    hide Checked;
    var w := World([Builder(own, [Swap(other)], r)], map[own := good, other := bad], Stores(ids));
    assert w.builders[0].hooks == [Swap(other)];
    assert Run(w, 0, 1, other) == CoreOutcome(0, Received(other, bad), InsertOutcome(w.answer));
  }
}
