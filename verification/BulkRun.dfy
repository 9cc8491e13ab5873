// Bulk save as a run: hooks wrapped around each builder's core, each core calling the next builder's
// chain, and the last one inserting the batch.
module BulkRun {
  import opened Wrappers
  import opened AccountCreation

  // What a hook does with the mutation it is given and with the mutator it wraps: pass both on, refuse,
  // report success without calling on, call on and then fail, call on and hide an error, call on with another
  // mutation, or change the fields of the mutation and call on with it.
  datatype Hook =
    | Forward
    | Reject
    | Swallow
    | FailAfter
    | Hide
    | Swap(other: AccountMutation)
    | Edit(change: Changes -> Changes)

  datatype Mutator =
    | Core(builder: nat)
    | Wrapped(builder: nat, index: nat, hook: Hook, inner: Mutator)

  // Hooks are wrapped last to first, so the first one is outermost.
  function Chain(i: nat, hooks: seq<Hook>, h: nat): Mutator
    requires h <= |hooks|
    decreases |hooks| - h
  {
    if h == |hooks| then Core(i) else Wrapped(i, h, hooks[h], Chain(i, hooks, h + 1))
  }

  datatype SaveError =
    | Unusable(reason: string)
    | CheckFailure(builder: nat, cause: CheckError)
    | Rejected(builder: nat, hook: nat)
    | HookFailure(builder: nat, hook: nat)
    | InsertFailure(constraint: bool)

  // What the database does with the batch: it fails, or it stores the rows and reports ids.
  datatype Answer = Fails(constraint: bool) | Stores(ids: nat -> Option<int>)

  datatype Builder = Builder(mutation: AccountMutation, hooks: seq<Hook>, runtime: Runtime)

  // The builders, the changes of every mutation a run can meet, and the database's answer.
  datatype World = World(builders: seq<Builder>, changes: map<AccountMutation, Changes>, answer: Answer)

  ghost predicate Known(w: World) {
    forall i | 0 <= i < |w.builders| ::
      && w.builders[i].mutation in w.changes
      && forall h | 0 <= h < |w.builders[i].hooks| ::
           w.builders[i].hooks[h].Swap? ==> w.builders[i].hooks[h].other in w.changes
  }

  datatype Event = Enter(builder: nat, hook: nat) | Refused(builder: nat) | Insert | Exit(builder: nat, hook: nat)

  // A mutation a core went on with, and the changes it held then.
  datatype Received = Received(mutation: AccountMutation, changes: Changes)

  // `received`: what the cores went on with, in builder sequence; `commits`: the builders whose mutation was marked
  // done, in the sequence that happened.
  datatype Outcome = Outcome(
    err: Option<SaveError>, trace: seq<Event>, received: seq<Received>, inserted: bool, commits: seq<nat>)

  function HookError(i: nat, h: nat, hook: Hook, err: Option<SaveError>): Option<SaveError> {
    if hook.Hide? then None else if hook.FailAfter? && err.None? then Some(HookFailure(i, h)) else err
  }

  ghost function HookOutcome(i: nat, h: nat, hook: Hook, inner: Outcome): Outcome {
    inner.(err := HookError(i, h, hook, inner.err), trace := [Enter(i, h)] + inner.trace + [Exit(i, h)])
  }

  ghost function CoreOutcome(i: nat, got: Received, inner: Outcome): Outcome {
    inner.(received := [got] + inner.received,
           commits := if inner.err.None? then inner.commits + [i] else inner.commits)
  }

  ghost function InsertOutcome(answer: Answer): Outcome {
    Outcome(if answer.Fails? then Some(InsertFailure(answer.constraint)) else None, [Insert], [], true, [])
  }

  // The mutation a hook calls on with.
  function PassedOn(hook: Hook, m: AccountMutation): AccountMutation { if hook.Swap? then hook.other else m }

  // The world once a hook has done what it does before calling on.
  ghost function Edited(w: World, hook: Hook, m: AccountMutation): (w': World)
    requires m in w.changes
    ensures w'.builders == w.builders && w'.answer == w.answer && w'.changes.Keys == w.changes.Keys
    ensures Known(w) ==> Known(w')
  {
    if hook.Edit? then w.(changes := w.changes[m := hook.change(w.changes[m])]) else w
  }

  predicate CallsOn(hook: Hook) { !hook.Reject? && !hook.Swallow? }

  // The run from hook `h` of builder `i` on, with mutation `m` in hand.
  ghost function Run(w: World, i: nat, h: nat, m: AccountMutation): Outcome
    requires Known(w) && i < |w.builders| && h <= |w.builders[i].hooks| && m in w.changes
    decreases |w.builders| - i, |w.builders[i].hooks| - h
  {
    var b := w.builders[i];
    if h < |b.hooks| then
      HookOutcome(i, h, b.hooks[h],
        if CallsOn(b.hooks[h]) then Run(Edited(w, b.hooks[h], m), i, h + 1, PassedOn(b.hooks[h], m))
        else Outcome(if b.hooks[h].Reject? then Some(Rejected(i, h)) else None, [], [], false, []))
    else
      var refused := Checked(b.runtime, w.changes[b.mutation]);
      if refused.Some? then Outcome(Some(CheckFailure(i, refused.value)), [Refused(i)], [], false, [])
      else
        CoreOutcome(i, Received(m, w.changes[m]),
                    if i + 1 < |w.builders| then Run(w, i + 1, 0, w.builders[i + 1].mutation)
                    else InsertOutcome(w.answer))
  }

  ghost function WholeRun(w: World): Outcome
    requires Known(w) && w.builders != []
  {
    Run(w, 0, 0, w.builders[0].mutation)
  }

  // ---- When the insert fires ----

  predicate Passes(b: Builder, changes: Changes) { Checked(b.runtime, changes) == None }

  // The world in which builder `i`'s core is called, if all hooks call on.
  ghost function Reaching(w: World, i: nat, h: nat, m: AccountMutation): (w': World)
    requires Known(w) && i < |w.builders| && h <= |w.builders[i].hooks| && m in w.changes
    ensures w'.builders == w.builders && w'.answer == w.answer && w'.changes.Keys == w.changes.Keys && Known(w')
    decreases |w.builders[i].hooks| - h
  {
    if h == |w.builders[i].hooks| then w
    else
      var hook := w.builders[i].hooks[h];
      Reaching(Edited(w, hook, m), i, h + 1, PassedOn(hook, m))
  }

  // The hooks of builder `i` call on, and its check passes by then.
  ghost predicate Open(w: World, i: nat, h: nat, m: AccountMutation)
    requires Known(w) && i < |w.builders| && h <= |w.builders[i].hooks| && m in w.changes
  {
    && (forall k | h <= k < |w.builders[i].hooks| :: CallsOn(w.builders[i].hooks[k]))
    && Passes(w.builders[i], Reaching(w, i, h, m).changes[w.builders[i].mutation])
  }

  // And so do and pass those of all builders after it.
  ghost predicate OpenOn(w: World, i: nat, h: nat, m: AccountMutation)
    requires Known(w) && i < |w.builders| && h <= |w.builders[i].hooks| && m in w.changes
    decreases |w.builders| - i
  {
    && Open(w, i, h, m)
    && (i + 1 < |w.builders| ==> OpenOn(Reaching(w, i, h, m), i + 1, 0, w.builders[i + 1].mutation))
  }

  // The insert is reached exactly if every hook calls on and every builder's check passes.
  lemma {:induction false} InsertReached(w: World, i: nat, h: nat, m: AccountMutation)
    requires Known(w) && i < |w.builders| && h <= |w.builders[i].hooks| && m in w.changes
    ensures Run(w, i, h, m).inserted <==> OpenOn(w, i, h, m)
    decreases |w.builders| - i, |w.builders[i].hooks| - h
  {
    hide Checked;
    var b := w.builders[i];
    if h < |b.hooks| {
      if CallsOn(b.hooks[h]) {
        InsertReached(Edited(w, b.hooks[h], m), i, h + 1, PassedOn(b.hooks[h], m));
      }
    } else if Passes(b, w.changes[b.mutation]) && i + 1 < |w.builders| {
      InsertReached(w, i + 1, 0, w.builders[i + 1].mutation);
    }
  }

  function Inserts(trace: seq<Event>): nat {
    if trace == [] then 0 else (if trace[0] == Insert then 1 else 0) + Inserts(trace[1..])
  }

  lemma {:induction false} InsertsAppend(a: seq<Event>, b: seq<Event>)
    ensures Inserts(a + b) == Inserts(a) + Inserts(b)
  {
    if a == [] {
      assert a + b == b;
    } else {
      assert (a + b)[1..] == a[1..] + b;
      InsertsAppend(a[1..], b);
    }
  }

  // It fires once or not at all, and when it does every builder has gone on with a mutation.
  lemma {:induction false} InsertedOnce(w: World, i: nat, h: nat, m: AccountMutation)
    requires Known(w) && i < |w.builders| && h <= |w.builders[i].hooks| && m in w.changes
    ensures var o := Run(w, i, h, m);
      && Inserts(o.trace) == (if o.inserted then 1 else 0)
      && (o.inserted ==> |o.received| == |w.builders| - i)
      && |o.received| <= |w.builders| - i
    decreases |w.builders| - i, |w.builders[i].hooks| - h
  {
    hide Checked;
    var b := w.builders[i];
    if h < |b.hooks| {
      if CallsOn(b.hooks[h]) {
        var w', m' := Edited(w, b.hooks[h], m), PassedOn(b.hooks[h], m);
        InsertedOnce(w', i, h + 1, m');
        var inner := Run(w', i, h + 1, m').trace;
        InsertsAppend([Enter(i, h)] + inner, [Exit(i, h)]);
        InsertsAppend([Enter(i, h)], inner);
      } else {
        InsertsAppend([Enter(i, h)] + [], [Exit(i, h)]);
      }
    } else if Passes(b, w.changes[b.mutation]) && i + 1 < |w.builders| {
      InsertedOnce(w, i + 1, 0, w.builders[i + 1].mutation);
    }
  }

  // ---- Nesting ----

  // Replaying a trace on a stack of open hooks; None when an exit does not match.
  function Replay(trace: seq<Event>, open: seq<(nat, nat)>): Option<seq<(nat, nat)>> {
    if trace == [] then Some(open)
    else match trace[0]
      case Enter(i, h) => Replay(trace[1..], open + [(i, h)])
      case Exit(i, h) =>
        if open != [] && open[|open| - 1] == (i, h) then Replay(trace[1..], open[..|open| - 1]) else None
      case _ => Replay(trace[1..], open)
  }

  lemma {:induction false} ReplayAppend(a: seq<Event>, b: seq<Event>, open: seq<(nat, nat)>)
    requires Replay(a, open).Some?
    ensures Replay(a + b, open) == Replay(b, Replay(a, open).value)
  {
    if a == [] {
      assert a + b == b;
    } else {
      assert (a + b)[1..] == a[1..] + b && (a + b)[0] == a[0];
      match a[0] {
        case Enter(i, h) => ReplayAppend(a[1..], b, open + [(i, h)]);
        case Exit(i, h) => ReplayAppend(a[1..], b, open[..|open| - 1]);
        case _ => ReplayAppend(a[1..], b, open);
      }
    }
  }

  // Whichever of these the hooks do, every run's trace is properly nested.
  lemma {:induction false} ProperlyNested(w: World, i: nat, h: nat, m: AccountMutation, open: seq<(nat, nat)>)
    requires Known(w) && i < |w.builders| && h <= |w.builders[i].hooks| && m in w.changes
    ensures Replay(Run(w, i, h, m).trace, open) == Some(open)
    decreases |w.builders| - i, |w.builders[i].hooks| - h
  {
    hide Checked;
    var b := w.builders[i];
    if h < |b.hooks| {
      var inner := [];
      if CallsOn(b.hooks[h]) {
        var w', m' := Edited(w, b.hooks[h], m), PassedOn(b.hooks[h], m);
        ProperlyNested(w', i, h + 1, m', open + [(i, h)]);
        inner := Run(w', i, h + 1, m').trace;
      }
      Bracketed(i, h, inner, open);
    } else if Passes(b, w.changes[b.mutation]) && i + 1 < |w.builders| {
      ProperlyNested(w, i + 1, 0, w.builders[i + 1].mutation, open);
    }
  }

  lemma Bracketed(i: nat, h: nat, inner: seq<Event>, open: seq<(nat, nat)>)
    requires Replay(inner, open + [(i, h)]) == Some(open + [(i, h)])
    ensures Replay([Enter(i, h)] + inner + [Exit(i, h)], open) == Some(open)
  {
    var all := [Enter(i, h)] + inner + [Exit(i, h)];
    assert all[0] == Enter(i, h) && all[1..] == inner + [Exit(i, h)];
    ReplayAppend(inner, [Exit(i, h)], open + [(i, h)]);
    assert (open + [(i, h)])[..|open|] == open;
  }
}
