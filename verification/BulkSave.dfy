// Saving many accounts at once: the builders, their chains of mutators and the one batch insert.
module BulkSave {
  import opened Wrappers
  import opened AccountEntity
  import opened AccountCreation
  import opened BulkRun
  import BulkGuarantees

  class AccountCreate {
    var mutation: AccountMutation
    const hooks: seq<Hook>
    const runtime: Runtime

    constructor (mutation: AccountMutation, hooks: seq<Hook>, runtime: Runtime)
      ensures this.mutation == mutation && this.hooks == hooks && this.runtime == runtime
    {
      this.mutation := mutation;
      this.hooks := hooks;
      this.runtime := runtime;
    }
  }

  type SpecValue = (seq<FieldSpec>, seq<EdgeSpec>)

  ghost predicate AllFilled(specs: seq<CreateSpec?>) { forall j | 0 <= j < |specs| :: specs[j] != null }

  ghost function SpecValues(specs: seq<CreateSpec?>): (vs: seq<SpecValue>)
    requires AllFilled(specs)
    reads specs
    ensures |vs| == |specs|
  {
    seq(|specs|, j requires 0 <= j < |specs| reads specs => (specs[j].fields, specs[j].edges))
  }

  class BatchDriver {
    const answer: Answer
    ghost var batches: seq<seq<SpecValue>>

    constructor (answer: Answer)
      ensures this.answer == answer && batches == []
    {
      this.answer := answer;
      batches := [];
    }

    // BatchCreate: every slot has to be filled. Stored rows report their ids in the specifications.
    method BatchCreate(specs: seq<CreateSpec?>) returns (err: Option<SaveError>)
      requires AllFilled(specs)
      requires forall i, j | 0 <= i < j < |specs| :: specs[i] != specs[j]
      modifies this`batches, (set s | s in specs)`id
      ensures batches == old(batches) + [old(SpecValues(specs))]
      ensures err == BulkGuarantees.InsertError(answer)
      ensures forall j | 0 <= j < |specs| :: specs[j].id == if answer.Stores? then answer.ids(j) else old(specs[j].id)
    {
      batches := batches + [SpecValues(specs)];
      if answer.Fails? {
        return Some(InsertFailure(answer.constraint));
      }
      for i := 0 to |specs|
        modifies (set s | s in specs)`id
        invariant forall j | 0 <= j < |specs| :: specs[j].id == if j < i then answer.ids(j) else old(specs[j].id)
      {
        specs[i].id := answer.ids(i);
      }
      return None;
    }
  }

  // The last builder to commit a mutation, if any did; `received` starts at builder `i`.
  ghost function LastCommit(o: Outcome, i: nat, x: AccountMutation): (r: Option<nat>)
    requires CommitsInRange(o, i)
    ensures r.Some? ==> i <= r.value < i + |o.received| && o.received[r.value - i].mutation == x
  {
    LastOf(o.commits, o.received, i, x)
  }

  ghost predicate CommitsInRange(o: Outcome, i: nat) {
    forall j | 0 <= j < |o.commits| :: i <= o.commits[j] < i + |o.received|
  }

  ghost function LastOf(commits: seq<nat>, received: seq<Received>, i: nat, x: AccountMutation): (r: Option<nat>)
    requires forall j | 0 <= j < |commits| :: i <= commits[j] < i + |received|
    ensures r.Some? ==> i <= r.value < i + |received| && received[r.value - i].mutation == x
  {
    if commits == [] then None
    else
      var last := commits[|commits| - 1];
      if received[last - i].mutation == x then Some(last) else LastOf(commits[..|commits| - 1], received, i, x)
  }

  // The id that the specification of builder `j` ends up with.
  function SpecID(answer: Answer, inserted: bool, j: nat): Option<int> {
    if inserted && answer.Stores? then answer.ids(j) else None
  }

  function Identified(f: AccountFields, id: Option<int>): AccountFields {
    if id.Some? then f.(ints := f.ints.(id := id.value)) else f
  }

  // What the closures of one Save share.
  class Chains {
    const builders: seq<AccountCreate>
    const driver: BatchDriver
    const mutators: seq<Mutator>
    var specs: seq<CreateSpec?>
    var nodes: seq<Account?>
    ghost var trace: seq<Event>

    constructor (builders: seq<AccountCreate>, driver: BatchDriver, mutators: seq<Mutator>)
      ensures this.builders == builders && this.driver == driver && this.mutators == mutators
      ensures specs == seq(|builders|, _ => null) && nodes == seq(|builders|, _ => null) && trace == []
    {
      this.builders := builders;
      this.driver := driver;
      this.mutators := mutators;
      specs, nodes, trace := seq(|builders|, _ => null), seq(|builders|, _ => null), [];
    }

    ghost predicate Wired(w: World) {
      && Known(w) && w.answer == driver.answer
      && |builders| == |w.builders| == |mutators|
      && (forall j | 0 <= j < |builders| ::
            && builders[j].hooks == w.builders[j].hooks && builders[j].runtime == w.builders[j].runtime
            && mutators[j] == Chain(j, builders[j].hooks, 0))
      && (forall j, k | 0 <= j < k < |builders| :: builders[j] != builders[k])
    }

    // Builders from `i` on still have their own mutation.
    ghost predicate Unspent(w: World, i: nat)
      requires |builders| == |w.builders|
      reads builders
    {
      forall j | i <= j < |builders| :: builders[j].mutation == w.builders[j].mutation
    }

    ghost predicate SlotHolds(j: nat, changes: Changes)
      requires j < |builders|
      reads this`specs, specs`fields, specs`edges
    {
      && |specs| == |builders| && specs[j] != null
      && specs[j].fields == FieldsFor(changes, FIELD_COLUMNS)
      && specs[j].edges == EdgesFor(builders[j].runtime, changes)
    }

    // The slots before builder `|received|` are filled from the mutations received so far.
    ghost predicate Filled(w: World, received: seq<Received>)
      reads this`specs, this`nodes, specs`fields, specs`edges
    {
      && |received| <= |builders| == |specs| == |nodes|
      && (forall j | 0 <= j < |received| :: received[j].mutation in w.changes && SlotHolds(j, received[j].changes))
      && (forall j, k | 0 <= j < k < |received| :: specs[j] != specs[k])
    }

    ghost predicate SpecIDsAre(answer: Answer, inserted: bool, count: nat)
      reads this`specs, specs`id
    {
      count <= |specs| && forall j | 0 <= j < count :: specs[j] != null && specs[j].id == SpecID(answer, inserted, j)
    }

    ghost predicate NodesAre(w: World, o: Outcome, i: nat)
      requires CommitsInRange(o, i)
      reads this`nodes, nodes`fields
    {
      i + |o.received| <= |nodes| && forall j: nat | i <= j < i + |o.received| :: NodeIs(w, o, i, j)
    }

    ghost predicate NodeIs(w: World, o: Outcome, i: nat, j: nat)
      requires i <= j < |nodes| && j < i + |o.received|
      reads this`nodes, nodes`fields
    {
      var got := o.received[j - i];
      && nodes[j] != null && got.mutation in w.changes
      && nodes[j].fields
         == Identified(NodeOf(got.changes), if j in o.commits then SpecID(w.answer, o.inserted, j) else None)
    }

    ghost function BatchOf(received: seq<Received>): seq<SpecValue>
      requires |received| <= |builders|
    {
      seq(|received|, j requires 0 <= j < |received| =>
        (FieldsFor(received[j].changes, FIELD_COLUMNS), EdgesFor(builders[j].runtime, received[j].changes)))
    }

    // Which mutations are marked done, and to whose id each points.
    ghost predicate Committed(w: World, o: Outcome, i: nat, before: map<AccountMutation, (bool, Account?)>)
      requires CommitsInRange(o, i) && before.Keys == w.changes.Keys
      reads this`nodes, w.changes.Keys`done, w.changes.Keys`id
    {
      && i + |o.received| <= |nodes|
      && forall x | x in w.changes.Keys ::
           var c := LastCommit(o, i, x);
           if c.Some? then x.done && x.id == nodes[c.value] else (x.done, x.id) == before[x]
    }

    // All that a run from builder `i` on leaves behind.
    ghost predicate Left(w: World, o: Outcome, base: seq<Received>,
                         before: map<AccountMutation, (bool, Account?)>, batches: seq<seq<SpecValue>>)
      requires before.Keys == w.changes.Keys
      reads this`specs, this`nodes, specs, nodes`fields, w.changes.Keys`done, w.changes.Keys`id, driver`batches
    {
      var i := |base|;
      && CommitsInRange(o, i)
      && Filled(w, base + o.received)
      && SpecIDsAre(w.answer, o.inserted, i + |o.received|) && NodesAre(w, o, i)
      && driver.batches == batches + (if o.inserted then [BatchOf(base + o.received)] else [])
      && Committed(w, o, i, before)
    }

    // With forwarding hooks a save is all or nothing: after an error no mutation has been marked done;
    // after a success each is, and its node holds the changes as its hooks have edited them and the id the database
    // gave its row.
    lemma AllOrNothing(w: World, before: map<AccountMutation, (bool, Account?)>, batches: seq<seq<SpecValue>>)
      requires Known(w) && BulkGuarantees.AllForward(w) && BulkGuarantees.OwnMutations(w)
      requires w.builders != [] && before.Keys == w.changes.Keys
      requires Left(w, WholeRun(w), [], before, batches)
      ensures WholeRun(w).err.Some? ==> forall x | x in w.changes.Keys :: (x.done, x.id) == before[x]
      ensures WholeRun(w).err.None? ==>
        && w.answer.Stores? && |nodes| >= |w.builders| && |driver.batches| == |batches| + 1
        && forall i | 0 <= i < |w.builders| ::
             var m := w.builders[i].mutation;
             && m.done && nodes[i] != null && m.id == nodes[i]
             && nodes[i].fields == Identified(NodeOf(BulkGuarantees.Held(w, 0, 0, i)), w.answer.ids(i))
    {
      hide WholeRun, BulkGuarantees.AllForward, Filled, BatchOf, NodeOf, LastCommit, CommitsInRange, SpecIDsAre;
      var o := WholeRun(w);
      ForwardOutcome(w);
      LeftParts(w, o, [], before, batches);
      if o.err.None? {
        forall i: nat | i < |w.builders| ensures
          && w.builders[i].mutation.done && nodes[i] != null && w.builders[i].mutation.id == nodes[i]
          && nodes[i].fields == Identified(NodeOf(BulkGuarantees.Held(w, 0, 0, i)), w.answer.ids(i))
        {
          ForwardCommit(w, i);
          assert NodeIs(w, o, 0, i);
        }
      } else {
        NothingCommitted(o);
      }
    }

    method Invoke(mut: Mutator, m: AccountMutation, ghost w: World, ghost h: nat, ghost base: seq<Received>,
                  ghost before: map<AccountMutation, (bool, Account?)>)
      returns (err: Option<SaveError>)
      requires Wired(w) && |base| < |builders| && h <= |builders[|base|].hooks| && m in w.changes
      requires mut == Chain(|base|, builders[|base|].hooks, h)
      requires Unspent(w, |base|) && ChangesAre(w) && Filled(w, base) && SpecIDsAre(w.answer, false, |base|)
      requires Marks(w, before)
      modifies this, driver`batches, (set b | b in builders)`mutation, w.changes.Keys`id, w.changes.Keys`done
      modifies w.changes.Keys`changes, (set s | s in specs[..|base|])`id
      ensures var o, i := Run(w, |base|, h, m), |base|;
        && err == o.err && trace == old(trace) + o.trace
        && Left(w, o, base, before, old(driver.batches))
        && specs[..i] == old(specs[..i]) && nodes[..i] == old(nodes[..i])
        && (forall j | i <= j < i + |o.received| :: fresh(specs[j]) && fresh(nodes[j]))
      decreases |builders| - |base|, mut, 0
    {
      hide *;
      ghost var batches, at := driver.batches, |base|;
      ChainUnfolds(at, builders[at].hooks, h);
      MarkedKeys(w, before);
      match mut {
        case Wrapped(i, k, hook, inner) =>
          WiredHook(w, at, h, m);
          RunUnfolds(w, at, h, m);
          trace := trace + [Enter(i, k)];
          ghost var o := Stopped(w, at, h);
          if hook.Reject? {
            err := Some(Rejected(i, k));
            NothingLeft(w, o, base, before, batches);
          } else if hook.Swallow? {
            err := None;
            NothingLeft(w, o, base, before, batches);
          } else {
            err := CallOn(hook, inner, m, w, h, base, before);
            o := Run(Edited(w, hook, m), at, h + 1, PassedOn(hook, m));
            err := HookError(i, k, hook, err);
          }
          assert Left(w, o, base, before, batches);
          trace := trace + [Exit(i, k)];
          HookLeft(w, at, h, hook, o, base, before, batches);
        case Core(i) =>
          err := RunCore(i, m, w, base, before);
      }
    }

    // A hook that calls on.
    method CallOn(hook: Hook, inner: Mutator, m: AccountMutation, ghost w: World, ghost h: nat,
                  ghost base: seq<Received>, ghost before: map<AccountMutation, (bool, Account?)>)
      returns (err: Option<SaveError>)
      requires Wired(w) && |base| < |builders| && h < |builders[|base|].hooks| && m in w.changes
      requires hook == builders[|base|].hooks[h] && PassedOn(hook, m) in w.changes
      requires inner == Chain(|base|, builders[|base|].hooks, h + 1)
      requires Unspent(w, |base|) && ChangesAre(w) && Filled(w, base) && SpecIDsAre(w.answer, false, |base|)
      requires Marks(w, before)
      modifies this, driver`batches, (set b | b in builders)`mutation, w.changes.Keys`id, w.changes.Keys`done
      modifies w.changes.Keys`changes, (set s | s in specs[..|base|])`id
      ensures Known(Edited(w, hook, m)) && before.Keys == w.changes.Keys && |w.builders| == |builders|
      ensures w.builders[|base|].hooks == builders[|base|].hooks
      ensures var o, i := Run(Edited(w, hook, m), |base|, h + 1, PassedOn(hook, m)), |base|;
        && err == o.err && trace == old(trace) + o.trace
        && Left(w, o, base, before, old(driver.batches))
        && specs[..i] == old(specs[..i]) && nodes[..i] == old(nodes[..i])
        && (forall j | i <= j < i + |o.received| :: fresh(specs[j]) && fresh(nodes[j]))
      decreases |builders| - |base|, inner, 1
    {
      hide *;
      WiredHook(w, |base|, h, m);
      MarkedKeys(w, before);
      ghost var w', batches := Edited(w, hook, m), driver.batches;
      Touch(hook, m, w, base, before);
      WiredHook(w', |base|, h, m);
      err := Invoke(inner, PassedOn(hook, m), w', h + 1, base, before);
      LeftMoves(w, w', Run(w', |base|, h + 1, PassedOn(hook, m)), base, before, batches);
    }

    // What a hook does to the mutation in hand leaves everything else as it was.
    method Touch(hook: Hook, m: AccountMutation, ghost w: World, ghost base: seq<Received>,
                 ghost before: map<AccountMutation, (bool, Account?)>)
      requires Wired(w) && m in w.changes && |base| < |builders| && Unspent(w, |base|) && ChangesAre(w)
      requires Filled(w, base) && Marks(w, before)
      modifies m`changes
      ensures var w' := Edited(w, hook, m);
        && w'.changes.Keys == w.changes.Keys && w'.answer == w.answer && w'.builders == w.builders
        && Wired(w') && Unspent(w', |base|) && ChangesAre(w') && Filled(w', base) && Marks(w', before)
    {
      if hook.Edit? {
        m.changes := hook.change(m.changes);
      }
    }

    lemma LeftMoves(w: World, w': World, o: Outcome, base: seq<Received>, before: map<AccountMutation,
        (bool, Account?)>,
                    batches: seq<seq<SpecValue>>)
      requires before.Keys == w.changes.Keys == w'.changes.Keys && w.answer == w'.answer
      requires Left(w', o, base, before, batches)
      ensures Left(w, o, base, before, batches)
    {
      forall j: nat | |base| <= j < |base| + |o.received| ensures NodeIs(w, o, |base|, j) {
        assert NodeIs(w', o, |base|, j);
      }
    }

    // What a run that goes no further leaves: nothing.
    lemma NothingLeft(w: World, o: Outcome, base: seq<Received>, before: map<AccountMutation, (bool, Account?)>,
                      batches: seq<seq<SpecValue>>)
      requires o.received == [] && !o.inserted && o.commits == []
      requires Filled(w, base) && SpecIDsAre(w.answer, false, |base|) && Marks(w, before) && driver.batches == batches
      ensures Left(w, o, base, before, batches)
    {
    }

    // Hooks change the error and the trace only.
    lemma HookLeft(w: World, i: nat, h: nat, hook: Hook, o: Outcome, base: seq<Received>,
                   before: map<AccountMutation, (bool, Account?)>, batches: seq<seq<SpecValue>>)
      requires before.Keys == w.changes.Keys && Left(w, o, base, before, batches)
      ensures var outer := HookOutcome(i, h, hook, o);
        && outer.received == o.received && outer.trace == [Enter(i, h)] + o.trace + [Exit(i, h)]
        && outer.err == HookError(i, h, hook, o.err)
        && (hook.Reject? || hook.Swallow? ==> outer.err == o.err)
        && Left(w, outer, base, before, batches)
    {
      var outer, at := HookOutcome(i, h, hook, o), |base|;
      assert outer.received == o.received && outer.commits == o.commits && outer.inserted == o.inserted;
      assert CommitsInRange(outer, at);
      forall j: nat | at <= j < at + |outer.received| ensures NodeIs(w, outer, at, j) {
        assert NodeIs(w, o, at, j);
      }
      assert forall x | x in w.changes.Keys :: LastCommit(outer, at, x) == LastCommit(o, at, x);
      assert Committed(w, outer, at, before);
    }

    lemma WiredHook(w: World, i: nat, h: nat, m: AccountMutation)
      requires Wired(w) && i < |builders| && h < |builders[i].hooks| && m in w.changes
      ensures Known(w) && i < |w.builders| == |builders| && w.builders[i].hooks == builders[i].hooks
      ensures PassedOn(builders[i].hooks[h], m) in w.changes
    {
    }

    method RunCore(i: nat, m: AccountMutation, ghost w: World, ghost base: seq<Received>,
                   ghost before: map<AccountMutation, (bool, Account?)>)
      returns (err: Option<SaveError>)
      requires Wired(w) && |base| == i < |builders| && m in w.changes
      requires Unspent(w, i) && ChangesAre(w) && Filled(w, base) && SpecIDsAre(w.answer, false, i) && Marks(w, before)
      modifies this, driver`batches, (set b | b in builders)`mutation, w.changes.Keys`id, w.changes.Keys`done
      modifies w.changes.Keys`changes, (set s | s in specs[..i])`id
      ensures var o := Run(w, i, |builders[i].hooks|, m);
        && err == o.err && trace == old(trace) + o.trace
        && Left(w, o, base, before, old(driver.batches))
        && specs[..i] == old(specs[..i]) && nodes[..i] == old(nodes[..i])
        && (forall j | i <= j < i + |o.received| :: fresh(specs[j]) && fresh(nodes[j]))
      decreases |builders| - i, Core(i), 0, 2
    {
      hide *;
      ghost var batches := driver.batches;
      WiredCore(w, i);
      MarkedKeys(w, before);
      CoreUnfolds(w, i, m);
      OwnChanges(w, i);
      var refused := builders[i].mutation.Check(builders[i].runtime);
      if refused.Some? {
        trace := trace + [Refused(i)];
        NothingLeft(w, Run(w, i, |builders[i].hooks|, m), base, before, batches);
        return Some(CheckFailure(i, refused.value));
      }
      err := Proceed(i, m, w, base, before);
    }

    // A core whose check passed.
    method Proceed(i: nat, m: AccountMutation, ghost w: World, ghost base: seq<Received>,
                   ghost before: map<AccountMutation, (bool, Account?)>)
      returns (err: Option<SaveError>)
      requires Wired(w) && |base| == i < |builders| && m in w.changes
      requires Unspent(w, i) && ChangesAre(w) && Filled(w, base) && SpecIDsAre(w.answer, false, i) && Marks(w, before)
      modifies this, driver`batches, (set b | b in builders)`mutation, w.changes.Keys`id, w.changes.Keys`done
      modifies w.changes.Keys`changes, (set s | s in specs[..i])`id
      ensures var o := CoreOutcome(i, Received(m, w.changes[m]), NextOutcome(w, i));
        && err == o.err && trace == old(trace) + o.trace
        && Left(w, o, base, before, old(driver.batches))
        && specs[..i] == old(specs[..i]) && nodes[..i] == old(nodes[..i])
        && (forall j | i <= j < i + |o.received| :: fresh(specs[j]) && fresh(nodes[j]))
      decreases |builders| - i, Core(i), 0, 1
    {
      hide *;
      ghost var batches := driver.batches;
      WiredCore(w, i);
      MarkedKeys(w, before);
      FilledSizes(w, base);
      Fill(i, m, w, base);
      ghost var got := Received(m, w.changes[m]);
      ghost var next, inner := base + [got], NextOutcome(w, i);
      assert |next| == i + 1;
      FilledSizes(w, next);
      err := CallNext(i, w, next, before);
      CoreShape(i, got, inner);
      LeftSizes(w, inner, next, before, batches);
      Commit(i, m, nodes[i], err, w, base, got, inner, before, batches);
    }

    // The next builder's chain, or the insert behind the last one.
    method CallNext(i: nat, ghost w: World, ghost next: seq<Received>,
                   ghost before: map<AccountMutation, (bool, Account?)>)
      returns (err: Option<SaveError>)
      requires Wired(w) && i < |builders| && |next| == i + 1
      requires Unspent(w, i + 1) && ChangesAre(w) && Filled(w, next) && SpecIDsAre(w.answer, false, i + 1)
        && Marks(w, before)
      modifies this, driver`batches, (set b | b in builders)`mutation, w.changes.Keys`id, w.changes.Keys`done
      modifies w.changes.Keys`changes, (set s | s in specs[..|next|])`id
      ensures var o, k := NextOutcome(w, i), i + 1;
        && err == o.err && trace == old(trace) + o.trace
        && Left(w, o, next, before, old(driver.batches))
        && specs[..k] == old(specs[..k]) && nodes[..k] == old(nodes[..k])
        && (forall j | k <= j < k + |o.received| :: fresh(specs[j]) && fresh(nodes[j]))
      decreases |builders| - i, Core(i), 0, 0
    {
      hide *;
      WiredCore(w, i);
      FilledSizes(w, next);
      NextUnfolds(w, i);
      if i < |mutators| - 1 {
        NextOwn(w, i + 1);
        err := Invoke(mutators[i + 1], builders[i + 1].mutation, w, 0, next, before);
      } else {
        trace := trace + [Insert];
        assert specs[..i + 1] == specs;
        err := InsertAll(w, next, before);
      }
    }

    lemma FilledSizes(w: World, received: seq<Received>)
      requires Filled(w, received)
      ensures |specs| == |nodes| == |builders|
    {
    }

    lemma LeftSizes(w: World, o: Outcome, base: seq<Received>, before: map<AccountMutation, (bool, Account?)>,
                    batches: seq<seq<SpecValue>>)
      requires before.Keys == w.changes.Keys && Left(w, o, base, before, batches)
      ensures |base| + |o.received| <= |nodes| == |specs| == |builders|
    {
    }

    lemma NextOwn(w: World, i: nat)
      requires i < |w.builders| == |builders| && Unspent(w, i)
      ensures builders[i].mutation == w.builders[i].mutation
    {
    }

    // On the way out: the mutation is marked done and points to the id of its node.
    method Commit(i: nat, m: AccountMutation, node: Account, err: Option<SaveError>, ghost w: World,
                  ghost base: seq<Received>, ghost got: Received, ghost inner: Outcome,
                  ghost before: map<AccountMutation, (bool, Account?)>,
                  ghost batches: seq<seq<SpecValue>>)
      requires before.Keys == w.changes.Keys && |base| == i && m in w.changes && got.mutation == m && err == inner.err
      requires Left(w, inner, base + [got], before, batches) && i < |nodes|
      requires nodes[i] == node && node.fields == NodeOf(got.changes)
      requires i + 1 + |inner.received| <= |nodes| && forall j | i < j < i + 1 + |inner.received| :: nodes[j] != node
      modifies m`id, m`done, node`fields
      ensures Left(w, CoreOutcome(i, got, inner), base, before, batches)
    {
      hide *;
      ghost var outer := CoreOutcome(i, got, inner);
      ghost var marks := map x | x in w.changes.Keys :: (x.done, x.id);
      CoreShape(i, got, inner);
      assert |base + [got]| == i + 1;
      LeftParts(w, inner, base + [got], before, batches);
      assert base + [got] + inner.received == base + outer.received;
      assert specs[i] != null && specs[i].id == SpecID(w.answer, inner.inserted, i) by {
        IDAt(w.answer, inner.inserted, i + 1 + |inner.received|, i);
      }
      if err.None? {
        Mark(i, m, node, specs[i].id, w, got, inner, before);
      } else {
        Unmarked(i, m, node, w, got, inner, before);
      }
      LeftWhole(w, outer, base, before, batches);
    }

    method Mark(i: nat, m: AccountMutation, node: Account, id: Option<int>, ghost w: World, ghost got: Received,
        ghost inner: Outcome,
                ghost before: map<AccountMutation, (bool, Account?)>)
      requires before.Keys == w.changes.Keys && m in w.changes && got.mutation == m && inner.err.None?
        && id == SpecID(w.answer, inner.inserted, i)
      requires CommitsInRange(inner, i + 1) && NodesAre(w, inner, i + 1) && Committed(w, inner, i + 1, before)
      requires i < |nodes| && nodes[i] == node && node.fields == NodeOf(got.changes)
      requires forall j | i < j < i + 1 + |inner.received| :: nodes[j] != node
      modifies m`id, m`done, node`fields
      ensures var outer := CoreOutcome(i, got, inner);
        CommitsInRange(outer, i) && NodesAre(w, outer, i) && Committed(w, outer, i, before)
    {
      hide NodeOf, SpecID, LastOf, LastCommit, CoreOutcome;
      CoreShape(i, got, inner);
      m.id := node;
      if id.Some? {
        node.fields := node.fields.(ints := node.fields.ints.(id := id.value));
      }
      m.done := true;
      CommitsGrow(i, got, inner);
      ghost var outer := CoreOutcome(i, got, inner);
      forall x | x in w.changes.Keys ensures
          LastCommit(outer, i, x) == if x == m then Some(i) else LastCommit(inner, i + 1, x) {
        LastGrows(i, got, inner, x);
      }
      assert NodeIs(w, outer, i, i);
      forall j: nat | i < j < i + |outer.received| ensures NodeIs(w, outer, i, j) {
        assert old(NodeIs(w, inner, i + 1, j)) && nodes[j] != node;
        assert outer.received[j - i] == inner.received[j - (i + 1)];
      }
      assert NodesAre(w, outer, i);
    }

    lemma Unmarked(i: nat, m: AccountMutation, node: Account, w: World, got: Received, inner: Outcome,
                   before: map<AccountMutation, (bool, Account?)>)
      requires before.Keys == w.changes.Keys && m in w.changes && got.mutation == m && inner.err.Some?
      requires CommitsInRange(inner, i + 1) && NodesAre(w, inner, i + 1) && Committed(w, inner, i + 1, before)
      requires i < |nodes| && nodes[i] == node && node.fields == NodeOf(got.changes)
      ensures var outer := CoreOutcome(i, got, inner);
        CommitsInRange(outer, i) && NodesAre(w, outer, i) && Committed(w, outer, i, before)
    {
      hide NodeOf, SpecID, LastOf, LastCommit;
      CommitsGrow(i, got, inner);
      var outer := CoreOutcome(i, got, inner);
      forall x | x in w.changes.Keys ensures LastCommit(outer, i, x) == LastCommit(inner, i + 1, x) {
        LastGrows(i, got, inner, x);
      }
      forall j: nat | i <= j < i + |outer.received| ensures NodeIs(w, outer, i, j) {
        if j > i {
          assert NodeIs(w, inner, i + 1, j);
        }
      }
    }

    lemma IDAt(answer: Answer, inserted: bool, count: nat, i: nat)
      requires SpecIDsAre(answer, inserted, count) && i < count
      ensures count <= |specs| && specs[i] != null && specs[i].id == SpecID(answer, inserted, i)
    {
    }

    lemma LeftParts(w: World, o: Outcome, base: seq<Received>, before: map<AccountMutation, (bool, Account?)>,
                    batches: seq<seq<SpecValue>>)
      requires before.Keys == w.changes.Keys && Left(w, o, base, before, batches)
      ensures CommitsInRange(o, |base|) && Filled(w, base + o.received)
      ensures SpecIDsAre(w.answer, o.inserted, |base| + |o.received|) && NodesAre(w, o, |base|)
      ensures |base + o.received| <= |builders|
      ensures driver.batches == batches + (if o.inserted then [BatchOf(base + o.received)] else [])
      ensures Committed(w, o, |base|, before)
    {
    }

    lemma LeftWhole(w: World, o: Outcome, base: seq<Received>, before: map<AccountMutation, (bool, Account?)>,
                    batches: seq<seq<SpecValue>>)
      requires before.Keys == w.changes.Keys && CommitsInRange(o, |base|) && Filled(w, base + o.received)
      requires SpecIDsAre(w.answer, o.inserted, |base| + |o.received|) && NodesAre(w, o, |base|)
      requires |base + o.received| <= |builders|
      requires driver.batches == batches + (if o.inserted then [BatchOf(base + o.received)] else [])
      requires Committed(w, o, |base|, before)
      ensures Left(w, o, base, before, batches)
    {
    }

    lemma WiredCore(w: World, i: nat)
      requires Wired(w) && i < |builders|
      ensures Known(w) && |w.builders| == |builders| == |mutators| && w.answer == driver.answer
      ensures w.builders[i].hooks == builders[i].hooks && w.builders[i].runtime == builders[i].runtime
      ensures w.builders[i].mutation in w.changes
      ensures i + 1 < |builders| ==>
        && mutators[i + 1] == Chain(i + 1, builders[i + 1].hooks, 0) && w.builders[i + 1].hooks == builders[i + 1].hooks
        && w.builders[i + 1].mutation in w.changes
      ensures forall j | i < j < |builders| :: builders[j] != builders[i]
    {
    }

    lemma OwnChanges(w: World, i: nat)
      requires Known(w) && i < |w.builders| == |builders| && Unspent(w, i) && ChangesAre(w)
      ensures builders[i].mutation == w.builders[i].mutation
      ensures builders[i].mutation.changes == w.changes[w.builders[i].mutation]
    {
    }

    // The builder takes the mutation it was handed, and fills its slots from it.
    method Fill(i: nat, m: AccountMutation, ghost w: World, ghost base: seq<Received>)
      requires Wired(w) && |base| == i < |builders| && m in w.changes
      requires Unspent(w, i) && ChangesAre(w) && Filled(w, base) && SpecIDsAre(w.answer, false, i)
      modifies this`specs, this`nodes, (set b | b in builders)`mutation
      ensures Unspent(w, i + 1) && Filled(w, base + [Received(m, w.changes[m])]) && SpecIDsAre(w.answer, false, i + 1)
      ensures specs[..i] == old(specs[..i]) && nodes[..i] == old(nodes[..i])
      ensures fresh(specs[i]) && fresh(nodes[i]) && nodes[i].fields == NodeOf(w.changes[m])
    {
      hide FieldsFor, EdgesFor, NodeOf;
      var builder := builders[i];
      builder.mutation := m;
      var node, spec := m.CreateSpec(builder.runtime);
      nodes, specs := nodes[i := node], specs[i := spec];
    }

    method InsertAll(ghost w: World, ghost received: seq<Received>,
                   ghost before: map<AccountMutation, (bool, Account?)>)
      returns (err: Option<SaveError>)
      requires w.answer == driver.answer && Filled(w, received) && |received| == |builders| && Marks(w, before)
      requires SpecIDsAre(w.answer, false, |received|)
      modifies driver`batches, (set s | s in specs)`id
      ensures err == InsertOutcome(w.answer).err
      ensures Left(w, InsertOutcome(w.answer), received, before, old(driver.batches))
    {
      hide SlotHolds, SpecValues, BatchOf, Filled, Marks;
      ghost var o := InsertOutcome(w.answer);
      assert received + [] == received;
      FilledSizes(w, received);
      SlotsAreBatch(w, received);
      MarkedKeys(w, before);
      err := driver.BatchCreate(specs);
      Uncommitted(w, o, |received|, before);
      assert SpecIDsAre(w.answer, true, |received|);
      LeftWhole(w, o, received, before, old(driver.batches));
    }

    lemma Uncommitted(w: World, o: Outcome, i: nat, before: map<AccountMutation, (bool, Account?)>)
      requires o.received == [] && o.commits == [] && i <= |nodes| && Marks(w, before)
      ensures CommitsInRange(o, i) && NodesAre(w, o, i) && before.Keys == w.changes.Keys && Committed(w, o, i, before)
    {
    }

    // The batch handed to the driver is the one the received mutations make.
    lemma SlotsAreBatch(w: World, received: seq<Received>)
      requires Filled(w, received) && |received| == |builders|
      ensures AllFilled(specs)
      ensures SpecValues(specs) == BatchOf(received)
      ensures forall i, j | 0 <= i < j < |specs| :: specs[i] != specs[j]
    {
      forall j | 0 <= j < |specs|
        ensures specs[j] != null && specs[j].fields == BatchOf(received)[j].0
          && specs[j].edges == BatchOf(received)[j].1
      {
        assert SlotHolds(j, received[j].changes);
      }
    }
  }

  // What a core that passed its check calls on to.
  ghost function NextOutcome(w: World, i: nat): Outcome
    requires Known(w) && i < |w.builders|
  {
    if i + 1 < |w.builders| then Run(w, i + 1, 0, w.builders[i + 1].mutation) else InsertOutcome(w.answer)
  }

  lemma CoreShape(i: nat, got: Received, inner: Outcome)
    ensures var outer := CoreOutcome(i, got, inner);
      && outer.received == [got] + inner.received && outer.inserted == inner.inserted && outer.err == inner.err
      && outer.trace == inner.trace
      && outer.commits == if inner.err.None? then inner.commits + [i] else inner.commits
    ensures CommitsInRange(inner, i + 1) ==> CommitsInRange(CoreOutcome(i, got, inner), i)
  {
  }

  lemma {:induction false} LastShifts(commits: seq<nat>, got: Received, received: seq<Received>, i: nat,
      x: AccountMutation)
    requires forall j | 0 <= j < |commits| :: i + 1 <= commits[j] < i + 1 + |received|
    ensures LastOf(commits, [got] + received, i, x) == LastOf(commits, received, i + 1, x)
  {
    if commits != [] {
      LastShifts(commits[..|commits| - 1], got, received, i, x);
    }
  }

  lemma CommitsGrow(i: nat, got: Received, inner: Outcome)
    requires CommitsInRange(inner, i + 1)
    ensures var outer := CoreOutcome(i, got, inner);
      && CommitsInRange(outer, i)
      && (forall j | i < j < i + 1 + |inner.received| ::
            (j in outer.commits <==> j in inner.commits) && outer.received[j - i] == inner.received[j - (i + 1)])
      && (i in outer.commits <==> inner.err.None?)
  {
  }

  // A core that commits is the last to do so.
  lemma LastGrows(i: nat, got: Received, inner: Outcome, x: AccountMutation)
    requires CommitsInRange(inner, i + 1) && CommitsInRange(CoreOutcome(i, got, inner), i)
    ensures LastCommit(CoreOutcome(i, got, inner), i, x)
         == if inner.err.None? && x == got.mutation then Some(i) else LastCommit(inner, i + 1, x)
  {
    LastShifts(inner.commits, got, inner.received, i, x);
    if inner.err.None? {
      var commits := inner.commits + [i];
      assert commits[..|commits| - 1] == inner.commits;
    }
  }

  lemma CoreUnfolds(w: World, i: nat, m: AccountMutation)
    requires Known(w) && i < |w.builders| && m in w.changes
    ensures var refused := Checked(w.builders[i].runtime, w.changes[w.builders[i].mutation]);
      Run(w, i, |w.builders[i].hooks|, m)
        == if refused.Some? then Outcome(Some(CheckFailure(i, refused.value)), [Refused(i)], [], false, [])
           else CoreOutcome(i, Received(m, w.changes[m]), NextOutcome(w, i))
  {
  }

  lemma NextUnfolds(w: World, i: nat)
    requires Known(w) && i < |w.builders|
    ensures InsertOutcome(w.answer).trace == [Insert] && InsertOutcome(w.answer).received == []
    ensures NextOutcome(w, i)
         == if i + 1 < |w.builders| then Run(w, i + 1, 0, w.builders[i + 1].mutation) else InsertOutcome(w.answer)
  {
  }

  // A hook's step of a run, and what it wraps.
  ghost function Stopped(w: World, i: nat, h: nat): (o: Outcome)
    requires i < |w.builders| && h < |w.builders[i].hooks|
    ensures o.trace == [] && o.received == [] && !o.inserted && o.commits == []
    ensures o.err == if w.builders[i].hooks[h].Reject? then Some(Rejected(i, h)) else None
  {
    Outcome(if w.builders[i].hooks[h].Reject? then Some(Rejected(i, h)) else None, [], [], false, [])
  }

  lemma MarkedKeys(w: World, before: map<AccountMutation, (bool, Account?)>)
    requires Marks(w, before)
    ensures before.Keys == w.changes.Keys
  {
  }

  lemma ChainUnfolds(i: nat, hooks: seq<Hook>, h: nat)
    requires h <= |hooks|
    ensures Chain(i, hooks, h) == if h == |hooks| then Core(i) else Wrapped(i, h, hooks[h], Chain(i, hooks, h + 1))
  {
  }

  lemma RunUnfolds(w: World, i: nat, h: nat, m: AccountMutation)
    requires Known(w) && i < |w.builders| && h < |w.builders[i].hooks| && m in w.changes
    ensures var hook := w.builders[i].hooks[h];
      && PassedOn(hook, m) in w.changes
      && Run(w, i, h, m) == HookOutcome(i, h, hook,
           if hook.Reject? || hook.Swallow? then Stopped(w, i, h)
           else Run(Edited(w, hook, m), i, h + 1, PassedOn(hook, m)))
  {
  }

  lemma {:induction false} OwnAt(w: World, i: nat, h: nat, j: nat)
    requires Known(w) && i <= j < |w.builders| && h <= |w.builders[i].hooks|
    ensures var all := BulkGuarantees.OwnReceived(w, i, h);
      |all| == |w.builders| - i && all[j - i] == Received(w.builders[j].mutation, BulkGuarantees.Held(w, i, h, j))
    decreases j - i, |w.builders| - i
  {
    if j > i {
      OwnAt(w, i + 1, 0, j);
    } else if i + 1 < |w.builders| {
      OwnAt(w, i + 1, 0, i + 1);
    }
  }

  // If all builders commit, in reverse, each mutation is last committed by its own builder.
  lemma {:induction false} LastOfAll(k: nat, received: seq<Received>, i: nat)
    requires k <= i < |received|
    requires forall a, b | 0 <= a < b < |received| :: received[a].mutation != received[b].mutation
    ensures var commits := BulkGuarantees.CountDown(k, |received|);
      && (forall j | 0 <= j < |commits| :: 0 <= commits[j] < |received|)
      && LastOf(commits, received, 0, received[i].mutation) == Some(i)
    decreases |received| - k
  {
    var commits := BulkGuarantees.CountDown(k, |received|);
    BulkGuarantees.CountDownExact(k, |received|);
    forall j | 0 <= j < |commits| ensures 0 <= commits[j] < |received| {
      assert commits[j] in commits;
    }
    assert commits[|commits| - 1] == k && commits[..|commits| - 1] == BulkGuarantees.CountDown(k + 1, |received|);
    if k < i {
      LastOfAll(k + 1, received, i);
    }
  }

  lemma NothingCommitted(o: Outcome)
    requires o.commits == []
    ensures CommitsInRange(o, 0) && forall x :: LastCommit(o, 0, x) == None
  {
  }

  // How a forwarding run ends, builder by builder.
  lemma ForwardOutcome(w: World)
    requires Known(w) && BulkGuarantees.AllForward(w) && BulkGuarantees.OwnMutations(w) && w.builders != []
    ensures var o := WholeRun(w);
      && (o.err.Some? ==> o.commits == [])
      && (o.err.None? ==>
            && o.inserted && w.answer.Stores? && |o.received| == |w.builders|
            && o.commits == BulkGuarantees.CountDown(0, |w.builders|)
            && forall i: nat | i < |w.builders| ::
                 o.received[i] == Received(w.builders[i].mutation, BulkGuarantees.Held(w, 0, 0, i)))
  {
    var o := WholeRun(w);
    BulkGuarantees.ForwardRun(w, 0, 0);
    hide Run, BulkGuarantees.Entries, BulkGuarantees.Mirror, BulkGuarantees.AllForward, BulkGuarantees.Held;
    hide BulkGuarantees.OwnReceived, BulkGuarantees.FirstRefused, Checked;
    if o.err.None? {
      OwnAt(w, 0, 0, 0);
      assert o.received == BulkGuarantees.OwnReceived(w, 0, 0);
      forall i: nat | i < |w.builders|
        ensures o.received[i] == Received(w.builders[i].mutation, BulkGuarantees.Held(w, 0, 0, i))
      {
        OwnAt(w, 0, 0, i);
      }
    }
  }

  lemma ForwardCommit(w: World, i: nat)
    requires Known(w) && BulkGuarantees.AllForward(w) && BulkGuarantees.OwnMutations(w)
    requires i < |w.builders| && WholeRun(w).err.None?
    ensures var o := WholeRun(w);
      CommitsInRange(o, 0) && i in o.commits && LastCommit(o, 0, w.builders[i].mutation) == Some(i)
  {
    hide WholeRun, BulkGuarantees.AllForward, BulkGuarantees.CountDown, BulkGuarantees.Held, LastOf;
    ForwardOutcome(w);
    LastOfAll(0, WholeRun(w).received, i);
    BulkGuarantees.CountDownExact(0, |w.builders|);
  }

  ghost predicate Marks(w: World, before: map<AccountMutation, (bool, Account?)>)
    reads w.changes.Keys`done, w.changes.Keys`id
  {
    before.Keys == w.changes.Keys && forall x | x in w.changes.Keys :: before[x] == (x.done, x.id)
  }

  ghost predicate ChangesAre(w: World)
    reads w.changes.Keys`changes
  {
    forall x | x in w.changes.Keys :: x.changes == w.changes[x]
  }

  // `mutations` are all mutations that the builders have or that a hook may hand in.
  ghost predicate Closed(builders: seq<AccountCreate>, mutations: set<AccountMutation>)
    reads builders
  {
    && (forall i | 0 <= i < |builders| ::
          && builders[i].mutation in mutations
          && (forall h | 0 <= h < |builders[i].hooks| ::
                builders[i].hooks[h].Swap? ==> builders[i].hooks[h].other in mutations))
    && (forall i, j | 0 <= i < j < |builders| ::
          builders[i] != builders[j] && builders[i].mutation != builders[j].mutation)
  }

  class AccountCreateBulk {
    const err: Option<string>
    const builders: seq<AccountCreate>
    const driver: BatchDriver

    constructor (err: Option<string>, builders: seq<AccountCreate>, driver: BatchDriver)
      ensures this.err == err && this.builders == builders && this.driver == driver
    {
      this.err, this.builders, this.driver := err, builders, driver;
    }

    // The loop over the builders: defaults, whose error is dropped, then the hooks around the core.
    method BuildMutators(ghost mutations: set<AccountMutation>) returns (mutators: seq<Mutator>)
      requires Closed(builders, mutations)
      modifies mutations`changes
      ensures |mutators| == |builders| && forall i | 0 <= i < |builders| ::
        mutators[i] == Chain(i, builders[i].hooks, 0)
      ensures forall i | 0 <= i < |builders| ::
        builders[i].mutation.changes == Defaulted(builders[i].runtime, old(builders[i].mutation.changes)).0
      ensures forall x | x in mutations && (forall i | 0 <= i < |builders| :: builders[i].mutation != x) ::
        x.changes == old(x.changes)
    {
      hide Defaulted;
      mutators := [];
      for i := 0 to |builders|
        modifies mutations`changes
        invariant |mutators| == i && forall j | 0 <= j < i :: mutators[j] == Chain(j, builders[j].hooks, 0)
        invariant forall j | 0 <= j < i ::
          builders[j].mutation.changes == Defaulted(builders[j].runtime, old(builders[j].mutation.changes)).0
        invariant forall j | i <= j < |builders| :: builders[j].mutation.changes == old(builders[j].mutation.changes)
        invariant forall x | x in mutations && (forall j | 0 <= j < |builders| :: builders[j].mutation != x) ::
          x.changes == old(x.changes)
      {
        var builder := builders[i];
        var dropped := builder.mutation.Defaults(builder.runtime);
        var mut := Core(i);
        for h := |builder.hooks| downto 0
          modifies {}
          invariant mut == Chain(i, builder.hooks, h)
        {
          mut := Wrapped(i, h, builder.hooks[h], mut);
        }
        mutators := mutators + [mut];
      }
    }

    lemma Connected(shared: Chains, mutations: set<AccountMutation>, w: World,
                    before: map<AccountMutation, (bool, Account?)>)
      requires Closed(builders, mutations) && shared.builders == builders && shared.driver == driver
      requires |shared.mutators| == |builders| == |shared.specs| == |shared.nodes|
      requires forall i | 0 <= i < |builders| :: shared.mutators[i] == Chain(i, builders[i].hooks, 0)
      requires |w.builders| == |builders| && w.answer == driver.answer && w.changes.Keys == mutations == before.Keys
      requires forall i | 0 <= i < |builders| ::
        w.builders[i] == Builder(builders[i].mutation, builders[i].hooks, builders[i].runtime)
      requires forall x | x in mutations :: w.changes[x] == x.changes && before[x] == (x.done, x.id)
      ensures shared.Wired(w) && shared.Unspent(w, 0) && ChangesAre(w) && Marks(w, before)
      ensures shared.Filled(w, []) && shared.SpecIDsAre(w.answer, false, 0)
    {
    }

    // Entering the first chain, once all of them are built.
    method Start(mutators: seq<Mutator>, ghost mutations: set<AccountMutation>,
                   ghost before: map<AccountMutation, (bool, Account?)>)
      returns (nodes: seq<Account?>, failed: Option<SaveError>, ghost w: World, ghost chains: Chains)
      requires Closed(builders, mutations) && builders != []
      requires |mutators| == |builders| && forall i | 0 <= i < |builders| ::
        mutators[i] == Chain(i, builders[i].hooks, 0)
      requires before.Keys == mutations && forall x | x in mutations :: before[x] == (x.done, x.id)
      modifies driver`batches, (set b | b in builders)`mutation, mutations`id, mutations`done, mutations`changes
      ensures |w.builders| == |builders| && w.changes.Keys == mutations && w.answer == driver.answer && Known(w)
      ensures forall i | 0 <= i < |builders| ::
        w.builders[i] == Builder(old(builders[i].mutation), builders[i].hooks, builders[i].runtime)
      ensures forall x | x in mutations :: w.changes[x] == old(x.changes)
      ensures chains.driver == driver && chains.builders == builders
      ensures var o := WholeRun(w);
        && failed == o.err && chains.trace == o.trace
        && chains.Left(w, o, [], before, old(driver.batches))
        && nodes == if failed.None? then chains.nodes else []
    {
      hide Chains.Left, Chains.Filled, Chains.SpecIDsAre, Chains.Wired, Chains.Unspent, ChangesAre, Marks, Run;
      var shared := new Chains(builders, driver, mutators);
      w := World(seq(|builders|, i requires 0 <= i < |builders| reads builders =>
                       Builder(builders[i].mutation, builders[i].hooks, builders[i].runtime)),
                 map x | x in mutations :: x.changes, driver.answer);
      chains := shared;
      Connected(shared, mutations, w, before);
      failed := shared.Invoke(mutators[0], builders[0].mutation, w, 0, [], before);
      nodes := if failed.None? then shared.nodes else [];
    }

    // The saved nodes are returned only if no error is. A slot that no core filled stays null.
    method Save(ghost mutations: set<AccountMutation>)
      returns (nodes: seq<Account?>, failed: Option<SaveError>, ghost w: World, ghost chains: Chains?,
               ghost before: map<AccountMutation, (bool, Account?)>)
      requires Closed(builders, mutations)
      modifies driver`batches, (set b | b in builders)`mutation, mutations
      ensures err.Some? ==> failed == Some(Unusable(err.value)) && driver.batches == old(driver.batches)
      ensures err.None? && builders == [] ==> failed.None? && nodes == [] && driver.batches == old(driver.batches)
      ensures err.None? && builders != [] ==>
        && |w.builders| == |builders| && w.changes.Keys == mutations && w.answer == driver.answer && Known(w)
        && (forall i | 0 <= i < |builders| ::
              && w.builders[i] == Builder(old(builders[i].mutation), builders[i].hooks, builders[i].runtime)
              && w.changes[old(builders[i].mutation)]
                == Defaulted(builders[i].runtime, old(builders[i].mutation.changes)).0)
        && (forall x | x in mutations && (forall i | 0 <= i < |builders| :: old(builders[i].mutation) != x) ::
              w.changes[x] == old(x.changes))
        && before.Keys == mutations && (forall x | x in mutations :: before[x] == old((x.done, x.id)))
        && chains != null && chains.driver == driver && chains.builders == builders
        && var o := WholeRun(w);
           && failed == o.err && chains.trace == o.trace
           && chains.Left(w, o, [], before, old(driver.batches))
           && nodes == if failed.None? then chains.nodes else []
    {
      hide Chains.Left, WholeRun, Defaulted;
      chains, before := null, map x | x in mutations :: (x.done, x.id);
      w := World([], map[], driver.answer);
      if err.Some? {
        return [], Some(Unusable(err.value)), w, chains, before;
      }
      var mutators := BuildMutators(mutations);
      if |mutators| == 0 {
        return [], None, w, chains, before;
      }
      nodes, failed, w, chains := Start(mutators, mutations, before);
    }
  }
}
