// state_machine.py and commit.py: applying committed entries to the store in order.

module StateMachines {
  import opened Prelude
  import opened Types
  import opened History
  import opened RaftLogs
  import opened RaftStates
  import opened Stores

  function Apply(store: Store, c: Command): Store {
    if c.operation == "PUT" && c.value.Some? then store[c.key := c.value.value]
    else if c.operation == "DELETE" then store - {c.key}
    else store
  }

  // The store after a log has been applied from the start.
  function Fold(store: Store, log: seq<LogEntry>): Store {
    if log == [] then store else Apply(Fold(store, log[..|log| - 1]), log[|log| - 1].command)
  }

  lemma {:induction false} FoldSplits(store: Store, a: seq<LogEntry>, b: seq<LogEntry>)
    ensures Fold(store, a + b) == Fold(Fold(store, a), b)
  {
    if b == [] {
      assert a + b == a;
    } else {
      assert (a + b)[..|a + b| - 1] == a + b[..|b| - 1];
      FoldSplits(store, a, b[..|b| - 1]);
    }
  }

  // The last command of a log on a key.
  function LastOn(log: seq<LogEntry>, key: string): Option<Command> {
    if log == [] then None
    else if log[|log| - 1].command.key == key then Some(log[|log| - 1].command)
    else LastOn(log[..|log| - 1], key)
  }

  // The last write to a key wins: a PUT leaves its value, a DELETE nothing, and a key that no
  // command names is as it was.
  lemma {:induction false} LastWriteWins(store: Store, log: seq<LogEntry>, key: string)
    requires forall i :: 0 <= i < |log| ==> Applicable(log[i].command)
    ensures match LastOn(log, key)
      case None => (key in Fold(store, log) <==> key in store) && (key in store ==> Fold(store, log)[key] == store[key])
      case Some(c) =>
        && (key in Fold(store, log) <==> c.operation == "PUT")
        && (c.operation == "PUT" ==> c.value == Some(Fold(store, log)[key]))
  {
    if log != [] {
      assert Applicable(log[|log| - 1].command);
      LastWriteWins(store, log[..|log| - 1], key);
    }
  }

  datatype Applied = Applied(state: StateView, store: Store)

  // apply_committed_entries: None when an entry is missing or its command cannot be applied.
  function ApplyCommitted(state: StateView, log: LogView, store: Store): (r: Option<Applied>)
    requires log.WellFormed()
    ensures r.Some? ==> r.value.state == state.(lastApplied := r.value.state.lastApplied)
    decreases state.commitIndex - state.lastApplied
  {
    if state.lastApplied >= state.commitIndex then Some(Applied(state, store))
    else
      match log.Get(state.lastApplied + 1)
      case None => None
      case Some(e) =>
        if Applicable(e.command) then
          ApplyCommitted(state.(lastApplied := state.lastApplied + 1), log, Apply(store, e.command))
        else None
  }

  // Entry i is there and can be applied.
  predicate Ready(log: LogView, i: int)
    requires log.WellFormed()
  {
    log.Get(i).Some? && Applicable(log.Get(i).value.command)
  }

  // What the loop has done by the time it stops, at the commit index or at the first entry that
  // is missing or cannot be applied.
  function AppliedUntil(state: StateView, log: LogView, store: Store): Applied
    requires log.WellFormed()
    decreases state.commitIndex - state.lastApplied
  {
    if state.lastApplied >= state.commitIndex || !Ready(log, state.lastApplied + 1) then Applied(state, store)
    else
      AppliedUntil(state.(lastApplied := state.lastApplied + 1), log,
                   Apply(store, log.Get(state.lastApplied + 1).value.command))
  }

  // It gets to the commit index exactly when every entry up to there is ready.
  lemma {:induction false} AppliesExactly(state: StateView, log: LogView, store: Store)
    requires log.WellFormed()
    ensures ApplyCommitted(state, log, store).Some?
       <==> forall i :: state.lastApplied < i <= state.commitIndex ==> Ready(log, i)
    ensures ApplyCommitted(state, log, store).Some? ==>
              ApplyCommitted(state, log, store) == Some(AppliedUntil(state, log, store))
    ensures var last := AppliedUntil(state, log, store).state.lastApplied;
      && state.lastApplied <= last && (state.lastApplied <= state.commitIndex ==> last <= state.commitIndex)
      && (last < state.commitIndex ==> !Ready(log, last + 1))
      && (forall i :: state.lastApplied < i <= last ==> Ready(log, i))
    decreases state.commitIndex - state.lastApplied
  {
    if state.lastApplied < state.commitIndex && Ready(log, state.lastApplied + 1) {
      AppliesExactly(state.(lastApplied := state.lastApplied + 1), log,
                     Apply(store, log.Get(state.lastApplied + 1).value.command));
    }
  }

  // update_follower_commit
  function FollowerCommit(state: StateView, log: LogView, store: Store, leaderCommit: int): (r: Option<Applied>)
    requires log.WellFormed()
    ensures r.Some? ==> r.value.state.nodeId == state.nodeId && r.value.state.role == state.role
    ensures r.Some? ==> r.value.state.currentTerm == state.currentTerm
  {
    if leaderCommit <= state.commitIndex then Some(Applied(state, store))
    else
      var commit := if leaderCommit <= log.LastIndex() then leaderCommit else log.LastIndex();
      ApplyCommitted(state.(commitIndex := commit), log, store)
  }

  // The follower's commit index becomes the smaller of the leader's and its own last index, and
  // never goes back.
  lemma FollowerCommitIs(state: StateView, log: LogView, store: Store, full: seq<LogEntry>, leaderCommit: int)
    requires WellNumbered(full) && Represents(log, full) && log.WellFormed()
    requires log.baseIndex <= state.lastApplied <= state.commitIndex <= |full|
    requires store == Fold(map[], full[..state.lastApplied])
    ensures var commit := if leaderCommit <= state.commitIndex then state.commitIndex
                          else if leaderCommit <= |full| then leaderCommit else |full|;
      var a := FollowerCommit(state, log, store, leaderCommit);
      && a.Some? && a.value.state.commitIndex == commit
      && (leaderCommit <= state.commitIndex ==> a == Some(Applied(state, store)))
      && (leaderCommit > state.commitIndex ==>
            a == Some(Applied(state.(commitIndex := commit, lastApplied := commit), Fold(map[], full[..commit]))))
  {
    RepresentedForm(log, full);
    if leaderCommit > state.commitIndex {
      AppliesFold(state.(commitIndex := if leaderCommit <= |full| then leaderCommit else |full|), log, store, full);
    }
  }

  // Applying from a correct store leaves the fold of the full log up to the commit index.
  lemma {:induction false} AppliesFold(state: StateView, log: LogView, store: Store, full: seq<LogEntry>)
    requires WellNumbered(full) && Represents(log, full) && log.WellFormed()
    requires log.baseIndex <= state.lastApplied <= state.commitIndex <= |full|
    requires store == Fold(map[], full[..state.lastApplied])
    ensures ApplyCommitted(state, log, store)
         == Some(Applied(state.(lastApplied := state.commitIndex), Fold(map[], full[..state.commitIndex])))
    decreases state.commitIndex - state.lastApplied
  {
    if state.lastApplied < state.commitIndex {
      RepresentedReads(log, full);
      var next := state.lastApplied + 1;
      var e := full[next - 1];
      assert full[..next][..next - 1] == full[..next - 1];
      AppliesFold(state.(lastApplied := next), log, Apply(store, e.command), full);
    }
  }

  // ValueError for an unknown operation or a PUT without a value.
  method ApplyCommand(store: KVStore, command: Command) returns (ok: bool)
    modifies store
    ensures ok <==> Applicable(command)
    ensures store.data == if ok then Apply(old(store.data), command) else old(store.data)
  {
    if command.operation == "PUT" {
      if command.value == None {
        return false;
      }
      store.Put(command.key, command.value.value);
    } else if command.operation == "DELETE" {
      var _ := store.Delete(command.key);
    } else {
      return false;
    }
    return true;
  }

  method ApplyCommittedEntries(state: RaftState, log: RaftLog, store: KVStore) returns (ok: bool)
    requires log.View().WellFormed()
    modifies state`lastApplied, store
    ensures ok <==> ApplyCommitted(old(state.View()), log.View(), old(store.data)).Some?
    ensures ok ==>
              ApplyCommitted(old(state.View()), log.View(), old(store.data)) == Some(Applied(state.View(), store.data))
    ensures Applied(state.View(), store.data) == AppliedUntil(old(state.View()), log.View(), old(store.data))
  {
    while state.lastApplied < state.commitIndex
      invariant ApplyCommitted(state.View(), log.View(), store.data)
             == ApplyCommitted(old(state.View()), log.View(), old(store.data))
      invariant AppliedUntil(state.View(), log.View(), store.data)
             == AppliedUntil(old(state.View()), log.View(), old(store.data))
      decreases state.commitIndex - state.lastApplied
    {
      var next := state.lastApplied + 1;
      var entry := log.View().Get(next);
      if entry == None {
        return false;
      }
      var applied := ApplyCommand(store, entry.value.command);
      if !applied {
        return false;
      }
      state.lastApplied := next;
    }
    return true;
  }

  method UpdateFollowerCommit(state: RaftState, log: RaftLog, store: KVStore, leaderCommit: int) returns (ok: bool)
    requires log.View().WellFormed()
    modifies state`lastApplied, state`commitIndex, store
    ensures ok <==> FollowerCommit(old(state.View()), log.View(), old(store.data), leaderCommit).Some?
    ensures ok ==> FollowerCommit(old(state.View()), log.View(), old(store.data), leaderCommit)
                   == Some(Applied(state.View(), store.data))
  {
    if leaderCommit <= state.commitIndex {
      return true;
    }
    state.commitIndex := if leaderCommit <= log.View().LastIndex() then leaderCommit else log.View().LastIndex();
    ok := ApplyCommittedEntries(state, log, store);
  }
}
