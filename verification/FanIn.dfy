/** Fan-in of a worktree into its parent checkout: every destination is checked first, the changes are applied one by one
    with a recovery copy of each, and any failure rolls back what was applied. Equal digests stand for equal content. */
module FanIn {
  import opened Sequences

  datatype Option<+T> = None | Some(value: T)

  /** A path below the root, by component; directories have paths too. */
  type Name = seq<string>

  /** A regular file or a symbolic link. */
  datatype Entry = Entry(mode: string, content: string)

  datatype Tree = Tree(files: map<Name, Entry>, dirs: set<Name>)

  datatype Record = Record(state: Option<Entry>, wip: bool)

  datatype Op = Op(name: Name, before: Option<Entry>, after: Option<Entry>)

  function StateOf(files: map<Name, Entry>, n: Name): Option<Entry> {
    if n in files then Some(files[n]) else None
  }

  function Put(files: map<Name, Entry>, n: Name, e: Option<Entry>): map<Name, Entry> {
    match e
    case None => files - {n}
    case Some(x) => files[n := x]
  }

  predicate SafeName(n: Name) {
    n != [] && forall i :: 0 <= i < |n| ==> n[i] !in {"", ".", "..", ".git", ".codex-dispatch"}
  }

  /** checked(): a safe name none of whose parents is a file or a link. */
  predicate Checked(t: Tree, n: Name) {
    SafeName(n) && forall k :: 0 < k < |n| ==> n[..k] !in t.files
  }

  /** Parents exist, and nothing is both a file and a directory. */
  predicate WellFormed(t: Tree) {
    && (forall n, k :: n in t.files && 0 < k < |n| ==> n[..k] in t.dirs)
    && PrefixClosed(t.dirs)
    && t.files.Keys !! t.dirs && [] !in t.dirs && [] !in t.files
  }

  predicate EmptyDir(t: Tree, d: Name) {
    && (forall n :: n in t.files ==> n == [] || n[..|n| - 1] != d)
    && (forall n :: n in t.dirs ==> n == [] || n[..|n| - 1] != d)
  }

  /** The files after the first m operations. */
  function Stage(files: map<Name, Entry>, ops: seq<Op>, m: nat): map<Name, Entry>
    requires m <= |ops|
  {
    if m == 0 then files else Put(Stage(files, ops, m - 1), ops[m - 1].name, ops[m - 1].after)
  }

  /** What preflight established about the operations, on the tree as it was then. */
  predicate Planned(t: Tree, ops: seq<Op>) {
    && (forall i, j :: 0 <= i < j < |ops| ==> ops[i].name != ops[j].name)
    && forall i :: 0 <= i < |ops| ==> PlannedOp(t, ops[i])
  }

  predicate PlannedOp(t: Tree, op: Op) {
    Checked(t, op.name) && op.name !in t.dirs && op.before == StateOf(t.files, op.name)
  }

  lemma {:induction false} StageAt(files: map<Name, Entry>, ops: seq<Op>, m: nat, n: Name)
    requires m <= |ops| && forall i, j :: 0 <= i < j < |ops| ==> ops[i].name != ops[j].name
    ensures forall i :: 0 <= i < m && ops[i].name == n ==> StateOf(Stage(files, ops, m), n) == ops[i].after
    ensures (forall i :: 0 <= i < m ==> ops[i].name != n) ==> StateOf(Stage(files, ops, m), n) == StateOf(files, n)
  {
    if m > 0 { StageAt(files, ops, m - 1, n); }
  }

  /** Undoing the last operation gives the stage before it. */
  lemma UndoStage(t: Tree, ops: seq<Op>, m: nat)
    requires m < |ops| && Planned(t, ops)
    ensures Put(Stage(t.files, ops, m + 1), ops[m].name, ops[m].before) == Stage(t.files, ops, m)
    ensures StateOf(Stage(t.files, ops, m + 1), ops[m].name) == ops[m].after
    ensures StateOf(Stage(t.files, ops, m), ops[m].name) == ops[m].before
    ensures ops[m].before == ops[m].after ==> Stage(t.files, ops, m + 1) == Stage(t.files, ops, m)
  {
    var n := ops[m].name;
    assert PlannedOp(t, ops[m]);
    StageAt(t.files, ops, m, n);
    assert StateOf(Stage(t.files, ops, m), n) == ops[m].before;
  }

  // ---- The directories fan-in creates ----

  /** Created directories: new, parents first, and never a place where an operation so far wrote or will restore a file. */
  predicate CreatedOk(start: Tree, created: seq<Name>, ops: seq<Op>, m: nat) {
    && NoDuplicates(created)
    && forall j :: 0 <= j < |created| ==> CreatedAt(start, created, ops, m, j)
  }

  predicate CreatedAt(start: Tree, created: seq<Name>, ops: seq<Op>, m: nat, j: nat)
    requires j < |created|
  {
    var d := created[j];
    && d != [] && d !in start.dirs && d !in start.files
    && (|d| == 1 || d[..|d| - 1] in start.dirs || d[..|d| - 1] in created[..j])
    && forall i :: 0 <= i < |ops| && ops[i].name == d ==> ops[i].before.None? && (i < m ==> ops[i].after.None?)
  }

  predicate ParentsMade(ops: seq<Op>, m: nat, dirs: set<Name>)
    requires m <= |ops|
  {
    forall i :: 0 <= i < m ==> HasParents(ops[i].name, dirs)
  }

  predicate PrefixClosed(dirs: set<Name>) {
    forall d :: d in dirs ==> HasParents(d, dirs)
  }

  predicate HasParents(n: Name, dirs: set<Name>) {
    forall l :: 0 < l < |n| ==> n[..l] in dirs
  }

  function Elements(names: seq<Name>): set<Name> { set d | d in names }

  predicate DirsAre(start: Tree, created: seq<Name>, dirs: set<Name>) {
    dirs == start.dirs + Elements(created)
  }

  /** Where apply stands after m operations when nobody else writes. */
  predicate Applied(start: Tree, ops: seq<Op>, m: nat, t: Tree, created: seq<Name>) {
    && m <= |ops| && t.files == Stage(start.files, ops, m) && ParentsMade(ops, m, t.dirs) && PrefixClosed(t.dirs)
    && DirsAre(start, created, t.dirs) && CreatedOk(start, created, ops, m)
  }

  lemma CreateNext(start: Tree, ops: seq<Op>, m: nat, t: Tree, created: seq<Name>, k: nat)
    requires Applied(start, ops, m, t, created) && m < |ops| && Planned(start, ops) && Checked(t, ops[m].name)
    requires 0 < k < |ops[m].name| && ops[m].name[..k] !in t.dirs && (k == 1 || ops[m].name[..k - 1] in t.dirs)
    ensures Applied(start, ops, m, t.(dirs := t.dirs + {ops[m].name[..k]}), created + [ops[m].name[..k]])
  {
    var d := ops[m].name[..k];
    var longer := created + [d];
    assert PlannedOp(start, ops[m]) && d !in start.files && d !in t.files;
    forall i | 0 <= i < |ops| && ops[i].name == d ensures ops[i].before.None? && (i < m ==> ops[i].after.None?) {
      assert PlannedOp(start, ops[i]);
      StageAt(start.files, ops, m, d);
    }
    assert k > 1 ==> d[..|d| - 1] == ops[m].name[..k - 1];
    forall i | 0 <= i < m ensures HasParents(ops[i].name, t.dirs + {d}) { assert HasParents(ops[i].name, t.dirs); }
    PrefixClosedAdd(t.dirs, d);
    forall j | 0 <= j < |longer| ensures CreatedAt(start, longer, ops, m, j) {
      if j < |created| {
        assert CreatedAt(start, created, ops, m, j);
        assert longer[..j] == created[..j];
      } else {
        assert longer[..j] == created;
      }
    }
  }

  lemma PrefixClosedAdd(dirs: set<Name>, d: Name)
    requires PrefixClosed(dirs) && d != [] && (|d| == 1 || d[..|d| - 1] in dirs)
    ensures PrefixClosed(dirs + {d})
  {
    forall x | x in dirs + {d} ensures HasParents(x, dirs + {d}) {
      if x in dirs {
        assert HasParents(x, dirs);
      } else if |d| > 1 {
        var up := d[..|d| - 1];
        assert HasParents(up, dirs);
        forall l | 0 < l < |d| ensures d[..l] in dirs + {d} { assert l < |up| ==> up[..l] == d[..l]; }
      }
    }
  }

  lemma InstallNext(start: Tree, ops: seq<Op>, m: nat, t: Tree, created: seq<Name>)
    requires Applied(start, ops, m, t, created) && m < |ops| && ops[m].name !in t.dirs && HasParents(ops[m].name, t.dirs)
    ensures Applied(start, ops, m + 1, t.(files := Put(t.files, ops[m].name, ops[m].after)), created)
  {
    var next := m + 1;
    forall j | 0 <= j < |created| ensures CreatedAt(start, created, ops, next, j) {
      assert CreatedAt(start, created, ops, m, j);
      assert created[j] in t.dirs;
    }
  }

  /** The last created directory is empty again once the files are back. */
  lemma LastCreatedIsEmpty(start: Tree, ops: seq<Op>, m: nat, created: seq<Name>, k: nat)
    requires WellFormed(start) && CreatedOk(start, created, ops, m) && 0 < k <= |created|
    ensures EmptyDir(Tree(start.files, start.dirs + Elements(created[..k])), created[k - 1])
    ensures start.dirs + Elements(created[..k]) - {created[k - 1]} == start.dirs + Elements(created[..k - 1])
  {
    var d := created[k - 1];
    assert CreatedAt(start, created, ops, m, k - 1);
    assert created[..k] == created[..k - 1] + [d] && d !in created[..k - 1];
    var t := Tree(start.files, start.dirs + Elements(created[..k]));
    forall n | n in t.files ensures n == [] || n[..|n| - 1] != d {
      if |n| > 1 { assert n[..|n| - 1] in start.dirs; }
    }
    forall n | n in t.dirs ensures n == [] || n[..|n| - 1] != d {
      if n in start.dirs {
        if |n| > 1 { assert n[..|n| - 1] in start.dirs; }
      } else {
        var j :| 0 <= j < k && created[..k][j] == n;
        assert CreatedAt(start, created, ops, m, j) && created[j] == n;
      }
    }
  }

  // ---- Rolling back ----

  /** No file of any stage sits where a directory is, unless the operation there changes nothing. */
  lemma DirsHoldNoFile(start: Tree, ops: seq<Op>, m: nat, t: Tree, created: seq<Name>, k: nat, d: Name)
    requires WellFormed(start) && Planned(start, ops) && Applied(start, ops, m, t, created) && k <= m && d in t.dirs
    ensures d !in Stage(start.files, ops, k)
  {
    StageAt(start.files, ops, k, d);
    if d in start.dirs {
      forall i | 0 <= i < k ensures ops[i].name != d { assert PlannedOp(start, ops[i]); }
    } else {
      var j :| 0 <= j < |created| && created[j] == d;
      assert CreatedAt(start, created, ops, m, j);
    }
  }

  /** Where rollback stands before it looks at operation k - 1: that operation is in place, or already undone. */
  predicate Undoing(start: Tree, ops: seq<Op>, k: nat, files: map<Name, Entry>)
    requires k <= |ops|
  {
    files == Stage(start.files, ops, k) || (k > 0 && files == Stage(start.files, ops, k - 1))
  }

  /** With nobody else writing, the destination of an operation can be looked at, holds its before or after state, and
      restoring it gives the stage before. */
  lemma UndoOne(start: Tree, ops: seq<Op>, m: nat, t: Tree, created: seq<Name>, k: nat, files: map<Name, Entry>)
    requires WellFormed(start) && Planned(start, ops) && Applied(start, ops, m, t, created)
    requires 0 < k <= m + 1 && k <= |ops| && Undoing(start, ops, k, files) && (k == m + 1 ==> files == Stage(start.files, ops, m))
    ensures var op := ops[k - 1]; var now := Tree(files, t.dirs);
            if op.name in t.dirs || StateOf(files, op.name) == op.before then files == Stage(start.files, ops, k - 1)
            else && StateOf(files, op.name) == op.after && Checked(now, op.name)
                 && Put(files, op.name, op.before) == Stage(start.files, ops, k - 1)
  {
    var op := ops[k - 1];
    assert PlannedOp(start, op);
    UndoStage(start, ops, k - 1);
    if k <= m {
      if op.name in t.dirs {
        DirsHoldNoFile(start, ops, m, t, created, k, op.name);
        DirsHoldNoFile(start, ops, m, t, created, k - 1, op.name);
        assert op.after == None && op.before == None;
      }
      assert HasParents(op.name, t.dirs);
      forall l | 0 < l < |op.name| ensures op.name[..l] !in Stage(start.files, ops, k) {
        DirsHoldNoFile(start, ops, m, t, created, k, op.name[..l]);
      }
    }
  }

  // ---- apply ----

  datatype Outcome = Complete | Refused | RolledBack(failed: seq<Name>)

  /** A destination that was replaced, removed or restored, and what was there. */
  datatype Overwrite = Overwrite(op: Op, was: Option<Entry>)

  predicate Respectful(log: seq<Overwrite>) {
    forall k :: 0 <= k < |log| ==> log[k].was == log[k].op.before || log[k].was == log[k].op.after
  }

  predicate Acceptable(t: Tree, worktree: Tree, records: map<Name, Record>, n: Name) {
    && n in records && Checked(t, n) && Checked(worktree, n) && !records[n].wip
    && n !in t.dirs && n !in worktree.dirs && StateOf(t.files, n) == records[n].state
  }

  /** The parent checkout while fan-in runs. `fault` makes the k-th filesystem step raise; unless `quiet`, another writer
      acts between the steps, never between a check and the replace that follows it. */
  class Checkout {
    var tree: Tree
    var created: seq<Name>
    var tick: nat
    ghost var log: seq<Overwrite>
    const quiet: bool
    const fault: nat -> bool
    const writer: (nat, Tree) -> Tree

    constructor (tree: Tree, quiet: bool, fault: nat -> bool, writer: (nat, Tree) -> Tree)
      ensures this.tree == tree && this.quiet == quiet && created == [] && log == []
    {
      this.tree, this.quiet, this.fault, this.writer := tree, quiet, fault, writer;
      created, tick, log := [], 0, [];
    }

    method Raises() returns (r: bool)
      modifies this`tick
    {
      r := fault(tick);
      tick := tick + 1;
    }

    method Others()
      modifies this`tree, this`tick
      ensures quiet ==> tree == old(tree)
    {
      if !quiet { tree := writer(tick, tree); }
      tick := tick + 1;
    }

    /** No parent file is touched until every destination and source passes. */
    method Preflight(names: seq<Name>, records: map<Name, Record>, worktree: Tree) returns (r: Option<seq<Op>>)
      requires NoDuplicates(names)
      ensures r.Some? <==> forall i :: 0 <= i < |names| ==> Acceptable(tree, worktree, records, names[i])
      ensures r.Some? ==> Planned(tree, r.value) && |r.value| == |names|
      ensures r.Some? ==> forall i :: 0 <= i < |names| ==> r.value[i].name == names[i] && r.value[i].after == StateOf(worktree.files, names[i])
    {
      var ops: seq<Op> := [];
      var i := 0;
      while i < |names|
        invariant 0 <= i == |ops| <= |names|
        invariant forall k :: 0 <= k < i ==> Acceptable(tree, worktree, records, names[k])
        invariant forall k :: 0 <= k < i ==> PlannedOp(tree, ops[k]) && ops[k].name == names[k] && ops[k].after == StateOf(worktree.files, names[k])
      {
        var n := names[i];
        if !Acceptable(tree, worktree, records, n) { return None; }
        ops := ops + [Op(n, records[n].state, StateOf(worktree.files, n))];
        i := i + 1;
      }
      r := Some(ops);
    }

    /** Originals are copied aside before anything is written; a failure here leaves the parent alone. */
    method Preserve(ops: seq<Op>) returns (kept: Option<seq<Option<Entry>>>)
      modifies this`tree, this`tick
      ensures quiet ==> tree == old(tree)
      ensures kept.Some? ==> |kept.value| == |ops|
      ensures kept.Some? && quiet ==> forall i :: 0 <= i < |ops| ==>
        kept.value[i] == if ops[i].before.None? then None else StateOf(tree.files, ops[i].name)
    {
      var copies: seq<Option<Entry>> := [];
      var i := 0;
      while i < |ops|
        invariant 0 <= i == |copies| <= |ops| && (quiet ==> tree == old(tree))
        invariant quiet ==> forall k :: 0 <= k < i ==>
          copies[k] == if ops[k].before.None? then None else StateOf(tree.files, ops[k].name)
      {
        Others();
        var raised := Raises();
        if raised || (ops[i].before.Some? && ops[i].name !in tree.files) { return None; }
        copies := copies + [if ops[i].before.None? then None else StateOf(tree.files, ops[i].name)];
        i := i + 1;
      }
      kept := Some(copies);
    }

    /** Create the missing parents of a destination, outermost first. */
    method MakeParents(op: Op, ghost start: Tree, ghost ops: seq<Op>, ghost m: nat) returns (ok: bool)
      requires op.name != []
      requires quiet ==> m < |ops| && op == ops[m] && Planned(start, ops) && Applied(start, ops, m, tree, created) && Checked(tree, op.name)
      modifies this`tree, this`tick, this`created
      ensures tree.files == old(tree).files
      ensures quiet ==> Applied(start, ops, m, tree, created) && (op.name !in old(tree).dirs ==> op.name !in tree.dirs)
      ensures quiet && ok ==> HasParents(op.name, tree.dirs)
    {
      var k := |op.name| - 1;
      while k > 0 && op.name[..k] !in tree.dirs
        invariant 0 <= k < |op.name|
        invariant forall j :: k < j < |op.name| ==> op.name[..j] !in tree.dirs
      {
        k := k - 1;
      }
      if quiet && k > 0 {
        assert HasParents(op.name[..k], tree.dirs);
        forall l | 0 < l < k ensures op.name[..l] in tree.dirs { assert op.name[..k][..l] == op.name[..l]; }
      }
      while k < |op.name| - 1
        invariant 0 <= k < |op.name| && tree.files == old(tree).files
        invariant k == 0 || op.name[..k] in tree.dirs
        invariant forall j :: k < j < |op.name| ==> op.name[..j] !in tree.dirs
        invariant quiet ==> Applied(start, ops, m, tree, created) && forall l :: 0 < l <= k ==> op.name[..l] in tree.dirs
        invariant op.name !in old(tree).dirs ==> op.name !in tree.dirs
      {
        var raised := Raises();
        if raised { return false; }
        if quiet { CreateNext(start, ops, m, tree, created, k + 1); }
        var d := op.name[..k + 1];
        tree := tree.(dirs := tree.dirs + {d});
        created := created + [d];
        k := k + 1;
      }
      ok := true;
    }

    /** One operation: check, create parents, record the intent, replace. `intent` says whether it must be rolled back. */
    method Install(op: Op, ghost start: Tree, ghost ops: seq<Op>, ghost m: nat) returns (ok: bool, intent: bool)
      requires quiet ==> m < |ops| && op == ops[m] && Planned(start, ops) && Applied(start, ops, m, tree, created)
      requires Respectful(log)
      modifies this`tree, this`tick, this`created, this`log
      ensures Respectful(log) && (ok ==> intent)
      ensures quiet && ok ==> Applied(start, ops, m + 1, tree, created)
      ensures quiet && !ok ==> Applied(start, ops, m, tree, created)
    {
      Others();
      var raised := Raises();
      if raised || !Checked(tree, op.name) || op.name in tree.dirs || StateOf(tree.files, op.name) != op.before {
        return false, false;
      }
      var made := MakeParents(op, start, ops, m);
      if !made { return false, false; }
      raised := Raises();
      if raised { return false, true; }
      log := log + [Overwrite(op, StateOf(tree.files, op.name))];
      if quiet { InstallNext(start, ops, m, tree, created); }
      tree := tree.(files := Put(tree.files, op.name, op.after));
      return true, true;
    }

    /** Undo in reverse; a destination that is neither its before nor its after state is left alone. `clean` says that no
        step of the rollback raised. */
    method Restore(ops: seq<Op>, kept: seq<Option<Entry>>, top: nat, ghost start: Tree, ghost m: nat)
      returns (failed: seq<Name>, ghost clean: bool)
      requires |kept| == |ops| && top <= |ops| && Respectful(log)
      requires quiet ==> WellFormed(start) && Planned(start, ops) && Applied(start, ops, m, tree, created) && m <= top <= m + 1
      requires quiet ==> forall i :: 0 <= i < |ops| ==> kept[i] == ops[i].before
      modifies this`tree, this`tick, this`log
      ensures Respectful(log)
      ensures quiet && clean ==> tree == old(tree).(files := start.files)
    {
      ghost var before := tree;
      failed, clean := [], true;
      var k := top;
      while k > 0
        invariant 0 <= k <= top && Respectful(log)
        invariant quiet && clean ==> tree.dirs == before.dirs && Undoing(start, ops, k, tree.files)
        invariant quiet && clean && k == m + 1 ==> tree.files == Stage(start.files, ops, m)
      {
        var op := ops[k - 1];
        if quiet && clean { UndoOne(start, ops, m, before, created, k, tree.files); }
        Others();
        var raised := Raises();
        if raised {
          clean := false;
          failed := failed + [op.name];
        } else if !Checked(tree, op.name) || op.name in tree.dirs {
          failed := failed + [op.name];
        } else if StateOf(tree.files, op.name) == op.before {
        } else if StateOf(tree.files, op.name) != op.after {
          failed := failed + [op.name];
        } else {
          raised := Raises();
          if raised {
            clean := false;
            failed := failed + [op.name];
          } else {
            log := log + [Overwrite(op, StateOf(tree.files, op.name))];
            tree := tree.(files := Put(tree.files, op.name, if op.before.None? then None else kept[k - 1]));
          }
        }
        k := k - 1;
      }
    }

    /** Remove the created directories, last first; one that is not empty stays. */
    method RemoveCreated(ghost start: Tree, ghost ops: seq<Op>, ghost m: nat) returns (ghost clean: bool)
      modifies this`tree, this`tick
      requires quiet ==> WellFormed(start) && CreatedOk(start, created, ops, m)
      ensures quiet && clean && old(tree) == Tree(start.files, start.dirs + Elements(created)) ==> tree == start
    {
      clean := true;
      var k := |created|;
      ghost var expected := tree == Tree(start.files, start.dirs + Elements(created));
      assert created[..k] == created;
      while k > 0
        invariant 0 <= k <= |created|
        invariant quiet && clean && expected ==> tree == Tree(start.files, start.dirs + Elements(created[..k]))
      {
        Others();
        var raised := Raises();
        if quiet { LastCreatedIsEmpty(start, ops, m, created, k); }
        if raised { clean := false; }
        else if EmptyDir(tree, created[k - 1]) { tree := tree.(dirs := tree.dirs - {created[k - 1]}); }
        k := k - 1;
      }
      assert Elements(created[..0]) == {};
    }

    /** Preflight, recovery copies, the operations, and rollback on any failure. */
    method Apply(names: seq<Name>, records: map<Name, Record>, worktree: Tree) returns (o: Outcome, ghost clean: bool)
      requires NoDuplicates(names) && created == [] && log == [] && WellFormed(tree)
      modifies this
      ensures Respectful(log)
      ensures quiet ==>
        match o
        case Complete =>
          && (forall i :: 0 <= i < |names| ==> StateOf(tree.files, names[i]) == StateOf(worktree.files, names[i]))
          && (forall n :: n !in names ==> StateOf(tree.files, n) == StateOf(old(tree).files, n))
          && old(tree).dirs <= tree.dirs
        case Refused => tree == old(tree)
        case RolledBack(_) => clean ==> tree == old(tree)
    {
      ghost var start := tree;
      clean := true;
      var planned := Preflight(names, records, worktree);
      if planned.None? { return Refused, true; }
      var ops := planned.value;
      var copies := Preserve(ops);
      if copies.None? { return Refused, true; }
      assert quiet ==> forall i :: 0 <= i < |ops| ==> PlannedOp(start, ops[i]);
      var i, intents, ok := 0, 0, true;
      NothingApplied(start, ops);
      while ok && i < |ops|
        invariant 0 <= i <= |ops| && i <= intents <= i + 1 && intents <= |ops| && Respectful(log)
        invariant quiet ==> Applied(start, ops, i, tree, created)
        invariant ok ==> intents == i
        decreases |ops| - i, ok
      {
        var intent;
        ok, intent := Install(ops[i], start, ops, i);
        if intent { intents := i + 1; }
        if ok { i := i + 1; }
      }
      if ok {
        var raised := Raises();  // writing the completion status
        if !raised {
          if quiet { PlanReached(start, ops, names, worktree, tree.files); }
          return Complete, true;
        }
      }
      var failed, restored := Restore(ops, copies.value, intents, start, i);
      var removed := RemoveCreated(start, ops, i);
      o, clean := RolledBack(failed), restored && removed;
    }
  }

  lemma PlanReached(start: Tree, ops: seq<Op>, names: seq<Name>, worktree: Tree, files: map<Name, Entry>)
    requires Planned(start, ops) && |ops| == |names| && files == Stage(start.files, ops, |ops|)
    requires forall i :: 0 <= i < |names| ==> ops[i].name == names[i] && ops[i].after == StateOf(worktree.files, names[i])
    ensures forall i :: 0 <= i < |names| ==> StateOf(files, names[i]) == StateOf(worktree.files, names[i])
    ensures forall n :: n !in names ==> StateOf(files, n) == StateOf(start.files, n)
  {
    forall i | 0 <= i < |names| ensures StateOf(files, names[i]) == StateOf(worktree.files, names[i]) {
      StageAt(start.files, ops, |ops|, ops[i].name);
    }
    forall n | n !in names ensures StateOf(files, n) == StateOf(start.files, n) {
      StageAt(start.files, ops, |ops|, n);
      assert forall i :: 0 <= i < |ops| ==> ops[i].name == names[i];
    }
  }

  lemma NothingApplied(start: Tree, ops: seq<Op>)
    requires WellFormed(start)
    ensures Applied(start, ops, 0, start, [])
  {
  }
}