/** The private copy of every object an index refers to: a recursive walk with quotas over an object store in which trees
    may share children or, in a damaged store, even contain themselves. */
module Closure {
  import opened Sequences

  type Oid = int
  type Byte = b: int | 0 <= b < 256

  datatype Kind = Blob | Tree | OtherKind

  /** One entry of a tree; `wellFormed` says its line parses. */
  datatype Entry = Entry(wellFormed: bool, kind: Kind, oid: Oid)

  /** `entries` is what listing the tree with these bytes yields, in `listing` bytes. */
  datatype Object = Object(kind: Kind, data: seq<Byte>, entries: seq<Entry>, listing: nat)

  type Store = map<Oid, Object>

  const ZERO: Oid := 0
  const MAX_OBJECTS: nat := 100000
  const MAX_SIZE: nat := 8 * 1024 * 1024
  const MAX_TOTAL: nat := 512 * 1024 * 1024

  // ---- Reachability ----

  predicate Child(s: Store, a: Oid, b: Oid) {
    a in s && s[a].kind.Tree? && exists k :: 0 <= k < |s[a].entries| && s[a].entries[k].oid == b
  }

  predicate Chain(s: Store, p: seq<Oid>) {
    forall i, j :: 0 <= i < |p| && 0 <= j < |p| && j == i + 1 ==> Child(s, p[i], p[j])
  }

  predicate PathTo(s: Store, roots: set<Oid>, p: seq<Oid>, x: Oid) {
    p != [] && p[0] in roots && p[|p| - 1] == x && Chain(s, p)
  }

  ghost predicate Reachable(s: Store, roots: set<Oid>, x: Oid) {
    exists p :: PathTo(s, roots, p, x)
  }

  lemma RootIsReachable(s: Store, roots: set<Oid>, x: Oid)
    requires x in roots
    ensures Reachable(s, roots, x)
  {
    assert PathTo(s, roots, [x], x);
  }

  lemma ChildIsReachable(s: Store, roots: set<Oid>, a: Oid, b: Oid)
    requires Reachable(s, roots, a) && Child(s, a, b)
    ensures Reachable(s, roots, b)
  {
    var p :| PathTo(s, roots, p, a);
    assert PathTo(s, roots, p + [b], b);
  }

  /** Closed under tree entries. */
  predicate ClosedUnder(s: Store, seen: set<Oid>) {
    forall x :: x in seen && x in s ==> ChildrenIn(s, x, seen)
  }

  predicate ChildrenIn(s: Store, x: Oid, seen: set<Oid>)
    requires x in s
  {
    s[x].kind.Tree? ==> forall k :: 0 <= k < |s[x].entries| ==> s[x].entries[k].oid in seen
  }

  lemma {:induction false} ClosedContainsPath(s: Store, roots: set<Oid>, seen: set<Oid>, p: seq<Oid>, i: nat)
    requires roots <= seen && ClosedUnder(s, seen) && p != [] && p[0] in roots && Chain(s, p) && i < |p|
    ensures p[i] in seen
  {
    if i > 0 {
      ClosedContainsPath(s, roots, seen, p, i - 1);
      assert Child(s, p[i - 1], p[i]);
    }
  }

  lemma ClosedContainsReachable(s: Store, roots: set<Oid>, seen: set<Oid>, x: Oid)
    requires roots <= seen && ClosedUnder(s, seen) && Reachable(s, roots, x)
    ensures x in seen
  {
    var p :| PathTo(s, roots, p, x);
    ClosedContainsPath(s, roots, seen, p, |p| - 1);
  }

  // ---- Quotas ----

  function Size(s: Store, x: Oid): nat { if x in s then |s[x].data| else 0 }

  function Total(s: Store, xs: seq<Oid>): nat {
    if xs == [] then 0 else Total(s, xs[..|xs| - 1]) + Size(s, xs[|xs| - 1])
  }

  lemma {:induction false} TotalConcat(s: Store, a: seq<Oid>, b: seq<Oid>)
    ensures Total(s, a + b) == Total(s, a) + Total(s, b)
  {
    if b == [] {
      assert a + b == a;
    } else {
      assert (a + b)[..|a + b| - 1] == a + b[..|b| - 1];
      TotalConcat(s, a, b[..|b| - 1]);
    }
  }

  lemma Without(s: Store, b: seq<Oid>, k: nat)
    requires k < |b|
    ensures var others := b[..k] + b[k + 1..];
            && |others| == |b| - 1 && Total(s, b) == Total(s, others) + Size(s, b[k])
            && forall x :: x in b && x != b[k] ==> x in others
  {
    var x := b[k];
    assert b == b[..k] + ([x] + b[k + 1..]);
    TotalConcat(s, b[..k], [x] + b[k + 1..]);
    TotalConcat(s, [x], b[k + 1..]);
    TotalConcat(s, b[..k], b[k + 1..]);
    assert Total(s, [x]) == Size(s, x) by { assert [x][..0] == []; }
  }

  lemma {:induction false} SublistFits(s: Store, a: seq<Oid>, b: seq<Oid>)
    requires NoDuplicates(a) && forall i :: 0 <= i < |a| ==> a[i] in b
    ensures |a| <= |b| && Total(s, a) <= Total(s, b)
  {
    if a != [] {
      var rest := a[..|a| - 1];
      var k :| 0 <= k < |b| && b[k] == a[|a| - 1];
      Without(s, b, k);
      SublistFits(s, rest, b[..k] + b[k + 1..]);
    }
  }

  // ---- The copy ----

  /** Why a copy is refused: evidence in the index or the store, or the step of git or of the clock that failed. */
  datatype Why =
    | Fault(step: nat)
    | BadIndex
    | BadObject(oid: Oid)
    | BadEntry(oid: Oid)
    | TooMany(some: seq<Oid>)
    | TooMuch(some: seq<Oid>)

  predicate GoodObject(s: Store, x: Oid) {
    x in s && !s[x].kind.OtherKind? && |s[x].data| <= MAX_SIZE
  }

  predicate GoodEntries(s: Store, x: Oid) {
    x in s && (s[x].kind.Tree? ==> s[x].listing <= MAX_SIZE && forall k :: 0 <= k < |s[x].entries| ==> GoodEntry(s[x].entries[k]))
  }

  predicate GoodEntry(e: Entry) { e.wellFormed && !e.kind.OtherKind? }

  ghost predicate AllReachable(s: Store, roots: set<Oid>, xs: seq<Oid>) {
    NoDuplicates(xs) && forall i :: 0 <= i < |xs| ==> Reachable(s, roots, xs[i])
  }

  ghost predicate Evident(s: Store, roots: set<Oid>, fault: nat -> bool, why: Why) {
    match why
    case Fault(k) => fault(k)
    case BadIndex => false
    case BadObject(x) => Reachable(s, roots, x) && !GoodObject(s, x)
    case BadEntry(x) => Reachable(s, roots, x) && !GoodEntries(s, x)
    case TooMany(xs) => AllReachable(s, roots, xs) && |xs| > MAX_OBJECTS
    case TooMuch(xs) => AllReachable(s, roots, xs) && Total(s, xs) > MAX_TOTAL
  }

  /** The list, the set and the running total agree and are within quota. */
  ghost predicate BooksOk(s: Store, seen: set<Oid>, objects: seq<Oid>, total: nat) {
    && NoDuplicates(objects) && |seen| == |objects| <= MAX_OBJECTS && total == Total(s, objects) <= MAX_TOTAL
    && forall x :: x in objects <==> x in seen
  }

  ghost predicate Copied(s: Store, roots: set<Oid>, copy: Store, x: Oid) {
    GoodObject(s, x) && x in copy && copy[x] == s[x] && Reachable(s, roots, x)
  }

  ghost predicate CopyOk(s: Store, roots: set<Oid>, copy: Store, seen: set<Oid>) {
    copy.Keys == seen && forall x :: x in seen ==> Copied(s, roots, copy, x)
  }

  /** A tree that is no longer being walked has good entries, all of them seen. */
  predicate Walked(s: Store, x: Oid, seen: set<Oid>) {
    GoodEntries(s, x) && ChildrenIn(s, x, seen)
  }

  predicate WalkOk(s: Store, seen: set<Oid>, open: set<Oid>) {
    open <= seen && forall x :: x in seen && x !in open ==> Walked(s, x, seen)
  }

  lemma BooksAdd(s: Store, seen: set<Oid>, objects: seq<Oid>, total: nat, x: Oid)
    requires BooksOk(s, seen, objects, total) && x !in seen && x in s
    ensures NoDuplicates(objects + [x]) && Total(s, objects + [x]) == total + |s[x].data| && |seen + {x}| == |seen| + 1
    ensures |seen| < MAX_OBJECTS && total + |s[x].data| <= MAX_TOTAL ==> BooksOk(s, seen + {x}, objects + [x], total + |s[x].data|)
  {
    assert (objects + [x])[..|objects|] == objects;
    assert x !in objects;
  }

  lemma CopyAdd(s: Store, roots: set<Oid>, copy: Store, seen: set<Oid>, x: Oid)
    requires CopyOk(s, roots, copy, seen) && GoodObject(s, x) && Reachable(s, roots, x) && x !in seen
    ensures CopyOk(s, roots, copy[x := s[x]], seen + {x})
  {
    forall y | y in seen + {x} ensures Copied(s, roots, copy[x := s[x]], y) {
      if y != x { assert Copied(s, roots, copy, y); }
    }
  }

  lemma WalkAdd(s: Store, seen: set<Oid>, open: set<Oid>, x: Oid)
    requires WalkOk(s, seen, open) && x !in seen
    ensures WalkOk(s, seen + {x}, open + {x})
  {
    forall y | y in seen + {x} && y !in open + {x} ensures Walked(s, y, seen + {x}) { assert Walked(s, y, seen); }
  }

  lemma ListIsReachable(s: Store, roots: set<Oid>, copy: Store, seen: set<Oid>, objects: seq<Oid>, total: nat, x: Oid)
    requires BooksOk(s, seen, objects, total) && CopyOk(s, roots, copy, seen) && x !in seen && Reachable(s, roots, x)
    ensures AllReachable(s, roots, objects + [x])
  {
    var longer := objects + [x];
    forall i | 0 <= i < |longer| ensures Reachable(s, roots, longer[i]) {
      if i < |objects| { assert objects[i] in objects; assert Copied(s, roots, copy, objects[i]); }
    }
    assert x !in objects;
  }

  class Copier {
    const store: Store
    ghost const roots: set<Oid>
    const fault: nat -> bool
    var tick: nat
    var seen: set<Oid>
    var objects: seq<Oid>
    var total: nat
    var copy: Store
    ghost var open: set<Oid>   // trees whose entries are being walked

    ghost predicate Valid()
      reads this
    {
      BooksOk(store, seen, objects, total) && CopyOk(store, roots, copy, seen) && WalkOk(store, seen, open)
    }

    constructor (store: Store, ghost roots: set<Oid>, fault: nat -> bool)
      ensures Valid() && this.store == store && this.roots == roots && this.fault == fault && seen == {} && open == {}
    {
      this.store, this.roots, this.fault := store, roots, fault;
      tick, seen, objects, total, copy, open := 0, {}, [], 0, map[], {};
    }

    method Fails() returns (r: bool)
      modifies this`tick
      ensures r == fault(old(tick)) && tick == old(tick) + 1
    {
      r := fault(tick);
      tick := tick + 1;
    }

    /** copyObject: mark before walking, so sharing and cycles are harmless. */
    method CopyObject(oid: Oid) returns (ok: bool, ghost why: Why)
      requires Valid() && Reachable(store, roots, oid)
      modifies this
      ensures ok ==> Valid() && old(seen) <= seen && oid in seen && open == old(open)
      ensures !ok ==> Evident(store, roots, fault, why)
      decreases MAX_OBJECTS - |seen|, 1
    {
      ok, why := false, Fault(tick);
      var failed := Fails();
      if failed { return; }
      if oid in seen { return true, Fault(tick); }
      ok, why := CheckQuota(oid);
      if !ok { return; }
      ok, why := Preserve(oid);
      if !ok { return; }
      if !store[oid].kind.Tree? {
        CloseLeaf(oid);
        return;
      }
      ok, why := CopyEntries(oid);
    }

    /** Read the object, write it to the private store and mark it. */
    method Preserve(oid: Oid) returns (ok: bool, ghost why: Why)
      requires Valid() && Reachable(store, roots, oid) && oid !in seen && GoodObject(store, oid)
      requires |seen| < MAX_OBJECTS && total + |store[oid].data| <= MAX_TOTAL
      modifies this
      ensures ok ==> Valid() && seen == old(seen) + {oid} && open == old(open) + {oid} && |seen| == |old(seen)| + 1
      ensures !ok ==> Evident(store, roots, fault, why)
    {
      why := Fault(tick);
      var failed := Fails();
      if failed { return false, why; }
      Mark(oid);
      ok := true;
    }

    /** The checks on count, type and size before anything is written. */
    method CheckQuota(oid: Oid) returns (ok: bool, ghost why: Why)
      requires Valid() && Reachable(store, roots, oid) && oid !in seen
      ensures ok ==> GoodObject(store, oid) && |seen| < MAX_OBJECTS && total + |store[oid].data| <= MAX_TOTAL
      ensures !ok ==> Evident(store, roots, fault, why)
    {
      ListIsReachable(store, roots, copy, seen, objects, total, oid);
      if |seen| >= MAX_OBJECTS { return false, TooMany(objects + [oid]); }
      if oid !in store || store[oid].kind.OtherKind? { return false, BadObject(oid); }
      var size := |store[oid].data|;
      if size > MAX_SIZE { return false, BadObject(oid); }
      BooksAdd(store, seen, objects, total, oid);
      if total + size > MAX_TOTAL { return false, TooMuch(objects + [oid]); }
      return true, Fault(tick);
    }

    method CloseLeaf(oid: Oid)
      requires Valid() && oid in open && oid in store && !store[oid].kind.Tree?
      modifies this`open
      ensures Valid() && open == old(open) - {oid}
    {
      open := open - {oid};
    }

    method Mark(oid: Oid)
      requires Valid() && Reachable(store, roots, oid) && oid !in seen && GoodObject(store, oid)
      requires |seen| < MAX_OBJECTS && total + |store[oid].data| <= MAX_TOTAL
      modifies this
      ensures Valid() && seen == old(seen) + {oid} && open == old(open) + {oid} && |seen| == |old(seen)| + 1
    {
      BooksAdd(store, seen, objects, total, oid);
      CopyAdd(store, roots, copy, seen, oid);
      WalkAdd(store, seen, open, oid);
      copy := copy[oid := store[oid]];
      seen := seen + {oid};
      objects := objects + [oid];
      total := total + |store[oid].data|;
      open := open + {oid};
    }

    method CopyEntries(oid: Oid) returns (ok: bool, ghost why: Why)
      requires Valid() && oid in open && oid in seen && store[oid].kind.Tree?
      modifies this
      ensures ok ==> Valid() && old(seen) <= seen && open == old(open) - {oid}
      ensures !ok ==> Evident(store, roots, fault, why)
      decreases MAX_OBJECTS - |seen|, 2
    {
      ok, why := true, Fault(tick);
      var failed := Fails();
      if failed { return false, why; }
      if store[oid].listing > MAX_SIZE { return false, BadEntry(oid); }
      var entries := store[oid].entries;
      ghost var before := seen;
      var i := 0;
      while i < |entries|
        invariant 0 <= i <= |entries| && Valid() && before <= seen && open == old(open) && ok
        invariant |before| <= |seen|
        invariant forall k :: 0 <= k < i ==> GoodEntry(entries[k]) && entries[k].oid in seen
      {
        var entry := entries[i];
        if !GoodEntry(entry) { return false, BadEntry(oid); }
        assert Child(store, oid, entry.oid);
        ChildIsReachable(store, roots, oid, entry.oid);
        ok, why := CopyObject(entry.oid);
        if !ok { return; }
        SetSize(before, seen);
        i := i + 1;
      }
      open := open - {oid};
    }
  }

  lemma SetSize(a: set<Oid>, b: set<Oid>)
    requires a <= b
    ensures |a| <= |b|
  {
    assert b == a + (b - a);
  }

  // ---- The index ----

  datatype Option<+T> = None | Some(value: T)

  /** One staged entry; `wellFormed` says its line parses. */
  datatype Record = Record(wellFormed: bool, oid: Oid)

  function Roots(records: seq<Record>): set<Oid> {
    set k | 0 <= k < |records| && records[k].oid != ZERO :: records[k].oid
  }

  predicate Ascending(xs: seq<Oid>) {
    forall i, j :: 0 <= i < j < |xs| ==> xs[i] < xs[j]
  }

  function Insert(x: Oid, xs: seq<Oid>): seq<Oid> {
    if xs == [] || x < xs[0] then [x] + xs else [xs[0]] + Insert(x, xs[1..])
  }

  function Sort(xs: seq<Oid>): seq<Oid> {
    if xs == [] then [] else Insert(xs[0], Sort(xs[1..]))
  }

  lemma {:induction false} InsertSorts(x: Oid, xs: seq<Oid>)
    requires Ascending(xs) && x !in xs
    ensures Ascending(Insert(x, xs)) && |Insert(x, xs)| == |xs| + 1 && forall y :: y in Insert(x, xs) <==> y == x || y in xs
  {
    if xs != [] && !(x < xs[0]) {
      assert xs == [xs[0]] + xs[1..];
      assert xs[0] in xs;
      InsertSorts(x, xs[1..]);
      var tail := Insert(x, xs[1..]);
      forall i | 0 <= i < |tail| ensures xs[0] < tail[i] { assert tail[i] in tail; }
    }
  }

  lemma {:induction false} SortSorts(xs: seq<Oid>)
    requires NoDuplicates(xs)
    ensures Ascending(Sort(xs)) && |Sort(xs)| == |xs| && forall y :: y in Sort(xs) <==> y in xs
  {
    if xs != [] {
      assert xs == [xs[0]] + xs[1..];
      SortSorts(xs[1..]);
      InsertSorts(xs[0], Sort(xs[1..]));
    }
  }

  /** What the manifest promises about the private copy. */
  ghost predicate ExactClosure(s: Store, roots: set<Oid>, manifest: seq<Oid>, copy: Store) {
    && Ascending(manifest) && |manifest| <= MAX_OBJECTS
    && (forall x :: x in manifest <==> Reachable(s, roots, x))
    && (forall x :: x in manifest <==> x in copy)
    && (forall x :: x in copy ==> GoodObject(s, x) && GoodEntries(s, x) && copy[x] == s[x])
    && exists objects :: NoDuplicates(objects) && (forall x :: x in objects <==> x in manifest) && Total(s, objects) <= MAX_TOTAL
  }

  /** What cannot be copied: an index that does not parse or is too long, a reachable object or tree entry that is not
      supported, or more reachable objects or bytes than a quota allows. */
  ghost predicate Unfit(records: seq<Record>, listing: nat, s: Store) {
    || listing > MAX_SIZE || |records| > MAX_OBJECTS || (exists k :: 0 <= k < |records| && !records[k].wellFormed)
    || (exists x :: Reachable(s, Roots(records), x) && !(GoodObject(s, x) && GoodEntries(s, x)))
    || (exists xs :: AllReachable(s, Roots(records), xs) && (|xs| > MAX_OBJECTS || Total(s, xs) > MAX_TOTAL))
  }

  /** copyIndexObjectClosure on an index whose listing has `listing` bytes: on success the manifest lists, sorted and
      without duplicates, exactly the objects reachable from the index, each copied unchanged and within quota. Unless
      a step of git, of the clock or of the final write fails, it is refused exactly when the index is unfit. */
  method CopyIndexObjectClosure(records: seq<Record>, listing: nat, store: Store, fault: nat -> bool)
    returns (manifest: Option<seq<Oid>>, copy: Store, ghost why: Why)
    ensures manifest.Some? ==> ExactClosure(store, Roots(records), manifest.value, copy) && !Unfit(records, listing, store)
    ensures manifest.None? ==> Unfit(records, listing, store) || (why.Fault? && fault(why.step))
    ensures (forall k :: !fault(k)) ==> (manifest.None? <==> Unfit(records, listing, store))
  {
    manifest, copy, why := None, map[], BadIndex;
    var copier := new Copier(store, Roots(records), fault);
    ghost var first := copier.tick;
    var failed := copier.Fails();
    if failed { why := Fault(first); return; }
    if listing > MAX_SIZE || |records| > MAX_OBJECTS { return; }
    var i := 0;
    while i < |records|
      invariant 0 <= i <= |records| && copier.Valid() && copier.open == {}
      invariant copier.store == store && copier.roots == Roots(records) && copier.fault == fault
      invariant forall k :: 0 <= k < i ==> records[k].wellFormed
      invariant forall k :: 0 <= k < i && records[k].oid != ZERO ==> records[k].oid in copier.seen
    {
      if !records[i].wellFormed { return; }
      if records[i].oid != ZERO {
        RootIsReachable(store, Roots(records), records[i].oid);
        var ok;
        ok, why := copier.CopyObject(records[i].oid);
        if !ok {
          EvidenceIsUnfit(records, listing, store, fault, why);
          return;
        }
      }
      i := i + 1;
    }
    MakesExactClosure(store, Roots(records), copier.seen, copier.objects, copier.total, copier.copy);
    SuccessExcludesRefusal(records, listing, store, Sort(copier.objects), copier.copy);
    ghost var last := copier.tick;
    failed := copier.Fails();
    if failed { why := Fault(last); return; }
    manifest, copy := Some(Sort(copier.objects)), copier.copy;
  }

  lemma EvidenceIsUnfit(records: seq<Record>, listing: nat, s: Store, fault: nat -> bool, why: Why)
    requires Evident(s, Roots(records), fault, why)
    ensures why.Fault? || Unfit(records, listing, s)
  {
  }

  lemma MakesExactClosure(s: Store, roots: set<Oid>, seen: set<Oid>, objects: seq<Oid>, total: nat, copy: Store)
    requires BooksOk(s, seen, objects, total) && CopyOk(s, roots, copy, seen) && WalkOk(s, seen, {}) && roots <= seen
    ensures ExactClosure(s, roots, Sort(objects), copy)
  {
    SortSorts(objects);
    SeenIsClosure(s, roots, seen, copy);
    WalkedAll(s, seen);
    forall x | x in copy ensures GoodObject(s, x) && copy[x] == s[x] { assert Copied(s, roots, copy, x); }
  }

  lemma SeenIsClosure(s: Store, roots: set<Oid>, seen: set<Oid>, copy: Store)
    requires roots <= seen && CopyOk(s, roots, copy, seen) && WalkOk(s, seen, {})
    ensures forall x :: x in seen <==> Reachable(s, roots, x)
  {
    assert ClosedUnder(s, seen) by {
      forall x | x in seen && x in s ensures ChildrenIn(s, x, seen) { assert Walked(s, x, seen); }
    }
    forall x ensures x in seen <==> Reachable(s, roots, x) {
      if x in seen { assert Copied(s, roots, copy, x); }
      if Reachable(s, roots, x) { ClosedContainsReachable(s, roots, seen, x); }
    }
  }

  lemma WalkedAll(s: Store, seen: set<Oid>)
    requires WalkOk(s, seen, {})
    ensures forall x :: x in seen ==> GoodEntries(s, x)
  {
    forall x | x in seen ensures GoodEntries(s, x) { assert Walked(s, x, seen); }
  }

  /** A closure that was copied within its quotas leaves no reason to refuse. */
  lemma SuccessExcludesRefusal(records: seq<Record>, listing: nat, s: Store, manifest: seq<Oid>, copy: Store)
    requires listing <= MAX_SIZE && |records| <= MAX_OBJECTS && forall k :: 0 <= k < |records| ==> records[k].wellFormed
    requires ExactClosure(s, Roots(records), manifest, copy)
    ensures !Unfit(records, listing, s)
  {
    forall x | Reachable(s, Roots(records), x) ensures GoodObject(s, x) && GoodEntries(s, x) { assert x in manifest && x in copy; }
    forall xs | AllReachable(s, Roots(records), xs) ensures |xs| <= MAX_OBJECTS && Total(s, xs) <= MAX_TOTAL {
      ClosureBoundsLists(s, Roots(records), manifest, copy, xs);
    }
  }

  lemma ClosureBoundsLists(s: Store, roots: set<Oid>, manifest: seq<Oid>, copy: Store, xs: seq<Oid>)
    requires ExactClosure(s, roots, manifest, copy) && AllReachable(s, roots, xs)
    ensures |xs| <= MAX_OBJECTS && Total(s, xs) <= MAX_TOTAL
  {
    var objects :| NoDuplicates(objects) && (forall x :: x in objects <==> x in manifest) && Total(s, objects) <= MAX_TOTAL;
    forall i | 0 <= i < |xs| ensures xs[i] in objects && xs[i] in manifest { assert Reachable(s, roots, xs[i]); }
    SublistFits(s, xs, objects);
    SublistFits(s, xs, manifest);
  }
}
