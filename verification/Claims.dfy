/** Claim leases: live claims, the index from paths to claims, and fencing tokens. Every operation is one critical
    section that first drops expired claims. */
module Claims {
  import opened Sequences

  datatype Option<+T> = None | Some(value: T)

  datatype Id = Id(text: string)

  datatype Path = Path(text: string)

  const NO_PATH := Path("")

  datatype Claim = Claim(owner: string, files: seq<Path>, intent: string, expires: int, token: nat)

  datatype Store = Store(claims: map<Id, Claim>, byPath: map<Path, Id>, nextFence: nat)

  datatype Conflict = Conflict(path: Path, holderId: Id, holderOwner: string, holderIntent: string)

  datatype Answer = Granted(id: Id) | Conflicting(conflicts: seq<Conflict>) | Invalid
                  | Done | NotFound | Forbidden | StaleToken

  const DEFAULT_TTL := 1800

  // ---- Critical sections as functions ----

  predicate Expired(c: Claim, now: int) { now > c.expires }

  /** expireLocked. */
  function Expire(s: Store, now: int): Store {
    s.(claims := map id | id in s.claims && !Expired(s.claims[id], now) :: s.claims[id],
       byPath := map p | p in s.byPath && !(s.byPath[p] in s.claims && Expired(s.claims[s.byPath[p]], now)
                                            && p in s.claims[s.byPath[p]].files) :: s.byPath[p])
  }

  function MergeUnique(a: seq<Path>, b: seq<Path>): seq<Path>
    decreases |b|
  {
    if b == [] then a else MergeUnique(if b[0] in a then a else a + [b[0]], b[1..])
  }

  function Holder(s: Store, p: Path): Option<Claim> {
    if p in s.byPath && s.byPath[p] in s.claims then Some(s.claims[s.byPath[p]]) else None
  }

  /** The requested paths held by somebody else, in request order. */
  function Conflicts(s: Store, owner: string, files: seq<Path>): seq<Conflict> {
    if files == [] then [] else
      var h := Holder(s, files[0]);
      (if h.Some? && h.value.owner != owner
       then [Conflict(files[0], s.byPath[files[0]], h.value.owner, h.value.intent)] else [])
      + Conflicts(s, owner, files[1..])
  }

  /** The claim of the first requested path that is already ours. */
  function Existing(s: Store, owner: string, files: seq<Path>): Option<Id> {
    if files == [] then None
    else if Holder(s, files[0]).Some? && Holder(s, files[0]).value.owner == owner then Some(s.byPath[files[0]])
    else Existing(s, owner, files[1..])
  }

  function Indexed(s: Store, files: seq<Path>, id: Id): map<Path, Id> {
    s.byPath + map p | p in files && p !in s.byPath :: id
  }

  function Renewed(s: Store, mine: Id, files: seq<Path>, intent: string, expires: int): Store
    requires mine in s.claims
  {
    var c := s.claims[mine];
    s.(claims := s.claims[mine := c.(files := MergeUnique(c.files, files), intent := intent, expires := expires)],
       byPath := Indexed(s, files, mine))
  }

  function Issued(s: Store, id: Id, owner: string, files: seq<Path>, intent: string, expires: int): Store {
    Store(s.claims[id := Claim(owner, files, intent, expires, s.nextFence)],
          s.byPath + map p | p in files :: id, s.nextFence + 1)
  }

  /** Acquire on distinct normalised paths, after expiry. */
  function Grant(s: Store, id: Id, owner: string, files: seq<Path>, intent: string, expires: int): (Store, Answer) {
    var conflicts := Conflicts(s, owner, files);
    if conflicts != [] then (s, Conflicting(conflicts))
    else match Existing(s, owner, files)
      case Some(mine) => if mine in s.claims then (Renewed(s, mine, files, intent, expires), Granted(mine)) else (s, Invalid)
      case None => (Issued(s, id, owner, files, intent, expires), Granted(id))
  }

  function Guarded(s: Store, id: Id, owner: string, token: nat): Answer {
    if id !in s.claims then NotFound
    else if s.claims[id].owner != owner then Forbidden
    else if s.claims[id].token != token then StaleToken
    else Done
  }

  function Drop(s: Store, id: Id): Store {
    s.(claims := s.claims - {id},
       byPath := map p | p in s.byPath && !(s.byPath[p] == id && id in s.claims && p in s.claims[id].files) :: s.byPath[p])
  }

  datatype Op =
    | Acquire(id: Id, owner: string, files: seq<Path>, intent: string, expires: int)
    | Release(id: Id, owner: string, token: nat)
    | Renew(id: Id, owner: string, token: nat, expires: int)
    | Touch

  /** When a lease taken now runs out. */
  function Lease(now: int, ttl: int): int { now + if ttl <= 0 then DEFAULT_TTL else ttl }

  /** Acquire's checks before the lock; `files` are the normalised paths, NO_PATH for one that was rejected. */
  predicate Refused(owner: string, files: seq<Path>, intent: string) {
    owner == "" || files == [] || intent == "" || NO_PATH in files
  }

  function Apply(s: Store, op: Op, now: int): (Store, Answer) {
    match op
    case Acquire(id, owner, files, intent, expires) =>
      if Refused(owner, files, intent) then (s, Invalid)
      else Grant(Expire(s, now), id, owner, MergeUnique([], files), intent, expires)
    case Release(id, owner, token) =>
      var e := Expire(s, now);
      var a := Guarded(e, id, owner, token);
      (if a == Done then Drop(e, id) else e, a)
    case Renew(id, owner, token, expires) =>
      var e := Expire(s, now);
      var a := Guarded(e, id, owner, token);
      (if a == Done && id in e.claims then e.(claims := e.claims[id := e.claims[id].(expires := expires)]) else e, a)
    case Touch => (Expire(s, now), Done)
  }

  /** A claim id is drawn fresh. */
  predicate FreshId(s: Store, op: Op) { op.Acquire? ==> op.id !in s.claims }

  // ---- Invariants ----

  /** Every indexed path points to a live claim that lists it. */
  predicate IndexOk(s: Store) {
    forall p :: p in s.byPath ==> s.byPath[p] in s.claims && p in s.claims[s.byPath[p]].files
  }

  /** Tokens are unique and below the next one. */
  predicate TokensOk(s: Store) {
    && (forall id :: id in s.claims ==> s.claims[id].token < s.nextFence)
    && (forall a, b :: a in s.claims && b in s.claims && s.claims[a].token == s.claims[b].token ==> a == b)
  }

  predicate FilesOk(s: Store) {
    forall id :: id in s.claims ==> NoDuplicates(s.claims[id].files)
  }

  predicate Inv(s: Store) { IndexOk(s) && TokensOk(s) && FilesOk(s) }

  lemma {:induction false} MergeKeeps(a: seq<Path>, b: seq<Path>)
    ensures forall p :: p in MergeUnique(a, b) <==> p in a || p in b
    ensures NoDuplicates(a) ==> NoDuplicates(MergeUnique(a, b))
    ensures a <= MergeUnique(a, b)
    decreases |b|
  {
    if b != [] {
      var next := if b[0] in a then a else a + [b[0]];
      MergeKeeps(next, b[1..]);
      assert b == [b[0]] + b[1..];
    }
  }

  lemma ExpireKeeps(s: Store, now: int)
    requires Inv(s)
    ensures Inv(Expire(s, now)) && Expire(s, now).nextFence == s.nextFence
    ensures forall p :: p in Expire(s, now).byPath <==> p in s.byPath && !Expired(s.claims[s.byPath[p]], now)
    ensures forall p :: p in Expire(s, now).byPath ==> Expire(s, now).byPath[p] == s.byPath[p]
  {
  }

  /** The conflict list is exact: the requested paths with another live holder, in order, with that holder's data. */
  lemma {:induction false} ConflictsAreExact(s: Store, owner: string, files: seq<Path>)
    ensures forall c :: c in Conflicts(s, owner, files) <==>
              c.path in files && Holder(s, c.path).Some? && Holder(s, c.path).value.owner != owner
              && c == Conflict(c.path, s.byPath[c.path], Holder(s, c.path).value.owner, Holder(s, c.path).value.intent)
    ensures |Conflicts(s, owner, files)| <= |files|
  {
    if files != [] {
      ConflictsAreExact(s, owner, files[1..]);
      assert files == [files[0]] + files[1..];
    }
  }

  lemma {:induction false} ExistingIsOurs(s: Store, owner: string, files: seq<Path>)
    ensures match Existing(s, owner, files)
            case Some(id) => id in s.claims && s.claims[id].owner == owner && exists p :: p in files && p in s.byPath && s.byPath[p] == id
            case None => forall p :: p in files && Holder(s, p).Some? ==> Holder(s, p).value.owner != owner
  {
    if files != [] {
      ExistingIsOurs(s, owner, files[1..]);
      assert files == [files[0]] + files[1..];
    }
  }

  lemma NoConflictMeansOurs(s: Store, owner: string, files: seq<Path>, p: Path)
    requires Conflicts(s, owner, files) == [] && p in files && Holder(s, p).Some?
    ensures Holder(s, p).value.owner == owner
  {
    ConflictsAreExact(s, owner, files);
    var h := Holder(s, p).value;
    var c := Conflict(p, s.byPath[p], h.owner, h.intent);
    assert c in Conflicts(s, owner, files) <==> h.owner != owner;
  }

  lemma RenewedKeepsInv(s: Store, mine: Id, files: seq<Path>, intent: string, expires: int)
    requires Inv(s) && mine in s.claims
    ensures Inv(Renewed(s, mine, files, intent, expires))
  {
    MergeKeeps(s.claims[mine].files, files);
  }

  lemma IssuedKeepsInv(s: Store, id: Id, owner: string, files: seq<Path>, intent: string, expires: int)
    requires Inv(s) && id !in s.claims && NoDuplicates(files)
    ensures Inv(Issued(s, id, owner, files, intent, expires))
  {
  }

  lemma GrantKeepsInv(s: Store, id: Id, owner: string, files: seq<Path>, intent: string, expires: int)
    requires Inv(s) && id !in s.claims && NoDuplicates(files)
    ensures Inv(Grant(s, id, owner, files, intent, expires).0)
  {
    var existing := Existing(s, owner, files);
    if existing.Some? && existing.value in s.claims {
      RenewedKeepsInv(s, existing.value, files, intent, expires);
    } else {
      IssuedKeepsInv(s, id, owner, files, intent, expires);
    }
  }

  lemma DropKeepsInv(s: Store, id: Id)
    requires Inv(s)
    ensures Inv(Drop(s, id))
  {
  }

  lemma ExtendKeepsInv(s: Store, id: Id, expires: int)
    requires Inv(s) && id in s.claims
    ensures Inv(s.(claims := s.claims[id := s.claims[id].(expires := expires)]))
  {
  }

  lemma StepKeepsInv(s: Store, op: Op, now: int)
    requires Inv(s) && FreshId(s, op)
    ensures Inv(Apply(s, op, now).0)
  {
    ExpireKeeps(s, now);
    var e := Expire(s, now);
    match op
    case Acquire(id, owner, files, intent, expires) =>
      MergeKeeps([], files);
      GrantKeepsInv(e, id, owner, MergeUnique([], files), intent, expires);
    case Release(id, _, _) => DropKeepsInv(e, id);
    case Renew(id, _, _, expires) => if id in e.claims { ExtendKeepsInv(e, id, expires); }
    case Touch =>
  }

  /** Acquire by anyone else fails, with the exact list of conflicts, as long as the indexed claim is live; nothing but
      expiry happens then. Without such a path it never fails. */
  lemma AcquireFailsExactlyOnConflict(s: Store, id: Id, owner: string, files: seq<Path>, intent: string, expires: int, now: int)
    requires Inv(s) && id !in s.claims && !Refused(owner, files, intent)
    ensures var e := Expire(s, now); var (t, a) := Apply(s, Acquire(id, owner, files, intent, expires), now);
            if exists p :: p in files && p in e.byPath && e.claims[e.byPath[p]].owner != owner
            then t == e && a.Conflicting? && a.conflicts == Conflicts(e, owner, MergeUnique([], files))
            else a.Granted? && a.id in t.claims && t.claims[a.id].owner == owner && forall p :: p in files ==> p in t.claims[a.id].files
  {
    var e, fs := Expire(s, now), MergeUnique([], files);
    ExpireKeeps(s, now);
    MergeKeeps([], files);
    ExistingIsOurs(e, owner, fs);
    ConflictsAreExact(e, owner, fs);
    if exists p :: p in files && p in e.byPath && e.claims[e.byPath[p]].owner != owner {
      var p :| p in files && p in e.byPath && e.claims[e.byPath[p]].owner != owner;
      var h := Holder(e, p).value;
      assert Conflict(p, e.byPath[p], h.owner, h.intent) in Conflicts(e, owner, fs);
    } else {
      NoConflict(e, owner, fs);
      var mine := Existing(e, owner, fs);
      if mine.Some? { MergeKeeps(e.claims[mine.value].files, fs); }
    }
  }

  lemma {:induction false} NoConflict(s: Store, owner: string, files: seq<Path>)
    requires forall p :: p in files && Holder(s, p).Some? ==> Holder(s, p).value.owner == owner
    ensures Conflicts(s, owner, files) == []
  {
    if files != [] {
      assert files == [files[0]] + files[1..];
      NoConflict(s, owner, files[1..]);
    }
  }

  lemma GrantKeepsIndex(s: Store, id: Id, owner: string, files: seq<Path>, intent: string, expires: int, p: Path)
    requires Inv(s) && id !in s.claims && p in s.byPath
    ensures var t := Grant(s, id, owner, files, intent, expires).0;
            p in t.byPath && t.byPath[p] == s.byPath[p] && t.byPath[p] in t.claims
            && t.claims[t.byPath[p]].owner == s.claims[s.byPath[p]].owner && t.claims[t.byPath[p]].token == s.claims[s.byPath[p]].token
  {
    ExistingIsOurs(s, owner, files);
    if Conflicts(s, owner, files) == [] && Existing(s, owner, files).None? && p in files {
      NoConflictMeansOurs(s, owner, files, p);
    }
  }

  /** A path changes hands only when its claim expires or is released by its owner with the current token. */
  lemma PathChangesOnlyByReleaseOrExpiry(s: Store, op: Op, now: int, p: Path)
    requires Inv(s) && FreshId(s, op) && p in s.byPath
    ensures var (t, a) := Apply(s, op, now); var c := s.claims[s.byPath[p]];
            || (p in t.byPath && t.byPath[p] == s.byPath[p] && t.byPath[p] in t.claims
                && t.claims[t.byPath[p]].owner == c.owner && t.claims[t.byPath[p]].token == c.token)
            || Expired(c, now)
            || (op.Release? && a == Done && op.id == s.byPath[p] && op.owner == c.owner && op.token == c.token)
  {
    ExpireKeeps(s, now);
    var e := Expire(s, now);
    if p in e.byPath && op.Acquire? {
      GrantKeepsIndex(e, op.id, op.owner, MergeUnique([], op.files), op.intent, op.expires, p);
    }
  }

  /** A fresh claim's token exceeds every token issued before. */
  lemma FreshTokenIsNew(s: Store, op: Op, now: int)
    requires Inv(s) && FreshId(s, op)
    ensures var (t, a) := Apply(s, op, now);
            if op.Acquire? && a == Granted(op.id) then op.id in t.claims && t.claims[op.id].token == s.nextFence && t.nextFence == s.nextFence + 1
            else t.nextFence == s.nextFence && forall id :: id in t.claims ==> id in s.claims && t.claims[id].token == s.claims[id].token
  {
    ExpireKeeps(s, now);
    if op.Acquire? { ExistingIsOurs(Expire(s, now), op.owner, MergeUnique([], op.files)); }
  }

  // ---- Sharing ----

  /** Every path a live claim lists is indexed to it; then no two claims list a common path. */
  ghost predicate Tight(s: Store) {
    forall id, p :: ListedBy(s, id, p) ==> p in s.byPath && s.byPath[p] == id
  }

  lemma TightMeansExclusive(s: Store, a: Id, b: Id, p: Path)
    requires Tight(s) && a in s.claims && b in s.claims && p in s.claims[a].files && p in s.claims[b].files
    ensures a == b
  {
    assert ListedBy(s, a, p) && ListedBy(s, b, p);
  }

  predicate ListedBy(s: Store, id: Id, p: Path) { id in s.claims && p in s.claims[id].files }

  /** Acquire keeps that exactly when no requested path is indexed to another claim of the same owner. */
  lemma GrantKeepsTightIff(s: Store, id: Id, owner: string, files: seq<Path>, intent: string, expires: int)
    requires Inv(s) && Tight(s) && id !in s.claims && NoDuplicates(files) && Conflicts(s, owner, files) == []
    ensures Tight(Grant(s, id, owner, files, intent, expires).0)
      <==> forall p, q :: p in files && q in files && p in s.byPath && q in s.byPath ==> s.byPath[p] == s.byPath[q]
  {
    ExistingIsOurs(s, owner, files);
    forall p | p in files && p in s.byPath ensures Holder(s, p).value.owner == owner { NoConflictMeansOurs(s, owner, files, p); }
    var mine := Existing(s, owner, files);
    if mine.Some? {
      RenewedTightIff(s, mine.value, files, intent, expires);
      var m :| m in files && m in s.byPath && s.byPath[m] == mine.value;
    } else {
      IssuedIsTight(s, id, owner, files, intent, expires);
    }
  }

  lemma RenewedTightIff(s: Store, mine: Id, files: seq<Path>, intent: string, expires: int)
    requires Inv(s) && Tight(s) && mine in s.claims
    ensures Tight(Renewed(s, mine, files, intent, expires)) <==> forall p :: p in files && p in s.byPath ==> s.byPath[p] == mine
  {
    MergeKeeps(s.claims[mine].files, files);
    var t := Renewed(s, mine, files, intent, expires);
    assert forall id, p :: ListedBy(t, id, p) <==> ListedBy(s, id, p) || (id == mine && p in files);
    assert forall p :: p in t.byPath <==> p in s.byPath || p in files;
    if Tight(t) {
      forall p | p in files && p in s.byPath ensures s.byPath[p] == mine { assert ListedBy(t, mine, p); }
    }
  }

  lemma IssuedIsTight(s: Store, id: Id, owner: string, files: seq<Path>, intent: string, expires: int)
    requires Inv(s) && Tight(s) && id !in s.claims && forall p :: p in files ==> p !in s.byPath
    ensures Tight(Issued(s, id, owner, files, intent, expires))
  {
    var t := Issued(s, id, owner, files, intent, expires);
    assert forall x, p :: ListedBy(t, x, p) <==> ListedBy(s, x, p) || (x == id && p in files);
  }

  lemma ExpireKeepsTight(s: Store, now: int)
    requires Inv(s) && Tight(s)
    ensures Tight(Expire(s, now))
  {
    forall id, p | ListedBy(Expire(s, now), id, p) ensures p in Expire(s, now).byPath && Expire(s, now).byPath[p] == id {
      assert ListedBy(s, id, p);
    }
  }

  lemma DropKeepsTight(s: Store, id: Id)
    requires Inv(s) && Tight(s)
    ensures Tight(Drop(s, id))
  {
    forall x, p | ListedBy(Drop(s, id), x, p) ensures p in Drop(s, id).byPath && Drop(s, id).byPath[p] == x { assert ListedBy(s, x, p); }
  }

  lemma ExtendKeepsTight(s: Store, id: Id, expires: int)
    requires Tight(s) && id in s.claims
    ensures Tight(s.(claims := s.claims[id := s.claims[id].(expires := expires)]))
  {
    var t := s.(claims := s.claims[id := s.claims[id].(expires := expires)]);
    assert forall x, p :: ListedBy(t, x, p) <==> ListedBy(s, x, p);
  }

  /** No owner holds two live claims. */
  predicate OneEach(s: Store) {
    forall a, b :: a in s.claims && b in s.claims && s.claims[a].owner == s.claims[b].owner ==> a == b
  }

  lemma StepKeepsTight(s: Store, op: Op, now: int)
    requires Inv(s) && Tight(s) && OneEach(s) && FreshId(s, op)
    ensures Tight(Apply(s, op, now).0)
  {
    var e := Expire(s, now);
    ExpireKeeps(s, now);
    ExpireKeepsTight(s, now);
    match op
    case Acquire(id, owner, files, intent, expires) =>
      var fs := MergeUnique([], files);
      MergeKeeps([], files);
      if Conflicts(e, owner, fs) == [] {
        GrantKeepsTightIff(e, id, owner, fs, intent, expires);
        forall p, q | p in fs && q in fs && p in e.byPath && q in e.byPath ensures e.byPath[p] == e.byPath[q] {
          NoConflictMeansOurs(e, owner, fs, p);
          NoConflictMeansOurs(e, owner, fs, q);
        }
      }
    case Release(id, _, _) => DropKeepsTight(e, id);
    case Renew(id, _, _, expires) => if id in e.claims { ExtendKeepsTight(e, id, expires); }
    case Touch =>
  }

  // ---- Runs ----

  datatype Event = Event(op: Op, now: int)

  const EMPTY := Store(map[], map[], 1)

  predicate StepBy(s: Store, e: Event, t: Store) {
    FreshId(s, e.op) && t == Apply(s, e.op, e.now).0
  }

  predicate Run(tr: seq<Store>, es: seq<Event>) {
    && |tr| == |es| + 1 && tr[0] == EMPTY
    && forall i, j :: 0 <= i < |es| && 0 <= j < |tr| && j == i + 1 ==> StepBy(tr[i], es[i], tr[j])
  }

  lemma {:induction false} InvAt(tr: seq<Store>, es: seq<Event>, i: nat)
    requires Run(tr, es) && i < |tr|
    ensures Inv(tr[i])
  {
    if i > 0 {
      InvAt(tr, es, i - 1);
      assert StepBy(tr[i - 1], es[i - 1], tr[i]);
      StepKeepsInv(tr[i - 1], es[i - 1].op, es[i - 1].now);
    }
  }

  lemma {:induction false} FencesGrow(tr: seq<Store>, es: seq<Event>, i: nat, j: nat)
    requires Run(tr, es) && i <= j < |tr|
    ensures tr[i].nextFence <= tr[j].nextFence
    decreases j
  {
    if i < j {
      FencesGrow(tr, es, i, j - 1);
      InvAt(tr, es, j - 1);
      assert StepBy(tr[j - 1], es[j - 1], tr[j]);
      FreshTokenIsNew(tr[j - 1], es[j - 1].op, es[j - 1].now);
    }
  }

  /** Over a whole run, a fresh claim gets a token above that of every claim that was ever live. */
  lemma FreshTokenExceedsAllBefore(tr: seq<Store>, es: seq<Event>, i: nat, j: nat, id: Id)
    requires Run(tr, es) && i <= j < |es| && id in tr[i].claims
    requires es[j].op.Acquire? && Apply(tr[j], es[j].op, es[j].now).1 == Granted(es[j].op.id)
    ensures es[j].op.id in tr[j + 1].claims && tr[i].claims[id].token < tr[j + 1].claims[es[j].op.id].token
  {
    InvAt(tr, es, i);
    InvAt(tr, es, j);
    FencesGrow(tr, es, i, j);
    assert StepBy(tr[j], es[j], tr[j + 1]);
    FreshTokenIsNew(tr[j], es[j].op, es[j].now);
  }

  /** If owners never hold two live claims, no two claims ever list a common path. */
  lemma {:induction false} OneClaimEachNeverShares(tr: seq<Store>, es: seq<Event>, i: nat)
    requires Run(tr, es) && i < |tr| && forall k :: 0 <= k < i ==> OneEach(tr[k])
    ensures Tight(tr[i])
  {
    if i > 0 {
      OneClaimEachNeverShares(tr, es, i - 1);
      InvAt(tr, es, i - 1);
      assert StepBy(tr[i - 1], es[i - 1], tr[i]);
      StepKeepsTight(tr[i - 1], es[i - 1].op, es[i - 1].now);
    }
  }

  // ---- Where the stated intent fails ----

  /** Nothing expires at `now`. */
  predicate AllLive(s: Store, now: int) {
    forall id :: id in s.claims ==> !Expired(s.claims[id], now)
  }

  lemma ExpireNothing(s: Store, now: int)
    requires Inv(s) && AllLive(s, now)
    ensures Expire(s, now) == s
  {
    assert Expire(s, now).claims == s.claims && Expire(s, now).byPath == s.byPath;
  }

  lemma TwoPaths(p: Path, q: Path)
    requires p != q
    ensures MergeUnique([], [p, q]) == [p, q]
  {
    assert [] + [p] == [p] && [p] + [q] == [p, q] && [p, q][1..] == [q] && [q][1..] == [];
    assert MergeUnique([p, q], []) == [p, q];
    assert MergeUnique([p], [q]) == [p, q];
  }

  /** A request whose first path is ours and whose other path is ours or free renews the claim of the first. */
  lemma RenewalByFirst(s: Store, id: Id, owner: string, p: Path, q: Path, expires: int)
    requires p in s.byPath && s.byPath[p] in s.claims && s.claims[s.byPath[p]].owner == owner
    requires Holder(s, q).Some? ==> Holder(s, q).value.owner == owner
    ensures Grant(s, id, owner, [p, q], "i", expires) == (Renewed(s, s.byPath[p], [p, q], "i", expires), Granted(s.byPath[p]))
  {
    NoConflict(s, owner, [p, q]);
  }

  lemma AcquireTwo(s: Store, id: Id, owner: string, p: Path, q: Path, expires: int, now: int)
    requires Inv(s) && AllLive(s, now) && owner != "" && p != q && p != NO_PATH && q != NO_PATH
    ensures Apply(s, Acquire(id, owner, [p, q], "i", expires), now) == Grant(s, id, owner, [p, q], "i", expires)
  {
    ExpireNothing(s, now);
    TwoPaths(p, q);
  }

  /** Two live claims of one owner, on p and on q. */
  predicate TwoClaims(s: Store, p: Path, q: Path, owner: string, now: int) {
    && Inv(s) && AllLive(s, now) && owner != "" && p != q && p != NO_PATH && q != NO_PATH
    && p in s.byPath && q in s.byPath && s.byPath[p] != s.byPath[q]
    && s.claims[s.byPath[p]].owner == owner && s.claims[s.byPath[q]].owner == owner
  }

  /** Renewing the one with a path of the other makes both claims list it, indexed to the other. */
  lemma RenewalListsAnIndexedPath(s: Store, p: Path, q: Path, owner: string, x: Id, expires: int, now: int)
    requires TwoClaims(s, p, q, owner, now) && x !in s.claims && expires >= now
    ensures var t := Apply(s, Acquire(x, owner, [p, q], "i", expires), now).0;
            && Inv(t) && AllLive(t, now) && ListedBy(t, s.byPath[p], q) && ListedBy(t, s.byPath[q], q)
            && t.byPath == s.byPath && t.claims.Keys == s.claims.Keys
            && t.claims[s.byPath[q]] == s.claims[s.byPath[q]] && t.claims[s.byPath[p]].owner == owner
  {
    AcquireTwo(s, x, owner, p, q, expires, now);
    RenewalByFirst(s, x, owner, p, q, expires);
    RenewedLists(s, s.byPath[p], p, q, expires, now);
  }

  lemma RenewedLists(s: Store, mine: Id, p: Path, q: Path, expires: int, now: int)
    requires Inv(s) && AllLive(s, now) && mine in s.claims && p in s.byPath && q in s.byPath && expires >= now
    ensures var t := Renewed(s, mine, [p, q], "i", expires);
            && Inv(t) && AllLive(t, now) && ListedBy(t, mine, q) && t.byPath == s.byPath && t.claims.Keys == s.claims.Keys
            && (forall id :: id in s.claims && id != mine ==> t.claims[id] == s.claims[id]) && t.claims[mine].owner == s.claims[mine].owner
  {
    MergeKeeps(s.claims[mine].files, [p, q]);
    RenewedKeepsInv(s, mine, [p, q], "i", expires);
    assert Indexed(s, [p, q], mine) == s.byPath;
  }

  /** Once that other claim is released, somebody else acquires the path, and claims of two owners list it. */
  lemma RenewalCanShareAPath(t1: Store, mine: Id, other: Id, q: Path, owner: string, y: Id, stranger: string, expires: int, now: int)
    requires Inv(t1) && AllLive(t1, now) && mine != other && ListedBy(t1, mine, q) && q in t1.byPath && t1.byPath[q] == other
    requires t1.claims[mine].owner == owner && t1.claims[other].owner == owner && stranger != owner
    requires y !in t1.claims && stranger != "" && q != NO_PATH
    ensures var t2 := Apply(t1, Release(other, owner, t1.claims[other].token), now).0;
            var (t3, a) := Apply(t2, Acquire(y, stranger, [q], "i", expires), now);
            && a.Granted? && ListedBy(t3, mine, q) && ListedBy(t3, a.id, q)
            && t3.claims[mine].owner == owner && t3.claims[a.id].owner == stranger
  {
    ExpireNothing(t1, now);
    var t2 := Drop(t1, other);
    DropKeepsInv(t1, other);
    assert q !in t2.byPath;
    ExpireNothing(t2, now);
    AcquireFailsExactlyOnConflict(t2, y, stranger, [q], "i", expires, now);
    StrangerKeepsOthers(t2, y, stranger, q, expires, now, mine);
  }

  lemma StrangerKeepsOthers(s: Store, y: Id, stranger: string, q: Path, expires: int, now: int, mine: Id)
    requires Inv(s) && AllLive(s, now) && mine in s.claims && y !in s.claims && q !in s.byPath
    ensures var t := Apply(s, Acquire(y, stranger, [q], "i", expires), now).0; mine in t.claims && t.claims[mine] == s.claims[mine]
  {
    ExpireNothing(s, now);
    MergeKeeps([], [q]);
    ExistingIsOurs(s, stranger, MergeUnique([], [q]));
  }

  // ---- Tokens per path ----

  predicate Leased(s: Store, p: Path) { p in s.byPath && s.byPath[p] in s.claims }

  /** The token of the claim a path is indexed to. */
  function TokenOf(s: Store, p: Path): nat
    requires Leased(s, p)
  {
    s.claims[s.byPath[p]].token
  }

  /** A renewal that adds a free path: the request names a path of a claim the owner holds, and no path of anybody else. */
  predicate AddsFreePath(s: Store, op: Op, now: int, mine: Id, p: Path) {
    var e := Expire(s, now);
    && op.Acquire? && !Refused(op.owner, op.files, op.intent) && p in op.files && p !in e.byPath
    && Conflicts(e, op.owner, MergeUnique([], op.files)) == []
    && Existing(e, op.owner, MergeUnique([], op.files)) == Some(mine)
  }

  /** Whose token a path carries after one step: still its holder's, a fresh one, or that of an older claim it was added to. */
  lemma IndexedToken(s: Store, op: Op, now: int, p: Path)
    requires Inv(s) && FreshId(s, op) && p in Apply(s, op, now).0.byPath
    ensures var t := Apply(s, op, now).0;
            && Leased(t, p)
            && if t == s || p in Expire(s, now).byPath then Leased(s, p) && TokenOf(t, p) == TokenOf(s, p)
               else if op.Acquire? && Existing(Expire(s, now), op.owner, MergeUnique([], op.files)).None? then TokenOf(t, p) == s.nextFence
               else exists mine :: AddsFreePath(s, op, now, mine, p) && mine in s.claims && TokenOf(t, p) == s.claims[mine].token
  {
    ExpireKeeps(s, now);
    StepKeepsInv(s, op, now);
    var e := Expire(s, now);
    if p in e.byPath {
      PathChangesOnlyByReleaseOrExpiry(s, op, now, p);
    } else if Apply(s, op, now).0 != s {
      assert op.Acquire? && !Refused(op.owner, op.files, op.intent);
      var fs := MergeUnique([], op.files);
      MergeKeeps([], op.files);
      ExistingIsOurs(e, op.owner, fs);
      if Existing(e, op.owner, fs).Some? { assert AddsFreePath(s, op, now, Existing(e, op.owner, fs).value, p); }
    }
  }

  /** In every run a path's token never falls from one moment to a later one. */
  ghost predicate TokensRise(tr: seq<Store>) {
    forall i, j, p :: 0 <= i <= j < |tr| && Leased(tr[i], p) && Leased(tr[j], p) ==> TokenOf(tr[i], p) <= TokenOf(tr[j], p)
  }

  /** Step k is a renewal that adds a free path to a claim older than one that has held that path before. */
  ghost predicate RevivesOlder(tr: seq<Store>, es: seq<Event>, k: nat)
    requires k < |es| && k < |tr|
  {
    exists mine, p, i :: 0 <= i <= k && AddsFreePath(tr[k], es[k].op, es[k].now, mine, p)
                         && mine in tr[k].claims && Leased(tr[i], p) && tr[k].claims[mine].token < TokenOf(tr[i], p)
  }

  lemma {:induction false} TokensStayBelow(tr: seq<Store>, es: seq<Event>, i: nat, k: nat, p: Path)
    requires Run(tr, es) && i <= k < |tr| && Leased(tr[i], p)
    ensures TokenOf(tr[i], p) < tr[k].nextFence
  {
    InvAt(tr, es, i);
    FencesGrow(tr, es, i, k);
  }

  lemma RiseStep(tr: seq<Store>, es: seq<Event>, i: nat, j: nat, p: Path)
    requires Run(tr, es) && i < j < |tr| && Leased(tr[i], p) && Leased(tr[j], p) && !RevivesOlder(tr, es, j - 1)
    requires Leased(tr[j - 1], p) ==> TokenOf(tr[i], p) <= TokenOf(tr[j - 1], p)
    ensures TokenOf(tr[i], p) <= TokenOf(tr[j], p)
  {
    var s, op, now := tr[j - 1], es[j - 1].op, es[j - 1].now;
    InvAt(tr, es, j - 1);
    assert StepBy(s, es[j - 1], tr[j]);
    IndexedToken(s, op, now, p);
    TokensStayBelow(tr, es, i, j - 1, p);
  }

  lemma {:induction false} RisesWithoutRevival(tr: seq<Store>, es: seq<Event>, i: nat, j: nat, p: Path)
    requires Run(tr, es) && i <= j < |tr| && Leased(tr[i], p) && Leased(tr[j], p)
    requires forall k :: 0 <= k < |es| ==> !RevivesOlder(tr, es, k)
    ensures TokenOf(tr[i], p) <= TokenOf(tr[j], p)
    decreases j
  {
    if i < j {
      if Leased(tr[j - 1], p) { RisesWithoutRevival(tr, es, i, j - 1, p); }
      RiseStep(tr, es, i, j, p);
    }
  }

  /** Tokens rise per path along a run, as the claim type's comment says they do, exactly when no renewal in it adds a free
      path to a claim older than one that has held that path before. */
  lemma TokensRiseIffNoOlderRevival(tr: seq<Store>, es: seq<Event>)
    requires Run(tr, es)
    ensures TokensRise(tr) <==> forall k :: 0 <= k < |es| ==> !RevivesOlder(tr, es, k)
  {
    if forall k :: 0 <= k < |es| ==> !RevivesOlder(tr, es, k) {
      forall i, j, p | 0 <= i <= j < |tr| && Leased(tr[i], p) && Leased(tr[j], p) ensures TokenOf(tr[i], p) <= TokenOf(tr[j], p) {
        RisesWithoutRevival(tr, es, i, j, p);
      }
    } else {
      var k :| 0 <= k < |es| && RevivesOlder(tr, es, k);
      var mine, p, i :| 0 <= i <= k && AddsFreePath(tr[k], es[k].op, es[k].now, mine, p)
                        && mine in tr[k].claims && Leased(tr[i], p) && tr[k].claims[mine].token < TokenOf(tr[i], p);
      InvAt(tr, es, k);
      assert StepBy(tr[k], es[k], tr[k + 1]);
      RevivedToken(tr[k], es[k].op, es[k].now, mine, p);
      assert Leased(tr[k + 1], p);
    }
  }

  /** A path added by renewal carries the token of the claim it was added to. */
  lemma RevivedToken(s: Store, op: Op, now: int, mine: Id, p: Path)
    requires Inv(s) && FreshId(s, op) && AddsFreePath(s, op, now, mine, p)
    ensures var t := Apply(s, op, now).0; Leased(t, p) && t.byPath[p] == mine && mine in s.claims && TokenOf(t, p) == s.claims[mine].token
  {
    ExpireKeeps(s, now);
    MergeKeeps([], op.files);
    ExistingIsOurs(Expire(s, now), op.owner, MergeUnique([], op.files));
  }

  /** One acquire, decided by the state before it: a free path gets a token above an earlier one exactly when no requested
      path is ours yet, or the claim of the first such path was issued after that earlier one. */
  lemma TokenRisesIffClaimIsYounger(s: Store, op: Op, now: int, p: Path, last: nat)
    requires Inv(s) && op.Acquire? && FreshId(s, op) && p in op.files && p !in Expire(s, now).byPath && last < s.nextFence
    requires !Refused(op.owner, op.files, op.intent) && Conflicts(Expire(s, now), op.owner, MergeUnique([], op.files)) == []
    ensures var t := Apply(s, op, now).0; var mine := Existing(Expire(s, now), op.owner, MergeUnique([], op.files));
            && Leased(t, p) && (mine.Some? ==> mine.value in s.claims)
            && (last < TokenOf(t, p) <==> mine.None? || last < s.claims[mine.value].token)
  {
    ExpireKeeps(s, now);
    MergeKeeps([], op.files);
    var mine := Existing(Expire(s, now), op.owner, MergeUnique([], op.files));
    ExistingIsOurs(Expire(s, now), op.owner, MergeUnique([], op.files));
    if mine.Some? { RevivedToken(s, op, now, mine.value, p); }
  }

  lemma TokenCanFall(s: Store, p: Path, q: Path, x: Id, expires: int, now: int)
    requires Inv(s) && AllLive(s, now) && p != q && p != NO_PATH && q != NO_PATH && p in s.byPath && q in s.byPath
    requires s.claims[s.byPath[p]].token < s.claims[s.byPath[q]].token
    requires s.claims[s.byPath[p]].owner != "" && x !in s.claims
    ensures var mine, other := s.claims[s.byPath[p]], s.claims[s.byPath[q]];
            var t1 := Apply(s, Release(s.byPath[q], other.owner, other.token), now).0;
            var t2 := Apply(t1, Acquire(x, mine.owner, [p, q], "i", expires), now).0;
            q in t2.byPath && t2.byPath[q] in t2.claims && t2.claims[t2.byPath[q]].token < other.token
  {
    var mine, other := s.byPath[p], s.byPath[q];
    ExpireNothing(s, now);
    var t1 := Drop(s, other);
    DropKeepsInv(s, other);
    assert q !in t1.byPath && t1.byPath[p] == mine;
    AcquireTwo(t1, x, s.claims[mine].owner, p, q, expires, now);
    RenewalByFirst(t1, x, s.claims[mine].owner, p, q, expires);
  }
}
