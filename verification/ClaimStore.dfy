/** The claim store as the broker keeps it: two maps and a counter changed in place, each method one critical section
    proved to compute the corresponding function of Claims. */
module ClaimStore {
  import opened Claims

  class ClaimStore {
    var claims: map<Id, Claim>
    var byPath: map<Path, Id>
    var nextFence: nat

    constructor ()
      ensures View() == EMPTY
    {
      claims, byPath, nextFence := map[], map[], 1;
    }

    ghost function View(): Store
      reads this
    {
      Store(claims, byPath, nextFence)
    }

    /** Drop the index entries of one claim. */
    method Unindex(id: Id, files: seq<Path>)
      modifies this`byPath
      ensures byPath == map p | p in old(byPath) && !(old(byPath)[p] == id && p in files) :: old(byPath)[p]
    {
      var i := 0;
      while i < |files|
        invariant 0 <= i <= |files|
        invariant byPath == map p | p in old(byPath) && !(old(byPath)[p] == id && p in files[..i]) :: old(byPath)[p]
      {
        assert files[..i + 1] == files[..i] + [files[i]];
        if files[i] in byPath && byPath[files[i]] == id { byPath := byPath - {files[i]}; }
        i := i + 1;
      }
      assert files[..i] == files;
    }

    /** expireLocked, over the claims in any order. */
    method ExpireAll(now: int)
      modifies this`claims, this`byPath
      ensures View() == Expire(old(View()), now)
    {
      ghost var was := View();
      var rest := claims.Keys;
      while rest != {}
        invariant rest <= was.claims.Keys
        invariant claims == map id | id in was.claims && (id in rest || !Expired(was.claims[id], now)) :: was.claims[id]
        invariant byPath == map p | p in was.byPath && !Gone(was, p, rest, now) :: was.byPath[p]
        decreases |rest|
      {
        var id :| id in rest;
        GoneStep(was, rest, id, now);
        rest := rest - {id};
        var c := claims[id];
        if Expired(c, now) {
          Unindex(id, c.files);
          claims := claims - {id};
        }
      }
      assert claims == Expire(was, now).claims && byPath == Expire(was, now).byPath;
    }

    /** The distinct requested paths, in request order; None when one was rejected. */
    method Normalise(files: seq<Path>) returns (r: seq<Path>, ok: bool)
      ensures ok <==> NO_PATH !in files
      ensures ok ==> r == MergeUnique([], files)
    {
      r := [];
      var i := 0;
      while i < |files|
        invariant 0 <= i <= |files| && NO_PATH !in files[..i]
        invariant MergeUnique(r, files[i..]) == MergeUnique([], files)
      {
        assert files[..i + 1] == files[..i] + [files[i]];
        assert files[i..][1..] == files[i + 1..];
        if files[i] == NO_PATH { return r, false; }
        if files[i] !in r { r := r + [files[i]]; }
        i := i + 1;
      }
      assert files[..i] == files;
      ok := true;
    }

    /** Every requested path whose indexed claim has another owner. The index holds no stale entry to clean up here. */
    method FindConflicts(owner: string, files: seq<Path>) returns (r: seq<Conflict>)
      requires IndexOk(View())
      ensures r == Conflicts(View(), owner, files)
    {
      r := [];
      var i := 0;
      while i < |files|
        invariant 0 <= i <= |files|
        invariant r + Conflicts(View(), owner, files[i..]) == Conflicts(View(), owner, files)
      {
        ghost var rest := Conflicts(View(), owner, files[i + 1..]);
        assert files[i..][1..] == files[i + 1..];
        var found: seq<Conflict> := [];
        if files[i] in byPath && claims[byPath[files[i]]].owner != owner {
          var holder := claims[byPath[files[i]]];
          found := [Conflict(files[i], byPath[files[i]], holder.owner, holder.intent)];
        }
        assert Conflicts(View(), owner, files[i..]) == found + rest;
        assert r + (found + rest) == (r + found) + rest;
        r := r + found;
        i := i + 1;
      }
    }

    method FindExisting(owner: string, files: seq<Path>) returns (r: Option<Id>)
      requires IndexOk(View())
      ensures r == Existing(View(), owner, files)
    {
      var i := 0;
      while i < |files|
        invariant 0 <= i <= |files|
        invariant Existing(View(), owner, files[i..]) == Existing(View(), owner, files)
      {
        assert files[i..][1..] == files[i + 1..];
        if files[i] in byPath && claims[byPath[files[i]]].owner == owner { return Some(byPath[files[i]]); }
        i := i + 1;
      }
      r := None;
    }

    /** mergeUnique. */
    method Merge(a: seq<Path>, b: seq<Path>) returns (r: seq<Path>)
      ensures r == MergeUnique(a, b)
    {
      r := a;
      var i := 0;
      while i < |b|
        invariant 0 <= i <= |b|
        invariant MergeUnique(r, b[i..]) == MergeUnique(a, b)
      {
        assert b[i..][1..] == b[i + 1..];
        if b[i] !in r { r := r + [b[i]]; }
        i := i + 1;
      }
    }

    /** A renewal indexes only the paths nobody holds. */
    method IndexFree(id: Id, files: seq<Path>)
      modifies this`byPath
      ensures byPath == Indexed(old(View()), files, id)
    {
      ghost var was := byPath;
      var i := 0;
      while i < |files|
        invariant 0 <= i <= |files|
        invariant byPath == was + map p | p in files[..i] && p !in was :: id
      {
        assert files[..i + 1] == files[..i] + [files[i]];
        if files[i] !in byPath { byPath := byPath[files[i] := id]; }
        i := i + 1;
      }
      assert files[..i] == files;
    }

    method IndexAll(id: Id, files: seq<Path>)
      modifies this`byPath
      ensures byPath == old(byPath) + map p | p in files :: id
    {
      ghost var was := byPath;
      var i := 0;
      while i < |files|
        invariant 0 <= i <= |files|
        invariant byPath == was + map p | p in files[..i] :: id
      {
        assert files[..i + 1] == files[..i] + [files[i]];
        byPath := byPath[files[i] := id];
        i := i + 1;
      }
      assert files[..i] == files;
    }

    method AcquireClaim(id: Id, owner: string, files: seq<Path>, intent: string, ttl: int, now: int) returns (a: Answer)
      requires Inv(View()) && id !in claims
      modifies this
      ensures (View(), a) == Apply(old(View()), Acquire(id, owner, files, intent, Lease(now, ttl)), now)
      ensures Inv(View())
    {
      StepKeepsInv(View(), Acquire(id, owner, files, intent, Lease(now, ttl)), now);
      if owner == "" || files == [] || intent == "" { return Invalid; }
      var expires := Lease(now, ttl);
      var paths, ok := Normalise(files);
      if !ok { return Invalid; }
      ExpireKeeps(View(), now);
      ExpireAll(now);
      a := GrantPaths(id, owner, paths, intent, expires);
    }

    method GrantPaths(id: Id, owner: string, paths: seq<Path>, intent: string, expires: int) returns (a: Answer)
      requires IndexOk(View()) && id !in claims
      modifies this
      ensures (View(), a) == Grant(old(View()), id, owner, paths, intent, expires)
    {
      var conflicts := FindConflicts(owner, paths);
      if conflicts != [] { return Conflicting(conflicts); }
      var existing := FindExisting(owner, paths);
      ExistingIsOurs(View(), owner, paths);
      if existing.Some? {
        var c := claims[existing.value];
        var merged := Merge(c.files, paths);
        IndexFree(existing.value, paths);
        claims := claims[existing.value := c.(files := merged, intent := intent, expires := expires)];
        return Granted(existing.value);
      }
      claims := claims[id := Claim(owner, paths, intent, expires, nextFence)];
      nextFence := nextFence + 1;
      IndexAll(id, paths);
      a := Granted(id);
    }

    method ReleaseClaim(id: Id, owner: string, token: nat, now: int) returns (a: Answer)
      requires Inv(View())
      modifies this
      ensures (View(), a) == Apply(old(View()), Release(id, owner, token), now)
      ensures Inv(View())
    {
      StepKeepsInv(View(), Release(id, owner, token), now);
      ExpireAll(now);
      if id !in claims { return NotFound; }
      if claims[id].owner != owner { return Forbidden; }
      if claims[id].token != token { return StaleToken; }
      ghost var live := View();
      Unindex(id, claims[id].files);
      claims := claims - {id};
      assert View() == Drop(live, id);
      a := Done;
    }

    method RenewClaim(id: Id, owner: string, token: nat, ttl: int, now: int) returns (a: Answer)
      requires Inv(View())
      modifies this
      ensures (View(), a) == Apply(old(View()), Renew(id, owner, token, Lease(now, ttl)), now)
      ensures Inv(View())
    {
      StepKeepsInv(View(), Renew(id, owner, token, Lease(now, ttl)), now);
      var expires := Lease(now, ttl);
      ExpireAll(now);
      if id !in claims { return NotFound; }
      if claims[id].owner != owner { return Forbidden; }
      if claims[id].token != token { return StaleToken; }
      claims := claims[id := claims[id].(expires := expires)];
      a := Done;
    }

    /** Task admission with a list of claim ids: all of them live and held by the session, or the first that is not. */
    method ValidateForTask(owner: string, ids: seq<Id>, now: int) returns (a: Answer)
      requires Inv(View())
      modifies this
      ensures View() == if ids == [] then old(View()) else Expire(old(View()), now)
      ensures a == Done <==> forall k :: 0 <= k < |ids| ==> Held(Expire(old(View()), now), owner, ids[k])
    {
      if ids == [] { return Done; }
      ExpireAll(now);
      var i := 0;
      while i < |ids|
        invariant 0 <= i <= |ids|
        invariant forall k :: 0 <= k < i ==> Held(View(), owner, ids[k])
      {
        if ids[i] !in claims { return NotFound; }
        if claims[ids[i]].owner != owner { return Forbidden; }
        i := i + 1;
      }
      a := Done;
    }
  }

  predicate Held(s: Store, owner: string, id: Id) { id in s.claims && s.claims[id].owner == owner }

  lemma GoneStep(s: Store, rest: set<Id>, id: Id, now: int)
    requires id in rest && id in s.claims
    ensures forall p :: Gone(s, p, rest - {id}, now) <==> (Gone(s, p, rest, now) || OfClaim(s, p, id, now))
  {
  }

  predicate OfClaim(s: Store, p: Path, id: Id, now: int) {
    p in s.byPath && s.byPath[p] == id && id in s.claims && Expired(s.claims[id], now) && p in s.claims[id].files
  }

  /** An index entry of a claim that has already been dropped. */
  predicate Gone(s: Store, p: Path, rest: set<Id>, now: int) {
    p in s.byPath && s.byPath[p] in s.claims && s.byPath[p] !in rest && Expired(s.claims[s.byPath[p]], now)
    && p in s.claims[s.byPath[p]].files
  }
}
