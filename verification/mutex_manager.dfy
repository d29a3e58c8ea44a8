/** The lock manager of the service: namespaced lock keys, single-key
    acquire / release / query with a holder token, and the company lock that
    takes a company key and then every user key of the company, all or nothing. */
module MutexManager {
  import opened KeyValueStore

  const LockPrefix: string := "lock:"
  const UserClass: string := "user:"
  const CompanyClass: string := "company:"
  const ContractClass: string := "contract:"

  /** Expiry used when the caller gives none. */
  const DefaultTtl: int := 30

  function UserLockKey(userId: string): string {
    LockPrefix + UserClass + userId
  }

  function CompanyLockKey(companyId: string): string {
    LockPrefix + CompanyClass + companyId
  }

  function ContractLockKey(contractId: string): string {
    LockPrefix + ContractClass + contractId
  }

  /** A missing ttl argument falls back to the default. */
  function EffectiveTtl(ttl: Option<int>): int {
    if ttl.Some? then ttl.value else DefaultTtl
  }

  /** Each key builder is injective, and the three resource classes never
      share a key. */
  lemma {:induction false} LockKeysInjective(a: string, b: string)
    ensures UserLockKey(a) == UserLockKey(b) ==> a == b
    ensures CompanyLockKey(a) == CompanyLockKey(b) ==> a == b
    ensures ContractLockKey(a) == ContractLockKey(b) ==> a == b
  {
    if UserLockKey(a) == UserLockKey(b) {
      PrefixCancels(LockPrefix + UserClass, a, b);
    }
    if CompanyLockKey(a) == CompanyLockKey(b) {
      PrefixCancels(LockPrefix + CompanyClass, a, b);
    }
    if ContractLockKey(a) == ContractLockKey(b) {
      PrefixCancels(LockPrefix + ContractClass, a, b);
    }
  }

  lemma {:induction false} LockKeyClassesDisjoint(a: string, b: string)
    ensures UserLockKey(a) != CompanyLockKey(b)
    ensures UserLockKey(a) != ContractLockKey(b)
    ensures CompanyLockKey(a) != ContractLockKey(b)
  {
    // The sixth character is the first letter of the class name.
    assert UserLockKey(a)[5] == 'u';
    assert CompanyLockKey(a)[5] == 'c' && CompanyLockKey(b)[5] == 'c';
    assert CompanyLockKey(a)[6] == 'o';
    assert ContractLockKey(b)[5] == 'c' && ContractLockKey(b)[6] == 'o' && ContractLockKey(b)[7] != CompanyLockKey(a)[7];
  }

  // ---------------------------------------------------------------------
  // Single keys

  /** `SET key holder NX EX ttl`; a store error reads as "not acquired". */
  function AcquireLock(s: Store, key: string, holder: string, ttl: Option<int>): (r: (bool, Store))
    ensures r.0 <==> Accepts(s, EffectiveTtl(ttl)) && key !in s.entries
    ensures r.0 ==> r.1 == s.(entries := s.entries[key := Entry(holder, EffectiveTtl(ttl))])
    ensures !r.0 ==> r.1 == s
  {
    var (reply, s') := SetIfAbsent(s, key, holder, EffectiveTtl(ttl));
    match reply
    case Ok(written) => (written, s')
    case Fault => (false, s)
  }

  /** Atomic compare-and-delete; a store error reads as "not released". */
  function ReleaseLock(s: Store, key: string, holder: string): (r: (bool, Store))
    ensures r.0 <==> s.online && HeldBy(s, key, holder)
    ensures r.0 ==> r.1 == s.(entries := s.entries - {key})
    ensures !r.0 ==> r.1 == s
  {
    var (reply, s') := CompareAndDelete(s, key, holder);
    match reply
    case Ok(deleted) => (deleted == 1, if deleted == 1 then s' else s)
    case Fault => (false, s)
  }

  /** `EXISTS key`; a store error reads as "not locked". */
  function IsLocked(s: Store, key: string): (r: bool)
    ensures r <==> s.online && key in s.entries
  {
    match Exists(s, key)
    case Ok(n) => n == 1
    case Fault => false
  }

  /** `GET key`; a store error reads as "no holder". */
  function GetLockHolder(s: Store, key: string): (r: Option<string>)
    ensures r.Some? <==> s.online && key in s.entries
    ensures r.Some? ==> r.value == s.entries[key].value
  {
    match Get(s, key)
    case Ok(v) => v
    case Fault => None
  }

  /** Whether the key is locked, and by whom. */
  datatype LockStatus = LockStatus(locked: bool, holder: Option<string>)

  /** The holder is read only once the key is known to be locked. */
  function CheckLock(s: Store, key: string): (r: LockStatus)
    ensures r.locked <==> s.online && key in s.entries
    ensures r.holder == (if r.locked then Some(s.entries[key].value) else None)
  {
    var locked := IsLocked(s, key);
    LockStatus(locked, if locked then GetLockHolder(s, key) else None)
  }

  /** Everything but `key` is as it was. */
  predicate OnlyTouches(s: Store, s': Store, key: string) {
    s'.online == s.online && s'.entries - {key} == s.entries - {key}
  }

  function LockUser(s: Store, userId: string, holder: string, ttl: Option<int>): (r: (bool, Store))
    ensures r.0 <==> Accepts(s, EffectiveTtl(ttl)) && UserLockKey(userId) !in s.entries
    ensures r.0 ==> UserLockKey(userId) in r.1.entries
                    && r.1.entries[UserLockKey(userId)] == Entry(holder, EffectiveTtl(ttl))
    ensures OnlyTouches(s, r.1, UserLockKey(userId))
    ensures !r.0 ==> r.1 == s
  {
    AcquireLock(s, UserLockKey(userId), holder, ttl)
  }

  function UnlockUser(s: Store, userId: string, holder: string): (r: (bool, Store))
    ensures r.0 <==> s.online && HeldBy(s, UserLockKey(userId), holder)
    ensures r.0 ==> UserLockKey(userId) !in r.1.entries
    ensures OnlyTouches(s, r.1, UserLockKey(userId))
    ensures !r.0 ==> r.1 == s
  {
    ReleaseLock(s, UserLockKey(userId), holder)
  }

  function LockContract(s: Store, contractId: string, holder: string, ttl: Option<int>): (r: (bool, Store))
    ensures r.0 <==> Accepts(s, EffectiveTtl(ttl)) && ContractLockKey(contractId) !in s.entries
    ensures r.0 ==> ContractLockKey(contractId) in r.1.entries
                    && r.1.entries[ContractLockKey(contractId)] == Entry(holder, EffectiveTtl(ttl))
    ensures OnlyTouches(s, r.1, ContractLockKey(contractId))
    ensures !r.0 ==> r.1 == s
  {
    AcquireLock(s, ContractLockKey(contractId), holder, ttl)
  }

  function UnlockContract(s: Store, contractId: string, holder: string): (r: (bool, Store))
    ensures r.0 <==> s.online && HeldBy(s, ContractLockKey(contractId), holder)
    ensures r.0 ==> ContractLockKey(contractId) !in r.1.entries
    ensures OnlyTouches(s, r.1, ContractLockKey(contractId))
    ensures !r.0 ==> r.1 == s
  {
    ReleaseLock(s, ContractLockKey(contractId), holder)
  }

  function CheckUserLock(s: Store, userId: string): (r: LockStatus)
    ensures r.locked <==> s.online && UserLockKey(userId) in s.entries
    ensures r.locked ==> r.holder == Some(s.entries[UserLockKey(userId)].value)
    ensures !r.locked ==> r.holder == None
  {
    CheckLock(s, UserLockKey(userId))
  }

  function CheckCompanyLock(s: Store, companyId: string): (r: LockStatus)
    ensures r.locked <==> s.online && CompanyLockKey(companyId) in s.entries
    ensures r.locked ==> r.holder == Some(s.entries[CompanyLockKey(companyId)].value)
    ensures !r.locked ==> r.holder == None
  {
    CheckLock(s, CompanyLockKey(companyId))
  }

  function CheckContractLock(s: Store, contractId: string): (r: LockStatus)
    ensures r.locked <==> s.online && ContractLockKey(contractId) in s.entries
    ensures r.locked ==> r.holder == Some(s.entries[ContractLockKey(contractId)].value)
    ensures !r.locked ==> r.holder == None
  {
    CheckLock(s, ContractLockKey(contractId))
  }

  /** A second acquirer of a held key is refused, whoever it is. */
  lemma SecondAcquireRefused(s: Store, key: string, h1: string, h2: string, ttl: Option<int>)
    requires Accepts(s, EffectiveTtl(ttl)) && key !in s.entries
    ensures AcquireLock(s, key, h1, ttl).0
    ensures !AcquireLock(AcquireLock(s, key, h1, ttl).1, key, h2, ttl).0
    ensures AcquireLock(AcquireLock(s, key, h1, ttl).1, key, h2, ttl).1 == AcquireLock(s, key, h1, ttl).1
  {
  }

  /** Release is the inverse of acquire for the same holder: it succeeds and
      gives back the store as it was before the acquire. */
  lemma AcquireReleaseRoundTrip(s: Store, key: string, holder: string, ttl: Option<int>)
    requires Accepts(s, EffectiveTtl(ttl)) && key !in s.entries
    ensures ReleaseLock(AcquireLock(s, key, holder, ttl).1, key, holder).0
    ensures ReleaseLock(AcquireLock(s, key, holder, ttl).1, key, holder).1 == s
    ensures !CheckLock(ReleaseLock(AcquireLock(s, key, holder, ttl).1, key, holder).1, key).locked
  {
    var s1 := AcquireLock(s, key, holder, ttl).1;
    assert s1.entries - {key} == s.entries;
  }

  /** A lock that expired and was taken by someone else cannot be released
      by its former holder: the token comparison protects the new holder. */
  lemma StaleHolderCannotRelease(s: Store, key: string, h1: string, h2: string, ttl: Option<int>)
    requires Accepts(s, EffectiveTtl(ttl)) && key !in s.entries && h1 != h2
    ensures var s1 := AcquireLock(s, key, h1, ttl).1;
            var s2 := AcquireLock(Expire(s1, key), key, h2, ttl);
            && s2.0
            && !ReleaseLock(s2.1, key, h1).0
            && CheckLock(ReleaseLock(s2.1, key, h1).1, key) == LockStatus(true, Some(h2))
  {
  }

  // ---------------------------------------------------------------------
  // Company locks

  /** One element of the per-user report. */
  datatype UserLock = UserLock(userId: string, locked: bool)

  datatype CompanyLockResult =
    | CompanyLocked(userLocks: seq<UserLock>)
    | CompanyAlreadyLocked
    | UserLockFailed(failedUser: string)

  /** The keys of the given users. */
  function UserKeys(ids: seq<string>): set<string> {
    set u | u in ids :: UserLockKey(u)
  }

  /** The user at index `i` cannot be locked by a call that starts from `s`:
      its key is already taken, or it repeats an earlier user (whose lock the
      call itself has just taken). */
  predicate Blocked(s: Store, ids: seq<string>, i: int)
    requires 0 <= i < |ids|
  {
    UserLockKey(ids[i]) in s.entries || ids[i] in ids[..i]
  }

  /** `entries` with every key of `keys` set to `e`. */
  function Claim(entries: map<string, Entry>, keys: set<string>, e: Entry): map<string, Entry> {
    entries + map k | k in keys :: e
  }

  /** The user loop of `lockCompany`: the users locked (in order), the report
      built so far, and the user it stopped at, if any. */
  datatype UsersRun = UsersRun(store: Store, locked: seq<string>, report: seq<UserLock>, failed: Option<string>)

  function LockUsers(s: Store, ids: seq<string>, holder: string, ttl: Option<int>): (run: UsersRun)
    decreases |ids|
  {
    if |ids| == 0 then UsersRun(s, [], [], None)
    else
      var (ok, s1) := AcquireLock(s, UserLockKey(ids[0]), holder, ttl);
      if !ok then UsersRun(s1, [], [UserLock(ids[0], false)], Some(ids[0]))
      else
        var rest := LockUsers(s1, ids[1..], holder, ttl);
        UsersRun(rest.store, [ids[0]] + rest.locked, [UserLock(ids[0], true)] + rest.report, rest.failed)
  }

  /** The rollback: release each user in order, ignoring the outcome. */
  function ReleaseUsers(s: Store, ids: seq<string>, holder: string): Store
    decreases |ids|
  {
    if |ids| == 0 then s
    else ReleaseUsers(ReleaseLock(s, UserLockKey(ids[0]), holder).1, ids[1..], holder)
  }

  /** The first user, from index `from` on, that a call starting from `s`
      cannot lock; `|ids|` when there is none. */
  function FirstBlocked(s: Store, ids: seq<string>, from: int): (i: int)
    requires 0 <= from <= |ids|
    decreases |ids| - from
    ensures from <= i <= |ids|
    ensures forall j :: from <= j < i ==> !Blocked(s, ids, j)
    ensures i < |ids| ==> Blocked(s, ids, i)
  {
    if from == |ids| || Blocked(s, ids, from) then from else FirstBlocked(s, ids, from + 1)
  }

  /** Company key first; then each user in order; on the first user that
      cannot be locked, release the users taken so far and the company key.

      Stated against the store it starts from: it fails on a held company key
      without touching anything; otherwise it succeeds exactly when no user is
      blocked, and then holds the company key and every user key; and on the
      first blocked user it reports that user and leaves the store exactly as
      it found it. */
  function LockCompany(s: Store, companyId: string, userIds: seq<string>, holder: string, ttl: Option<int>)
    : (r: (CompanyLockResult, Store))
    ensures r.0.CompanyAlreadyLocked? <==> !Accepts(s, EffectiveTtl(ttl)) || CompanyLockKey(companyId) in s.entries
    ensures !r.0.CompanyLocked? ==> r.1 == s
    ensures r.0.UserLockFailed? ==>
              exists i :: 0 <= i < |userIds| && r.0.failedUser == userIds[i] && Blocked(s, userIds, i)
                          && forall j :: 0 <= j < i ==> !Blocked(s, userIds, j)
    ensures r.0.CompanyLocked? <==>
              && Accepts(s, EffectiveTtl(ttl)) && CompanyLockKey(companyId) !in s.entries
              && forall i :: 0 <= i < |userIds| ==> !Blocked(s, userIds, i)
    ensures r.0.CompanyLocked? ==>
              && r.1.online == s.online
              && r.1.entries == Claim(s.entries, {CompanyLockKey(companyId)} + UserKeys(userIds), Entry(holder, EffectiveTtl(ttl)))
              && |r.0.userLocks| == |userIds|
              && forall i :: 0 <= i < |userIds| ==> r.0.userLocks[i] == UserLock(userIds[i], true)
  {
    var companyKey := CompanyLockKey(companyId);
    var (companyLocked, s1) := AcquireLock(s, companyKey, holder, ttl);
    if !companyLocked then (CompanyAlreadyLocked, s1)
    else
      var run := LockUsers(s1, userIds, holder, ttl);
      LockUsersOutcome(s1, userIds, holder, ttl);
      CompanyKeyBlocksNoUser(s, companyKey, companyId, userIds, Entry(holder, EffectiveTtl(ttl)));
      match run.failed
      case Some(userId) =>
        LockCompanyRollback(s, companyKey, userIds, holder, ttl);
        var s2 := ReleaseUsers(run.store, run.locked, holder);
        var (_, s3) := ReleaseLock(s2, companyKey, holder);
        var i := FirstBlocked(s1, userIds, 0);
        assert Blocked(s, userIds, i);
        (UserLockFailed(userId), s3)
      case None =>
        assert userIds[..|userIds|] == userIds;
        (CompanyLocked(run.report), run.store)
  }

  /** Taking the company key changes nothing about which users are blocked. */
  lemma CompanyKeyBlocksNoUser(s: Store, companyKey: string, companyId: string, ids: seq<string>, e: Entry)
    requires companyKey == CompanyLockKey(companyId) && companyKey !in s.entries
    ensures forall i :: 0 <= i < |ids| ==>
              (Blocked(s.(entries := s.entries[companyKey := e]), ids, i) <==> Blocked(s, ids, i))
    ensures forall n :: 0 <= n <= |ids| ==>
              Claim(s.entries[companyKey := e], UserKeys(ids[..n]), e) == Claim(s.entries, {companyKey} + UserKeys(ids[..n]), e)
  {
    forall i | 0 <= i < |ids| ensures UserLockKey(ids[i]) != companyKey {
      LockKeyClassesDisjoint(ids[i], companyId);
    }
  }

  /** A user loop that stopped is undone by releasing, in order, the users
      it locked: the store is the one the loop started from. */
  lemma UserLoopRollback(s: Store, ids: seq<string>, holder: string, ttl: Option<int>)
    requires Accepts(s, EffectiveTtl(ttl))
    requires LockUsers(s, ids, holder, ttl).failed.Some?
    ensures var run := LockUsers(s, ids, holder, ttl);
            ReleaseUsers(run.store, run.locked, holder) == s
  {
    LockUsersOutcome(s, ids, holder, ttl);
    var i := FirstBlocked(s, ids, 0);
    var taken := ids[..i];
    FreePrefixDistinct(s, ids, i);
    assert forall a, b :: 0 <= a < b < |taken| ==> taken[a] != taken[b];
    RollbackRestores(s.entries, taken, holder, EffectiveTtl(ttl));
  }

  /** The rollback of `lockCompany` after a refused user gives back the store
      as it was before the company key was taken. */
  lemma LockCompanyRollback(s: Store, companyKey: string, ids: seq<string>, holder: string, ttl: Option<int>)
    requires Accepts(s, EffectiveTtl(ttl)) && companyKey !in s.entries
    ensures var s1 := AcquireLock(s, companyKey, holder, ttl).1;
            var run := LockUsers(s1, ids, holder, ttl);
            run.failed.Some? ==> ReleaseLock(ReleaseUsers(run.store, run.locked, holder), companyKey, holder).1 == s
  {
    var s1 := AcquireLock(s, companyKey, holder, ttl).1;
    assert s1 == s.(entries := s.entries[companyKey := Entry(holder, EffectiveTtl(ttl))]);
    if LockUsers(s1, ids, holder, ttl).failed.Some? {
      UserLoopRollback(s1, ids, holder, ttl);
      assert s1.entries - {companyKey} == s.entries;
    }
  }

  /** What the user loop does, stated against the store it started from. */
  lemma {:induction false} LockUsersOutcome(s: Store, ids: seq<string>, holder: string, ttl: Option<int>)
    requires Accepts(s, EffectiveTtl(ttl))
    ensures var run := LockUsers(s, ids, holder, ttl);
            var i := FirstBlocked(s, ids, 0);
            && run.store.online == s.online
            && (run.failed.None? <==> i == |ids|)
            && (run.failed.None? ==>
                  && run.store.entries == Claim(s.entries, UserKeys(ids), Entry(holder, EffectiveTtl(ttl)))
                  && |run.report| == |ids|
                  && forall j :: 0 <= j < |ids| ==> run.report[j] == UserLock(ids[j], true))
            && (run.failed.Some? ==>
                  && run.failed.value == ids[i]
                  && run.locked == ids[..i]
                  && run.store.entries == Claim(s.entries, UserKeys(ids[..i]), Entry(holder, EffectiveTtl(ttl))))
  {
    var e := Entry(holder, EffectiveTtl(ttl));
    var i := FirstBlocked(s, ids, 0);
    if i == |ids| {
      LockUsersAll(s, ids, holder, ttl);
      ClaimAllIsClaim(s.entries, ids, e);
      GrantedAt(ids);
    } else {
      LockUsersStops(s, ids, holder, ttl, i);
      ClaimAllIsClaim(s.entries, ids[..i], e);
    }
  }

  /** Locking `ids[0]` first: for a later user, being blocked against the
      new store on the rest of the list is being blocked against the old one. */
  lemma BlockedAfterFirst(s: Store, ids: seq<string>, e: Entry, i: int)
    requires 1 <= i < |ids| && UserLockKey(ids[0]) !in s.entries
    ensures var s1 := s.(entries := s.entries[UserLockKey(ids[0]) := e]);
            Blocked(s1, ids[1..], i - 1) <==> Blocked(s, ids, i)
  {
    LockKeysInjective(ids[i], ids[0]);
    assert ids[1..][i - 1] == ids[i];
    assert ids[..i] == [ids[0]] + ids[1..][..i - 1];
  }

  /** The keys of a list with one more user in front. */
  lemma UserKeysCons(u: string, ids: seq<string>)
    ensures UserKeys([u] + ids) == {UserLockKey(u)} + UserKeys(ids)
  {
    forall k | k in UserKeys([u] + ids) ensures k in {UserLockKey(u)} + UserKeys(ids) {
      var v :| v in [u] + ids && k == UserLockKey(v);
      if v != u { assert v in ids; }
    }
  }

  /** Claiming a key first and the rest afterwards is claiming them all. */
  lemma ClaimInsert(base: map<string, Entry>, k: string, keys: set<string>, e: Entry)
    ensures Claim(base[k := e], keys, e) == Claim(base, {k} + keys, e)
  {
  }

  /** `entries` with the users' keys set to `e` one after another. */
  function ClaimAll(entries: map<string, Entry>, ids: seq<string>, e: Entry): map<string, Entry>
    decreases |ids|
  {
    if |ids| == 0 then entries else ClaimAll(entries[UserLockKey(ids[0]) := e], ids[1..], e)
  }

  /** Claiming the users one at a time is claiming all their keys at once. */
  lemma {:induction false} ClaimAllIsClaim(base: map<string, Entry>, ids: seq<string>, e: Entry)
    decreases |ids|
    ensures ClaimAll(base, ids, e) == Claim(base, UserKeys(ids), e)
  {
    if |ids| == 0 {
      assert Claim(base, UserKeys(ids), e) == base;
    } else {
      ClaimAllIsClaim(base[UserLockKey(ids[0]) := e], ids[1..], e);
      assert ids == [ids[0]] + ids[1..];
      UserKeysCons(ids[0], ids[1..]);
      ClaimInsert(base, UserLockKey(ids[0]), UserKeys(ids[1..]), e);
    }
  }

  /** The report of a user loop that locked every user. */
  function Granted(ids: seq<string>): seq<UserLock>
    decreases |ids|
  {
    if |ids| == 0 then [] else [UserLock(ids[0], true)] + Granted(ids[1..])
  }

  lemma {:induction false} GrantedAt(ids: seq<string>)
    decreases |ids|
    ensures |Granted(ids)| == |ids|
    ensures forall j :: 0 <= j < |ids| ==> Granted(ids)[j] == UserLock(ids[j], true)
  {
    if |ids| > 0 {
      GrantedAt(ids[1..]);
      forall j | 0 < j < |ids| ensures Granted(ids)[j] == UserLock(ids[j], true) {
        assert Granted(ids)[j] == Granted(ids[1..])[j - 1];
      }
    }
  }

  /** One step of the user loop: a free first user is locked, and the loop
      goes on with the rest from the store that now holds that key. */
  lemma LockUsersStep(s: Store, ids: seq<string>, holder: string, ttl: Option<int>)
    requires Accepts(s, EffectiveTtl(ttl)) && |ids| > 0 && UserLockKey(ids[0]) !in s.entries
    ensures var s1 := s.(entries := s.entries[UserLockKey(ids[0]) := Entry(holder, EffectiveTtl(ttl))]);
            var rest := LockUsers(s1, ids[1..], holder, ttl);
            && Accepts(s1, EffectiveTtl(ttl))
            && LockUsers(s, ids, holder, ttl)
               == UsersRun(rest.store, [ids[0]] + rest.locked, [UserLock(ids[0], true)] + rest.report, rest.failed)
  {
  }

  lemma {:induction false} LockUsersAll(s: Store, ids: seq<string>, holder: string, ttl: Option<int>)
    requires Accepts(s, EffectiveTtl(ttl))
    requires forall i :: 0 <= i < |ids| ==> !Blocked(s, ids, i)
    decreases |ids|
    ensures var run := LockUsers(s, ids, holder, ttl);
            && run.store.online == s.online
            && run.failed.None?
            && run.store.entries == ClaimAll(s.entries, ids, Entry(holder, EffectiveTtl(ttl)))
            && run.report == Granted(ids)
  {
    if |ids| > 0 {
      var e := Entry(holder, EffectiveTtl(ttl));
      assert !Blocked(s, ids, 0);
      var s1 := s.(entries := s.entries[UserLockKey(ids[0]) := e]);
      LockUsersStep(s, ids, holder, ttl);
      forall j | 0 <= j < |ids| - 1 ensures !Blocked(s1, ids[1..], j) {
        BlockedAfterFirst(s, ids, e, j + 1);
        assert !Blocked(s, ids, j + 1);
      }
      LockUsersAll(s1, ids[1..], holder, ttl);
    }
  }

  lemma {:induction false} LockUsersStops(s: Store, ids: seq<string>, holder: string, ttl: Option<int>, i: int)
    requires Accepts(s, EffectiveTtl(ttl))
    requires 0 <= i < |ids| && Blocked(s, ids, i)
    requires forall j :: 0 <= j < i ==> !Blocked(s, ids, j)
    decreases i
    ensures var run := LockUsers(s, ids, holder, ttl);
            && run.store.online == s.online
            && run.failed == Some(ids[i])
            && run.locked == ids[..i]
            && run.store.entries == ClaimAll(s.entries, ids[..i], Entry(holder, EffectiveTtl(ttl)))
  {
    if i == 0 {
      assert UserLockKey(ids[0]) in s.entries by {
        assert ids[..0] == [];
      }
    } else {
      var e := Entry(holder, EffectiveTtl(ttl));
      assert !Blocked(s, ids, 0);
      var s1 := s.(entries := s.entries[UserLockKey(ids[0]) := e]);
      LockUsersStep(s, ids, holder, ttl);
      forall j | 0 <= j < i - 1 ensures !Blocked(s1, ids[1..], j) {
        BlockedAfterFirst(s, ids, e, j + 1);
        assert !Blocked(s, ids, j + 1);
      }
      BlockedAfterFirst(s, ids, e, i);
      LockUsersStops(s1, ids[1..], holder, ttl, i - 1);
      assert ids[..i] == [ids[0]] + ids[1..][..i - 1];
      assert ids[..i][1..] == ids[1..][..i - 1];
    }
  }

  /** Distinct users none of whose keys was taken before the call. */
  lemma {:induction false} FreePrefixDistinct(s: Store, ids: seq<string>, n: int)
    requires 0 <= n <= |ids|
    requires forall j :: 0 <= j < n ==> !Blocked(s, ids, j)
    ensures forall a, b :: 0 <= a < b < n ==> ids[a] != ids[b]
    ensures UserKeys(ids[..n]) !! s.entries.Keys
  {
    forall a, b | 0 <= a < b < n ensures ids[a] != ids[b] {
      assert !Blocked(s, ids, b);
      assert ids[a] in ids[..b];
    }
    forall k | k in UserKeys(ids[..n]) ensures k !in s.entries {
      var u :| u in ids[..n] && k == UserLockKey(u);
      var j :| 0 <= j < n && ids[..n][j] == u;
      assert !Blocked(s, ids, j);
    }
  }

  /** Taking one claimed key back out of a claim. */
  lemma ClaimRemove(base: map<string, Entry>, k: string, keys: set<string>, e: Entry)
    requires k !in base && k !in keys
    ensures Claim(base, {k} + keys, e) - {k} == Claim(base, keys, e)
  {
  }

  /** Releasing, one by one, distinct user locks that this holder took on top
      of `base` gives back exactly `base`. */
  lemma {:induction false} RollbackRestores(base: map<string, Entry>, ids: seq<string>, holder: string, ttl: int)
    requires forall a, b :: 0 <= a < b < |ids| ==> ids[a] != ids[b]
    requires UserKeys(ids) !! base.Keys
    decreases |ids|
    ensures ReleaseUsers(Store(Claim(base, UserKeys(ids), Entry(holder, ttl)), true), ids, holder) == Store(base, true)
  {
    var e := Entry(holder, ttl);
    if |ids| == 0 {
      assert Claim(base, UserKeys(ids), e) == base;
    } else {
      var k0 := UserLockKey(ids[0]);
      var tail := ids[1..];
      assert UserKeys(ids) == {k0} + UserKeys(tail) by {
        assert ids == [ids[0]] + tail;
      }
      assert k0 !in UserKeys(tail) by {
        if k0 in UserKeys(tail) {
          var u :| u in tail && k0 == UserLockKey(u);
          var j :| 0 <= j < |tail| && tail[j] == u;
          LockKeysInjective(u, ids[0]);
        }
      }
      var s := Store(Claim(base, UserKeys(ids), e), true);
      assert HeldBy(s, k0, holder);
      ClaimRemove(base, k0, UserKeys(tail), e);
      assert ReleaseLock(s, k0, holder).1 == Store(Claim(base, UserKeys(tail), e), true);
      assert forall a, b :: 0 <= a < b < |tail| ==> tail[a] != tail[b] by {
        forall a, b | 0 <= a < b < |tail| ensures tail[a] != tail[b] {
          assert tail[a] == ids[a + 1] && tail[b] == ids[b + 1];
        }
      }
      RollbackRestores(base, tail, holder, ttl);
    }
  }

  /** The all-or-nothing promise of `lockCompany`: either the caller holds the
      company key and every user key, or the store is exactly what it was
      before the call, repeated users included. */
  lemma LockCompanyAllOrNothing(s: Store, companyId: string, userIds: seq<string>, holder: string, ttl: Option<int>)
    ensures var r := LockCompany(s, companyId, userIds, holder, ttl);
            || (&& r.0.CompanyLocked?
                && HeldBy(r.1, CompanyLockKey(companyId), holder)
                && forall i :: 0 <= i < |userIds| ==> HeldBy(r.1, UserLockKey(userIds[i]), holder))
            || r.1 == s
  {
    var r := LockCompany(s, companyId, userIds, holder, ttl);
    if r.0.CompanyLocked? {
      forall i | 0 <= i < |userIds| ensures UserLockKey(userIds[i]) in UserKeys(userIds) {
      }
    }
  }

  /** A second `lockCompany` on a company that the first one locked fails at
      the company key, whoever calls it, and touches nothing. */
  lemma SecondCompanyLockRefused(s: Store, companyId: string, ids1: seq<string>, ids2: seq<string>,
                                 h1: string, h2: string, ttl1: Option<int>, ttl2: Option<int>)
    requires LockCompany(s, companyId, ids1, h1, ttl1).0.CompanyLocked?
    ensures var s1 := LockCompany(s, companyId, ids1, h1, ttl1).1;
            LockCompany(s1, companyId, ids2, h2, ttl2) == (CompanyAlreadyLocked, s1)
  {
    var s1 := LockCompany(s, companyId, ids1, h1, ttl1).1;
    assert CompanyLockKey(companyId) in s1.entries;
  }

  /** Two companies that share a user exclude each other: once one holds its
      users, locking the other fails and leaves the store as it was. */
  lemma SharedUserExcludes(s: Store, c1: string, c2: string, ids1: seq<string>, ids2: seq<string>,
                           h1: string, h2: string, ttl1: Option<int>, ttl2: Option<int>, shared: string)
    requires LockCompany(s, c1, ids1, h1, ttl1).0.CompanyLocked?
    requires shared in ids1 && shared in ids2
    ensures var s1 := LockCompany(s, c1, ids1, h1, ttl1).1;
            var r := LockCompany(s1, c2, ids2, h2, ttl2);
            !r.0.CompanyLocked? && r.1 == s1
  {
    var s1 := LockCompany(s, c1, ids1, h1, ttl1).1;
    assert UserLockKey(shared) in UserKeys(ids1);
    var j :| 0 <= j < |ids2| && ids2[j] == shared;
    assert Blocked(s1, ids2, j);
  }

  /** Best-effort unlock report. */
  datatype UserUnlock = UserUnlock(userId: string, unlocked: bool)

  datatype CompanyUnlockResult = CompanyUnlockResult(companyUnlocked: bool, userUnlocks: seq<UserUnlock>)

  /** `entries` without the keys of `keys` that `holder` holds. */
  function Disown(entries: map<string, Entry>, keys: set<string>, holder: string): map<string, Entry> {
    map k | k in entries && !(k in keys && entries[k].value == holder) :: entries[k]
  }

  function UnlockUsers(s: Store, ids: seq<string>, holder: string): (r: (seq<UserUnlock>, Store))
    decreases |ids|
  {
    if |ids| == 0 then ([], s)
    else
      var (unlocked, s1) := ReleaseLock(s, UserLockKey(ids[0]), holder);
      var (rest, s2) := UnlockUsers(s1, ids[1..], holder);
      ([UserUnlock(ids[0], unlocked)] + rest, s2)
  }

  /** The company key, then every user key, each released on its own: one
      failed release never stops the next one. */
  function UnlockCompany(s: Store, companyId: string, userIds: seq<string>, holder: string)
    : (r: (CompanyUnlockResult, Store))
    ensures r.0.companyUnlocked <==> s.online && HeldBy(s, CompanyLockKey(companyId), holder)
    ensures |r.0.userUnlocks| == |userIds|
    ensures forall i :: 0 <= i < |userIds| ==>
              && r.0.userUnlocks[i].userId == userIds[i]
              && (r.0.userUnlocks[i].unlocked <==>
                    s.online && HeldBy(s, UserLockKey(userIds[i]), holder) && userIds[i] !in userIds[..i])
    ensures r.1 == if s.online
                   then s.(entries := Disown(s.entries, {CompanyLockKey(companyId)} + UserKeys(userIds), holder))
                   else s
  {
    var companyKey := CompanyLockKey(companyId);
    var (companyUnlocked, s1) := ReleaseLock(s, companyKey, holder);
    var (userUnlocks, s2) := UnlockUsers(s1, userIds, holder);
    UnlockUsersOutcome(s1, userIds, holder);
    forall i | 0 <= i < |userIds|
      ensures HeldBy(s1, UserLockKey(userIds[i]), holder) <==> HeldBy(s, UserLockKey(userIds[i]), holder)
    {
      LockKeyClassesDisjoint(userIds[i], companyId);
    }
    (CompanyUnlockResult(companyUnlocked, userUnlocks), s2)
  }

  lemma {:induction false} UnlockUsersOutcome(s: Store, ids: seq<string>, holder: string)
    decreases |ids|
    ensures var r := UnlockUsers(s, ids, holder);
            && |r.0| == |ids|
            && (forall i :: 0 <= i < |ids| ==>
                  && r.0[i].userId == ids[i]
                  && (r.0[i].unlocked <==> s.online && HeldBy(s, UserLockKey(ids[i]), holder) && ids[i] !in ids[..i]))
            && r.1 == if s.online then s.(entries := Disown(s.entries, UserKeys(ids), holder)) else s
  {
    if |ids| == 0 {
      assert Disown(s.entries, UserKeys(ids), holder) == s.entries;
    } else {
      var first := ReleaseLock(s, UserLockKey(ids[0]), holder);
      var tail := ids[1..];
      UnlockUsersOutcome(first.1, tail, holder);
      var r := UnlockUsers(s, ids, holder);
      var rest := UnlockUsers(first.1, tail, holder);
      assert r.0 == [UserUnlock(ids[0], first.0)] + rest.0 && r.1 == rest.1;
      forall i | 0 < i < |ids|
        ensures r.0[i].userId == ids[i]
        ensures r.0[i].unlocked <==> s.online && HeldBy(s, UserLockKey(ids[i]), holder) && ids[i] !in ids[..i]
      {
        assert r.0[i] == rest.0[i - 1];
        UnlockedLater(s, ids, holder, i);
      }
      if s.online {
        DisownStep(s, ids, holder);
      }
    }
  }

  /** After the first user's release, a later user is still held by the
      caller exactly when it was and differs from the first user. */
  lemma UnlockedLater(s: Store, ids: seq<string>, holder: string, i: int)
    requires 0 < i < |ids|
    ensures var s1 := ReleaseLock(s, UserLockKey(ids[0]), holder).1;
            var tail := ids[1..];
            (s1.online && HeldBy(s1, UserLockKey(tail[i - 1]), holder) && tail[i - 1] !in tail[..i - 1])
              <==> (s.online && HeldBy(s, UserLockKey(ids[i]), holder) && ids[i] !in ids[..i])
  {
    var tail := ids[1..];
    assert tail[i - 1] == ids[i];
    assert ids[..i] == [ids[0]] + tail[..i - 1];
    LockKeysInjective(ids[i], ids[0]);
  }

  /** Releasing the first user, then disowning the rest, disowns them all. */
  lemma DisownStep(s: Store, ids: seq<string>, holder: string)
    requires |ids| > 0 && s.online
    ensures Disown(ReleaseLock(s, UserLockKey(ids[0]), holder).1.entries, UserKeys(ids[1..]), holder)
            == Disown(s.entries, UserKeys(ids), holder)
  {
    assert ids == [ids[0]] + ids[1..];
    UserKeysCons(ids[0], ids[1..]);
  }

  /** `unlockCompany` undoes a successful `lockCompany` with the same users
      and holder: every release succeeds and the store is back as it was. */
  lemma LockUnlockCompanyRoundTrip(s: Store, companyId: string, ids: seq<string>, holder: string, ttl: Option<int>)
    requires LockCompany(s, companyId, ids, holder, ttl).0.CompanyLocked?
    ensures var u := UnlockCompany(LockCompany(s, companyId, ids, holder, ttl).1, companyId, ids, holder);
            && u.1 == s
            && u.0.companyUnlocked
            && forall i :: 0 <= i < |ids| ==> u.0.userUnlocks[i] == UserUnlock(ids[i], true)
  {
    var s1 := LockCompany(s, companyId, ids, holder, ttl).1;
    var e := Entry(holder, EffectiveTtl(ttl));
    var keys := {CompanyLockKey(companyId)} + UserKeys(ids);
    assert s1.entries == Claim(s.entries, keys, e);
    forall k | k in keys ensures k !in s.entries {
      if k != CompanyLockKey(companyId) {
        var u :| u in ids && k == UserLockKey(u);
        var j :| 0 <= j < |ids| && ids[j] == u;
        assert !Blocked(s, ids, j);
      }
    }
    assert Disown(s1.entries, keys, holder) == s.entries;
    forall i | 0 <= i < |ids|
      ensures HeldBy(s1, UserLockKey(ids[i]), holder) && ids[i] !in ids[..i]
    {
      assert !Blocked(s, ids, i);
      assert UserLockKey(ids[i]) in keys;
    }
  }
}
