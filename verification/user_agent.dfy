/** A client that, before it works, takes a user lock: the user it was given,
    or a random member of the company it was given (company lock first), or a
    random member of a random company. It remembers the keys it took and
    deletes them all when it disconnects. */
module UserAgent {
  import opened KeyValueStore
  import opened RedisLocker

  const Members: seq<string> := ["User 1", "User 2", "User 3", "User 4", "User 5"]

  /** The fixed directory of companies and their users, in declaration order. */
  const Users: seq<(string, seq<string>)> := [("XYC Inc", Members), ("ABC Corp", Members)]

  /** The directory's company names, in order. */
  function CompanyNames(): (names: seq<string>)
    ensures |names| == |Users|
    ensures forall i :: 0 <= i < |Users| ==> names[i] == Users[i].0
  {
    seq(|Users|, i requires 0 <= i < |Users| => Users[i].0)
  }

  /** The users of a company; `None` where the directory has no such company. */
  function MembersOf(company: string): Option<seq<string>> {
    if company == Users[0].0 then Some(Users[0].1)
    else if company == Users[1].0 then Some(Users[1].1)
    else None
  }

  lemma ProductSigns(a: real, b: real)
    requires 0.0 <= a < 1.0 && 0.0 < b
    ensures 0.0 <= a * b && 0.0 < (1.0 - a) * b
  {
  }

  /** `Math.floor(draw * n)` for a random draw in [0, 1). */
  function Pick(n: nat, draw: real): (i: nat)
    requires 0 < n && 0.0 <= draw < 1.0
    ensures i < n
  {
    var x := draw * (n as real);
    ProductSigns(draw, n as real);
    assert (n as real) - x == (1.0 - draw) * (n as real);
    assert 0.0 <= x < n as real;
    x.Floor
  }

  /** A random member of the company; `None` stands for the type error raised
      when the company is not in the directory. */
  function PickRandomUser(company: string, draw: real): (u: Option<string>)
    requires 0.0 <= draw < 1.0
    ensures u.Some? <==> MembersOf(company).Some?
    ensures u.Some? ==> u.value in MembersOf(company).value
  {
    match MembersOf(company)
    case Some(arr) => Some(arr[Pick(|arr|, draw)])
    case None => None
  }

  /** A random company of the directory. */
  function PickRandomCompany(draw: real): (c: string)
    requires 0.0 <= draw < 1.0
    ensures c in CompanyNames() && MembersOf(c).Some?
  {
    CompanyNames()[Pick(|CompanyNames()|, draw)]
  }

  const UserKeyPrefix: string := "user-lock:"
  const CompanyKeyPrefix: string := "company-lock:"

  function UserKey(username: string): string {
    UserKeyPrefix + username
  }

  function CompanyKey(company: string): string {
    CompanyKeyPrefix + company
  }

  /** User keys and company keys are disjoint, and each builder is injective. */
  lemma {:induction false} AgentKeysInjective(a: string, b: string)
    ensures UserKey(a) != CompanyKey(b)
    ensures UserKey(a) == UserKey(b) ==> a == b
    ensures CompanyKey(a) == CompanyKey(b) ==> a == b
  {
    assert UserKey(a)[0] == 'u' && CompanyKey(b)[0] == 'c';
    if UserKey(a) == UserKey(b) {
      PrefixCancels(UserKeyPrefix, a, b);
    }
    if CompanyKey(a) == CompanyKey(b) {
      PrefixCancels(CompanyKeyPrefix, a, b);
    }
  }

  datatype Agent = Agent(username: Option<string>, company: Option<string>, ownedLocks: seq<string>)

  /** A value JavaScript treats as truthy (`opts.x || null`, `if (this.x)`):
      present and not empty. */
  predicate Given(o: Option<string>) {
    o.Some? && o.value != ""
  }

  /** The constructor keeps only given values and owns no lock yet. */
  function NewAgent(username: Option<string>, company: Option<string>): (a: Agent)
    ensures a.ownedLocks == []
    ensures Given(username) ==> a.username == username
    ensures !Given(username) ==> a.username.None?
    ensures Given(company) ==> a.company == company
    ensures !Given(company) ==> a.company.None?
  {
    Agent(if Given(username) then username else None, if Given(company) then company else None, [])
  }

  /** Why `init` threw. */
  datatype InitError =
    | UserTimeout(user: string)
    | CompanyTimeout(company: string)
    | StoreError
    | NotACompany(company: string)

  datatype Status = Ready | Failed(error: InitError)

  /** How a company-then-member acquisition ended: its status, the member
      chosen (once chosen), the keys taken, in order, the store, and how many
      attempts the last wait made. */
  datatype CompanyRun = CompanyRun(status: Status, user: Option<string>, taken: seq<string>, store: Store, attempts: nat)

  /** `waitForLock(key, 5, 5000)` as the agent calls it. A store error means
      the store was unreachable at the last attempt; a timeout means the key
      was still taken at the last attempt, made at the first clock reading
      that showed 5000 ms gone; a reachable store with the key free is taken
      at once; and in a world where no one else acts the wait ends as one
      attempt would. */
  method AwaitLock(s: Store, key: string, w: World) returns (r: Wait)
    requires Advances(w)
    ensures r == Poll(s, key, DefaultTtlSeconds, DefaultTimeoutMs, w, 0)
    ensures 1 <= r.attempts <= MaxAttempts(DefaultTimeoutMs)
    ensures r.reply == Ok(true) ==> HeldBy(r.store, key, LockedValue)
    ensures r.reply == Fault ==> !r.store.online
    ensures r.reply == Ok(false) ==> r.store.online && key in r.store.entries
    ensures r.reply == Ok(false) ==> w.clock(0) + DefaultTimeoutMs <= w.clock(r.attempts)
    ensures forall j :: 0 < j < r.attempts ==> w.clock(j) - w.clock(0) < DefaultTimeoutMs
    ensures !s.online ==> r.reply == Fault && r.store == s
    ensures s.online && key !in s.entries ==>
              r.reply == Ok(true) && r.store == s.(entries := s.entries[key := Entry(LockedValue, DefaultTtlSeconds)])
    ensures Quiet(w) ==> (r.reply, r.store) == TryLock(s, key, DefaultTtlSeconds)
  {
    r := WaitForLock(s, key, DefaultTtlSeconds, DefaultTimeoutMs, w);
    if r.attempts > 1 {
      // Only a refused first attempt leads to a second one.
      assert RetriedAfter(r.seen, 0, key, DefaultTtlSeconds, w, 0);
    }
    if Quiet(w) {
      QuietPollIsOneTry(s, key, DefaultTtlSeconds, DefaultTimeoutMs, w, 0);
    }
  }

  /** The company-then-member acquisition goes through at once: the store is
      reachable, the company is in the directory, and neither the company's
      key nor the chosen member's key is taken. */
  predicate BothFree(s: Store, company: string, userDraw: real)
    requires 0.0 <= userDraw < 1.0
  {
    && s.online && CompanyKey(company) !in s.entries
    && MembersOf(company).Some?
    && UserKey(PickRandomUser(company, userDraw).value) !in s.entries
  }

  /** What the two waits of cases two and three of `init` dictate: the
      status, the keys taken (in order), the final store and the attempts of
      the last wait. The company wait starts on `s` in world `w`; only when
      it answers true is the company key taken and a member picked; the
      member wait starts on the store the company wait ended with, in `w2`. */
  predicate FollowsWaits(s: Store, w: World, w2: World, company: string, userDraw: real,
                         status: Status, taken: seq<string>, s': Store, attempts: nat)
    requires Advances(w) && Advances(w2) && 0.0 <= userDraw < 1.0
  {
    var c := Poll(s, CompanyKey(company), DefaultTtlSeconds, DefaultTimeoutMs, w, 0);
    match c.reply
    case Fault =>
      status == Failed(StoreError) && taken == [] && s' == c.store && attempts == c.attempts
    case Ok(false) =>
      status == Failed(CompanyTimeout(company)) && taken == [] && s' == c.store && attempts == c.attempts
    case Ok(true) =>
      match PickRandomUser(company, userDraw)
      case None =>
        && status == Failed(NotACompany(company)) && taken == [CompanyKey(company)]
        && s' == c.store && attempts == c.attempts
      case Some(user) =>
        var m := Poll(c.store, UserKey(user), DefaultTtlSeconds, DefaultTimeoutMs, w2, 0);
        && s' == m.store && attempts == m.attempts
        && (m.reply == Fault ==> status == Failed(StoreError) && taken == [CompanyKey(company)])
        && (m.reply == Ok(false) ==> status == Failed(UserTimeout(user)) && taken == [CompanyKey(company)])
        && (m.reply == Ok(true) ==> status == Ready && taken == [CompanyKey(company), UserKey(user)])
  }

  /** Cases two and three of `init` after the company is known: wait for the
      company lock (in world `w`), pick a member, wait for the member's lock
      (in world `w2`, whose clock starts anew). A member wait that times out
      leaves the company lock taken. */
  method LockCompanyAndMember(s: Store, w: World, w2: World, company: string, userDraw: real) returns (r: CompanyRun)
    requires Advances(w) && Advances(w2) && 0.0 <= userDraw < 1.0
    ensures r.status == Ready ==>
              && r.user.Some? && r.user == PickRandomUser(company, userDraw)
              && r.taken == [CompanyKey(company), UserKey(r.user.value)]
              && HeldBy(r.store, UserKey(r.user.value), LockedValue)
    ensures r.status.Failed? ==>
              || (r.taken == [] && r.status.error in {CompanyTimeout(company), StoreError})
              || (r.taken == [CompanyKey(company)] && MembersOf(company).None? && r.status.error == NotACompany(company))
              || (&& r.taken == [CompanyKey(company)] && r.user == PickRandomUser(company, userDraw) && r.user.Some?
                  && r.status.error in {UserTimeout(r.user.value), StoreError})
    ensures r.status == Failed(StoreError) ==> !r.store.online
    ensures r.status == Failed(CompanyTimeout(company)) ==>
              && r.store.online && CompanyKey(company) in r.store.entries
              && w.clock(0) + DefaultTimeoutMs <= w.clock(r.attempts)
    ensures r.status.Failed? && r.status.error.UserTimeout? ==>
              && r.store.online && UserKey(r.status.error.user) in r.store.entries
              && w2.clock(0) + DefaultTimeoutMs <= w2.clock(r.attempts)
    ensures BothFree(s, company, userDraw) ==>
              && r.status == Ready
              && r.store == s.(entries := s.entries[CompanyKey(company) := Entry(LockedValue, DefaultTtlSeconds)]
                                                   [UserKey(r.user.value) := Entry(LockedValue, DefaultTtlSeconds)])
    ensures Quiet(w) && Quiet(w2) ==> (r.status == Ready <==> BothFree(s, company, userDraw))
    ensures Quiet(w) && Quiet(w2) && CompanyKey(company) in r.taken ==> HeldBy(r.store, CompanyKey(company), LockedValue)
    ensures FollowsWaits(s, w, w2, company, userDraw, r.status, r.taken, r.store, r.attempts)
  {
    var companyKey := CompanyKey(company);
    var first := AwaitLock(s, companyKey, w);
    match first.reply
    case Fault =>
      return CompanyRun(Failed(StoreError), None, [], first.store, first.attempts);
    case Ok(false) =>
      return CompanyRun(Failed(CompanyTimeout(company)), None, [], first.store, first.attempts);
    case Ok(true) =>
      var picked := PickRandomUser(company, userDraw);
      if picked.None? {
        return CompanyRun(Failed(NotACompany(company)), None, [companyKey], first.store, first.attempts);
      }
      var user := picked.value;
      var userKey := UserKey(user);
      AgentKeysInjective(user, company);
      var second := AwaitLock(first.store, userKey, w2);
      match second.reply
      case Fault =>
        return CompanyRun(Failed(StoreError), picked, [companyKey], second.store, second.attempts);
      case Ok(false) =>
        return CompanyRun(Failed(UserTimeout(user)), picked, [companyKey], second.store, second.attempts);
      case Ok(true) =>
        return CompanyRun(Ready, picked, [companyKey, userKey], second.store, second.attempts);
  }

  /** `init`: take the locks the agent needs and record them as owned. A
      timeout or a store error is thrown to the caller; keys taken before the
      failure stay owned (and held) until `disconnect`. The first wait runs in
      world `w`, a member wait after a company lock in world `w2`; `attempts`
      counts the attempts of the last wait. */
  method Init(a: Agent, s: Store, w: World, w2: World, companyDraw: real, userDraw: real)
    returns (status: Status, a': Agent, s': Store, attempts: nat)
    requires Advances(w) && Advances(w2)
    requires 0.0 <= companyDraw < 1.0 && 0.0 <= userDraw < 1.0
    // Whatever the case, a store error means the store was unreachable.
    ensures status == Failed(StoreError) ==> !s'.online
    // A user was given: wait for that user's lock only.
    ensures Given(a.username) ==>
              var key := UserKey(a.username.value);
              && a'.username == a.username && a'.company == a.company
              && (status == Ready ==> a'.ownedLocks == a.ownedLocks + [key] && HeldBy(s', key, LockedValue))
              && (status.Failed? ==> a' == a && status.error in {UserTimeout(a.username.value), StoreError})
              && (status.Failed? && status.error.UserTimeout? ==>
                    s'.online && key in s'.entries && w.clock(0) + DefaultTimeoutMs <= w.clock(attempts))
              && (s.online && key !in s.entries ==>
                    status == Ready && s' == s.(entries := s.entries[key := Entry(LockedValue, DefaultTtlSeconds)]))
              && (Quiet(w) ==> (status == Ready <==> s.online && key !in s.entries))
              && (var p := Poll(s, key, DefaultTtlSeconds, DefaultTimeoutMs, w, 0);
                  && s' == p.store && attempts == p.attempts
                  && (status == Ready <==> p.reply == Ok(true))
                  && (status == Failed(StoreError) <==> p.reply == Fault))
    // Only a company was given: its lock, then a random member's.
    ensures !Given(a.username) && Given(a.company) ==>
              var company := a.company.value;
              && a'.company == a.company
              && (status == Ready ==>
                    && MembersOf(company).Some?
                    && a'.username == PickRandomUser(company, userDraw)
                    && a'.username.value in MembersOf(company).value
                    && a'.ownedLocks == a.ownedLocks + [CompanyKey(company), UserKey(a'.username.value)]
                    && HeldBy(s', UserKey(a'.username.value), LockedValue))
              && (status.Failed? ==>
                    && a'.username == a.username
                    && (a'.ownedLocks == a.ownedLocks || a'.ownedLocks == a.ownedLocks + [CompanyKey(company)]))
              && (status.Failed? && status.error.CompanyTimeout? ==> a'.ownedLocks == a.ownedLocks)
              && (status.Failed? && status.error.NotACompany? ==> a'.ownedLocks == a.ownedLocks + [CompanyKey(company)])
              && a.ownedLocks <= a'.ownedLocks
              && FollowsWaits(s, w, w2, company, userDraw, status, a'.ownedLocks[|a.ownedLocks|..], s', attempts)
              && (status.Failed? && status.error.UserTimeout? ==>
                    && a'.ownedLocks == a.ownedLocks + [CompanyKey(company)]
                    && (Quiet(w) && Quiet(w2) ==> HeldBy(s', CompanyKey(company), LockedValue)))
              && (BothFree(s, company, userDraw) ==> status == Ready)
              && (Quiet(w) && Quiet(w2) ==> (status == Ready <==> BothFree(s, company, userDraw)))
    // Neither was given: a random company of the directory, then as above;
    // the company and the user are recorded together, and only on success.
    ensures !Given(a.username) && !Given(a.company) ==>
              var company := PickRandomCompany(companyDraw);
              && (status == Ready ==>
                    && a'.company == Some(company)
                    && a'.username == PickRandomUser(company, userDraw)
                    && a'.username.value in MembersOf(company).value
                    && a'.ownedLocks == a.ownedLocks + [CompanyKey(company), UserKey(a'.username.value)]
                    && HeldBy(s', UserKey(a'.username.value), LockedValue))
              && (status.Failed? ==>
                    && a'.username == a.username && a'.company == a.company
                    && (a'.ownedLocks == a.ownedLocks || a'.ownedLocks == a.ownedLocks + [CompanyKey(company)]))
              && (status.Failed? && status.error.CompanyTimeout? ==> a'.ownedLocks == a.ownedLocks)
              && a.ownedLocks <= a'.ownedLocks
              && FollowsWaits(s, w, w2, company, userDraw, status, a'.ownedLocks[|a.ownedLocks|..], s', attempts)
              && (BothFree(s, company, userDraw) ==> status == Ready)
              && (Quiet(w) && Quiet(w2) ==> (status == Ready <==> BothFree(s, company, userDraw)))
    // A company or member timeout: the key was still taken at the last
    // attempt, made once that wait's clock showed 5000 ms gone.
    ensures !Given(a.username) && status.Failed? && status.error.CompanyTimeout? ==>
              s'.online && CompanyKey(status.error.company) in s'.entries
              && w.clock(0) + DefaultTimeoutMs <= w.clock(attempts)
    ensures !Given(a.username) && status.Failed? && status.error.UserTimeout? ==>
              s'.online && UserKey(status.error.user) in s'.entries
              && w2.clock(0) + DefaultTimeoutMs <= w2.clock(attempts)
  {
    if Given(a.username) {
      var user := a.username.value;
      var key := UserKey(user);
      var waited := AwaitLock(s, key, w);
      match waited.reply
      case Fault =>
        return Failed(StoreError), a, waited.store, waited.attempts;
      case Ok(false) =>
        return Failed(UserTimeout(user)), a, waited.store, waited.attempts;
      case Ok(true) =>
        return Ready, a.(ownedLocks := a.ownedLocks + [key]), waited.store, waited.attempts;
    }
    if Given(a.company) {
      var company := a.company.value;
      var run := LockCompanyAndMember(s, w, w2, company, userDraw);
      var owned := a.ownedLocks + run.taken;
      assert owned[|a.ownedLocks|..] == run.taken;
      if run.status.Failed? {
        return run.status, a.(ownedLocks := owned), run.store, run.attempts;
      }
      return Ready, a.(username := run.user, ownedLocks := owned), run.store, run.attempts;
    }
    var company := PickRandomCompany(companyDraw);
    var run := LockCompanyAndMember(s, w, w2, company, userDraw);
    var owned := a.ownedLocks + run.taken;
    assert owned[|a.ownedLocks|..] == run.taken;
    if run.status.Failed? {
      return run.status, a.(ownedLocks := owned), run.store, run.attempts;
    }
    return Ready, a.(company := Some(company), username := run.user, ownedLocks := owned), run.store, run.attempts;
  }

  /** Delete each key in order; the first store error stops the loop. */
  function ReleaseAll(s: Store, keys: seq<string>): (r: (Reply<()>, Store))
    decreases |keys|
    ensures r.0.Ok? <==> s.online || |keys| == 0
    ensures r.0.Ok? ==> r.1.online == s.online && r.1.entries == s.entries - (set k | k in keys)
    ensures r.0.Fault? ==> r.1 == s
  {
    if |keys| == 0 then (Ok(()), s)
    else
      match ReleaseLock(s, keys[0])
      case (Fault, _) => (Fault, s)
      case (Ok(_), s1) =>
        var rest := ReleaseAll(s1, keys[1..]);
        assert (set k | k in keys) == {keys[0]} + (set k | k in keys[1..]) by {
          assert keys == [keys[0]] + keys[1..];
        }
        rest
  }

  /** `disconnect`: delete every owned key, whoever holds it now, then forget
      them. A store error is thrown and leaves the agent as it was. */
  function Disconnect(a: Agent, s: Store): (r: (Reply<()>, Agent, Store))
    ensures r.0.Ok? <==> s.online || |a.ownedLocks| == 0
    ensures r.0.Ok? ==>
              && r.1 == a.(ownedLocks := [])
              && (forall k :: k in a.ownedLocks ==> k !in r.2.entries)
              && (forall k :: k in s.entries && k !in a.ownedLocks ==> k in r.2.entries && r.2.entries[k] == s.entries[k])
              && r.2 == s.(entries := s.entries - (set k | k in a.ownedLocks))
    ensures r.0.Fault? ==> r.1 == a && r.2 == s
  {
    var (reply, s') := ReleaseAll(s, a.ownedLocks);
    match reply
    case Ok(_) => (reply, a.(ownedLocks := []), s')
    case Fault => (Fault, a, s)
  }
}
