/** The account registry and the secret store beside it: two stores written one after the other. */
module Accounts {
  import opened Prelude
  import opened Seqs

  const REFRESH_TOKEN_KEY := "refresh"
  const SESSION_TOKEN_KEY := "session"
  const PENDING_KEY := "pending.refresh"
  const U64_MAX: nat := 0xFFFF_FFFF_FFFF_FFFF

  datatype Profile = Profile(
    name: string,
    xuid: Option<string>,
    skinUrl: Option<string>,
    capeUrl: Option<string>,
    entitlementVerified: bool)

  datatype Account = Account(
    uuid: string,
    profile: Profile,
    refreshToken: Option<string>,
    minecraftToken: string,
    expiresIn: nat)

  datatype StoredAccount = StoredAccount(uuid: string, profile: Profile, expiresAt: nat)

  datatype Registry = Registry(active: Option<string>, accounts: seq<StoredAccount>)

  /** The registry file and the credential store. */
  datatype State = State(registry: Registry, secrets: map<string, string>)

  const EMPTY := State(Registry(None, []), map[])

  datatype Error = Unreadable | WriteRefused | UnknownAccount(uuid: string)

  function Key(uuid: string, kind: string): string {
    uuid + ":" + kind
  }

  predicate IsKind(kind: string) {
    kind == REFRESH_TOKEN_KEY || kind == SESSION_TOKEN_KEY
  }

  /** Distinct accounts and kinds never share a secret, and none collides with the pending token. */
  lemma KeyInjective(u: string, k: string, v: string, l: string)
    requires IsKind(k) && IsKind(l)
    ensures Key(u, k) == Key(v, l) <==> u == v && k == l
    ensures Key(u, k) != PENDING_KEY
  {
    var a, b := Key(u, k), Key(v, l);
    assert |k| == 7 && |l| == 7;
    assert a[..|u|] == u && a[|u| + 1..] == k;
    assert b[..|v|] == v && b[|v| + 1..] == l;
    assert a[|a| - 8] == ':' && PENDING_KEY[|PENDING_KEY| - 8] == '.';
  }

  lemma KeySpelled(uuid: string)
    ensures Key(uuid, REFRESH_TOKEN_KEY) == uuid + ":refresh" && Key(uuid, SESSION_TOKEN_KEY) == uuid + ":session"
  {
    assert ":" + "refresh" == ":refresh" && ":" + "session" == ":session";
    assert Key(uuid, REFRESH_TOKEN_KEY) == uuid + (":" + "refresh");
    assert Key(uuid, SESSION_TOKEN_KEY) == uuid + (":" + "session");
  }

  function SaturatingAdd(a: nat, b: nat): nat {
    if a + b > U64_MAX then U64_MAX else a + b
  }

  function IsOther(uuid: string): (keep: StoredAccount -> bool)
    ensures forall a: StoredAccount :: keep(a) <==> a.uuid != uuid
  {
    (a: StoredAccount) => a.uuid != uuid
  }

  function Without(accounts: seq<StoredAccount>, uuid: string): (r: seq<StoredAccount>)
    ensures forall a :: a in r <==> a in accounts && a.uuid != uuid
    ensures |r| <= |accounts|
  {
    FilterMembers(accounts, IsOther(uuid));
    Filter(accounts, IsOther(uuid))
  }

  predicate Knows(registry: Registry, uuid: string) {
    exists i :: 0 <= i < |registry.accounts| && registry.accounts[i].uuid == uuid
  }

  function Stored(account: Account, now: nat): StoredAccount {
    StoredAccount(account.uuid, account.profile, SaturatingAdd(now, account.expiresIn))
  }

  // ----- The effect of each operation, cut off after some of its writes -----

  function Remembered(registry: Registry, stored: StoredAccount): Registry {
    Registry(if registry.active.Some? then registry.active else Some(stored.uuid),
             Without(registry.accounts, stored.uuid) + [stored])
  }

  /** `remember` writes the refresh token if there is one, then the session token, then the registry. */
  function RememberAfter(s: State, account: Account, now: nat, writes: nat): State {
    var s1 := if writes >= 1 && account.refreshToken.Some?
              then s.(secrets := s.secrets[Key(account.uuid, REFRESH_TOKEN_KEY) := account.refreshToken.value]) else s;
    var s2 := if writes >= 2
              then s1.(secrets := s1.secrets[Key(account.uuid, SESSION_TOKEN_KEY) := account.minecraftToken]) else s1;
    if writes >= 3 then s2.(registry := Remembered(s2.registry, Stored(account, now))) else s2
  }

  function Forgotten(registry: Registry, uuid: string): Registry {
    var left := Without(registry.accounts, uuid);
    Registry(if registry.active != Some(uuid) then registry.active
             else if left == [] then None
             else Some(left[0].uuid),
             left)
  }

  /** `forget` writes the registry, then deletes the refresh token, then the session token. */
  function ForgetAfter(s: State, uuid: string, writes: nat): State {
    if !Knows(s.registry, uuid) then s
    else
      var s1 := if writes >= 1 then s.(registry := Forgotten(s.registry, uuid)) else s;
      var s2 := if writes >= 2 then s1.(secrets := s1.secrets - {Key(uuid, REFRESH_TOKEN_KEY)}) else s1;
      if writes >= 3 then s2.(secrets := s2.secrets - {Key(uuid, SESSION_TOKEN_KEY)}) else s2
  }

  function SetActiveAfter(s: State, uuid: string, writes: nat): State {
    if Knows(s.registry, uuid) && writes >= 1 then s.(registry := s.registry.(active := Some(uuid))) else s
  }

  function PendingAfter(s: State, token: Option<string>, writes: nat): State {
    if writes == 0 then s
    else if token.Some? then s.(secrets := s.secrets[PENDING_KEY := token.value])
    else s.(secrets := s.secrets - {PENDING_KEY})
  }

  // ----- The store object -----

  /** Any read or write may fail; a write that fails has no effect. */
  class AccountStore {
    var registry: Registry
    var secrets: map<string, string>
    ghost var faults: nat

    ghost function Abs(): State
      reads this
    {
      State(registry, secrets)
    }

    constructor ()
      ensures Abs() == EMPTY && faults == 0
    {
      registry, secrets, faults := Registry(None, []), map[], 0;
    }

    /** One read or write, which may fail; failures are counted. */
    method Try() returns (ok: bool)
      modifies this`faults
      ensures faults == old(faults) + if ok then 0 else 1
    {
      ok := *;
      faults := faults + if ok then 0 else 1;
    }

    method Load() returns (r: Result<Registry, Error>)
      modifies this`faults
      ensures r == Ok(registry) || r == Err(Unreadable)
      ensures faults == old(faults) + if r.Ok? then 0 else 1
    {
      var readable := Try();
      return if readable then Ok(registry) else Err(Unreadable);
    }

    method Save(next: Registry) returns (ok: bool)
      modifies this`registry, this`faults
      ensures faults == old(faults) + if ok then 0 else 1
      ensures registry == if ok then next else old(registry)
    {
      ok := Try();
      if ok {
        registry := next;
      }
    }

    method SetSecret(key: string, value: string) returns (ok: bool)
      modifies this`secrets, this`faults
      ensures faults == old(faults) + if ok then 0 else 1
      ensures secrets == if ok then old(secrets)[key := value] else old(secrets)
    {
      ok := Try();
      if ok {
        secrets := secrets[key := value];
      }
    }

    method DeleteSecret(key: string) returns (ok: bool)
      modifies this`secrets, this`faults
      ensures faults == old(faults) + if ok then 0 else 1
      ensures secrets == if ok then old(secrets) - {key} else old(secrets)
    {
      ok := Try();
      if ok {
        secrets := secrets - {key};
      }
    }

    method Remember(account: Account, now: nat) returns (r: Result<StoredAccount, Error>, ghost writes: nat)
      modifies this
      ensures Abs() == RememberAfter(old(Abs()), account, now, writes)
      ensures r.Ok? <==> writes == 3
      ensures r.Ok? <==> faults == old(faults)
      ensures r.Ok? ==>
                && r.value.uuid == account.uuid && r.value.profile == account.profile
                && r.value.expiresAt == (if now + account.expiresIn < 0x1_0000_0000_0000_0000
                                         then now + account.expiresIn else 0xFFFF_FFFF_FFFF_FFFF)
                && registry.accounts == Filter(old(registry).accounts, IsOther(account.uuid)) + [r.value]
                && registry.active == (if old(registry).active.Some? then old(registry).active else Some(account.uuid))
                && secrets == (if account.refreshToken.Some?
                               then old(secrets)[account.uuid + ":refresh" := account.refreshToken.value]
                               else old(secrets))[account.uuid + ":session" := account.minecraftToken]
      ensures r.Err? ==> registry == old(registry)
    {
      writes := 0;
      KeySpelled(account.uuid);
      if account.refreshToken.Some? {
        var ok := SetSecret(Key(account.uuid, REFRESH_TOKEN_KEY), account.refreshToken.value);
        if !ok {
          return Err(WriteRefused), 0;
        }
      }
      var kept := SetSecret(Key(account.uuid, SESSION_TOKEN_KEY), account.minecraftToken);
      if !kept {
        return Err(WriteRefused), 1;
      }
      var loaded := Load();
      if loaded.Err? {
        return Err(loaded.error), 2;
      }
      var next := loaded.value;
      next := next.(accounts := Without(next.accounts, account.uuid));
      next := next.(accounts := next.accounts + [Stored(account, now)]);
      if next.active.None? {
        next := next.(active := Some(account.uuid));
      }
      var saved := Save(next);
      if !saved {
        return Err(WriteRefused), 2;
      }
      return Ok(Stored(account, now)), 3;
    }

    method SetActive(uuid: string) returns (r: Result<(), Error>, ghost writes: nat)
      modifies this
      ensures Abs() == SetActiveAfter(old(Abs()), uuid, writes)
      ensures r.Ok? ==> registry.active == Some(uuid) && registry.accounts == old(registry).accounts
      ensures r.Err? ==> registry == old(registry)
      ensures secrets == old(secrets)
      ensures r.Ok? <==> writes == 1
      ensures faults >= old(faults)
      ensures faults == old(faults) ==>
                r == if Knows(old(registry), uuid) then Ok(()) else Err(UnknownAccount(uuid))
      ensures faults > old(faults) ==> r == Err(Unreadable) || r == Err(WriteRefused)
    {
      var loaded := Load();
      if loaded.Err? {
        return Err(loaded.error), 0;
      }
      if !Knows(loaded.value, uuid) {
        return Err(UnknownAccount(uuid)), 0;
      }
      var saved := Save(loaded.value.(active := Some(uuid)));
      if !saved {
        return Err(WriteRefused), 0;
      }
      return Ok(()), 1;
    }

    method Forget(uuid: string) returns (r: Result<(), Error>, ghost writes: nat)
      modifies this
      ensures Abs() == ForgetAfter(old(Abs()), uuid, writes)
      ensures r.Ok? ==>
                && secrets == old(secrets) - {uuid + ":refresh", uuid + ":session"}
                && registry.accounts == Filter(old(registry).accounts, IsOther(uuid))
                && registry.active == (if old(registry).active != Some(uuid) then old(registry).active
                                       else if registry.accounts == [] then None
                                       else Some(registry.accounts[0].uuid))
      ensures r.Err? && r.error.UnknownAccount? ==> registry == old(registry) && secrets == old(secrets)
      ensures r.Ok? <==> writes == 3
      ensures faults >= old(faults)
      ensures faults == old(faults) ==>
                r == if Knows(old(registry), uuid) then Ok(()) else Err(UnknownAccount(uuid))
      ensures faults > old(faults) ==> r == Err(Unreadable) || r == Err(WriteRefused)
    {
      var loaded := Load();
      if loaded.Err? {
        return Err(loaded.error), 0;
      }
      var next := loaded.value;
      KeySpelled(uuid);
      if !Knows(next, uuid) {
        return Err(UnknownAccount(uuid)), 0;
      }
      next := next.(accounts := Without(next.accounts, uuid));
      if next.active == Some(uuid) {
        next := next.(active := if next.accounts == [] then None else Some(next.accounts[0].uuid));
      }
      var saved := Save(next);
      if !saved {
        return Err(WriteRefused), 0;
      }
      var first := DeleteSecret(Key(uuid, REFRESH_TOKEN_KEY));
      if !first {
        return Err(WriteRefused), 1;
      }
      var second := DeleteSecret(Key(uuid, SESSION_TOKEN_KEY));
      if !second {
        return Err(WriteRefused), 2;
      }
      return Ok(()), 3;
    }

    method RememberPending(token: string) returns (ok: bool)
      modifies this
      ensures faults == old(faults) + if ok then 0 else 1
      ensures Abs() == PendingAfter(old(Abs()), Some(token), if ok then 1 else 0)
      ensures ok ==> secrets == old(secrets)["pending.refresh" := token]
      ensures registry == old(registry) && (!ok ==> secrets == old(secrets))
    {
      ok := SetSecret(PENDING_KEY, token);
    }

    method ForgetPending() returns (ok: bool)
      modifies this
      ensures faults == old(faults) + if ok then 0 else 1
      ensures Abs() == PendingAfter(old(Abs()), None, if ok then 1 else 0)
      ensures ok ==> secrets == old(secrets) - {"pending.refresh"}
      ensures registry == old(registry) && (!ok ==> secrets == old(secrets))
    {
      ok := DeleteSecret(PENDING_KEY);
    }
  }

  // ----- What holds after every sequence of operations -----

  datatype Op =
    | Remember(account: Account, now: nat)
    | SetActive(uuid: string)
    | Forget(uuid: string)
    | Pending(token: Option<string>)

  /** An operation and how many of its writes took effect. */
  function Apply(s: State, op: Op, writes: nat): State {
    match op
    case Remember(account, now) => RememberAfter(s, account, now, writes)
    case SetActive(uuid) => SetActiveAfter(s, uuid, writes)
    case Forget(uuid) => ForgetAfter(s, uuid, writes)
    case Pending(token) => PendingAfter(s, token, writes)
  }

  function RunOps(s: State, ops: seq<(Op, nat)>): State
    decreases |ops|
  {
    if ops == [] then s else RunOps(Apply(s, ops[0].0, ops[0].1), ops[1..])
  }

  ghost predicate UuidsDistinct(accounts: seq<StoredAccount>) {
    forall i, j :: 0 <= i < j < |accounts| ==> accounts[i].uuid != accounts[j].uuid
  }

  ghost predicate Inv(s: State) {
    && UuidsDistinct(s.registry.accounts)
    && (s.registry.active.Some? <==> s.registry.accounts != [])
    && (s.registry.active.Some? ==> Knows(s.registry, s.registry.active.value))
    && forall a :: a in s.registry.accounts ==> Key(a.uuid, SESSION_TOKEN_KEY) in s.secrets
  }

  lemma {:induction false} WithoutDistinct(accounts: seq<StoredAccount>, uuid: string)
    requires UuidsDistinct(accounts)
    ensures UuidsDistinct(Without(accounts, uuid))
  {
    if accounts != [] {
      WithoutDistinct(accounts[1..], uuid);
      var rest := Without(accounts[1..], uuid);
      forall i | 0 <= i < |rest|
        ensures rest[i].uuid != accounts[0].uuid
      {
        assert rest[i] in accounts[1..];
      }
    }
  }

  lemma RememberKeepsInv(s: State, account: Account, now: nat, writes: nat)
    requires Inv(s)
    ensures Inv(RememberAfter(s, account, now, writes))
  {
    var after := RememberAfter(s, account, now, writes);
    WithoutDistinct(s.registry.accounts, account.uuid);
    if writes >= 3 {
      var kept := Without(s.registry.accounts, account.uuid);
      assert after.registry.accounts[|kept|].uuid == account.uuid;
      if s.registry.active.Some? && s.registry.active.value != account.uuid {
        KnownStays(s.registry.accounts, account.uuid, s.registry.active.value, [Stored(account, now)]);
      }
    }
  }

  lemma KnownStays(accounts: seq<StoredAccount>, dropped: string, uuid: string, more: seq<StoredAccount>)
    requires uuid != dropped && exists i :: 0 <= i < |accounts| && accounts[i].uuid == uuid
    ensures exists i :: 0 <= i < |Without(accounts, dropped) + more|
                        && (Without(accounts, dropped) + more)[i].uuid == uuid
  {
    var i :| 0 <= i < |accounts| && accounts[i].uuid == uuid;
    assert accounts[i] in Without(accounts, dropped);
    var j :| 0 <= j < |Without(accounts, dropped)| && Without(accounts, dropped)[j] == accounts[i];
    assert (Without(accounts, dropped) + more)[j].uuid == uuid;
  }

  /** A forgotten account's secrets are nobody else's. */
  lemma OthersKeepSecrets(s: State, uuid: string, writes: nat, a: StoredAccount)
    requires Knows(s.registry, uuid) && a.uuid != uuid && Key(a.uuid, SESSION_TOKEN_KEY) in s.secrets
    ensures Key(a.uuid, SESSION_TOKEN_KEY) in ForgetAfter(s, uuid, writes).secrets
  {
    KeyInjective(a.uuid, SESSION_TOKEN_KEY, uuid, REFRESH_TOKEN_KEY);
    KeyInjective(a.uuid, SESSION_TOKEN_KEY, uuid, SESSION_TOKEN_KEY);
  }

  /** Whoever is active once an account is forgotten is still known. */
  lemma ForgottenActive(registry: Registry, uuid: string)
    requires registry.active.Some? ==> Knows(registry, registry.active.value)
    requires registry.active.None? ==> registry.accounts == []
    ensures var after := Forgotten(registry, uuid);
            && (after.active.Some? <==> after.accounts != [])
            && (after.active.Some? ==> Knows(after, after.active.value))
  {
    var left := Without(registry.accounts, uuid);
    if registry.active.Some? && registry.active != Some(uuid) {
      KnownStays(registry.accounts, uuid, registry.active.value, []);
      assert left + [] == left;
    } else if left != [] {
      assert left[0].uuid == left[0].uuid;
    }
  }

  lemma ForgetKeepsInv(s: State, uuid: string, writes: nat)
    requires Inv(s)
    ensures Inv(ForgetAfter(s, uuid, writes))
  {
    if Knows(s.registry, uuid) && writes >= 1 {
      WithoutDistinct(s.registry.accounts, uuid);
      ForgottenActive(s.registry, uuid);
      forall a | a in Without(s.registry.accounts, uuid)
        ensures Key(a.uuid, SESSION_TOKEN_KEY) in ForgetAfter(s, uuid, writes).secrets
      {
        OthersKeepSecrets(s, uuid, writes, a);
      }
    }
  }

  lemma ApplyKeepsInv(s: State, op: Op, writes: nat)
    requires Inv(s)
    ensures Inv(Apply(s, op, writes))
  {
    match op {
      case Remember(account, now) => RememberKeepsInv(s, account, now, writes);
      case Forget(uuid) => ForgetKeepsInv(s, uuid, writes);
      case SetActive(uuid) =>
      case Pending(token) =>
        forall a | a in s.registry.accounts
          ensures Key(a.uuid, SESSION_TOKEN_KEY) in PendingAfter(s, token, writes).secrets
        {
          KeyInjective(a.uuid, SESSION_TOKEN_KEY, "", SESSION_TOKEN_KEY);
        }
    }
  }

  /**
   * After any operations, each cut off after any of its writes: uuids are distinct, an account is active
   * exactly when there is one, and every registered account has its session secret.
   */
  lemma {:induction false} EveryRunKeepsInv(s: State, ops: seq<(Op, nat)>)
    requires Inv(s)
    ensures Inv(RunOps(s, ops))
    decreases |ops|
  {
    if ops != [] {
      ApplyKeepsInv(s, ops[0].0, ops[0].1);
      EveryRunKeepsInv(Apply(s, ops[0].0, ops[0].1), ops[1..]);
    }
  }

  lemma EveryRunFromEmpty(ops: seq<(Op, nat)>)
    ensures Inv(RunOps(EMPTY, ops))
  {
    EveryRunKeepsInv(EMPTY, ops);
  }

  function SecretOf(s: State, key: string): Option<string> {
    if key in s.secrets then Some(s.secrets[key]) else None
  }

  lemma {:induction false} WithoutKnows(accounts: seq<StoredAccount>, dropped: string, uuid: string)
    ensures (exists i :: 0 <= i < |Without(accounts, dropped)| && Without(accounts, dropped)[i].uuid == uuid)
       <==> uuid != dropped && exists i :: 0 <= i < |accounts| && accounts[i].uuid == uuid
  {
    var left := Without(accounts, dropped);
    if exists i :: 0 <= i < |left| && left[i].uuid == uuid {
      var i :| 0 <= i < |left| && left[i].uuid == uuid;
      assert left[i] in left;
      var j :| 0 <= j < |accounts| && accounts[j] == left[i];
      assert accounts[j].uuid == uuid;
    }
    if uuid != dropped && exists i :: 0 <= i < |accounts| && accounts[i].uuid == uuid {
      KnownStays(accounts, dropped, uuid, []);
      assert left + [] == left;
    }
  }

  /** A completed forget removes the account's entry and nobody else's; it is never left active. */
  lemma ForgetRemovesExactly(s: State, uuid: string, other: string)
    requires Inv(s) && Knows(s.registry, uuid)
    ensures Knows(ForgetAfter(s, uuid, 3).registry, other) <==> other != uuid && Knows(s.registry, other)
    ensures ForgetAfter(s, uuid, 3).registry.active != Some(uuid)
  {
    WithoutKnows(s.registry.accounts, uuid, other);
    var left := Without(s.registry.accounts, uuid);
    if left != [] {
      assert left[0] in left;
    }
  }

  /** A completed forget erases the account's two secrets and no others. */
  lemma ForgetErasesExactly(s: State, uuid: string, other: string, kind: string)
    requires Knows(s.registry, uuid) && IsKind(kind)
    ensures SecretOf(ForgetAfter(s, uuid, 3), Key(other, kind))
         == if other == uuid then None else SecretOf(s, Key(other, kind))
    ensures SecretOf(ForgetAfter(s, uuid, 3), PENDING_KEY) == SecretOf(s, PENDING_KEY)
  {
    KeyInjective(other, kind, uuid, REFRESH_TOKEN_KEY);
    KeyInjective(other, kind, uuid, SESSION_TOKEN_KEY);
    KeyInjective(uuid, REFRESH_TOKEN_KEY, uuid, REFRESH_TOKEN_KEY);
    KeyInjective(uuid, SESSION_TOKEN_KEY, uuid, SESSION_TOKEN_KEY);
  }

  /** A completed remember makes the account known with the given tokens and leaves every other account's alone. */
  lemma RememberTouchesOnlyItsOwn(s: State, account: Account, now: nat, other: string, kind: string)
    requires Inv(s) && IsKind(kind)
    ensures Stored(account, now) in RememberAfter(s, account, now, 3).registry.accounts
    ensures SecretOf(RememberAfter(s, account, now, 3), Key(account.uuid, SESSION_TOKEN_KEY))
         == Some(account.minecraftToken)
    ensures account.refreshToken.None? ==>
              SecretOf(RememberAfter(s, account, now, 3), Key(account.uuid, REFRESH_TOKEN_KEY))
              == SecretOf(s, Key(account.uuid, REFRESH_TOKEN_KEY))
    ensures account.refreshToken.Some? ==>
              SecretOf(RememberAfter(s, account, now, 3), Key(account.uuid, REFRESH_TOKEN_KEY)) == account.refreshToken
    ensures other != account.uuid ==>
              SecretOf(RememberAfter(s, account, now, 3), Key(other, kind)) == SecretOf(s, Key(other, kind))
    ensures s.registry.active.Some? ==> RememberAfter(s, account, now, 3).registry.active == s.registry.active
  {
    KeyInjective(other, kind, account.uuid, REFRESH_TOKEN_KEY);
    KeyInjective(other, kind, account.uuid, SESSION_TOKEN_KEY);
    KeyInjective(account.uuid, REFRESH_TOKEN_KEY, account.uuid, SESSION_TOKEN_KEY);
  }
}
