/**
 * What hostRunner.ensure does to a profile, from loading it to the running child:
 * when it claims, when it starts, and the one local state it never gets out of.
 */
module HostEnsure {
  import opened Wrappers
  import opened ProfileStore

  datatype Registration = Registration(databaseID: Key, claimable: bool)

  datatype Claim = Claim(databaseID: string, databaseName: string, dialect: string, token: string)

  // The outcomes of everything ensure asks of the outside: the claim, the calls of
  // SaveProfile and SaveProfileDSN that succeed, the derived DSN, and then lock,
  // create-missing, open and ping together.
  datatype Outcomes = Outcomes(claim: Option<Claim>, saveCalls: nat, derived: Option<string>, dsnCalls: nat,
      reachable: bool)

  predicate Loadable(f: Files, key: Key) {
    LoadProfile(f, key).Profile?
  }

  // A profile that loads but has no DSN.
  predicate Stuck(f: Files, key: Key) {
    Loadable(f, key) && LoadProfileDSN(f, key) == ""
  }

  function ClaimedConfig(serverURL: string, c: Claim): Config {
    Config(c.databaseID, c.databaseName, c.dialect, serverURL, false)
  }

  // The claiming branch: the files it leaves, and whether ensure goes on.
  function Claimed(f: Files, key: Key, serverURL: string, o: Outcomes): (Files, bool) {
    if o.claim.None? then (f, false)
    else
      var g := ProfileSaved(f, key, ClaimedConfig(serverURL, o.claim.value), o.claim.value.token, o.saveCalls);
      if !ValidKey(key) || o.saveCalls < 3 || o.derived.None? then (g, false)
      else (DSNSaved(g, key, o.derived.value, o.dsnCalls), o.dsnCalls >= 2)
  }

  // The files after ensure, and whether a child runs.
  function Ensured(f: Files, reg: Registration, serverURL: string, o: Outcomes): (Files, bool) {
    var key := reg.databaseID;
    if !Loadable(f, key) && !reg.claimable then (f, false)
    else
      var (g, goesOn) := if Loadable(f, key) then (f, true) else Claimed(f, key, serverURL, o);
      (g, goesOn && LoadProfileDSN(g, key) != "" && o.reachable)
  }

  class Host {
    const store: Store
    const serverURL: string
    // Databases whose claim endpoint was called, in order.
    var claims: seq<Key>

    constructor (store: Store, serverURL: string)
      ensures this.store == store && this.serverURL == serverURL && claims == []
    {
      this.store, this.serverURL, claims := store, serverURL, [];
    }

    // ensure, for a registration without a running child.
    method Ensure(reg: Registration, o: Outcomes) returns (started: bool)
      modifies this, store
      ensures (store.View(), started) == Ensured(old(store.View()), reg, serverURL, o)
      ensures claims == old(claims) + if reg.claimable && !Loadable(old(store.View()), reg.databaseID)
          then [reg.databaseID] else []
      ensures started ==> Loadable(store.View(), reg.databaseID) && LoadProfileDSN(store.View(), reg.databaseID) != ""
    {
      var key := reg.databaseID;
      var loaded := LoadProfile(store.View(), key);
      if !loaded.Profile? {
        if !reg.claimable {
          return false;
        }
        claims := claims + [key];
        if o.claim.None? {
          return false;
        }
        var cfg := ClaimedConfig(serverURL, o.claim.value);
        ghost var was := store.View();
        var saved := store.SaveProfile(key, cfg, o.claim.value.token, o.saveCalls);
        if !saved || o.derived.None? {
          return false;
        }
        SaveThenLoad(was, key, cfg, o.claim.value.token, o.saveCalls);
        SaveDSNThenLoad(store.View(), key, o.derived.value, o.dsnCalls);
        saved := store.SaveProfileDSN(key, o.derived.value, o.dsnCalls);
        if !saved {
          return false;
        }
      }
      if LoadProfileDSN(store.View(), key) == "" {
        return false;
      }
      return o.reachable;
    }
  }

  // What a claim that is saved makes of a profile: what the server said, this host's
  // server, no bootstrap yet, and the token that came with the claim.
  lemma ClaimedProfile(f: Files, reg: Registration, serverURL: string, o: Outcomes)
    requires ValidKey(reg.databaseID) && !Loadable(f, reg.databaseID) && reg.claimable
    requires o.claim.Some? && o.saveCalls >= 3
    ensures var g, c := Ensured(f, reg, serverURL, o).0, o.claim.value;
            var p := LoadProfile(g, reg.databaseID);
            && p.Profile? && p.token == c.token && !p.config.bootstrapped
            && p.config.databaseID == c.databaseID && p.config.databaseName == c.databaseName
            && p.config.dialect == c.dialect && p.config.serverURL == serverURL
            && LoadProfileDSN(g, reg.databaseID) ==
                 if o.derived.Some? && o.dsnCalls >= 2 then o.derived.value else LoadProfileDSN(f, reg.databaseID)
  {
    var cfg := ClaimedConfig(serverURL, o.claim.value);
    var g := ProfileSaved(f, reg.databaseID, cfg, o.claim.value.token, o.saveCalls);
    ClaimSteps(f, reg, serverURL, o);
    ProfileLoads(f, reg.databaseID, cfg, o.claim.value.token, o.saveCalls);
    if o.derived.Some? {
      DSNLoads(g, reg.databaseID, o.derived.value, o.dsnCalls);
    }
  }

  lemma ClaimSteps(f: Files, reg: Registration, serverURL: string, o: Outcomes)
    requires ValidKey(reg.databaseID) && !Loadable(f, reg.databaseID) && reg.claimable
    requires o.claim.Some? && o.saveCalls >= 3
    ensures var cfg := ClaimedConfig(serverURL, o.claim.value);
            var g := ProfileSaved(f, reg.databaseID, cfg, o.claim.value.token, o.saveCalls);
            Ensured(f, reg, serverURL, o).0 ==
              if o.derived.Some? then DSNSaved(g, reg.databaseID, o.derived.value, o.dsnCalls) else g
  {
  }

  lemma ProfileLoads(f: Files, key: Key, cfg: Config, token: string, calls: nat)
    requires ValidKey(key) && calls >= 3
    ensures var g := ProfileSaved(f, key, cfg, token, calls);
            LoadProfile(g, key) == Profile(cfg, token) && LoadProfileDSN(g, key) == LoadProfileDSN(f, key)
  {
    SaveThenLoad(f, key, cfg, token, calls);
  }

  lemma DSNLoads(f: Files, key: Key, dsn: string, calls: nat)
    requires ValidKey(key)
    ensures var g := DSNSaved(f, key, dsn, calls);
            && LoadProfile(g, key) == LoadProfile(f, key)
            && LoadProfileDSN(g, key) == if calls >= 2 then dsn else LoadProfileDSN(f, key)
  {
    SaveDSNThenLoad(f, key, dsn, calls);
  }

  // Without a claim nothing is written at all.
  lemma UnclaimedLeavesFiles(f: Files, reg: Registration, serverURL: string, o: Outcomes)
    requires Loadable(f, reg.databaseID) || !reg.claimable || o.claim.None? || !ValidKey(reg.databaseID)
    ensures Ensured(f, reg, serverURL, o).0 == f
  {
  }

  // A child starts if and only if the database is reachable and there is a profile with
  // a DSN: one from before, or one that this claim has saved, derived DSN included.
  lemma StartsExactly(f: Files, reg: Registration, serverURL: string, o: Outcomes)
    ensures Ensured(f, reg, serverURL, o).1 <==>
            && o.reachable
            && if Loadable(f, reg.databaseID) then LoadProfileDSN(f, reg.databaseID) != ""
               else && ValidKey(reg.databaseID) && reg.claimable && o.claim.Some? && o.saveCalls >= 3
                    && o.derived.Some? && o.derived.value != "" && o.dsnCalls >= 2
  {
    var key := reg.databaseID;
    if !Loadable(f, key) && ValidKey(key) && o.claim.Some? && o.derived.Some? {
      var cfg := ClaimedConfig(serverURL, o.claim.value);
      var g := ProfileSaved(f, key, cfg, o.claim.value.token, o.saveCalls);
      DSNLoads(g, key, o.derived.value, o.dsnCalls);
    }
  }

  // Claim, lock and database all succeed, and the derived DSN is not empty.
  predicate Cooperative(o: Outcomes) {
    o.claim.Some? && o.saveCalls >= 3 && o.derived.Some? && o.derived.value != "" && o.dsnCalls >= 2 && o.reachable
  }

  // For a claimable registration, an ensure in which everything succeeds starts a
  // child unless the profile is stuck, and in no other case fails to.
  lemma StartsUnlessStuck(f: Files, reg: Registration, serverURL: string, o: Outcomes)
    requires ValidKey(reg.databaseID) && reg.claimable && Cooperative(o)
    ensures Ensured(f, reg, serverURL, o).1 <==> !Stuck(f, reg.databaseID)
  {
    StartsExactly(f, reg, serverURL, o);
  }

  // A sequence of ensures for one registration, whatever their outcomes.
  function EnsuredAll(f: Files, regs: seq<Registration>, serverURL: string, os: seq<Outcomes>): Files
    requires |os| == |regs|
  {
    if regs == [] then f
    else Ensured(EnsuredAll(f, regs[..|regs| - 1], serverURL, os[..|os| - 1]), regs[|regs| - 1], serverURL,
        os[|os| - 1]).0
  }

  // An ensure leaves every other profile alone.
  lemma EnsureLeavesOthers(f: Files, reg: Registration, serverURL: string, o: Outcomes, k: Key)
    requires k != reg.databaseID
    ensures SameProfile(f, Ensured(f, reg, serverURL, o).0, k)
  {
    var key := reg.databaseID;
    if !Loadable(f, key) && reg.claimable && o.claim.Some? && ValidKey(key) {
      var cfg := ClaimedConfig(serverURL, o.claim.value);
      SaveLeavesOthers(f, key, cfg, o.claim.value.token, o.saveCalls, k);
      if o.derived.Some? {
        DSNLeavesOthers(ProfileSaved(f, key, cfg, o.claim.value.token, o.saveCalls), key, o.derived.value, o.dsnCalls,
            k);
      }
    }
  }

  lemma SaveLeavesOthers(f: Files, key: Key, cfg: Config, token: string, calls: nat, k: Key)
    requires ValidKey(key) && k != key
    ensures SameProfile(f, ProfileSaved(f, key, cfg, token, calls), k)
  {
    SaveThenLoad(f, key, cfg, token, calls);
  }

  lemma DSNLeavesOthers(f: Files, key: Key, dsn: string, calls: nat, k: Key)
    requires ValidKey(key) && k != key
    ensures SameProfile(f, DSNSaved(f, key, dsn, calls), k)
  {
    SaveDSNThenLoad(f, key, dsn, calls);
  }

  lemma StuckAfter(f: Files, reg: Registration, serverURL: string, o: Outcomes, key: Key)
    requires Stuck(f, key)
    ensures SameProfile(f, Ensured(f, reg, serverURL, o).0, key)
    ensures reg.databaseID == key ==> !Ensured(f, reg, serverURL, o).1
  {
    if reg.databaseID != key {
      EnsureLeavesOthers(f, reg, serverURL, o, key);
    }
  }

  lemma SameStuck(f: Files, g: Files, key: Key)
    requires SameProfile(f, g, key) && Stuck(f, key)
    ensures Stuck(g, key)
  {
  }

  // No later ensure gets a stuck profile going or changes it, in any sequence of
  // ensures for this and other registrations.
  lemma {:induction false} StuckForever(f: Files, regs: seq<Registration>, serverURL: string, os: seq<Outcomes>,
      key: Key)
    requires |os| == |regs| && Stuck(f, key)
    ensures var g := EnsuredAll(f, regs, serverURL, os);
            && SameProfile(f, g, key) && Stuck(g, key)
            && forall r: Registration, o :: r.databaseID == key ==> !Ensured(g, r, serverURL, o).1
  {
    var g := EnsuredAll(f, regs, serverURL, os);
    if regs != [] {
      var m := |regs| - 1;
      var h := EnsuredAll(f, regs[..m], serverURL, os[..m]);
      StuckForever(f, regs[..m], serverURL, os[..m], key);
      StuckAfter(h, regs[m], serverURL, os[m], key);
      SameStuck(h, g, key);
    }
    forall r: Registration, o | r.databaseID == key
      ensures !Ensured(g, r, serverURL, o).1
    {
      StuckAfter(g, r, serverURL, o, key);
    }
  }

  // The new configuration was saved next to a token: both by this claim, or the
  // configuration only, with a token left from before.
  predicate Paired(f: Files, key: Key, o: Outcomes) {
    o.saveCalls >= 3 || (o.saveCalls == 2 && key in f.profiles && TOKEN in f.profiles[key])
  }

  predicate SavesDSN(o: Outcomes) {
    o.saveCalls >= 3 && o.derived.Some? && o.dsnCalls >= 2
  }

  // How a profile gets stuck: the claim paired it, and its DSN was not saved.
  lemma GetsStuckExactly(f: Files, reg: Registration, serverURL: string, o: Outcomes)
    requires !Stuck(f, reg.databaseID)
    ensures Stuck(Ensured(f, reg, serverURL, o).0, reg.databaseID) <==>
            && !Loadable(f, reg.databaseID) && reg.claimable && ValidKey(reg.databaseID)
            && o.claim.Some? && Paired(f, reg.databaseID, o)
            && (if SavesDSN(o) then o.derived.value == "" else LoadProfileDSN(f, reg.databaseID) == "")
  {
    var key := reg.databaseID;
    if !Loadable(f, key) && reg.claimable && o.claim.Some? {
      var cfg := ClaimedConfig(serverURL, o.claim.value);
      if ValidKey(key) {
        SaveThenLoad(f, key, cfg, o.claim.value.token, o.saveCalls);
        PartialSave(f, key, cfg, o.claim.value.token, o.saveCalls);
        var g := ProfileSaved(f, key, cfg, o.claim.value.token, o.saveCalls);
        if o.derived.Some? {
          SaveDSNThenLoad(g, key, o.derived.value, o.dsnCalls);
        }
      }
    }
  }

  lemma PartialSave(f: Files, key: Key, cfg: Config, token: string, calls: nat)
    requires ValidKey(key) && !Loadable(f, key)
    ensures var g := ProfileSaved(f, key, cfg, token, calls);
            Loadable(g, key) <==> calls >= 3 || (calls == 2 && key in f.profiles && TOKEN in f.profiles[key])
  {
    assert |CONFIG| == 11 && |TOKEN| == 5;
  }
}
