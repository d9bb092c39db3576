/**
 * The profile store: the files of each paired database under its own directory,
 * the migration of the older single-pairing layout, and the healing of a profile
 * whose database id was unknown. Every file-system call is one step that happens
 * or fails.
 */
module ProfileStore {
  import opened Wrappers

  type Key = string

  datatype Config = Config(databaseID: string, databaseName: string, dialect: string, serverURL: string,
      bootstrapped: bool)

  // A file's content: a configuration, or any other text.
  datatype Content = Json(config: Config) | Text(text: string)

  type Dir = map<string, Content>

  datatype Files = Files(root: Dir, profiles: map<Key, Dir>)

  const CONFIG := "config.json"
  const TOKEN := "token"
  const DSN := "dsn"
  const LEGACY_KEY := "legacy"
  const MIGRATED: seq<string> := [CONFIG, TOKEN, DSN]

  // === Keys ==================================================================

  function TrimSlashes(s: string): string {
    if s != "" && s[|s| - 1] == '/' then TrimSlashes(s[..|s| - 1]) else s
  }

  function AfterLastSlash(s: string): string {
    if s == "" || s[|s| - 1] == '/' then "" else AfterLastSlash(s[..|s| - 1]) + [s[|s| - 1]]
  }

  // filepath.Base.
  function Base(path: string): string {
    if path == "" then "."
    else
      var trimmed := TrimSlashes(path);
      if trimmed == "" then "/" else AfterLastSlash(trimmed)
  }

  // validateKey.
  predicate ValidKey(key: Key) {
    key != "" && key == Base(key) && key != "." && key != ".."
  }

  lemma {:induction false} LastElement(s: string)
    ensures '/' !in AfterLastSlash(s) && |AfterLastSlash(s)| <= |s|
    ensures AfterLastSlash(s) == s <==> '/' !in s
  {
    if s != "" {
      LastElement(s[..|s| - 1]);
      assert s == s[..|s| - 1] + [s[|s| - 1]];
    }
  }

  // The accepted keys are the path elements other than "." and "..", and "/" itself.
  lemma KeysAccepted(key: Key)
    ensures ValidKey(key) <==> key == "/" || (key != "" && '/' !in key && key != "." && key != "..")
  {
    if key != "" {
      if key[|key| - 1] == '/' {
        Trimmed(key);
        LastElement(TrimSlashes(key));
        assert '/' in key;
      } else {
        assert TrimSlashes(key) == key;
        LastElement(key);
      }
    }
  }

  lemma {:induction false} Trimmed(s: string)
    ensures |TrimSlashes(s)| <= |s|
    ensures s != "" && s[|s| - 1] == '/' ==> |TrimSlashes(s)| < |s|
  {
    if s != "" && s[|s| - 1] == '/' {
      Trimmed(s[..|s| - 1]);
    }
  }

  // === Reading ===============================================================

  datatype Loaded = Profile(config: Config, token: string) | NotPaired | Broken

  // LoadProfile.
  function LoadProfile(f: Files, key: Key): Loaded {
    if !ValidKey(key) then Broken
    else if key !in f.profiles || CONFIG !in f.profiles[key] || TOKEN !in f.profiles[key] then NotPaired
    else match f.profiles[key][CONFIG]
         case Text(_) => Broken
         case Json(cfg) => Profile(cfg, AsText(f.profiles[key][TOKEN]))
  }

  // The bytes of a file that holds no configuration.
  function AsText(c: Content): string {
    match c
    case Text(t) => t
    case Json(_) => "{}"
  }

  // LoadProfileDSN; "" when none is saved.
  function LoadProfileDSN(f: Files, key: Key): string {
    if ValidKey(key) && key in f.profiles && DSN in f.profiles[key] then AsText(f.profiles[key][DSN]) else ""
  }

  // === Effects ===============================================================

  function WithDir(f: Files, key: Key): Files {
    if key in f.profiles then f else f.(profiles := f.profiles[key := map[]])
  }

  function Written(f: Files, key: Key, name: string, c: Content): Files
    requires key in f.profiles
  {
    f.(profiles := f.profiles[key := f.profiles[key][name := c]])
  }

  // os.Rename of one file from the root into a profile.
  function Moved(f: Files, key: Key, name: string): Files
    requires key in f.profiles
  {
    if name in f.root
    then Files(f.root - {name}, f.profiles[key := f.profiles[key][name := f.root[name]]])
    else f
  }

  // The first n of the migrated files moved.
  function MovedUpTo(f: Files, key: Key, n: nat): (g: Files)
    requires n <= 3
    ensures key in g.profiles
  {
    if n == 0 then WithDir(f, key) else Moved(MovedUpTo(f, key, n - 1), key, MIGRATED[n - 1])
  }

  // The key under which the older layout is migrated, if there is one to migrate.
  function LegacyTarget(f: Files): Option<Key> {
    if CONFIG !in f.root then None
    else match f.root[CONFIG]
         case Text(_) => None
         case Json(cfg) =>
           var key := if cfg.databaseID == "" then LEGACY_KEY else cfg.databaseID;
           if ValidKey(key) then Some(key) else None
  }

  // File-system calls of the migration that fail.
  datatype MigrateFaults = MigrateFaults(read: bool, mkdir: bool, renames: set<string>)

  class Store {
    var root: Dir
    var profiles: map<Key, Dir>

    function View(): Files
      reads this
    {
      Files(root, profiles)
    }

    constructor (f: Files)
      ensures View() == f
    {
      root, profiles := f.root, f.profiles;
    }

    method Put(f: Files)
      modifies this
      ensures View() == f
    {
      root, profiles := f.root, f.profiles;
    }

    // migrateLegacyLayout.
    method MigrateLegacyLayout(faults: MigrateFaults) returns (err: bool)
      modifies this
      ensures CONFIG !in old(root) && !faults.read ==> !err && View() == old(View())
      ensures LegacyTarget(old(View())).None? ==> View() == old(View())
      ensures LegacyTarget(old(View())).None? && CONFIG in old(root) ==> err
      ensures LegacyTarget(old(View())).Some? && err ==>
                || View() == old(View())
                || exists n: nat :: n < 3 && View() == MovedUpTo(old(View()), LegacyTarget(old(View())).value, n)
      ensures LegacyTarget(old(View())).Some? && !err ==>
                View() == MovedUpTo(old(View()), LegacyTarget(old(View())).value, 3)
      ensures LegacyTarget(old(View())).Some? ==>
          (err <==> faults.read || faults.mkdir || exists x :: x in old(root) && x in MIGRATED && x in faults.renames)
    {
      if faults.read {
        return true;
      }
      if CONFIG !in root {
        return false;
      }
      if root[CONFIG].Text? {
        return true;
      }
      var cfg := root[CONFIG].config;
      var key := cfg.databaseID;
      if key == "" {
        key := LEGACY_KEY;
      }
      if !ValidKey(key) {
        return true;
      }
      if faults.mkdir {
        return true;
      }
      Put(WithDir(View(), key));
      ghost var was := old(View());
      for i := 0 to 3
        invariant View() == MovedUpTo(was, key, i)
        invariant forall j :: 0 <= j < i ==> MIGRATED[j] !in faults.renames || MIGRATED[j] !in was.root
      {
        StillInRoot(was, key, i);
        var name := MIGRATED[i];
        if name !in root {
          continue;
        }
        if name in faults.renames {
          return true;
        }
        Put(Moved(View(), key, name));
      }
      return false;
    }
  
    // RenameProfile.
    method RenameProfile(oldKey: Key, newKey: Key, callOk: bool) returns (ok: bool)
      modifies this
      ensures ok <==> callOk && Renamed(old(View()), oldKey, newKey).Some?
      ensures View() == if ok then Renamed(old(View()), oldKey, newKey).value else old(View())
    {
      if !ValidKey(oldKey) || !ValidKey(newKey) || !callOk {
        return false;
      }
      if newKey in profiles {
        profiles := profiles - {oldKey};
        return true;
      }
      if oldKey !in profiles {
        return false;
      }
      profiles := (profiles - {oldKey})[newKey := profiles[oldKey]];
      return true;
    }

    // SaveProfileConfig.
    method SaveProfileConfig(key: Key, cfg: Config, callOk: bool) returns (ok: bool)
      modifies this
      ensures ok <==> callOk && ConfigSaved(old(View()), key, cfg).Some?
      ensures View() == if ok then ConfigSaved(old(View()), key, cfg).value else old(View())
    {
      if !ValidKey(key) || !callOk || key !in profiles {
        return false;
      }
      Put(Written(View(), key, CONFIG, Json(cfg)));
      return true;
    }

    // SaveProfile: `calls` of its three file-system calls succeed.
    method SaveProfile(key: Key, cfg: Config, token: string, calls: nat) returns (ok: bool)
      modifies this
      ensures ok <==> ValidKey(key) && calls >= 3
      ensures View() == ProfileSaved(old(View()), key, cfg, token, calls)
    {
      if !ValidKey(key) || calls == 0 {
        return false;
      }
      Put(WithDir(View(), key));
      if calls == 1 {
        return false;
      }
      Put(Written(View(), key, CONFIG, Json(cfg)));
      if calls == 2 {
        return false;
      }
      Put(Written(View(), key, TOKEN, Text(token)));
      return true;
    }

    // SaveProfileDSN: `calls` of its two file-system calls succeed.
    method SaveProfileDSN(key: Key, dsn: string, calls: nat) returns (ok: bool)
      modifies this
      ensures ok <==> ValidKey(key) && calls >= 2
      ensures View() == DSNSaved(old(View()), key, dsn, calls)
    {
      if !ValidKey(key) || calls == 0 {
        return false;
      }
      Put(WithDir(View(), key));
      if calls == 1 {
        return false;
      }
      Put(Written(View(), key, DSN, Text(dsn)));
      return true;
    }
  }

  // What SaveProfile leaves when its first `calls` file-system calls succeed.
  function ProfileSaved(f: Files, key: Key, cfg: Config, token: string, calls: nat): Files {
    if !ValidKey(key) || calls == 0 then f
    else if calls == 1 then WithDir(f, key)
    else if calls == 2 then Written(WithDir(f, key), key, CONFIG, Json(cfg))
    else Written(Written(WithDir(f, key), key, CONFIG, Json(cfg)), key, TOKEN, Text(token))
  }

  function DSNSaved(f: Files, key: Key, dsn: string, calls: nat): Files {
    if !ValidKey(key) || calls == 0 then f
    else if calls == 1 then WithDir(f, key)
    else Written(WithDir(f, key), key, DSN, Text(dsn))
  }

  predicate SameProfile(f: Files, g: Files, key: Key) {
    && (key in g.profiles <==> key in f.profiles)
    && (key in f.profiles ==> g.profiles[key] == f.profiles[key])
  }

  // No profile but `key` is affected.
  ghost predicate SameElsewhere(f: Files, g: Files, key: Key) {
    forall k :: k != key ==> SameProfile(f, g, k)
  }

  // Saving and loading: a complete save is what the next load returns, an
  // interrupted one over no profile leaves nothing that loads, and no other profile
  // is affected.
  lemma SaveThenLoad(f: Files, key: Key, cfg: Config, token: string, calls: nat)
    requires ValidKey(key)
    ensures var g := ProfileSaved(f, key, cfg, token, calls);
            && (calls >= 3 ==> LoadProfile(g, key) == Profile(cfg, token))
            && (calls < 3 && key !in f.profiles ==> LoadProfile(g, key) == NotPaired)
            && LoadProfileDSN(g, key) == LoadProfileDSN(f, key)
            && SameElsewhere(f, g, key)
  {
    assert |CONFIG| == 11 && |TOKEN| == 5 && |DSN| == 3;
  }

  lemma SaveDSNThenLoad(f: Files, key: Key, dsn: string, calls: nat)
    requires ValidKey(key)
    ensures var g := DSNSaved(f, key, dsn, calls);
            && LoadProfileDSN(g, key) == (if calls >= 2 then dsn else LoadProfileDSN(f, key))
            && LoadProfile(g, key) == LoadProfile(f, key)
            && SameElsewhere(f, g, key)
  {
    assert |CONFIG| == 11 && |TOKEN| == 5 && |DSN| == 3;
  }

  lemma StillInRoot(f: Files, key: Key, i: nat)
    requires i < 3
    ensures MIGRATED[i] in MovedUpTo(f, key, i).root <==> MIGRATED[i] in f.root
  {
    MovedFiles(f, key, i);
    assert |CONFIG| == 11 && |TOKEN| == 5 && |DSN| == 3;
  }

  // What the migration has done after n files, file by file.
  lemma MovedFiles(f: Files, key: Key, n: nat)
    requires n <= 3
    ensures var g := MovedUpTo(f, key, n);
            && SameElsewhere(f, g, key)
            && (forall x :: x in g.root <==> x in f.root && x !in MIGRATED[..n])
            && (forall x :: x in g.root ==> g.root[x] == f.root[x])
            && (forall x :: x in g.profiles[key] <==>
                  (x in f.root && x in MIGRATED[..n]) || (key in f.profiles && x in f.profiles[key]))
            && (forall x :: x in g.profiles[key] ==>
                  g.profiles[key][x] == if x in f.root && x in MIGRATED[..n] then f.root[x] else f.profiles[key][x])
  {
    if n > 0 {
      var g := MovedUpTo(f, key, n - 1);
      MovedFiles(f, key, n - 1);
      OneMoved(g, key, MIGRATED[n - 1]);
      assert forall x :: x in MIGRATED[..n] <==> x in MIGRATED[..n - 1] || x == MIGRATED[n - 1];
      Distinct(n);
    }
    forall k | k != key
      ensures SameProfile(f, MovedUpTo(f, key, n), k)
    {
      if n > 0 {
        assert SameProfile(f, MovedUpTo(f, key, n - 1), k);
      }
    }
  }

  lemma OneMoved(g: Files, key: Key, name: string)
    requires key in g.profiles
    ensures var h := Moved(g, key, name);
            && key in h.profiles && (forall k :: k != key ==> SameProfile(g, h, k))
            && (forall x :: x in h.root <==> x in g.root && x != name)
            && (forall x :: x in h.root ==> h.root[x] == g.root[x])
            && (forall x :: x in h.profiles[key] <==> x in g.profiles[key] || (x == name && x in g.root))
            && (forall x :: x in h.profiles[key] ==>
                  h.profiles[key][x] == if x == name && x in g.root then g.root[x] else g.profiles[key][x])
  {
  }

  lemma Distinct(n: nat)
    requires 0 < n <= 3
    ensures MIGRATED[n - 1] !in MIGRATED[..n - 1]
  {
    assert |CONFIG| == 11 && |TOKEN| == 5 && |DSN| == 3;
    assert forall j :: 0 <= j < n - 1 ==> MIGRATED[..n - 1][j] == MIGRATED[j] && |MIGRATED[j]| > |MIGRATED[n - 1]|;
  }

  // === The migration =========================================================

  // A completed migration makes the older pairing the profile's: its configuration,
  // its token when it has one and its DSN when it has one.
  lemma MigrationPreserves(f: Files, key: Key)
    requires LegacyTarget(f) == Some(key) && key !in f.profiles
    ensures var g := MovedUpTo(f, key, 3);
            && LoadProfile(g, key) ==
                (if TOKEN in f.root then Profile(f.root[CONFIG].config, AsText(f.root[TOKEN])) else NotPaired)
            && LoadProfileDSN(g, key) == (if DSN in f.root then AsText(f.root[DSN]) else "")
            && SameElsewhere(f, g, key)
  {
    MovedFiles(f, key, 3);
    assert MIGRATED[..3] == MIGRATED;
    assert CONFIG == MIGRATED[0] && TOKEN == MIGRATED[1] && DSN == MIGRATED[2];
    assert CONFIG in f.root && f.root[CONFIG].Json? && ValidKey(key);
    var d := MovedUpTo(f, key, 3).profiles[key];
    assert CONFIG in d && d[CONFIG] == f.root[CONFIG];
    assert TOKEN in d <==> TOKEN in f.root;
  }

  // The key comes from the older configuration: its database id, or "legacy" when it has
  // none. A key that is no path element is never migrated.
  lemma MigratesUnder(f: Files, cfg: Config, key: Key)
    requires CONFIG in f.root && f.root[CONFIG] == Json(cfg) && TOKEN in f.root
    requires if cfg.databaseID == "" then key == "legacy" else key == cfg.databaseID
    ensures if key == "/" || ('/' !in key && key != "." && key != "..") then
              key !in f.profiles ==> LoadProfile(Rerun(f), key) == Profile(cfg, AsText(f.root[TOKEN]))
            else Rerun(f) == f
  {
    KeysAccepted(key);
    if LegacyTarget(f) == Some(key) && key !in f.profiles {
      MigrationPreserves(f, key);
    }
  }

  // Over an existing profile the files of the older pairing win one by one; what it
  // does not have stays as it was.
  lemma MigrationOverwrites(f: Files, key: Key, name: string)
    requires LegacyTarget(f) == Some(key) && key in f.profiles && name in MIGRATED
    ensures var g := MovedUpTo(f, key, 3);
            && (name in f.root ==> name in g.profiles[key] && g.profiles[key][name] == f.root[name])
            && (name !in f.root ==> (name in g.profiles[key] <==> name in f.profiles[key])
                                    && (name in f.profiles[key] ==> g.profiles[key][name] == f.profiles[key][name]))
  {
    MovedFiles(f, key, 3);
    assert MIGRATED[..3] == MIGRATED;
  }

  // Running it again changes nothing.
  lemma MigratedOnce(f: Files, key: Key, n: nat)
    requires LegacyTarget(f) == Some(key) && 1 <= n <= 3
    ensures CONFIG !in MovedUpTo(f, key, n).root && LegacyTarget(MovedUpTo(f, key, n)).None?
  {
    MovedFiles(f, key, n);
    assert MIGRATED[..n][0] == CONFIG;
  }

  // The files that are there when a migration stops after n of them and runs again.
  function Rerun(f: Files): Files {
    match LegacyTarget(f)
    case None => f
    case Some(key) => MovedUpTo(f, key, 3)
  }

  // config.json moves first, so a rerun sees nothing to do: it completes an
  // interrupted migration exactly when no file had moved yet or none was left.
  lemma RerunCompletes(f: Files, key: Key, n: nat)
    requires LegacyTarget(f) == Some(key) && n <= 3
    ensures Rerun(MovedUpTo(f, key, n)) == MovedUpTo(f, key, 3) <==>
            n == 0 || forall i :: n <= i < 3 ==> MIGRATED[i] !in f.root
  {
    if n == 0 {
      assert LegacyTarget(WithDir(f, key)) == LegacyTarget(f);
      DirAlreadyThere(f, key, 3);
    } else {
      MigratedOnce(f, key, n);
      if forall i :: n <= i < 3 ==> MIGRATED[i] !in f.root {
        NothingLeft(f, key, n);
      } else {
        var i :| n <= i < 3 && MIGRATED[i] in f.root;
        LeftBehind(f, key, n, i);
      }
    }
  }

  lemma {:induction false} DirAlreadyThere(f: Files, key: Key, n: nat)
    requires n <= 3
    ensures MovedUpTo(WithDir(f, key), key, n) == MovedUpTo(f, key, n)
  {
    if n > 0 {
      DirAlreadyThere(f, key, n - 1);
    }
  }

  lemma NothingLeft(f: Files, key: Key, n: nat)
    requires n <= 3 && forall i :: n <= i < 3 ==> MIGRATED[i] !in f.root
    ensures MovedUpTo(f, key, n) == MovedUpTo(f, key, 3)
    decreases 3 - n
  {
    if n < 3 {
      StillInRoot(f, key, n);
      NothingLeft(f, key, n + 1);
    }
  }

  lemma LeftBehind(f: Files, key: Key, n: nat, i: nat)
    requires n <= i < 3 && MIGRATED[i] in f.root
    ensures MIGRATED[i] in MovedUpTo(f, key, n).root && MIGRATED[i] !in MovedUpTo(f, key, 3).root
  {
    MovedFiles(f, key, n);
    MovedFiles(f, key, 3);
    assert |CONFIG| == 11 && |TOKEN| == 5 && |DSN| == 3;
    assert MIGRATED[..3] == MIGRATED;
  }

  // === Healing ===============================================================

  // auth.ExchangeResponse, as far as healProfile reads it.
  datatype Exchange = Exchange(databaseID: string, databaseName: string, dialect: string)

  // The running target's in-memory state.
  datatype Target = Target(key: Key, cfg: Config)

  // config.RenameProfile when its file-system call succeeds: an existing target
  // keeps its files and the old directory is removed.
  function Renamed(f: Files, oldKey: Key, newKey: Key): Option<Files> {
    if !ValidKey(oldKey) || !ValidKey(newKey) then None
    else if newKey in f.profiles then Some(f.(profiles := f.profiles - {oldKey}))
    else if oldKey !in f.profiles then None
    else Some(f.(profiles := (f.profiles - {oldKey})[newKey := f.profiles[oldKey]]))
  }

  // config.SaveProfileConfig: it does not create the directory.
  function ConfigSaved(f: Files, key: Key, cfg: Config): Option<Files> {
    if ValidKey(key) && key in f.profiles then Some(Written(f, key, CONFIG, Json(cfg))) else None
  }

  function HealedConfig(cfg: Config, access: Exchange): Config {
    cfg.(databaseID := access.databaseID,
         databaseName := if access.databaseName != "" then access.databaseName else cfg.databaseName,
         dialect := if access.dialect != "" then access.dialect else cfg.dialect)
  }

  // What healProfile leaves, when the rename and the save succeed as said.
  function Healed(f: Files, t: Target, access: Exchange, renameOk: bool, saveOk: bool): (Files, Target) {
    if access.databaseID == "" then (f, t)
    else
      var cfg := HealedConfig(t.cfg, access);
      var moved := if renameOk && t.key != access.databaseID then Renamed(f, t.key, access.databaseID) else None;
      var g := if moved.Some? then moved.value else f;
      var key := if moved.Some? then access.databaseID else t.key;
      var saved := if saveOk && (cfg != t.cfg || moved.Some?) then ConfigSaved(g, key, cfg) else None;
      (if saved.Some? then saved.value else g, Target(key, cfg))
  }

  class Run {
    const store: Store
    var key: Key
    var cfg: Config

    constructor (store: Store, t: Target)
      ensures this.store == store && key == t.key && cfg == t.cfg
    {
      this.store, key, cfg := store, t.key, t.cfg;
    }

    // healProfile: fills the configuration from the exchange response and moves
    // the directory under the real database id.
    method HealProfile(access: Exchange, renameOk: bool, saveOk: bool)
      modifies this, store
      ensures var end := Healed(old(store.View()), old(Target(key, cfg)), access, renameOk, saveOk);
              store.View() == end.0 && Target(key, cfg) == end.1
    {
      if access.databaseID == "" {
        return;
      }
      var changed := FillConfig(access);
      if key != access.databaseID {
        var moved := store.RenameProfile(key, access.databaseID, renameOk);
        if moved {
          key := access.databaseID;
          changed := true;
        }
      }
      if changed {
        var saved := store.SaveProfileConfig(key, cfg, saveOk);
      }
    }

    method FillConfig(access: Exchange) returns (changed: bool)
      requires access.databaseID != ""
      modifies this`cfg
      ensures cfg == HealedConfig(old(cfg), access) && (changed <==> cfg != old(cfg))
    {
      changed := false;
      if cfg.databaseID != access.databaseID {
        cfg := cfg.(databaseID := access.databaseID);
        changed := true;
      }
      if access.databaseName != "" && cfg.databaseName != access.databaseName {
        cfg := cfg.(databaseName := access.databaseName);
        changed := true;
      }
      if access.dialect != "" && cfg.dialect != access.dialect {
        cfg := cfg.(dialect := access.dialect);
        changed := true;
      }
    }
  }

  // config.json of the target's profile is what the process has in memory.
  predicate Synced(f: Files, t: Target) {
    t.key in f.profiles && CONFIG in f.profiles[t.key] && f.profiles[t.key][CONFIG] == Json(t.cfg)
  }

  // The profile of a running target: its key names a directory.
  predicate Present(f: Files, t: Target) {
    ValidKey(t.key) && t.key in f.profiles
  }

  // Healing keeps config.json equal to the in-memory configuration as long as the
  // save succeeds, also when the move fails or meets an existing profile.
  lemma HealKeepsSynced(f: Files, t: Target, access: Exchange, renameOk: bool)
    requires Present(f, t) && Synced(f, t)
    ensures var (g, u) := Healed(f, t, access, renameOk, true);
            Present(g, u) && Synced(g, u)
  {
  }

  // What healing makes of the configuration, in memory and, once saved, on disk: the id
  // is the server's, name and dialect are where the server sends one, and everything
  // else stays. Without an id from the server nothing changes at all.
  lemma HealFills(f: Files, t: Target, access: Exchange, renameOk: bool, saveOk: bool)
    requires Present(f, t)
    ensures var (g, u) := Healed(f, t, access, renameOk, saveOk);
            if access.databaseID == "" then g == f && u == t
            else
              && u.cfg.databaseID == access.databaseID
              && (access.databaseName != "" ==> u.cfg.databaseName == access.databaseName)
              && (access.databaseName == "" ==> u.cfg.databaseName == t.cfg.databaseName)
              && (access.dialect != "" ==> u.cfg.dialect == access.dialect)
              && (access.dialect == "" ==> u.cfg.dialect == t.cfg.dialect)
              && u.cfg.serverURL == t.cfg.serverURL && u.cfg.bootstrapped == t.cfg.bootstrapped
              && u.key == (if renameOk && ValidKey(access.databaseID) then access.databaseID else t.key)
              && (saveOk && Synced(f, t) ==> u.key in g.profiles && CONFIG in g.profiles[u.key] &&
                                             g.profiles[u.key][CONFIG] == Json(u.cfg))
  {
  }

  // With both calls successful the target runs under the real id, and healing again
  // changes nothing.
  lemma HealIdempotent(f: Files, t: Target, access: Exchange)
    requires Present(f, t) && ValidKey(access.databaseID)
    ensures var (g, u) := Healed(f, t, access, true, true);
            && u.key == access.databaseID && u.cfg == HealedConfig(t.cfg, access)
            && forall renameOk, saveOk :: Healed(g, u, access, renameOk, saveOk) == (g, u)
  {
    var (g, u) := Healed(f, t, access, true, true);
    assert HealedConfig(u.cfg, access) == u.cfg;
  }

  // The files under the real id once the directory is there.
  function RealDir(f: Files, t: Target, id: Key): Dir
    requires Present(f, t)
  {
    if id in f.profiles then f.profiles[id] else f.profiles[t.key]
  }

  // There is nothing to save: the configuration does not change, or config.json
  // holds the healed one already.
  predicate NothingToSave(f: Files, t: Target, access: Exchange)
    requires Present(f, t)
  {
    var cfg := HealedConfig(t.cfg, access);
    var d := RealDir(f, t, access.databaseID);
    (t.key == access.databaseID && cfg == t.cfg) || (CONFIG in d && d[CONFIG] == Json(cfg))
  }

  // The next healing makes good what failed in this one if and only if the move
  // failed, or the save did not fail, or there was nothing to save: a save that
  // failed after its move is not tried again.
  lemma HealRetries(f: Files, t: Target, access: Exchange, renameOk: bool, saveOk: bool)
    requires Present(f, t) && ValidKey(access.databaseID)
    ensures var (g, u) := Healed(f, t, access, renameOk, saveOk);
            Healed(g, u, access, true, true) == Healed(f, t, access, true, true) <==>
            (t.key != access.databaseID && !renameOk) || saveOk || NothingToSave(f, t, access)
  {
    var cfg := HealedConfig(t.cfg, access);
    assert HealedConfig(cfg, access) == cfg;
    if t.key != access.databaseID && !renameOk {
      FailedMoveRetries(f, t, access, saveOk);
    } else {
      NoRetry(f, t, access, renameOk, saveOk);
      if !saveOk {
        Unsaved(f, t, access, renameOk);
      }
    }
  }

  // Once the target runs under the real id, the next healing changes nothing.
  lemma NoRetry(f: Files, t: Target, access: Exchange, renameOk: bool, saveOk: bool)
    requires Present(f, t) && ValidKey(access.databaseID) && (t.key == access.databaseID || renameOk)
    ensures var (g, u) := Healed(f, t, access, renameOk, saveOk);
            Healed(g, u, access, true, true) == (g, u) && (saveOk ==> (g, u) == Healed(f, t, access, true, true))
  {
    var cfg := HealedConfig(t.cfg, access);
    assert HealedConfig(cfg, access) == cfg;
  }

  lemma Unsaved(f: Files, t: Target, access: Exchange, renameOk: bool)
    requires Present(f, t) && ValidKey(access.databaseID) && (t.key == access.databaseID || renameOk)
    ensures Healed(f, t, access, renameOk, false) == Healed(f, t, access, true, true) <==> NothingToSave(f, t, access)
  {
    var id := access.databaseID;
    var cfg := HealedConfig(t.cfg, access);
    var g := Healed(f, t, access, renameOk, false).0;
    assert id in g.profiles && g.profiles[id] == RealDir(f, t, id);
    if t.key != id || cfg != t.cfg {
      WritesAnew(g, id, cfg);
    }
  }

  lemma WritesAnew(g: Files, id: Key, cfg: Config)
    requires id in g.profiles
    ensures Written(g, id, CONFIG, Json(cfg)) == g <==> CONFIG in g.profiles[id] && g.profiles[id][CONFIG] == Json(cfg)
  {
    var d := g.profiles[id];
    if CONFIG in d && d[CONFIG] == Json(cfg) {
      assert d[CONFIG := Json(cfg)] == d;
      assert g.profiles[id := d] == g.profiles;
    } else {
      assert Written(g, id, CONFIG, Json(cfg)).profiles[id] != d;
    }
  }

  lemma FailedMoveRetries(f: Files, t: Target, access: Exchange, saveOk: bool)
    requires Present(f, t) && ValidKey(access.databaseID) && t.key != access.databaseID
    ensures var (g, u) := Healed(f, t, access, false, saveOk);
            Healed(g, u, access, true, true) == Healed(f, t, access, true, true)
  {
    var cfg := HealedConfig(t.cfg, access);
    var (g, u) := Healed(f, t, access, false, saveOk);
    assert HealedConfig(cfg, access) == cfg && u == Target(t.key, cfg);
    assert g == f || g == Written(f, t.key, CONFIG, Json(cfg));
    SavedAnyway(f, t.key, access.databaseID, cfg);
  }

  // Moving and then writing config.json hides what it held before.
  lemma SavedAnyway(f: Files, oldKey: Key, newKey: Key, cfg: Config)
    requires ValidKey(oldKey) && ValidKey(newKey) && oldKey != newKey && oldKey in f.profiles
    ensures var g := Written(f, oldKey, CONFIG, Json(cfg));
            && Renamed(f, oldKey, newKey).Some? && Renamed(g, oldKey, newKey).Some?
            && newKey in Renamed(f, oldKey, newKey).value.profiles &&
                newKey in Renamed(g, oldKey, newKey).value.profiles
            && Written(Renamed(g, oldKey, newKey).value, newKey, CONFIG, Json(cfg)) ==
               Written(Renamed(f, oldKey, newKey).value, newKey, CONFIG, Json(cfg))
  {
    var g := Written(f, oldKey, CONFIG, Json(cfg));
    var d := f.profiles[oldKey];
    assert d[CONFIG := Json(cfg)][CONFIG := Json(cfg)] == d[CONFIG := Json(cfg)];
    assert g.profiles - {oldKey} == f.profiles - {oldKey};
    var p, q := Renamed(f, oldKey, newKey).value.profiles, Renamed(g, oldKey, newKey).value.profiles;
    assert p[newKey := p[newKey][CONFIG := Json(cfg)]] == q[newKey := q[newKey][CONFIG := Json(cfg)]];
  }

  // Nothing outside the target's own two keys changes.
  lemma HealTouchesOnly(f: Files, t: Target, access: Exchange, renameOk: bool, saveOk: bool, k: Key)
    requires Present(f, t) && access.databaseID != "" && k != t.key && k != access.databaseID
    ensures SameAt(f, Healed(f, t, access, renameOk, saveOk).0, k)
  {
    RenameLeaves(f, t.key, access.databaseID, k);
    var moved := Renamed(f, t.key, access.databaseID);
    SaveLeaves(f, t.key, HealedConfig(t.cfg, access), k);
    if moved.Some? {
      SaveLeaves(moved.value, access.databaseID, HealedConfig(t.cfg, access), k);
    }
  }

  predicate SameAt(f: Files, g: Files, k: Key) {
    g.root == f.root && SameProfile(f, g, k)
  }

  lemma RenameLeaves(f: Files, oldKey: Key, newKey: Key, k: Key)
    requires k != oldKey && k != newKey
    ensures Renamed(f, oldKey, newKey).Some? ==> SameAt(f, Renamed(f, oldKey, newKey).value, k)
  {
  }

  lemma SaveLeaves(f: Files, key: Key, cfg: Config, k: Key)
    requires k != key
    ensures ConfigSaved(f, key, cfg).Some? ==> SameAt(f, ConfigSaved(f, key, cfg).value, k)
  {
  }

  // Under the real id every file but config.json is the one that was there before,
  // on a collision, and the moved one otherwise.
  lemma HealKeepsSecrets(f: Files, t: Target, access: Exchange, saveOk: bool, name: string)
    requires Present(f, t) && ValidKey(access.databaseID) && t.key != access.databaseID && name != CONFIG
    ensures var g := Healed(f, t, access, true, saveOk).0;
            var was := if access.databaseID in f.profiles then f.profiles[access.databaseID] else f.profiles[t.key];
            && t.key !in g.profiles && access.databaseID in g.profiles
            && (name in g.profiles[access.databaseID] <==> name in was)
            && (name in was ==> g.profiles[access.databaseID][name] == was[name])
  {
  }
}
