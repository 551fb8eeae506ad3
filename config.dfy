/** The `config set` and `config get` subcommands (cmd/config.go). The viper
    key/value store and the file system are the state: `set` validates the key,
    updates the store, picks the file and rewrites it whole; `get` is a lookup. */
module ConfigCmd {
  import opened Wrappers

  const WebhookUrlKey := "webhookUrl"
  const AuthTokenKey := "authToken"
  const ConfigRelPath := ".config/devstash/config.yaml"

  /** The keys `set` accepts. */
  predicate Settable(key: string) {
    key == WebhookUrlKey || key == AuthTokenKey
  }

  /** `filepath.Join(home, ".config", "devstash", "config.yaml")` for a home
      directory without a trailing separator. */
  function DefaultConfigPath(home: string): string {
    home + "/" + ConfigRelPath
  }

  /** Position just after the last `/` in `p`, 0 when there is none. */
  function DirEnd(p: string): (k: nat)
    ensures k <= |p|
    ensures k > 0 ==> p[k - 1] == '/'
    ensures forall j :: k <= j < |p| ==> p[j] != '/'
  {
    if p == [] then 0
    else if p[|p| - 1] == '/' then |p|
    else DirEnd(p[..|p| - 1])
  }

  /** `filepath.Dir` for a clean path whose last `/` is not its first
      character: everything before the last `/`; `.` for a bare file name.
      (For a file directly under `/`, Go gives `/` and this gives "".) */
  function ParentDir(p: string): string {
    var k := DirEnd(p);
    if k == 0 then "." else p[..k - 1]
  }

  /** The default path's directory is `<home>/.config/devstash`, whatever the
      home directory is. */
  lemma DefaultConfigDir(home: string)
    ensures ParentDir(DefaultConfigPath(home)) == home + "/.config/devstash"
  {
    var p := DefaultConfigPath(home);
    var n := |home| + 1;
    assert ConfigRelPath == ".config/devstash/" + "config.yaml";
    assert p == (home + "/.config/devstash/") + "config.yaml";
    var d := home + "/.config/devstash/";
    assert |d| == n + 17;
    DirEndOfName(d, "config.yaml");
    assert p[..|d| - 1] == home + "/.config/devstash";
  }

  /** Appending a name without `/` to a directory that ends in `/` puts the
      last separator at the end of the directory. */
  lemma {:induction false} DirEndOfName(d: string, name: string)
    requires |d| > 0 && d[|d| - 1] == '/'
    requires forall j :: 0 <= j < |name| ==> name[j] != '/'
    ensures DirEnd(d + name) == |d|
  {
    if name != [] {
      var p := d + name;
      assert p[..|p| - 1] == d + name[..|name| - 1];
      DirEndOfName(d, name[..|name| - 1]);
    } else {
      assert d + name == d;
    }
  }

  /** The file `set` writes: the configuration file already in use if one was
      loaded, otherwise the default path under the home directory (whose lookup
      can fail). */
  function ConfigTarget(configFileUsed: string, home: Attempt<string>): (t: Attempt<string>)
    ensures configFileUsed != "" ==> t == Ok(configFileUsed)
    ensures configFileUsed == "" && home.Ok? ==> t == Ok(DefaultConfigPath(home.value))
    ensures configFileUsed == "" && home.Failed? ==> t == Failed(home.cause)
  {
    if configFileUsed != "" then Ok(configFileUsed)
    else if home.Failed? then Failed(home.cause)
    else Ok(DefaultConfigPath(home.value))
  }

  /** How `config set` ends. */
  datatype SetResult =
    | SetArgCount                    // not exactly two arguments (cobra.ExactArgs(2))
    | InvalidKey(key: string)
    | HomeFailed(cause: string)
    | MkdirFailed(cause: string)
    | WriteFailed(cause: string)
    | Written(key: string, path: string)  // "Successfully set '<key>' in <path>"
  {
    /** The process exit status: a wrong argument count makes `Execute` exit 1,
        every other failure calls `os.Exit(1)`, and only Written returns
        normally. */
    function ExitCode(): (code: int)
      ensures code == 0 <==> Written?
      ensures code == 0 || code == 1
    {
      if Written? then 0 else 1
    }
  }

  /** How `config get` ends. */
  datatype GetResult =
    | GetArgCount                    // not exactly one argument (cobra.ExactArgs(1))
    | Value(value: string)           // printed on standard output
    | NotSet(key: string)            // "No value set for key '<key>'" on standard error
  {
    /** The process exit status: only a wrong argument count fails; an unset
        key is reported but the command still returns normally. */
    function ExitCode(): (code: int)
      ensures code == 1 <==> GetArgCount?
      ensures code == 0 || code == 1
    {
      if GetArgCount? then 1 else 0
    }
  }

  /** viper's `GetString`: the stored value, or "" when the key is unset. */
  function Lookup(store: map<string, string>, key: string): (v: string)
    ensures key in store ==> v == store[key]
    ensures key !in store ==> v == ""
  {
    if key in store then store[key] else ""
  }

  /** `getCmd.Run`: any key is accepted; a non-empty value goes to standard
      output, an empty or missing one is reported on standard error. */
  function Get(store: map<string, string>, args: seq<string>): (r: GetResult)
    ensures |args| != 1 ==> r == GetArgCount
    ensures |args| == 1 && Lookup(store, args[0]) != "" ==> r == Value(Lookup(store, args[0]))
    ensures |args| == 1 && Lookup(store, args[0]) == "" ==> r == NotSet(args[0])
  {
    if |args| != 1 then GetArgCount
    else
      var value := Lookup(store, args[0]);
      if value != "" then Value(value) else NotSet(args[0])
  }

  /** After storing `value` under `key`, `get key` reports that value (or that
      it is unset, for the empty string), and every other key reads as before. */
  lemma GetAfterSet(store: map<string, string>, key: string, value: string, other: string)
    requires other != key
    ensures Get(store[key := value], [key]) == if value != "" then Value(value) else NotSet(key)
    ensures Get(store[key := value], [other]) == Get(store, [other])
  {
  }

  /** The process's configuration: viper's key/value store, the file it was
      loaded from ("" when none), and the part of the file system `set` touches:
      the directories that exist and the configuration files with the store
      each holds. */
  class Config {
    var store: map<string, string>
    var configFileUsed: string
    var dirs: set<string>
    var files: map<string, map<string, string>>

    /** Every file lives in a directory that exists. */
    ghost predicate Valid()
      reads this
    {
      forall p :: p in files ==> ParentDir(p) in dirs
    }

    /** The state at start-up: the store as resolved, and the file it was read
        from, if any. */
    constructor (store0: map<string, string>, configFileUsed0: string)
      ensures Valid()
      ensures store == store0 && configFileUsed == configFileUsed0
      ensures configFileUsed0 != "" ==> files == map[configFileUsed0 := store0]
      ensures configFileUsed0 == "" ==> files == map[]
    {
      store := store0;
      configFileUsed := configFileUsed0;
      if configFileUsed0 != "" {
        dirs := {ParentDir(configFileUsed0)};
        files := map[configFileUsed0 := store0];
      } else {
        dirs := {};
        files := map[];
      }
    }

    /** `setCmd.Run`. A wrong argument count or a key other than `webhookUrl`
        and `authToken` changes nothing. Otherwise the store maps the key to the
        value, other keys unchanged; then the target file is chosen, its
        directory created and the whole store written to it. A failure at any of
        those steps exits with status 1 and leaves the later steps undone. */
    method Set(args: seq<string>, home: Attempt<string>, mkdir: Attempt<()>, write: Attempt<()>)
      returns (r: SetResult)
      requires Valid()
      modifies this
      ensures Valid()
      ensures configFileUsed == old(configFileUsed)
      ensures |args| != 2 ==> r == SetArgCount
      ensures |args| == 2 && !Settable(args[0]) ==> r == InvalidKey(args[0])
      ensures r.SetArgCount? || r.InvalidKey? ==>
        store == old(store) && dirs == old(dirs) && files == old(files)
      ensures |args| == 2 && Settable(args[0]) ==> store == old(store)[args[0] := args[1]]
      ensures r.Written? <==>
        |args| == 2 && Settable(args[0]) && ConfigTarget(old(configFileUsed), home).Ok? && mkdir.Ok? && write.Ok?
      ensures r.Written? ==>
        && r.key == args[0] && r.path == ConfigTarget(old(configFileUsed), home).value
        && files == old(files)[r.path := store]
        && dirs == old(dirs) + {ParentDir(r.path)}
      ensures !r.Written? ==> files == old(files)
      ensures |args| == 2 && Settable(args[0]) && ConfigTarget(old(configFileUsed), home).Failed? ==>
        r == HomeFailed(home.cause) && dirs == old(dirs)
      ensures |args| == 2 && Settable(args[0]) && ConfigTarget(old(configFileUsed), home).Ok? && mkdir.Failed? ==>
        r == MkdirFailed(mkdir.cause) && dirs == old(dirs)
      ensures |args| == 2 && Settable(args[0]) && ConfigTarget(old(configFileUsed), home).Ok? && mkdir.Ok? && write.Failed? ==>
        && r == WriteFailed(write.cause)
        && dirs == old(dirs) + {ParentDir(ConfigTarget(old(configFileUsed), home).value)}
    {
      if |args| != 2 {
        return SetArgCount;
      }
      var key, value := args[0], args[1];
      if !Settable(key) {
        return InvalidKey(key);
      }
      store := store[key := value];
      var target := ConfigTarget(configFileUsed, home);
      if target.Failed? {
        return HomeFailed(target.cause);
      }
      var path := target.value;
      if mkdir.Failed? {
        return MkdirFailed(mkdir.cause);
      }
      dirs := dirs + {ParentDir(path)};
      if write.Failed? {
        return WriteFailed(write.cause);
      }
      files := files[path := store];
      r := Written(key, path);
    }
  }
}
