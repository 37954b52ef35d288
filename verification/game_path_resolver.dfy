/** Candidate game-data directories, in the order the game will probe them.

    The environment is abstract: environment variables, registry values and
    platform directories are total lookups that return the empty string when
    nothing is there. Whether the build targets macOS is a parameter. */
module GamePathResolver {

  /** The environment variables that override the data path of each game.
      Their spelled-out names live in a header that is not part of this
      model, so they stay symbolic. */
  datatype OverrideKey = Mm6PathOverride | Mm7PathOverride | Mm8PathOverride

  /** Platform directories the environment can report. */
  datatype PlatformPath = AndroidStorageExternal | AndroidStorageInternal | Home

  datatype Environment = Environment(
    getenv: OverrideKey -> string,
    queryRegistry: string -> string,
    path: PlatformPath -> string)

  datatype PathResolutionConfig = PathResolutionConfig(overrideEnvKey: OverrideKey, registryKeys: seq<string>)

  /** Appended to the home directory on macOS. */
  const MACOS_DATA_SUFFIX: string := "/Library/Application Support/OpenEnroth"

  /** The current directory, always the first candidate without an override. */
  const CURRENT_DIRECTORY: string := "."

  const Mm6Config: PathResolutionConfig := PathResolutionConfig(Mm6PathOverride, [
    "HKEY_LOCAL_MACHINE/SOFTWARE/GOG.com/Games/1207661253/PATH",
    "HKEY_LOCAL_MACHINE/SOFTWARE/GOG.com/GOGMM6/PATH",
    "HKEY_LOCAL_MACHINE/SOFTWARE/New World Computing/Might and Magic\U{AE} VI/1.0/AppPath",
    "HKEY_LOCAL_MACHINE/SOFTWARE/WOW6432Node/GOG.com/Games/1207661253/PATH",
    "HKEY_LOCAL_MACHINE/SOFTWARE/WOW6432Node/GOG.com/GOGMM6/PATH",
    "HKEY_LOCAL_MACHINE/SOFTWARE/WOW6432Node/New World Computing/Might and Magic\U{AE} VI/1.0/AppPath"
  ])

  const Mm7Config: PathResolutionConfig := PathResolutionConfig(Mm7PathOverride, [
    "HKEY_LOCAL_MACHINE/SOFTWARE/GOG.com/Games/1207658916/Path",
    "HKEY_LOCAL_MACHINE/SOFTWARE/GOG.com/GOGMM7/PATH",
    "HKEY_LOCAL_MACHINE/SOFTWARE/New World Computing/Might and Magic VII/1.0/AppPath",
    "HKEY_LOCAL_MACHINE/SOFTWARE/WOW6432Node/GOG.com/Games/1207658916/Path",
    "HKEY_LOCAL_MACHINE/SOFTWARE/WOW6432Node/GOG.com/GOGMM7/PATH",
    "HKEY_LOCAL_MACHINE/SOFTWARE/WOW6432Node/New World Computing/Might and Magic VII/1.0/AppPath"
  ])

  const Mm8Config: PathResolutionConfig := PathResolutionConfig(Mm8PathOverride, [
    "HKEY_LOCAL_MACHINE/SOFTWARE/GOG.com/GOGMM8/PATH",
    "HKEY_LOCAL_MACHINE/SOFTWARE/New World Computing/Might and Magic Day of the Destroyer/1.0/AppPath",
    "HKEY_LOCAL_MACHINE/SOFTWARE/WOW6432Node/GOG.com/GOGMM8/PATH",
    "HKEY_LOCAL_MACHINE/SOFTWARE/WOW6432Node/New World Computing/Might and Magic Day of the Destroyer/1.0/AppPath"
  ])

  /** `[s]` when `s` is a real path, nothing when it is empty. */
  function IfPresent(s: string): (r: seq<string>)
    ensures |r| <= 1
    ensures forall p :: p in r <==> p == s && s != ""
  {
    if s == "" then [] else [s]
  }

  /** The non-empty registry values of `keys`, in key order. */
  function RegistryPaths(env: Environment, keys: seq<string>): (r: seq<string>)
    ensures |r| <= |keys|
    ensures forall i :: 0 <= i < |r| ==> r[i] != ""
    ensures forall p :: p in r ==> exists i :: 0 <= i < |keys| && env.queryRegistry(keys[i]) == p
    ensures forall i :: 0 <= i < |keys| && env.queryRegistry(keys[i]) != "" ==> env.queryRegistry(keys[i]) in r
  {
    if keys == [] then []
    else IfPresent(env.queryRegistry(keys[0])) + RegistryPaths(env, keys[1..])
  }

  /** Registry lookups keep key order: the values for `a + b` are those for
      `a` followed by those for `b`. */
  lemma {:induction false} RegistryPathsAppend(env: Environment, a: seq<string>, b: seq<string>)
    ensures RegistryPaths(env, a + b) == RegistryPaths(env, a) + RegistryPaths(env, b)
    decreases |a|
  {
    if a == [] {
      assert a + b == b;
    } else {
      assert (a + b)[1..] == a[1..] + b;
      RegistryPathsAppend(env, a[1..], b);
    }
  }

  /** The platform directories that follow the registry paths: Android
      external and internal storage, then the macOS home entry. */
  function PlatformPaths(env: Environment, isApple: bool): (r: seq<string>)
    ensures forall i :: 0 <= i < |r| ==> r[i] != ""
    ensures |r| == |IfPresent(env.path(AndroidStorageExternal))| + |IfPresent(env.path(AndroidStorageInternal))|
                   + (if isApple && env.path(Home) != "" then 1 else 0)
  {
    var home := env.path(Home);
    IfPresent(env.path(AndroidStorageExternal))
    + IfPresent(env.path(AndroidStorageInternal))
    + (if isApple && home != "" then [home + MACOS_DATA_SUFFIX] else [])
  }

  /** One more key adds its value when it is present. */
  lemma RegistryPathsSnoc(env: Environment, keys: seq<string>, i: nat)
    requires i < |keys|
    ensures RegistryPaths(env, keys[..i + 1]) == RegistryPaths(env, keys[..i]) + IfPresent(env.queryRegistry(keys[i]))
  {
    assert keys[..i + 1] == keys[..i] + [keys[i]];
    RegistryPathsAppend(env, keys[..i], [keys[i]]);
    assert RegistryPaths(env, [keys[i]]) == IfPresent(env.queryRegistry(keys[i])) + RegistryPaths(env, []);
  }

  /** The candidate list `resolvePaths` builds: the override alone when set;
      otherwise the current directory, the registry paths, the Android
      external and internal storage, and the macOS home entry. */
  function Candidates(env: Environment, config: PathResolutionConfig, isApple: bool): (r: seq<string>)
    ensures |r| >= 1
    ensures forall i :: 0 <= i < |r| ==> r[i] != ""
  {
    var envPath := env.getenv(config.overrideEnvKey);
    if envPath != "" then [envPath]
    else [CURRENT_DIRECTORY] + RegistryPaths(env, config.registryKeys) + PlatformPaths(env, isApple)
  }

  /** `resolvePaths`, written as the steps the engine runs. */
  method ResolvePaths(env: Environment, config: PathResolutionConfig, isApple: bool) returns (result: seq<string>)
    ensures result == Candidates(env, config, isApple)
  {
    var envPath := env.getenv(config.overrideEnvKey);
    if envPath != "" {
      return [envPath];
    }
    var registry := QueryRegistryPaths(env, config.registryKeys);
    var platform := QueryPlatformPaths(env, isApple);
    result := [CURRENT_DIRECTORY] + registry + platform;
  }

  /** The registry loop of `resolvePaths`: queries each key in turn and keeps
      the non-empty answers. */
  method QueryRegistryPaths(env: Environment, keys: seq<string>) returns (paths: seq<string>)
    ensures paths == RegistryPaths(env, keys)
  {
    paths := [];
    var i := 0;
    while i < |keys|
      invariant 0 <= i <= |keys|
      invariant paths == RegistryPaths(env, keys[..i])
    {
      var registryPath := env.queryRegistry(keys[i]);
      RegistryPathsSnoc(env, keys, i);
      if registryPath != "" {
        paths := paths + [registryPath];
      }
      i := i + 1;
    }
    assert keys[..i] == keys;
  }

  /** The platform tail of `resolvePaths`: Android external and internal
      storage when reported, then the macOS home entry. */
  method QueryPlatformPaths(env: Environment, isApple: bool) returns (paths: seq<string>)
    ensures paths == PlatformPaths(env, isApple)
  {
    paths := [];
    var externalPath := env.path(AndroidStorageExternal);
    if externalPath != "" {
      paths := paths + [externalPath];
    }
    var internalPath := env.path(AndroidStorageInternal);
    if internalPath != "" {
      paths := paths + [internalPath];
    }
    if isApple {
      var home := env.path(Home);
      if home != "" {
        paths := paths + [home + MACOS_DATA_SUFFIX];
      }
    }
  }

  method ResolveMm6Paths(env: Environment, isApple: bool) returns (result: seq<string>)
    ensures result == Candidates(env, Mm6Config, isApple)
  {
    result := ResolvePaths(env, Mm6Config, isApple);
  }

  method ResolveMm7Paths(env: Environment, isApple: bool) returns (result: seq<string>)
    ensures result == Candidates(env, Mm7Config, isApple)
  {
    result := ResolvePaths(env, Mm7Config, isApple);
  }

  method ResolveMm8Paths(env: Environment, isApple: bool) returns (result: seq<string>)
    ensures result == Candidates(env, Mm8Config, isApple)
  {
    result := ResolvePaths(env, Mm8Config, isApple);
  }

  /** A non-empty override is the only candidate; the registry and the
      platform directories play no part. */
  lemma OverrideShortCircuits(env: Environment, env': Environment, config: PathResolutionConfig, isApple: bool)
    requires env.getenv(config.overrideEnvKey) != ""
    requires env'.getenv(config.overrideEnvKey) == env.getenv(config.overrideEnvKey)
    ensures Candidates(env, config, isApple) == [env.getenv(config.overrideEnvKey)]
    ensures Candidates(env', config, isApple) == Candidates(env, config, isApple)
  {
  }

  /** The list is never empty and holds no empty path; without an override
      it starts with the current directory. */
  lemma CandidatesWellFormed(env: Environment, config: PathResolutionConfig, isApple: bool)
    ensures var r := Candidates(env, config, isApple);
            && |r| >= 1
            && (forall i :: 0 <= i < |r| ==> r[i] != "")
            && (env.getenv(config.overrideEnvKey) == "" ==> r[0] == CURRENT_DIRECTORY)
  {
  }

  /** Without an override: the registry paths follow the current directory
      in key order; Android external storage comes right after them, then
      Android internal storage; the macOS home entry, when present, is last. */
  lemma CandidatesOrder(env: Environment, config: PathResolutionConfig, isApple: bool)
    requires env.getenv(config.overrideEnvKey) == ""
    ensures var r := Candidates(env, config, isApple);
            var reg := RegistryPaths(env, config.registryKeys);
            var ext := env.path(AndroidStorageExternal);
            var internal := env.path(AndroidStorageInternal);
            var home := env.path(Home);
            && r[1..1 + |reg|] == reg
            && (ext != "" ==> r[1 + |reg|] == ext)
            && (internal != "" ==> r[1 + |reg| + |IfPresent(ext)|] == internal)
            && (isApple && home != "" ==> r[|r| - 1] == home + MACOS_DATA_SUFFIX)
            && (isApple && home != "" ==> |r| == 2 + |reg| + |IfPresent(ext)| + |IfPresent(internal)|)
            && (!isApple || home == "" ==> |r| == 1 + |reg| + |IfPresent(ext)| + |IfPresent(internal)|)
  {
  }

  /** The three games share one resolver and differ only in their
      configuration: environments that agree on a game's override and on its
      registry values give the same candidates. */
  lemma GamesDifferOnlyInConfig(env: Environment, env': Environment, config: PathResolutionConfig, isApple: bool)
    requires env.getenv(config.overrideEnvKey) == env'.getenv(config.overrideEnvKey)
    requires forall k :: k in config.registryKeys ==> env.queryRegistry(k) == env'.queryRegistry(k)
    requires env.path == env'.path
    ensures Candidates(env, config, isApple) == Candidates(env', config, isApple)
  {
    RegistryPathsAgree(env, env', config.registryKeys);
  }

  lemma {:induction false} RegistryPathsAgree(env: Environment, env': Environment, keys: seq<string>)
    requires forall k :: k in keys ==> env.queryRegistry(k) == env'.queryRegistry(k)
    ensures RegistryPaths(env, keys) == RegistryPaths(env', keys)
    decreases |keys|
  {
    if keys != [] {
      RegistryPathsAgree(env, env', keys[1..]);
    }
  }
}
