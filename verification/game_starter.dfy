/** Choosing the game-data directory at start-up, and deriving the config
    file path from it. The file system is abstract: whether a path exists and
    whether it holds a complete data set are uninterpreted predicates. */
module GameStarter {
  import opened Common
  import GamePathResolver

  /** The start-up options this step reads and writes. */
  datatype GameStarterOptions = GameStarterOptions(dataPath: string, configPath: string, useConfig: bool)

  datatype FileSystem = FileSystem(pathExists: string -> bool, validateDataPath: string -> bool)

  /** Appended to the data path to name the config file. */
  const CONFIG_FILE_SUFFIX: string := "/openenroth.ini"

  /** A candidate is usable when it exists and holds every required file. */
  predicate Usable(fs: FileSystem, path: string) {
    fs.pathExists(path) && fs.validateDataPath(path)
  }

  /** Index of the first usable candidate, if any. */
  function FirstUsable(fs: FileSystem, candidates: seq<string>): (r: Option<nat>)
    ensures r.Some? ==> r.value < |candidates| && Usable(fs, candidates[r.value])
    ensures r.Some? ==> forall j :: 0 <= j < r.value ==> !Usable(fs, candidates[j])
    ensures r.None? ==> forall j :: 0 <= j < |candidates| ==> !Usable(fs, candidates[j])
  {
    if candidates == [] then None
    else if Usable(fs, candidates[0]) then Some(0)
    else match FirstUsable(fs, candidates[1..])
      case None => None
      case Some(k) => Some(k + 1)
  }

  /** The selection rule: with several candidates take the first usable one;
      with a single candidate, or when none is usable, take the last one and
      leave checking it to later start-up code. */
  function ChosenPath(fs: FileSystem, candidates: seq<string>): (r: string)
    requires |candidates| >= 1
    ensures r in candidates
  {
    var first := FirstUsable(fs, candidates);
    if |candidates| > 1 && first.Some? && candidates[first.value] != "" then candidates[first.value]
    else candidates[|candidates| - 1]
  }

  /** The candidate loop of `ResolveGamePath`. */
  method SelectDataPath(fs: FileSystem, candidates: seq<string>) returns (optPath: string)
    requires |candidates| >= 1
    ensures optPath == ChosenPath(fs, candidates)
  {
    optPath := "";
    if |candidates| > 1 {
      var i := 0;
      while i < |candidates|
        invariant 0 <= i <= |candidates|
        invariant optPath == ""
        invariant forall j :: 0 <= j < i ==> !Usable(fs, candidates[j])
      {
        var candidate := candidates[i];
        if !fs.pathExists(candidate) {
          // reported as missing
        } else if !fs.validateDataPath(candidate) {
          // reported as incomplete
        } else {
          optPath := candidate;
          break;
        }
        i := i + 1;
      }
    }
    if optPath == "" {
      optPath := candidates[|candidates| - 1];
    }
  }

  /** Resolves `options.dataPath` (when the caller left it empty) from the
      MM7 candidates, then fills in the config path. */
  method ResolveGamePath(env: GamePathResolver.Environment, isApple: bool, fs: FileSystem,
                         options: GameStarterOptions)
    returns (result: GameStarterOptions)
    ensures options.dataPath != "" ==> result.dataPath == options.dataPath
    ensures options.dataPath == "" ==>
              result.dataPath == ChosenPath(fs, GamePathResolver.Candidates(env, GamePathResolver.Mm7Config, isApple))
    ensures result.dataPath != ""
    ensures result.useConfig == options.useConfig
    ensures options.useConfig && options.configPath == "" ==>
              result.configPath == result.dataPath + CONFIG_FILE_SUFFIX
    ensures !(options.useConfig && options.configPath == "") ==> result.configPath == options.configPath
  {
    result := options;
    if result.dataPath == "" {
      var candidates := GamePathResolver.ResolveMm7Paths(env, isApple);
      GamePathResolver.CandidatesWellFormed(env, GamePathResolver.Mm7Config, isApple);
      var chosen := SelectDataPath(fs, candidates);
      ChosenPathProperties(fs, candidates);
      result := result.(dataPath := chosen);
    }

    if result.useConfig && result.configPath == "" {
      result := result.(configPath := result.dataPath + CONFIG_FILE_SUFFIX);
    }
  }

  /** The chosen path is always one of the candidates; among several
      non-empty candidates it is the first usable one, or the last one when
      none is usable; and it is never empty. */
  lemma ChosenPathProperties(fs: FileSystem, candidates: seq<string>)
    requires |candidates| >= 1
    requires forall i :: 0 <= i < |candidates| ==> candidates[i] != ""
    ensures ChosenPath(fs, candidates) in candidates
    ensures ChosenPath(fs, candidates) != ""
    ensures |candidates| > 1 && FirstUsable(fs, candidates).Some? ==>
              ChosenPath(fs, candidates) == candidates[FirstUsable(fs, candidates).value]
    ensures |candidates| == 1 || FirstUsable(fs, candidates).None? ==>
              ChosenPath(fs, candidates) == candidates[|candidates| - 1]
  {
  }

  /** With several candidates, a usable candidate is chosen over any later
      one: the choice is usable whenever some candidate is. */
  lemma ChosenPathPrefersUsable(fs: FileSystem, candidates: seq<string>, k: nat)
    requires |candidates| > 1
    requires forall i :: 0 <= i < |candidates| ==> candidates[i] != ""
    requires k < |candidates| && Usable(fs, candidates[k])
    ensures Usable(fs, ChosenPath(fs, candidates))
    ensures exists j :: 0 <= j <= k && ChosenPath(fs, candidates) == candidates[j]
  {
  }
}
