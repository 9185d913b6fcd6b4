/** `RunConfig` and `parse_config` (examples/rust/debug_with_dbg.rs): the
    run configuration, resolved once from the process environment, which
    is passed in here as a map, and the current directory, which is passed
    in as an optional path (`None` when `env::current_dir` fails). */
module Config {
  import opened Wrappers

  datatype RunConfig = RunConfig(
    workspaceRoot: string,
    dbgSock: string,
    dbgEventsDb: string,
    targetSrc: string,
    targetBin: string)

  const DefaultDbgSock: string := "/tmp/dbg-rust.sock"
  const DefaultDbgEventsDb: string := "/tmp/dbg-rust-events.db"
  const DefaultTargetBin: string := "/tmp/dbg-rust-target"
  const DefaultTargetSrc: string := "examples/rust/target.rs"

  const TargetVar: string := "RUST_DEBUG_TARGET"
  const BinVar: string := "RUST_DEBUG_BIN"
  const SockVar: string := "DBG_SOCK"
  const EventsDbVar: string := "DBG_EVENTS_DB"

  /** `Path::join` with a relative path: a separator goes between the two
      unless the base is empty or already ends with one. */
  function Join(base: string, rel: string): (p: string)
    ensures |p| >= |base| + |rel| && p[..|base|] == base && p[|p| - |rel|..] == rel
    ensures base != [] && base[|base| - 1] != '/' ==> |p| == |base| + 1 + |rel| && p[|base|] == '/'
    ensures base == [] || base[|base| - 1] == '/' ==> p == base + rel
  {
    if base == [] || base[|base| - 1] == '/' then base + rel else base + "/" + rel
  }

  /** `env::var(name).unwrap_or_else(|_| default)`. */
  function VarOr(env: map<string, string>, name: string, default: string): string
  {
    if name in env then env[name] else default
  }

  /** `parse_config`. Each of the four paths has its own variable and its
      own default; the default source path is relative to the workspace
      root, which is the current directory or `.`. */
  function ParseConfig(env: map<string, string>, cwd: Option<string>): (c: RunConfig)
    ensures c.workspaceRoot == if cwd.Some? then cwd.value else "."
    ensures TargetVar !in env ==> c.targetSrc == Join(c.workspaceRoot, DefaultTargetSrc)
    ensures forall name :: name in env ==>
      (name == TargetVar ==> c.targetSrc == env[name]) &&
      (name == BinVar ==> c.targetBin == env[name]) &&
      (name == SockVar ==> c.dbgSock == env[name]) &&
      (name == EventsDbVar ==> c.dbgEventsDb == env[name])
  {
    var root := if cwd.Some? then cwd.value else ".";
    RunConfig(
      root,
      VarOr(env, SockVar, DefaultDbgSock),
      VarOr(env, EventsDbVar, DefaultDbgEventsDb),
      VarOr(env, TargetVar, Join(root, DefaultTargetSrc)),
      VarOr(env, BinVar, DefaultTargetBin))
  }

  /** With nothing set, every path takes its default. */
  lemma ParseConfigDefaults()
    ensures ParseConfig(map[], None) ==
      RunConfig(".", DefaultDbgSock, DefaultDbgEventsDb, "./" + DefaultTargetSrc, DefaultTargetBin)
  {
    assert "." + "/" == "./";
  }

  /** Each variable overrides its own path and nothing else, and any other
      variable changes nothing. */
  lemma ParseConfigOverride(env: map<string, string>, cwd: Option<string>, name: string, value: string)
    ensures var before := ParseConfig(env, cwd);
            var after := ParseConfig(env[name := value], cwd);
            after == (if name == SockVar then before.(dbgSock := value)
                      else if name == EventsDbVar then before.(dbgEventsDb := value)
                      else if name == TargetVar then before.(targetSrc := value)
                      else if name == BinVar then before.(targetBin := value)
                      else before)
  {
  }
}
