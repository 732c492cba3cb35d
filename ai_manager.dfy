/**
 * The engine pool (`AIManager`): admission control over the set of live
 * engine controllers, and the command line each engine profile is started
 * with.
 */
module Engines {
  import opened Wrappers
  import opened JsText

  /** One engine profile of the configuration file. */
  datatype LeelaConfiguration = LeelaConfiguration(exec: string, weights: string, playouts: int)

  /**
   * The configured profiles. Both `leela` and `leelazero` are always keys
   * of the server's map; a profile missing from the configuration file is
   * a key whose value is `None` (`undefined`).
   */
  type Configs = map<string, Option<LeelaConfiguration>>

  /** `configs.get(key)`: `None` for an absent key as for an absent value. */
  function Lookup(configs: Configs, key: string): Option<LeelaConfiguration> {
    if key in configs then configs[key] else None
  }

  /** An engine process handle; a fresh object stands for a fresh controller. */
  class Controller {
    const exec: string
    const args: seq<string>
    /** `process != null`: `start()` produced a child process. */
    var running: bool
    /** `stop()` has been requested. */
    var stopRequested: bool

    constructor(exec: string, args: seq<string>)
      ensures this.exec == exec && this.args == args
      ensures !running && !stopRequested
    {
      this.exec := exec;
      this.args := args;
      running := false;
      stopRequested := false;
    }

    /** `start()`: whether a process came up is decided by the operating system. */
    method Start(spawned: bool)
      modifies this
      ensures running == spawned && stopRequested == old(stopRequested)
    {
      running := spawned;
    }
  }

  /**
   * The profile a request names: `leela` when none (or an empty name) is
   * given, otherwise the name in lower case.
   */
  function ProfileName(ai: Option<string>): (name: string)
    ensures ai.None? || ai.value == "" ==> name == "leela"
    ensures ai.Some? && ai.value != "" ==>
              |name| == |ai.value| && forall i :: 0 <= i < |name| ==> name[i] == ToLowerAscii(ai.value[i])
    ensures forall i :: 0 <= i < |name| ==> !('A' <= name[i] <= 'Z')
  {
    if ai.None? || ai.value == "" then "leela" else LowerAscii(ai.value)
  }

  /** Two names that differ only in the case of their letters name the same profile. */
  lemma ProfileNameCaseInsensitive(s: string, t: string)
    requires |s| == |t|
    requires forall i :: 0 <= i < |s| ==> ToLowerAscii(s[i]) == ToLowerAscii(t[i])
    ensures ProfileName(Some(s)) == ProfileName(Some(t))
  {
    if s != [] {
      assert LowerAscii(s) == LowerAscii(t);
    }
  }

  const BaseArgs: seq<string> := ["--gtp", "--noponder"]

  /** `--playouts <n>` when the profile is configured with a non-zero playout count. */
  function PlayoutArgs(config: Option<LeelaConfiguration>): seq<string> {
    if config.Some? && config.value.playouts != 0 then ["--playouts", IntToString(config.value.playouts)]
    else []
  }

  /** The command line of the `leela` engine. */
  function LeelaArgs(configs: Configs): seq<string> {
    BaseArgs + PlayoutArgs(Lookup(configs, "leela"))
  }

  /** The command line of the `leelazero` engine: the network weights file, then the playouts. */
  function LeelazeroArgs(zero: LeelaConfiguration): seq<string> {
    BaseArgs + ["-w", zero.weights] + PlayoutArgs(Some(zero))
  }

  /** The command line of a profile; a profile other than the two known engines gets none. */
  function ArgsFor(name: string, configs: Configs, zero: LeelaConfiguration): seq<string> {
    if name == "leela" then LeelaArgs(configs)
    else if name == "leelazero" then LeelazeroArgs(zero)
    else []
  }

  /**
   * How an engine reads its command line: the word after `flag`, where
   * `-w` and `--playouts` take a value and every other word is a switch.
   */
  function OptionValue(args: seq<string>, flag: string): Option<string>
    decreases |args|
  {
    if args == [] then None
    else if args[0] == "-w" || args[0] == "--playouts" then
      if |args| < 2 then None
      else if args[0] == flag then Some(args[1])
      else OptionValue(args[2..], flag)
    else OptionValue(args[1..], flag)
  }

  /** What the engine reads back from `PlayoutArgs`: the configured count exactly when it is non-zero. */
  lemma {:induction false} PlayoutArgsRead(config: Option<LeelaConfiguration>)
    ensures var v := OptionValue(PlayoutArgs(config), "--playouts");
            && (v.Some? <==> config.Some? && config.value.playouts != 0)
            && (v.Some? ==> ParseInt(v.value) == Some(config.value.playouts))
    ensures OptionValue(PlayoutArgs(config), "-w") == None
  {
    if config.Some? && config.value.playouts != 0 {
      var args := PlayoutArgs(config);
      assert args[2..] == [];
      ParseIntRoundTrip(config.value.playouts);
    }
  }

  /** The `leela` command line: GTP mode without pondering, and the playouts when configured. */
  lemma LeelaArgsRead(configs: Configs)
    ensures var args := LeelaArgs(configs);
            && args[..2] == BaseArgs
            && OptionValue(args, "-w") == None
            && OptionValue(args, "--playouts") == OptionValue(PlayoutArgs(Lookup(configs, "leela")), "--playouts")
  {
    var args := LeelaArgs(configs);
    assert args[1..][1..] == PlayoutArgs(Lookup(configs, "leela"));
    PlayoutArgsRead(Lookup(configs, "leela"));
  }

  /** The `leelazero` command line: GTP mode, the weights file, and the playouts when configured. */
  lemma LeelazeroArgsRead(zero: LeelaConfiguration)
    ensures var args := LeelazeroArgs(zero);
            && args[..2] == BaseArgs
            && OptionValue(args, "-w") == Some(zero.weights)
            && OptionValue(args, "--playouts") == OptionValue(PlayoutArgs(Some(zero)), "--playouts")
  {
    var args := LeelazeroArgs(zero);
    var rest := ["-w", zero.weights] + PlayoutArgs(Some(zero));
    assert args[1..][1..] == rest;
    assert rest[2..] == PlayoutArgs(Some(zero));
    assert OptionValue(args, "-w") == OptionValue(rest, "-w") == Some(zero.weights);
    assert OptionValue(args, "--playouts") == OptionValue(rest, "--playouts");
    PlayoutArgsRead(Some(zero));
  }

  /** What `createController` decides, before anything is constructed. */
  datatype Admission = Refused | Fails | Admitted(exec: string, args: seq<string>)

  /**
   * The decision for a request naming profile `name` while `count`
   * controllers are live: `null` at capacity or for an unknown profile;
   * an exception when the `leelazero` profile is not configured (its
   * weights are read for every request) or when the requested profile is a
   * key without a value; otherwise a controller for the profile's
   * executable and command line.
   */
  function Decide(count: nat, maxInstances: int, name: string, configs: Configs): (d: Admission)
    ensures count >= maxInstances ==> d == Refused
    ensures name !in configs ==> d == Refused
    ensures d == Refused <==> count >= maxInstances || name !in configs
    ensures d.Admitted? <==>
              count < maxInstances && name in configs && Lookup(configs, "leelazero").Some? && configs[name].Some?
    ensures d.Admitted? ==> d.exec == configs[name].value.exec
    ensures d.Admitted? ==> d.args == ArgsFor(name, configs, Lookup(configs, "leelazero").value)
  {
    if count >= maxInstances then Refused
    else if name !in configs then Refused
    else if Lookup(configs, "leelazero").None? then Fails
    else if configs[name].None? then Fails
    else Admitted(configs[name].value.exec, ArgsFor(name, configs, Lookup(configs, "leelazero").value))
  }

  /** An admitted `leela` or `leelazero` request carries that profile's command line; any other profile gets an empty one. */
  lemma AdmittedArgs(count: nat, maxInstances: int, name: string, configs: Configs)
    requires Decide(count, maxInstances, name, configs).Admitted?
    ensures var args := Decide(count, maxInstances, name, configs).args;
            && (name == "leela" ==> args == LeelaArgs(configs))
            && (name == "leelazero" ==> args == LeelazeroArgs(Lookup(configs, "leelazero").value))
            && (name == "leelazero" ==> OptionValue(args, "-w") == Some(Lookup(configs, "leelazero").value.weights))
            && (name != "leela" && name != "leelazero" ==> args == [])
  {
    if name == "leelazero" {
      LeelazeroArgsRead(Lookup(configs, "leelazero").value);
    }
  }

  /** The outcome of `createController`. */
  datatype Creation = Declined | Threw | Created(controller: Controller)

  /** The process-wide engine pool. */
  class AIManager {
    /** Most engines allowed to run at once. */
    const maxInstances: int
    const configs: Configs
    /** Connected WebSocket clients, maintained by the server. */
    var onlineUsers: int
    /** The live controllers. */
    var controllers: set<Controller>

    /** The pool never holds more controllers than it admits. */
    ghost predicate Valid()
      reads this
    {
      controllers == {} || |controllers| <= maxInstances
    }

    constructor(maxInstances: int, configs: Configs)
      ensures Valid()
      ensures this.maxInstances == maxInstances && this.configs == configs
      ensures onlineUsers == 0 && controllers == {}
    {
      this.maxInstances := maxInstances;
      this.configs := configs;
      onlineUsers := 0;
      controllers := {};
    }

    /**
     * `createController(ai)`: capacity is checked first, then the profile;
     * an admitted request adds exactly one new controller.
     */
    method CreateController(ai: Option<string>) returns (r: Creation)
      requires Valid()
      modifies this`controllers
      ensures Valid()
      ensures var d := Decide(|old(controllers)|, maxInstances, ProfileName(ai), configs);
              && (d == Refused ==> r == Declined && controllers == old(controllers))
              && (d == Fails ==> r == Threw && controllers == old(controllers))
              && (d.Admitted? ==>
                    && r.Created? && fresh(r.controller)
                    && r.controller.exec == d.exec && r.controller.args == d.args
                    && !r.controller.running && !r.controller.stopRequested
                    && controllers == old(controllers) + {r.controller}
                    && |controllers| == |old(controllers)| + 1)
    {
      var name := ProfileName(ai);
      if |controllers| >= maxInstances {
        return Declined;
      }
      if name !in configs {
        return Declined;
      }
      var zero := Lookup(configs, "leelazero");
      if zero.None? {
        return Threw;
      }
      var args := ArgsFor(name, configs, zero.value);
      if configs[name].None? {
        return Threw;
      }
      var engine := new Controller(configs[name].value.exec, args);
      controllers := controllers + {engine};
      r := Created(engine);
    }

    /**
     * `releaseController(c)`, synchronous part: nothing for `null`,
     * otherwise a stop request. The controller stays in the pool until the
     * stop completes (`ControllerStopped`).
     */
    method ReleaseController(c: Controller?)
      modifies c
      ensures c != null ==> c.stopRequested && c.running == old(c.running)
    {
      if c == null {
        return;
      }
      c.stopRequested := true;
    }

    /** The deferred part of `releaseController`: once `stop()` resolves, the controller leaves the pool. */
    method ControllerStopped(c: Controller)
      requires Valid()
      modifies this`controllers, c
      ensures Valid()
      ensures controllers == old(controllers) - {c}
      ensures !c.running && c.stopRequested == old(c.stopRequested)
    {
      c.running := false;
      controllers := controllers - {c};
    }
  }
}
