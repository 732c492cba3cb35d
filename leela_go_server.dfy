/**
 * `LeelaGoServer`: one WebSocket session of the engine gateway. System
 * frames ask the pool for an engine; GTP frames are relayed to the held
 * engine and its reply sent back; any malformed frame or failure closes the
 * session and hands the engine back to the pool.
 */
module Gateway {
  import opened Wrappers
  import opened Engines

  /** A GTP-style command object `{ id, name, args }` as carried in system frames. */
  datatype Command = Command(id: Option<int>, name: string, args: Option<string>)

  /**
   * An incoming frame after `JSON.parse`: text that does not parse, an
   * object without a truthy `type`, a `gtp` frame with its command text, a
   * `sys` frame (with no command object when `data` is absent), or a frame
   * of any other type.
   */
  datatype Frame = Unparseable | Untyped | GtpFrame(text: string) | SysFrame(cmd: Option<Command>) | OtherFrame

  /** A frame sent to the client. */
  datatype Reply =
    | SysReply(id: Option<int>, name: string, granted: bool, pending: int)
    | GtpReply(text: string)

  /** The system command name of an engine request (`Protocol.sys.requestAI`). */
  const RequestAI: string := "requestAI"

  /** Clients that wait for an engine when the pool is full. */
  function Pending(onlineUsers: int, maxInstances: int): (p: int)
    ensures p >= 0
    ensures p >= onlineUsers - maxInstances
    ensures p == 0 || p == onlineUsers - maxInstances
  {
    if onlineUsers - maxInstances > 0 then onlineUsers - maxInstances else 0
  }

  class LeelaGoServer {
    /** The process-wide engine pool. */
    const pool: AIManager
    /** The engine this session holds, if any. */
    var ai: Controller?
    /** The profile the held engine was requested for. */
    var engine: Option<string>
    /** The 15-second keep-alive ping is scheduled. */
    var timerActive: bool
    /** The socket has been terminated and its listeners removed. */
    var terminated: bool
    /** How many `close` events this session emitted. */
    var closeEvents: nat
    /** Frames sent to the client, in order. */
    var sent: seq<Reply>
    /** GTP command texts forwarded to engines, in order. */
    var forwarded: seq<string>

    ghost predicate Valid()
      reads this, pool
    {
      pool.Valid()
    }

    constructor(pool: AIManager)
      requires pool.Valid()
      ensures Valid() && this.pool == pool
      ensures ai == null && engine == None && timerActive && !terminated && closeEvents == 0
      ensures sent == [] && forwarded == []
    {
      this.pool := pool;
      ai := null;
      engine := None;
      timerActive := true;
      terminated := false;
      closeEvents := 0;
      sent := [];
      forwarded := [];
    }

    /**
     * `close()`: stops the keep-alive, emits `close`, terminates the socket,
     * and releases the held engine, if any, exactly once.
     */
    method Close()
      requires Valid()
      modifies this, ai
      ensures Valid()
      ensures !timerActive && terminated && closeEvents == old(closeEvents) + 1
      ensures ai == null
      ensures old(ai) != null ==> old(ai).stopRequested && old(ai).running == old(ai.running)
      ensures engine == old(engine) && sent == old(sent) && forwarded == old(forwarded)
      ensures pool.controllers == old(pool.controllers)
    {
      timerActive := false;
      closeEvents := closeEvents + 1;
      terminated := true;
      if ai == null {
        return;
      }
      pool.ReleaseController(ai);
      ai := null;
    }

    /**
     * `handleGtpMessages`: without an engine the frame is ignored; otherwise
     * the command goes to the engine and the engine's reply (its rendered
     * response, supplied by the caller) goes back to the client.
     */
    method HandleGtpMessages(text: string, response: string)
      modifies this
      ensures ai == old(ai) && engine == old(engine)
      ensures timerActive == old(timerActive) && terminated == old(terminated) && closeEvents == old(closeEvents)
      ensures old(ai) == null ==> sent == old(sent) && forwarded == old(forwarded)
      ensures old(ai) != null ==> sent == old(sent) + [GtpReply(response)] && forwarded == old(forwarded) + [text]
    {
      if ai == null {
        return;
      }
      forwarded := forwarded + [text];
      sent := sent + [GtpReply(response)];
    }

    /**
     * `handleRequestAI`: a repeated request for the engine already running
     * is answered `[true, 0]` and changes nothing. Any other request first
     * releases the held engine, then asks the pool: a refusal is answered
     * `[false, pending]`; an exception from the pool, or an engine that did
     * not come up (its `process.stderr` is read), escapes as `threw`;
     * otherwise the new engine is held and the request answered `[true, 0]`.
     */
    method HandleRequestAI(cmd: Command, spawned: bool) returns (threw: bool)
      requires Valid()
      modifies this, pool, ai
      ensures Valid()
      ensures timerActive == old(timerActive) && terminated == old(terminated) && closeEvents == old(closeEvents)
      ensures forwarded == old(forwarded)
      ensures pool.onlineUsers == old(pool.onlineUsers)
      ensures old(ai) != null && old(ai.running) && cmd.args == old(engine) ==>
                && !threw && ai == old(ai) && engine == old(engine)
                && sent == old(sent) + [SysReply(cmd.id, cmd.name, true, 0)]
                && pool.controllers == old(pool.controllers)
                && ai.stopRequested == old(ai.stopRequested) && ai.running == old(ai.running)
      ensures !(old(ai) != null && old(ai.running) && cmd.args == old(engine)) ==>
                && (old(ai) != null ==> old(ai).stopRequested)
                && var d := Decide(|old(pool.controllers)|, pool.maxInstances, ProfileName(cmd.args), pool.configs);
                && (d == Refused ==>
                      && !threw && ai == null && engine == old(engine)
                      && sent == old(sent) + [SysReply(cmd.id, cmd.name, false, Pending(pool.onlineUsers, pool.maxInstances))]
                      && pool.controllers == old(pool.controllers))
                && (d == Fails ==>
                      threw && ai == null && engine == old(engine) && sent == old(sent) && pool.controllers == old(pool.controllers))
                && (d.Admitted? && !spawned ==>
                      threw && ai == null && engine == old(engine) && sent == old(sent) && |pool.controllers| == |old(pool.controllers)| + 1)
                && (d.Admitted? && spawned ==>
                      && !threw && ai != null && fresh(ai) && ai.running && !ai.stopRequested
                      && ai.exec == d.exec && ai.args == d.args
                      && pool.controllers == old(pool.controllers) + {ai}
                      && engine == cmd.args
                      && sent == old(sent) + [SysReply(cmd.id, cmd.name, true, 0)])
    {
      if ai != null && ai.running && cmd.args == engine {
        sent := sent + [SysReply(cmd.id, cmd.name, true, 0)];
        return false;
      }
      pool.ReleaseController(ai);
      ai := null;
      threw := Acquire(cmd, spawned);
    }

    /** The second half of `handleRequestAI`, once no engine is held: ask the pool for one. */
    method Acquire(cmd: Command, spawned: bool) returns (threw: bool)
      requires Valid() && ai == null
      modifies this, pool
      ensures Valid()
      ensures timerActive == old(timerActive) && terminated == old(terminated) && closeEvents == old(closeEvents)
      ensures forwarded == old(forwarded)
      ensures pool.onlineUsers == old(pool.onlineUsers)
      ensures var d := Decide(|old(pool.controllers)|, pool.maxInstances, ProfileName(cmd.args), pool.configs);
              && (d == Refused ==>
                    && !threw && ai == null && engine == old(engine)
                    && sent == old(sent) + [SysReply(cmd.id, cmd.name, false, Pending(pool.onlineUsers, pool.maxInstances))]
                    && pool.controllers == old(pool.controllers))
              && (d == Fails ==>
                    threw && ai == null && engine == old(engine) && sent == old(sent) && pool.controllers == old(pool.controllers))
              && (d.Admitted? && !spawned ==>
                    threw && ai == null && engine == old(engine) && sent == old(sent) && |pool.controllers| == |old(pool.controllers)| + 1)
              && (d.Admitted? && spawned ==>
                    && !threw && ai != null && fresh(ai) && ai.running && !ai.stopRequested
                    && ai.exec == d.exec && ai.args == d.args
                    && pool.controllers == old(pool.controllers) + {ai}
                    && engine == cmd.args
                    && sent == old(sent) + [SysReply(cmd.id, cmd.name, true, 0)])
    {
      var created := pool.CreateController(cmd.args);
      match created
      case Declined =>
        sent := sent + [SysReply(cmd.id, cmd.name, false, Pending(pool.onlineUsers, pool.maxInstances))];
        return false;
      case Threw =>
        return true;
      case Created(c) =>
        c.Start(spawned);
        if !c.running {
          return true;
        }
        ai := c;
        engine := cmd.args;
        sent := sent + [SysReply(cmd.id, cmd.name, true, 0)];
        return false;
    }

    /**
     * `handleMessage`: unparseable or untyped frames, a `sys` frame without
     * a command, and any exception while handling a request close the
     * session; `gtp` frames are relayed; `sys` frames go to the handler
     * registered for their name (only the engine request); frames of any
     * other type, and unknown system commands, are ignored.
     */
    method HandleMessage(frame: Frame, spawned: bool, response: string)
      requires Valid()
      modifies this, pool, ai
      ensures Valid()
      ensures pool.onlineUsers == old(pool.onlineUsers)
      ensures (frame.Unparseable? || frame.Untyped? || frame == SysFrame(None)) ==>
                && terminated && !timerActive && ai == null
                && (old(ai) != null ==> old(ai).stopRequested)
                && closeEvents == old(closeEvents) + 1
                && sent == old(sent) && forwarded == old(forwarded)
                && pool.controllers == old(pool.controllers)
      ensures (frame.OtherFrame? || (frame.SysFrame? && frame.cmd.Some? && frame.cmd.value.name != RequestAI)) ==>
                && ai == old(ai) && engine == old(engine)
                && (ai != null ==> ai.stopRequested == old(ai.stopRequested) && ai.running == old(ai.running))
                && terminated == old(terminated) && timerActive == old(timerActive)
                && closeEvents == old(closeEvents)
                && sent == old(sent) && forwarded == old(forwarded)
                && pool.controllers == old(pool.controllers)
      ensures frame.GtpFrame? ==>
                && ai == old(ai) && engine == old(engine)
                && (ai != null ==> ai.stopRequested == old(ai.stopRequested) && ai.running == old(ai.running))
                && terminated == old(terminated) && timerActive == old(timerActive)
                && closeEvents == old(closeEvents) && pool.controllers == old(pool.controllers)
                && (old(ai) == null ==> sent == old(sent) && forwarded == old(forwarded))
                && (old(ai) != null ==> sent == old(sent) + [GtpReply(response)] && forwarded == old(forwarded) + [frame.text])
      ensures frame.SysFrame? && frame.cmd.Some? && frame.cmd.value.name == RequestAI ==>
                var cmd := frame.cmd.value;
                var repeat := old(ai) != null && old(ai.running) && cmd.args == old(engine);
                var d := Decide(|old(pool.controllers)|, pool.maxInstances, ProfileName(cmd.args), pool.configs);
                && forwarded == old(forwarded)
                && (!repeat && old(ai) != null ==> old(ai).stopRequested)
                && (repeat ==>
                      && ai == old(ai) && engine == old(engine)
                      && ai.stopRequested == old(ai.stopRequested) && ai.running == old(ai.running)
                      && terminated == old(terminated) && timerActive == old(timerActive) && closeEvents == old(closeEvents)
                      && sent == old(sent) + [SysReply(cmd.id, cmd.name, true, 0)]
                      && pool.controllers == old(pool.controllers))
                && (!repeat && d == Refused ==>
                      && ai == null && engine == old(engine)
                      && terminated == old(terminated) && timerActive == old(timerActive) && closeEvents == old(closeEvents)
                      && sent == old(sent) + [SysReply(cmd.id, cmd.name, false, Pending(pool.onlineUsers, pool.maxInstances))]
                      && pool.controllers == old(pool.controllers))
                && (!repeat && d.Admitted? && spawned ==>
                      && ai != null && fresh(ai) && ai.running && !ai.stopRequested
                      && ai.exec == d.exec && ai.args == d.args && engine == cmd.args
                      && terminated == old(terminated) && timerActive == old(timerActive) && closeEvents == old(closeEvents)
                      && sent == old(sent) + [SysReply(cmd.id, cmd.name, true, 0)]
                      && pool.controllers == old(pool.controllers) + {ai})
                && (!repeat && (d == Fails || (d.Admitted? && !spawned)) ==>
                      && ai == null && engine == old(engine)
                      && terminated && !timerActive && closeEvents == old(closeEvents) + 1
                      && sent == old(sent)
                      && (d == Fails ==> pool.controllers == old(pool.controllers))
                      && (d.Admitted? ==> |pool.controllers| == |old(pool.controllers)| + 1))
    {
      match frame
      case Unparseable =>
        Close();
      case Untyped =>
        Close();
      case OtherFrame =>
      case GtpFrame(text) =>
        HandleGtpMessages(text, response);
      case SysFrame(None) =>
        Close();
      case SysFrame(Some(cmd)) =>
        if cmd.name == RequestAI {
          var threw := HandleRequestAI(cmd, spawned);
          if threw {
            Close();
          }
        }
    }

    /** The engine's `stopped` listener: the engine is handed back to the pool, though the session keeps its reference. */
    method OnEngineStopped(c: Controller)
      modifies c
      ensures c.stopRequested && c.running == old(c.running)
    {
      pool.ReleaseController(c);
    }
  }
}
