/**
 * `CGOSViewer`: a single upstream connection to the CGOS game server in
 * viewer mode, multiplexed to WebSocket clients. Upstream text is buffered
 * until it ends in CRLF, then split into lines and dispatched by prefix;
 * each client observes games by id.
 */
module Cgos {
  import opened Wrappers
  import opened JsText

  /** The viewer's identification, sent once the server greets with `protocol`. */
  const Ident: string := "v1 cgosview 0.33 deepleela"
  /** What clients are told once the upstream handshake is done. */
  const ReadyNotice: string := "cgos-ready-deepleela"
  const Terminator: string := "\r\n"
  /** How many `match` lines are retained. */
  const MaxMatches: nat := 100

  /** A WebSocket client, by identity. */
  type ClientId = nat

  /**
   * An observed game: its setup line, the update lines seen since, and how
   * many observe requests it has (`None` for a record that a setup line
   * created, which has no count and reads as `NaN`).
   */
  datatype Game = Game(setup: string, updates: seq<string>, count: Option<int>)

  /** Observed games by id; a setup line without an id is stored under `undefined` (`None`). */
  type Games = map<Option<string>, Game>

  /** Word `i` of a space-separated line, `undefined` past the end. */
  function Word(line: string, i: nat): Option<string> {
    var parts := Split(line, " ");
    if i < |parts| then Some(parts[i]) else None
  }

  /** `lines.filter(v => v.startsWith(prefix))` */
  function Select(lines: seq<string>, prefix: string): (r: seq<string>)
    ensures |r| <= |lines|
    ensures forall i :: 0 <= i < |r| ==> StartsWith(r[i], prefix)
    ensures forall l :: l in r <==> l in lines && StartsWith(l, prefix)
  {
    if lines == [] then []
    else Select(lines[..|lines| - 1], prefix) + (if StartsWith(lines[|lines| - 1], prefix) then [lines[|lines| - 1]] else [])
  }

  /** Filtering keeps order: a line appended to the input is appended to the selection exactly when it has the prefix. */
  lemma SelectAppend(lines: seq<string>, l: string, prefix: string)
    ensures Select(lines + [l], prefix) == Select(lines, prefix) + (if StartsWith(l, prefix) then [l] else [])
  {
    assert (lines + [l])[..|lines|] == lines;
  }

  /** Filtering distributes over concatenation, so the selection lists the prefixed lines in their input order. */
  lemma {:induction false} SelectConcat(a: seq<string>, b: seq<string>, prefix: string)
    ensures Select(a + b, prefix) == Select(a, prefix) + Select(b, prefix)
    decreases |b|
  {
    if b == [] {
      assert a + b == a;
    } else {
      var init, last := b[..|b| - 1], b[|b| - 1];
      assert a + b == (a + init) + [last];
      assert b == init + [last];
      SelectAppend(a + init, last, prefix);
      SelectConcat(a, init, prefix);
      SelectAppend(init, last, prefix);
    }
  }

  /** The last `n` entries of `s`, in order. */
  function Newest(s: seq<string>, n: nat): (r: seq<string>)
    ensures |r| == if |s| > n then n else |s|
    ensures r == s[|s| - |r|..]
  {
    if |s| > n then s[|s| - n..] else s
  }

  // ---------------------------------------------------------------------
  // What each client is sent

  /** Frames sent to each client, in order; a client not in the map was sent nothing. */
  type Outbox = map<ClientId, seq<string>>

  function Sent(o: Outbox, c: ClientId): seq<string> {
    if c in o then o[c] else []
  }

  /** Every target is sent `msgs`, in order; nobody else is sent anything. */
  function SendTo(o: Outbox, targets: set<ClientId>, msgs: seq<string>): (r: Outbox)
    ensures forall c :: Sent(r, c) == Sent(o, c) + (if c in targets then msgs else [])
  {
    map c | c in o.Keys + targets :: Sent(o, c) + (if c in targets then msgs else [])
  }

  /** The clients whose observed-games list contains `id`. */
  function Observing(observers: map<ClientId, seq<string>>, id: Option<string>): set<ClientId> {
    set c | c in observers && id.Some? && id.value in observers[c]
  }

  /** A retained `match` line mentions `id` (`undefined` is searched for as text). */
  predicate Announced(matches: seq<string>, id: Option<string>) {
    exists i :: 0 <= i < |matches| && Contains(matches[i], Interpolated(id))
  }

  /** One `gameover` line: relayed unchanged to `recipients` when a retained match mentions its game, dropped otherwise. */
  function GameoverStep(o: Outbox, matches: seq<string>, recipients: set<ClientId>, go: string): (r: Outbox)
    ensures !Announced(matches, Word(go, 1)) ==> r == o
    ensures Announced(matches, Word(go, 1)) ==> forall c :: Sent(r, c) == Sent(o, c) + (if c in recipients then [go] else [])
  {
    if Announced(matches, Word(go, 1)) then SendTo(o, recipients, [go]) else o
  }

  /** The `gameover` lines of a chunk, in order. */
  function Gameovers(o: Outbox, matches: seq<string>, recipients: set<ClientId>, gos: seq<string>): Outbox {
    if gos == [] then o
    else GameoverStep(Gameovers(o, matches, recipients, gos[..|gos| - 1]), matches, recipients, gos[|gos| - 1])
  }

  /** The `gameover` lines whose game a retained match mentions. */
  function AnnouncedOnly(matches: seq<string>, gos: seq<string>): (r: seq<string>)
    ensures |r| <= |gos|
  {
    if gos == [] then []
    else AnnouncedOnly(matches, gos[..|gos| - 1]) + (if Announced(matches, Word(gos[|gos| - 1], 1)) then [gos[|gos| - 1]] else [])
  }

  /** Each recipient receives exactly the announced `gameover` lines, in order; everyone else nothing. */
  lemma {:induction false} GameoversSent(o: Outbox, matches: seq<string>, recipients: set<ClientId>, gos: seq<string>, c: ClientId)
    ensures Sent(Gameovers(o, matches, recipients, gos), c)
            == Sent(o, c) + (if c in recipients then AnnouncedOnly(matches, gos) else [])
  {
    if gos != [] {
      var init, last := gos[..|gos| - 1], gos[|gos| - 1];
      var prior := Gameovers(o, matches, recipients, init);
      GameoversSent(o, matches, recipients, init, c);
      assert Sent(Gameovers(o, matches, recipients, gos), c)
             == Sent(prior, c) + (if c in recipients && Announced(matches, Word(last, 1)) then [last] else []);
      assert AnnouncedOnly(matches, gos)
             == AnnouncedOnly(matches, init) + (if Announced(matches, Word(last, 1)) then [last] else []);
    }
  }

  /** The games and the frames sent, as updated together by `update` and `setup` lines. */
  datatype Fanout = Fanout(games: Games, outbox: Outbox)

  /** One `update` line: sent to the clients observing its game, and appended to the game when it is tracked. */
  function UpdateStep(f: Fanout, observers: map<ClientId, seq<string>>, u: string): (r: Fanout)
    ensures r.games.Keys == f.games.Keys
    ensures forall k :: k in f.games && k != Word(u, 1) ==> r.games[k] == f.games[k]
    ensures Word(u, 1) in f.games ==>
              var g := f.games[Word(u, 1)];
              r.games[Word(u, 1)] == g.(updates := g.updates + [u])
    ensures forall c :: Sent(r.outbox, c) == Sent(f.outbox, c) + (if c in Observing(observers, Word(u, 1)) then [u] else [])
  {
    var id := Word(u, 1);
    var games := if id in f.games then f.games[id := f.games[id].(updates := f.games[id].updates + [u])] else f.games;
    Fanout(games, SendTo(f.outbox, Observing(observers, id), [u]))
  }

  /** The `update` lines of a chunk, in order. */
  function Updates(f: Fanout, observers: map<ClientId, seq<string>>, us: seq<string>): Fanout {
    if us == [] then f
    else UpdateStep(Updates(f, observers, us[..|us| - 1]), observers, us[|us| - 1])
  }

  /** The lines among `us` about game `id`. */
  function LinesFor(us: seq<string>, id: Option<string>): (r: seq<string>)
    ensures |r| <= |us|
  {
    if us == [] then []
    else LinesFor(us[..|us| - 1], id) + (if Word(us[|us| - 1], 1) == id then [us[|us| - 1]] else [])
  }

  /**
   * After a chunk's `update` lines, a tracked game has gained exactly its
   * own updates, in order, and an untracked one is still untracked.
   */
  lemma {:induction false} UpdatesAccumulate(f: Fanout, observers: map<ClientId, seq<string>>, us: seq<string>, id: Option<string>)
    ensures var r := Updates(f, observers, us);
            && r.games.Keys == f.games.Keys
            && (id in f.games ==> r.games[id] == f.games[id].(updates := f.games[id].updates + LinesFor(us, id)))
  {
    if us != [] {
      var init, last := us[..|us| - 1], us[|us| - 1];
      UpdatesAccumulate(f, observers, init, id);
      var prior := Updates(f, observers, init);
      assert Updates(f, observers, us) == UpdateStep(prior, observers, last);
      assert LinesFor(us, id) == LinesFor(init, id) + (if Word(last, 1) == id then [last] else []);
      if id in f.games && Word(last, 1) == id {
        var base := f.games[id].updates;
        assert (base + LinesFor(init, id)) + [last] == base + (LinesFor(init, id) + [last]);
      }
    }
  }

  /** One `setup` line: it becomes its game's setup (updates and count kept; a new record has neither), and observers get the setup then every update. */
  function SetupStep(f: Fanout, observers: map<ClientId, seq<string>>, s: string): (r: Fanout)
    ensures r.games.Keys == f.games.Keys + {Word(s, 1)}
    ensures forall k :: k in f.games && k != Word(s, 1) ==> r.games[k] == f.games[k]
    ensures var g := r.games[Word(s, 1)];
            && g.setup == s
            && (Word(s, 1) in f.games ==> g.updates == f.games[Word(s, 1)].updates && g.count == f.games[Word(s, 1)].count)
            && (Word(s, 1) !in f.games ==> g.updates == [] && g.count == None)
    ensures forall c :: Sent(r.outbox, c) == Sent(f.outbox, c) +
              (if c in Observing(observers, Word(s, 1)) then [s] + r.games[Word(s, 1)].updates else [])
  {
    var id := Word(s, 1);
    var g := if id in f.games then f.games[id].(setup := s) else Game(s, [], None);
    Fanout(f.games[id := g], SendTo(f.outbox, Observing(observers, id), [s] + g.updates))
  }

  /** The `setup` lines of a chunk, in order. */
  function Setups(f: Fanout, observers: map<ClientId, seq<string>>, ss: seq<string>): Fanout {
    if ss == [] then f
    else SetupStep(Setups(f, observers, ss[..|ss| - 1]), observers, ss[|ss| - 1])
  }

  /** One more `setup` line of the chunk is one more step. */
  lemma SetupsExtend(f: Fanout, observers: map<ClientId, seq<string>>, ss: seq<string>, i: nat)
    requires i < |ss|
    ensures Setups(f, observers, ss[..i + 1]) == SetupStep(Setups(f, observers, ss[..i]), observers, ss[i])
  {
    assert ss[..i + 1][..i] == ss[..i];
  }

  /** Setup lines never drop a game, and leave every game they do not name as it was. */
  lemma {:induction false} SetupsKeepOthers(f: Fanout, observers: map<ClientId, seq<string>>, ss: seq<string>, id: Option<string>)
    requires id in f.games
    requires forall i :: 0 <= i < |ss| ==> Word(ss[i], 1) != id
    ensures id in Setups(f, observers, ss).games && Setups(f, observers, ss).games[id] == f.games[id]
  {
    if ss != [] {
      var init := ss[..|ss| - 1];
      assert forall i :: 0 <= i < |init| ==> Word(init[i], 1) != id by {
        forall i | 0 <= i < |init| ensures Word(init[i], 1) != id {
          assert init[i] == ss[i];
        }
      }
      SetupsKeepOthers(f, observers, init, id);
    }
  }

  // ---------------------------------------------------------------------
  // Counting observers

  /** `count++` and `count--` on a number that may be `NaN`. */
  function Inc(n: Option<int>): Option<int> { if n.Some? then Some(n.value + 1) else None }
  function Dec(n: Option<int>): Option<int> { if n.Some? then Some(n.value - 1) else None }

  /** One game a closing client had observed: its count drops, and the record goes once it is no longer positive. */
  function Depart(games: Games, id: Option<string>): (r: Games)
    ensures r.Keys <= games.Keys
    ensures forall k :: k in games && k != id ==> k in r && r[k] == games[k]
    ensures id in games ==>
              var n := Dec(games[id].count);
              if n.Some? && n.value > 0 then id in r && r[id] == games[id].(count := n) else id !in r
  {
    if id !in games then games
    else
      var n := Dec(games[id].count);
      if n.Some? && n.value > 0 then games[id := games[id].(count := n)] else games - {id}
  }

  /** All the games a closing client had observed, in order. */
  function Departed(games: Games, ids: seq<string>): Games {
    if ids == [] then games
    else Depart(Departed(games, ids[..|ids| - 1]), Some(ids[|ids| - 1]))
  }

  predicate Distinct(s: seq<string>) {
    forall i, j :: 0 <= i < j < |s| ==> s[i] != s[j]
  }

  /**
   * When a client whose list holds each game once closes, each listed
   * game's count drops by exactly one and the game is dropped once its
   * count is no longer positive; unlisted games are untouched.
   */
  lemma {:induction false} DepartedEffect(games: Games, ids: seq<string>, k: Option<string>)
    requires Distinct(ids)
    ensures k.None? || k.value !in ids ==> (k in Departed(games, ids) <==> k in games)
    ensures (k.None? || k.value !in ids) && k in games ==> Departed(games, ids)[k] == games[k]
    ensures k.Some? && k.value in ids && k in games ==>
              var n := Dec(games[k].count);
              if n.Some? && n.value > 0 then k in Departed(games, ids) && Departed(games, ids)[k] == games[k].(count := n)
              else k !in Departed(games, ids)
    ensures k.Some? && k.value in ids && k !in games ==> k !in Departed(games, ids)
  {
    if ids != [] {
      var init := ids[..|ids| - 1];
      var last := ids[|ids| - 1];
      assert Distinct(init);
      DepartedEffect(games, init, k);
      if k == Some(last) {
        assert last !in init;
      } else if k.Some? && k.value in ids {
        assert k.value in init by {
          var i :| 0 <= i < |ids| && ids[i] == k.value;
          assert i < |ids| - 1;
          assert init[i] == k.value;
        }
      } else {
        assert k.None? || k.value !in init;
      }
    }
  }

  // ---------------------------------------------------------------------
  // The viewer

  class CGOSViewer {
    /** Upstream text since the last complete chunk. */
    var buffer: string
    /** The upstream handshake is done. */
    var ready: bool
    /** The retained `match` lines, oldest first. */
    var matches: seq<string>
    /** Each client's observed game ids. */
    var observers: map<ClientId, seq<string>>
    /** The connected clients. */
    var clients: set<ClientId>
    /** The observed games. */
    var games: Games
    /** Lines sent upstream, in order. */
    var upstream: seq<string>
    /** Frames sent to each client. */
    var outbox: Outbox
    /** Clients the viewer itself closed on reconnecting. */
    var closedByViewer: set<ClientId>

    /** No client lists a game twice. */
    ghost predicate Valid()
      reads this
    {
      forall c :: c in observers ==> Distinct(observers[c])
    }

    constructor()
      ensures Valid()
      ensures buffer == "" && !ready && matches == [] && observers == map[] && clients == {}
      ensures games == map[] && upstream == [] && outbox == map[] && closedByViewer == {}
    {
      buffer := "";
      ready := false;
      matches := [];
      observers := map[];
      clients := {};
      games := map[];
      upstream := [];
      outbox := map[];
      closedByViewer := {};
    }

    /**
     * The state-clearing part of `reconnectCGOS`: every client is closed
     * and forgotten, along with who observes what. Games, matches, the
     * buffer and the ready flag survive.
     */
    method Reconnect()
      modifies this
      ensures Valid()
      ensures observers == map[] && clients == {} && closedByViewer == old(closedByViewer) + old(clients)
      ensures buffer == old(buffer) && ready == old(ready) && matches == old(matches)
      ensures games == old(games) && upstream == old(upstream) && outbox == old(outbox)
    {
      observers := map[];
      closedByViewer := closedByViewer + clients;
      clients := {};
    }

    /** Pushes the chunk's `match` lines, then shifts the oldest out until at most 100 remain. */
    method RetainMatches(ms: seq<string>)
      modifies this`matches
      ensures matches == Newest(old(matches) + ms, MaxMatches)
      ensures |matches| <= MaxMatches
    {
      var i := 0;
      while i < |ms|
        invariant 0 <= i <= |ms|
        invariant matches == old(matches) + ms[..i]
      {
        matches := matches + [ms[i]];
        i := i + 1;
      }
      assert ms[..|ms|] == ms;
      ghost var all := matches;
      while |matches| > MaxMatches
        invariant |matches| <= |all| && matches == all[|all| - |matches|..]
        invariant |matches| < |all| ==> |matches| >= MaxMatches
        decreases |matches|
      {
        matches := matches[1..];
      }
      assert all == old(matches) + ms;
      if |all| > MaxMatches {
        assert |matches| == MaxMatches;
      } else {
        assert matches == all;
      }
    }

    /** Relays each announced `gameover` line to the clients whose socket is open. */
    method AnnounceGameovers(gos: seq<string>, isOpen: set<ClientId>)
      modifies this`outbox
      ensures outbox == Gameovers(old(outbox), matches, clients * isOpen, gos)
    {
      var i := 0;
      while i < |gos|
        invariant 0 <= i <= |gos|
        invariant outbox == Gameovers(old(outbox), matches, clients * isOpen, gos[..i])
      {
        assert gos[..i + 1][..i] == gos[..i];
        outbox := GameoverStep(outbox, matches, clients * isOpen, gos[i]);
        i := i + 1;
      }
      assert gos[..|gos|] == gos;
    }

    /** Relays each `update` line to its game's observers and records it on a tracked game. */
    method ApplyUpdates(us: seq<string>)
      modifies this`outbox, this`games
      ensures Fanout(games, outbox) == Updates(Fanout(old(games), old(outbox)), observers, us)
    {
      var i := 0;
      while i < |us|
        invariant 0 <= i <= |us|
        invariant Fanout(games, outbox) == Updates(Fanout(old(games), old(outbox)), observers, us[..i])
      {
        assert us[..i + 1][..i] == us[..i];
        var f := UpdateStep(Fanout(games, outbox), observers, us[i]);
        games, outbox := f.games, f.outbox;
        i := i + 1;
      }
      assert us[..|us|] == us;
    }

    /** Records each `setup` line and replays the game to its observers. */
    method ApplySetups(ss: seq<string>)
      modifies this`outbox, this`games
      ensures Fanout(games, outbox) == Setups(Fanout(old(games), old(outbox)), observers, ss)
    {
      var i := 0;
      while i < |ss|
        invariant 0 <= i <= |ss|
        invariant Fanout(games, outbox) == Setups(Fanout(old(games), old(outbox)), observers, ss[..i])
      {
        SetupsExtend(Fanout(old(games), old(outbox)), observers, ss, i);
        var f := SetupStep(Fanout(games, outbox), observers, ss[i]);
        games, outbox := f.games, f.outbox;
        i := i + 1;
      }
      assert ss[..|ss| ] == ss;
    }

    /**
     * `handleTelnetData`. A greeting containing `protocol` on a writable
     * connection is answered with the ident line, marks the viewer ready and
     * tells every client, leaving the buffer alone. Any other data is
     * buffered; nothing is dispatched until the buffer ends in CRLF. Then
     * its lines are handled by kind, `match` lines first, then `gameover`,
     * `update` and `setup`, and the buffer is emptied. `isOpen` is the set
     * of clients whose socket is open.
     */
    method HandleTelnetData(data: string, writable: bool, isOpen: set<ClientId>)
      requires Valid()
      modifies this
      ensures Valid()
      ensures observers == old(observers) && clients == old(clients) && closedByViewer == old(closedByViewer)
      ensures Greeting(data, writable) ==> upstream == old(upstream) + [Ident] && ready
      ensures Greeting(data, writable) ==> outbox == SendTo(old(outbox), old(clients), [ReadyNotice])
      ensures Greeting(data, writable) ==> buffer == old(buffer) && matches == old(matches) && games == old(games)
      ensures !Greeting(data, writable) ==> upstream == old(upstream) && ready == old(ready)
      ensures !Greeting(data, writable) && !EndsWith(old(buffer) + data, Terminator) ==>
                && buffer == old(buffer) + data
                && matches == old(matches) && games == old(games) && outbox == old(outbox)
      ensures !Greeting(data, writable) && EndsWith(old(buffer) + data, Terminator) ==>
                && buffer == ""
                && matches == Newest(old(matches) + Select(Split(old(buffer) + data, Terminator), "match"), MaxMatches)
      ensures !Greeting(data, writable) && EndsWith(old(buffer) + data, Terminator) ==>
                var lines := Split(old(buffer) + data, Terminator);
                var gameovers := Gameovers(old(outbox), matches, old(clients) * isOpen, Select(lines, "gameover"));
                Fanout(games, outbox) == Setups(Updates(Fanout(old(games), gameovers), observers, Select(lines, "update")),
                                                observers, Select(lines, "setup"))
    {
      if Greeting(data, writable) {
        upstream := upstream + [Ident];
        ready := true;
        outbox := SendTo(outbox, clients, [ReadyNotice]);
        return;
      }
      buffer := buffer + data;
      if !EndsWith(buffer, Terminator) {
        return;
      }
      Dispatch(Split(buffer, Terminator), isOpen);
      buffer := "";
    }

    /** The lines of a complete chunk, by kind: `match`, then `gameover`, `update` and `setup`. */
    method Dispatch(lines: seq<string>, isOpen: set<ClientId>)
      modifies this`matches, this`outbox, this`games
      ensures matches == Newest(old(matches) + Select(lines, "match"), MaxMatches)
      ensures var gameovers := Gameovers(old(outbox), matches, clients * isOpen, Select(lines, "gameover"));
              Fanout(games, outbox) == Setups(Updates(Fanout(old(games), gameovers), observers, Select(lines, "update")),
                                              observers, Select(lines, "setup"))
    {
      RetainMatches(Select(lines, "match"));
      AnnounceGameovers(Select(lines, "gameover"), isOpen);
      ApplyUpdates(Select(lines, "update"));
      ApplySetups(Select(lines, "setup"));
    }

    /** `addClient`: the client is registered and sent the ready notice, if the viewer is ready, then every retained match. */
    method AddClient(client: ClientId)
      modifies this`clients, this`outbox
      ensures clients == old(clients) + {client}
      ensures outbox == SendTo(old(outbox), {client}, (if ready then [ReadyNotice] else []) + matches)
    {
      clients := clients + {client};
      outbox := SendTo(outbox, {client}, (if ready then [ReadyNotice] else []) + matches);
    }

    /**
     * `handleMessage`: an `observe <gid>` request whose gid parses to a
     * non-zero number. A tracked game counts one more request and is
     * replayed to the client; an untracked one is requested upstream once
     * and tracked with an empty setup and count 1. The gid joins the
     * client's list unless already there. Anything else is ignored.
     */
    method HandleMessage(client: ClientId, msg: string)
      requires Valid()
      modifies this`games, this`outbox, this`upstream, this`observers
      ensures Valid()
      ensures ObserveRequest(msg).None? ==>
                games == old(games) && outbox == old(outbox) && upstream == old(upstream) && observers == old(observers)
      ensures ObserveRequest(msg).Some? ==> ObserveEffect(client, ObserveRequest(msg).value)
    {
      var gid := ObserveRequest(msg);
      if gid.None? {
        return;
      }
      Observe(client, gid.value);
    }

    /** The effect of a valid `observe gid` request from `client`, over the state before it. */
    twostate predicate ObserveEffect(client: ClientId, gid: string)
      reads this
    {
      && (Some(gid) in old(games) ==>
            var g := old(games)[Some(gid)];
            && games == old(games)[Some(gid) := g.(count := Inc(g.count))]
            && outbox == SendTo(old(outbox), {client}, [g.setup] + g.updates)
            && upstream == old(upstream))
      && (Some(gid) !in old(games) ==>
            && games == old(games)[Some(gid) := Game("", [], Some(1))]
            && outbox == old(outbox)
            && upstream == old(upstream) + ["observe " + gid])
      && Observes(observers, client, gid)
      && (client in old(observers) && gid in old(observers)[client] ==> observers == old(observers))
      && (!(client in old(observers) && gid in old(observers)[client]) ==>
            observers == old(observers)[client := ListOf(old(observers), client) + [gid]])
    }

    /** `handleMessage` once the request is known to be a valid `observe gid`. */
    method Observe(client: ClientId, gid: string)
      requires Valid()
      modifies this`games, this`outbox, this`upstream, this`observers
      ensures Valid()
      ensures ObserveEffect(client, gid)
    {
      var key := Some(gid);
      if key in games {
        var g := games[key];
        games := games[key := g.(count := Inc(g.count))];
        outbox := SendTo(outbox, {client}, [g.setup] + g.updates);
      } else {
        upstream := upstream + ["observe " + gid];
        games := games[key := Game("", [], Some(1))];
      }
      var list := ListOf(observers, client);
      if gid in list {
        return;
      }
      observers := observers[client := list + [gid]];
    }

    /**
     * `handleClientClose` as written: the client is dropped, then its list
     * of observed games is read; a client that never observed a game has
     * none, and the source throws (`crashed`) with the games untouched.
     */
    method HandleClientCloseAsWritten(client: ClientId) returns (crashed: bool)
      requires Valid()
      modifies this`clients, this`observers, this`games
      ensures Valid()
      ensures clients == old(clients) - {client}
      ensures observers == old(observers) - {client}
      ensures crashed <==> client !in old(observers)
      ensures crashed ==> games == old(games)
      ensures !crashed ==> games == Departed(old(games), old(observers)[client])
    {
      clients := clients - {client};
      if client !in observers {
        return true;
      }
      crashed := false;
      var ids := observers[client];
      observers := observers - {client};
      DropObserved(ids);
    }

    /**
     * `handleClientClose` as intended: a client without a list observed
     * nothing, so only its registration goes.
     */
    method HandleClientClose(client: ClientId)
      requires Valid()
      modifies this`clients, this`observers, this`games
      ensures Valid()
      ensures clients == old(clients) - {client}
      ensures observers == old(observers) - {client}
      ensures games == Departed(old(games), if client in old(observers) then old(observers)[client] else [])
    {
      clients := clients - {client};
      var ids := if client in observers then observers[client] else [];
      observers := observers - {client};
      DropObserved(ids);
    }

    /** Releases each game in `ids`, in order. */
    method DropObserved(ids: seq<string>)
      modifies this`games
      ensures games == Departed(old(games), ids)
    {
      var i := 0;
      while i < |ids|
        invariant 0 <= i <= |ids|
        invariant games == Departed(old(games), ids[..i])
      {
        assert ids[..i + 1][..i] == ids[..i];
        var key := Some(ids[i]);
        if key in games {
          var n := Dec(games[key].count);
          if n.Some? && n.value > 0 {
            games := games[key := games[key].(count := n)];
          } else {
            games := games - {key};
          }
        }
        i := i + 1;
      }
      assert ids[..|ids|] == ids;
    }
  }

  /** The upstream server's greeting, on a connection that can be written to. */
  predicate Greeting(data: string, writable: bool) {
    Contains(data, "protocol") && writable
  }

  /** The gid of an `observe` request whose gid parses to a non-zero number (the first CRLF is removed first). */
  function ObserveRequest(msg: string): (gid: Option<string>)
    ensures var w := Word(ReplaceFirst(msg, Terminator, ""), 1);
            gid.Some? <==> msg != "" && StartsWith(msg, "observe") && Truthy(ParseInt(Interpolated(w)))
    ensures gid.Some? ==> gid == Word(ReplaceFirst(msg, Terminator, ""), 1)
    ensures gid.Some? ==> StartsWith(msg, "observe") && Truthy(ParseInt(gid.value))
  {
    if msg == "" || !StartsWith(msg, "observe") then None
    else
      var gid := Word(ReplaceFirst(msg, Terminator, ""), 1);
      UndefinedIsNaN();
      if Truthy(ParseInt(Interpolated(gid))) then gid else None
  }

  /** A client's list of observed games (`observers.get(client) || []`). */
  function ListOf(observers: map<ClientId, seq<string>>, client: ClientId): seq<string> {
    if client in observers then observers[client] else []
  }

  /** The client's list holds `gid`. */
  predicate Observes(observers: map<ClientId, seq<string>>, client: ClientId, gid: string) {
    client in observers && gid in observers[client]
  }

  /** `observe <n>`, for any positive decimal number `n`, is a request to observe game `n`. */
  lemma ObserveNumber(n: nat)
    requires n > 0
    ensures ObserveRequest("observe " + NatToString(n)) == Some(NatToString(n))
  {
    var g := NatToString(n);
    var msg := "observe " + g;
    assert msg[..7] == "observe";
    ObserveHasNoTerminator(g);
    ObserveWord(g);
    assert ParseInt(g) == Some(n) by {
      ParseIntRoundTrip(n);
    }
  }

  /** An observe request for a decimal id carries no `\r\n`. */
  lemma ObserveHasNoTerminator(g: string)
    requires AllDecimalDigits(g)
    ensures ReplaceFirst("observe " + g, Terminator, "") == "observe " + g
  {
    var head := "observe ";
    var msg := head + g;
    forall i | 0 <= i < |msg| ensures msg[i] != '\r' {
      if i >= |head| {
        assert msg[i] == g[i - |head|];
        assert IsDecimalDigit(g[i - |head|]);
      }
    }
    NotContainedWithoutFirst(msg, Terminator);
  }

  /** The second space-separated word of an observe request for a decimal id is that id. */
  lemma ObserveWord(g: string)
    requires AllDecimalDigits(g)
    ensures Word("observe " + g, 1) == Some(g)
  {
    var head := "observe ";
    var msg := head + g;
    forall i | 0 <= i < |msg| && i != 7 ensures msg[i] != ' ' {
      if i >= |head| {
        assert msg[i] == g[i - |head|];
        assert IsDecimalDigit(g[i - |head|]);
      }
    }
    SplitAt(msg, " ", 7);
    assert msg[8..] == g;
  }

  /** A string without the first character of `p` does not contain `p`. */
  lemma {:induction false} NotContainedWithoutFirst(s: string, p: string)
    requires |p| > 0 && p[0] !in s
    ensures !Contains(s, p)
  {
    if |s| > 0 {
      assert s[0] != p[0];
      assert s[1..] == s[1..] && p[0] !in s[1..];
      NotContainedWithoutFirst(s[1..], p);
    }
  }

  /** Splitting a string with exactly one separator, at position `k`. */
  lemma SplitAt(s: string, sep: string, k: nat)
    requires |sep| == 1 && k < |s| && s[k] == sep[0]
    requires forall i :: 0 <= i < |s| && i != k ==> s[i] != sep[0]
    ensures Split(s, sep) == [s[..k], s[k + 1..]]
    decreases k
  {
    if k == 0 {
      assert s[..1] == sep;
      NoSeparator(s[1..], sep);
    } else {
      assert s[..1] != sep;
      SplitAt(s[1..], sep, k - 1);
      assert [s[0]] + s[1..][..k - 1] == s[..k];
    }
  }

  /** A string without the (one-character) separator splits into itself. */
  lemma {:induction false} NoSeparator(s: string, sep: string)
    requires |sep| == 1 && sep[0] !in s
    ensures Split(s, sep) == [s]
  {
    if |s| >= 1 {
      assert s[..1] != sep by { assert s[..1][0] == s[0] != sep[0]; }
      assert sep[0] !in s[1..];
      NoSeparator(s[1..], sep);
      assert [s[0]] + s[1..] == s;
    }
  }

  /**
   * The connection count grows on every observe request, while a client's
   * list holds each game once: a client that observes a game twice and
   * disconnects leaves it tracked with a count of one and no observer.
   */
  method ObserveTwiceThenClose() returns (game: Option<Game>, observing: set<ClientId>)
    ensures game.Some? && game.value.count == Some(1)
    ensures observing == {}
  {
    var gid := NatToString(5);
    ObserveNumber(5);
    var viewer := ObservedTwice(1, gid, "observe " + gid);
    viewer.HandleClientClose(1);
    assert [gid][..0] == [];
    game := if Some(gid) in viewer.games then Some(viewer.games[Some(gid)]) else None;
    observing := Observing(viewer.observers, Some(gid));
  }

  /** A new viewer after one client has sent the same observe request twice. */
  method ObservedTwice(client: ClientId, gid: string, request: string) returns (viewer: CGOSViewer)
    requires ObserveRequest(request) == Some(gid)
    ensures fresh(viewer) && viewer.Valid()
    ensures viewer.observers == map[client := [gid]]
    ensures viewer.games == map[Some(gid) := Game("", [], Some(2))]
  {
    viewer := ObservedOnce(client, gid, request);
    viewer.HandleMessage(client, request);
  }

  /** A new viewer after one client has sent an observe request. */
  method ObservedOnce(client: ClientId, gid: string, request: string) returns (viewer: CGOSViewer)
    requires ObserveRequest(request) == Some(gid)
    ensures fresh(viewer) && viewer.Valid()
    ensures viewer.observers == map[client := [gid]]
    ensures viewer.games == map[Some(gid) := Game("", [], Some(1))]
  {
    viewer := new CGOSViewer();
    viewer.AddClient(client);
    viewer.HandleMessage(client, request);
    assert [] + [gid] == [gid];
  }

  /** A client that disconnects without having observed a game makes the source's close handler throw. */
  method ConnectThenDisconnectCrashes() returns (crashed: bool)
    ensures crashed
  {
    var viewer := new CGOSViewer();
    viewer.AddClient(7);
    crashed := viewer.HandleClientCloseAsWritten(7);
  }

  /** After a reconnect every former client is unknown, so each one's close event throws in the source. */
  method ReconnectThenCloseCrashes(client: ClientId) returns (crashed: bool)
    ensures crashed
  {
    var viewer := new CGOSViewer();
    viewer.AddClient(client);
    viewer.Reconnect();
    crashed := viewer.HandleClientCloseAsWritten(client);
  }
}
