/**
 * The decision logic of the live-match page (app/match/page.tsx): the
 * simplified game/set/match rules, the score display, the point chronology,
 * the settings panel and the simulated swing detection that feeds the
 * statistics store. React state becomes the explicit `Match` value and each
 * `Math.random()` draw becomes a parameter in [0, 1).
 */
module LiveMatch {
  import opened Wrappers
  import opened JsText
  import StatStore

  datatype Player = Lucia | Alex

  function Opponent(p: Player): (q: Player)
    ensures q != p
  {
    if p == Lucia then Alex else Lucia
  }

  /** A `{lucia, alex}` pair of counters. */
  datatype Tally = Tally(lucia: int, alex: int) {
    function Get(p: Player): int {
      if p == Lucia then lucia else alex
    }

    /** `{ ...t, [p]: t[p] + 1 }` */
    function Inc(p: Player): (r: Tally)
      ensures r.Get(p) == Get(p) + 1
      ensures r.Get(Opponent(p)) == Get(Opponent(p))
    {
      if p == Lucia then this.(lucia := lucia + 1) else this.(alex := alex + 1)
    }

    /** `p` has more than the opponent (a set `p` has won, or leads). */
    predicate Leads(p: Player) {
      Get(p) > Get(Opponent(p))
    }
  }

  const Zero: Tally := Tally(0, 0)

  /** The scoreboard state. */
  datatype Match = Match(
    score: Tally,          // points in the current game
    sets: seq<Tally>,      // games in each of the three sets
    currentSet: int,
    server: Player,
    currentGame: int,
    ended: bool,
    winner: Option<Player>)

  /** The page's initial state. */
  const Start: Match := Match(Zero, [Zero, Zero, Zero], 0, Lucia, 1, false, None)

  /** Three sets and a current-set index that selects one of them. */
  predicate Valid(m: Match) {
    |m.sets| == 3 && 0 <= m.currentSet <= 2
  }

  /** Simplified game rule: at least 4 points and a lead of at least 2 (no advantage display). */
  predicate WinsGame(points: Tally, p: Player) {
    points.Get(p) >= 4 && points.Get(p) - points.Get(Opponent(p)) >= 2
  }

  /** Set rule: at least 6 games and a lead of at least 2; there is no tiebreak. */
  predicate WinsSet(games: Tally, p: Player) {
    games.Get(p) >= 6 && games.Get(p) - games.Get(Opponent(p)) >= 2
  }

  /** `sets.filter(set => set[p] > set[other]).length` */
  function SetsLed(sets: seq<Tally>, p: Player): (n: nat)
    ensures n <= |sets|
  {
    if sets == [] then 0
    else SetsLed(sets[..|sets| - 1], p) + (if sets[|sets| - 1].Leads(p) then 1 else 0)
  }

  /**
   * `updateScore(p)`: `p` takes the point. A game won moves to the next game
   * with the other player serving; a set won ends the match when `p` now
   * leads two sets, otherwise moves to the next set while there is one.
   */
  function UpdateScore(m: Match, p: Player): (r: Match)
    requires Valid(m)
    ensures Valid(r)
    ensures r.currentSet == m.currentSet || r.currentSet == m.currentSet + 1
    ensures !WinsGame(m.score.Inc(p), p) ==> r == m.(score := m.score.Inc(p))
    ensures WinsGame(m.score.Inc(p), p) ==>
              && r.score == Zero
              && r.currentGame == m.currentGame + 1
              && r.server == Opponent(m.server)
              && r.sets[m.currentSet] == m.sets[m.currentSet].Inc(p)
              && (forall i :: 0 <= i < 3 && i != m.currentSet ==> r.sets[i] == m.sets[i])
    ensures (r.ended != m.ended || r.winner != m.winner) ==>
              && WinsGame(m.score.Inc(p), p)
              && WinsSet(r.sets[m.currentSet], p)
              && SetsLed(r.sets, p) >= 2
              && r.ended && r.winner == Some(p)
    ensures r.currentSet != m.currentSet ==>
              && WinsGame(m.score.Inc(p), p)
              && WinsSet(r.sets[m.currentSet], p)
              && SetsLed(r.sets, p) < 2
    ensures WinsGame(m.score.Inc(p), p) && WinsSet(m.sets[m.currentSet].Inc(p), p) ==>
              && (SetsLed(r.sets, p) >= 2 ==> r.ended && r.winner == Some(p))
              && (SetsLed(r.sets, p) < 2 && m.currentSet < 2 ==> r.currentSet == m.currentSet + 1)
  {
    var points := m.score.Inc(p);
    if !WinsGame(points, p) then m.(score := points)
    else
      var games := m.sets[m.currentSet].Inc(p);
      var sets := m.sets[m.currentSet := games];
      var next := m.(score := Zero, sets := sets, currentGame := m.currentGame + 1, server := Opponent(m.server));
      if WinsSet(games, p) then
        if SetsLed(sets, p) >= 2 then next.(ended := true, winner := Some(p))
        else if m.currentSet < 2 then next.(currentSet := m.currentSet + 1)
        else next
      else next
  }

  /** The match after the given points were won, in order. */
  function Play(m: Match, winners: seq<Player>): (r: Match)
    requires Valid(m)
    ensures Valid(r)
  {
    if winners == [] then m else UpdateScore(Play(m, winners[..|winners| - 1]), winners[|winners| - 1])
  }

  /** However the points go, the current set stays one of the three and the set counter never goes back. */
  lemma {:induction false} CurrentSetStaysInRange(winners: seq<Player>)
    ensures 0 <= Play(Start, winners).currentSet <= 2
    ensures |Play(Start, winners).sets| == 3
    ensures forall k :: 0 <= k <= |winners| ==> Play(Start, winners[..k]).currentSet <= Play(Start, winners).currentSet
  {
    if winners != [] {
      var n := |winners|;
      CurrentSetStaysInRange(winners[..n - 1]);
      forall k | 0 <= k <= n
        ensures Play(Start, winners[..k]).currentSet <= Play(Start, winners).currentSet
      {
        if k < n {
          assert winners[..k] == winners[..n - 1][..k];
        } else {
          assert winners[..k] == winners;
        }
      }
    }
  }

  /** At deuce the next point is not enough: a player two points clear wins. */
  lemma DeuceNeedsTwoClearPoints(p: Player)
    ensures !WinsGame(Tally(3, 3).Inc(p), p)
    ensures WinsGame(Tally(3, 3).Inc(p).Inc(p), p)
    ensures !WinsGame(Tally(3, 3).Inc(p).Inc(Opponent(p)), p)
  {
  }

  /** At six games all, a game won does not end the set. */
  lemma SixAllDoesNotEndSet(m: Match, p: Player)
    requires Valid(m)
    requires m.sets[m.currentSet] == Tally(6, 6)
    requires WinsGame(m.score.Inc(p), p)
    ensures UpdateScore(m, p).currentSet == m.currentSet
    ensures !UpdateScore(m, p).ended || m.ended
  {
    assert !WinsSet(UpdateScore(m, p).sets[m.currentSet], p);
  }

  /** `getGameScoreDisplay`: 0, 15, 30, then 40 for every count from three on. */
  function GameScoreDisplay(points: nat): (s: string)
    ensures points >= 3 <==> s == "40"
    ensures points == 0 <==> s == "0"
    ensures points == 1 <==> s == "15"
    ensures points == 2 <==> s == "30"
  {
    var scoreMap := ["0", "15", "30", "40"];
    if points >= 3 then scoreMap[3] else scoreMap[points]
  }

  /** Distinct counts below 3 display differently; everything from 3 on is "40" (no advantage). */
  lemma GameScoreDisplayDistinguishesUpToForty(a: nat, b: nat)
    ensures GameScoreDisplay(a) == GameScoreDisplay(b) <==> a == b || (a >= 3 && b >= 3)
  {
  }

  /** The settings panel's switches. */
  datatype Settings = Settings(autoScore: bool, soundEffects: bool, aiAnalysis: bool, slowMotion: bool)

  datatype SettingKey = AutoScore | SoundEffects | AiAnalysis | SlowMotion

  const DefaultSettings: Settings := Settings(true, true, true, false)

  function Setting(s: Settings, k: SettingKey): bool {
    match k
    case AutoScore => s.autoScore
    case SoundEffects => s.soundEffects
    case AiAnalysis => s.aiAnalysis
    case SlowMotion => s.slowMotion
  }

  /** `handleSettingsToggle(k)`: flip exactly the switch `k`. */
  function ToggleSetting(s: Settings, k: SettingKey): (r: Settings)
    ensures Setting(r, k) == !Setting(s, k)
    ensures forall j :: j != k ==> Setting(r, j) == Setting(s, j)
  {
    match k
    case AutoScore => s.(autoScore := !s.autoScore)
    case SoundEffects => s.(soundEffects := !s.soundEffects)
    case AiAnalysis => s.(aiAnalysis := !s.aiAnalysis)
    case SlowMotion => s.(slowMotion := !s.slowMotion)
  }

  /** Two switches are the same settings exactly when every switch agrees. */
  lemma SettingsExtensional(s: Settings, t: Settings)
    requires forall k :: Setting(s, k) == Setting(t, k)
    ensures s == t
  {
    assert Setting(s, AutoScore) == Setting(t, AutoScore);
    assert Setting(s, SoundEffects) == Setting(t, SoundEffects);
    assert Setting(s, AiAnalysis) == Setting(t, AiAnalysis);
    assert Setting(s, SlowMotion) == Setting(t, SlowMotion);
  }

  /** Toggling the same switch twice restores the settings. */
  lemma ToggleSettingInvolution(s: Settings, k: SettingKey)
    ensures ToggleSetting(ToggleSetting(s, k), k) == s
  {
    SettingsExtensional(ToggleSetting(ToggleSetting(s, k), k), s);
  }

  /** Toggles of different switches commute. */
  lemma ToggleSettingsCommute(s: Settings, j: SettingKey, k: SettingKey)
    ensures ToggleSetting(ToggleSetting(s, j), k) == ToggleSetting(ToggleSetting(s, k), j)
  {
    SettingsExtensional(ToggleSetting(ToggleSetting(s, j), k), ToggleSetting(ToggleSetting(s, k), j));
  }

  /** `handleEndMatch`: end now; Lucia wins only if she strictly leads the first set. */
  function EndMatch(m: Match): (r: Match)
    requires Valid(m)
    ensures r.ended
    ensures r.winner == Some(Lucia) <==> m.sets[0].lucia > m.sets[0].alex
    ensures r.winner.Some?
    ensures r == m.(ended := r.ended, winner := r.winner)
  {
    m.(ended := true, winner := Some(if m.sets[0].lucia > m.sets[0].alex then Lucia else Alex))
  }

  datatype PointKind = Winner | UnforcedError | ForcedError | Ace

  /** A point in the chronology. */
  datatype PointData = PointData(id: int, winner: Option<Player>, kind: Option<PointKind>, gameNumber: int, pointNumber: int)

  /** `pointTypeMap[point.type || "winner"]` */
  function KindLabel(kind: Option<PointKind>): string {
    match kind.GetOr(Winner)
    case Winner => "Winner"
    case UnforcedError => "Error no forzado"
    case ForcedError => "Error forzado"
    case Ace => "Ace"
  }

  const Separator := " – "

  /** `getPointDescription`: "Punto <n> – <label>". */
  function PointDescription(p: PointData): (s: string)
    ensures |s| > 6 && s[..6] == "Punto "
    ensures |s| >= |KindLabel(p.kind)| && s[|s| - |KindLabel(p.kind)|..] == KindLabel(p.kind)
  {
    "Punto " + IntToString(p.pointNumber) + Separator + KindLabel(p.kind)
  }

  /** In a description the number is the run of non-space characters after "Punto ". */
  lemma DescriptionLayout(n: int, tag: string)
    ensures var s := "Punto " + IntToString(n) + Separator + tag;
            && s[6 + |IntToString(n)|] == ' '
            && forall k :: 6 <= k < 6 + |IntToString(n)| ==> s[k] != ' '
  {
  }

  /** The description determines the point number and the label shown. */
  lemma PointDescriptionDeterminesPoint(a: PointData, b: PointData)
    requires PointDescription(a) == PointDescription(b)
    ensures a.pointNumber == b.pointNumber
    ensures KindLabel(a.kind) == KindLabel(b.kind)
  {
    var s := PointDescription(a);
    var x := IntToString(a.pointNumber);
    var y := IntToString(b.pointNumber);
    assert s == "Punto " + x + Separator + KindLabel(a.kind);
    assert s == "Punto " + y + Separator + KindLabel(b.kind);
    DescriptionLayout(a.pointNumber, KindLabel(a.kind));
    DescriptionLayout(b.pointNumber, KindLabel(b.kind));
    assert s[6 + |x|] == ' ' && s[6 + |y|] == ' ';
    assert !(|x| < |y|) && !(|y| < |x|);
    assert x == s[6..6 + |x|] == y;
    assert KindLabel(a.kind) == s[6 + |x| + |Separator|..] == KindLabel(b.kind);
    IntToStringInjective(a.pointNumber, b.pointNumber);
  }

  /** The points of game `g`, in the order they were played. */
  function PointsOfGame(points: seq<PointData>, g: int): (r: seq<PointData>)
    ensures |r| <= |points|
    ensures forall k :: 0 <= k < |r| ==> r[k].gameNumber == g && r[k] in points
  {
    if points == [] then []
    else
      var rest := PointsOfGame(points[..|points| - 1], g);
      var p := points[|points| - 1];
      if p.gameNumber == g then rest + [p] else rest
  }

  /** A point is in its own game's list, and in no other. */
  lemma {:induction false} PointsOfGameMembership(points: seq<PointData>, g: int, p: PointData)
    ensures p in PointsOfGame(points, g) <==> p in points && p.gameNumber == g
  {
    if points != [] {
      var init := points[..|points| - 1];
      PointsOfGameMembership(init, g, p);
      assert points == init + [points[|points| - 1]];
    }
  }

  /**
   * Grouping distributes over concatenation: the points played later come
   * after the earlier ones in every game's list, so play order is kept.
   */
  lemma {:induction false} PointsOfGameAppend(a: seq<PointData>, b: seq<PointData>, g: int)
    ensures PointsOfGame(a + b, g) == PointsOfGame(a, g) + PointsOfGame(b, g)
    decreases |b|
  {
    if b != [] {
      var init := b[..|b| - 1];
      PointsOfGameAppend(a, init, g);
      assert (a + b)[..|a + b| - 1] == a + init;
    } else {
      assert a + b == a;
    }
  }

  /** The game numbers that occur among the points. */
  function GameNumbers(points: seq<PointData>): set<int> {
    set k | 0 <= k < |points| :: points[k].gameNumber
  }

  /**
   * The `pointsByGame` reduce: for each point in order, create its game's
   * list if missing, then append the point to it.
   */
  function GroupByGame(points: seq<PointData>): map<int, seq<PointData>> {
    if points == [] then map[]
    else
      var acc := GroupByGame(points[..|points| - 1]);
      var p := points[|points| - 1];
      acc[p.gameNumber := (if p.gameNumber in acc then acc[p.gameNumber] else []) + [p]]
  }

  /**
   * The grouping has one entry per game that occurs, and each entry is
   * exactly that game's points in their original order: so every point is
   * in exactly one group and no group holds a point of another game.
   */
  lemma {:induction false} GroupByGameIsFilter(points: seq<PointData>)
    ensures GroupByGame(points).Keys == GameNumbers(points)
    ensures forall g :: g in GroupByGame(points) ==> GroupByGame(points)[g] == PointsOfGame(points, g)
  {
    if points != [] {
      var n := |points|;
      var init := points[..n - 1];
      var p := points[n - 1];
      GroupByGameIsFilter(init);
      assert GameNumbers(points) == GameNumbers(init) + {p.gameNumber} by {
        forall g | g in GameNumbers(points) ensures g in GameNumbers(init) + {p.gameNumber} {
          var k :| 0 <= k < n && points[k].gameNumber == g;
          if k < n - 1 {
            assert init[k] == points[k];
          }
        }
        forall g | g in GameNumbers(init) ensures g in GameNumbers(points) {
          var k :| 0 <= k < n - 1 && init[k].gameNumber == g;
          assert points[k] == init[k];
        }
      }
      forall g | g in GroupByGame(points) ensures GroupByGame(points)[g] == PointsOfGame(points, g) {
        if g != p.gameNumber {
          assert GroupByGame(points)[g] == GroupByGame(init)[g];
        } else if g !in GameNumbers(init) {
          assert PointsOfGame(init, g) == [] by {
            if PointsOfGame(init, g) != [] {
              var q := PointsOfGame(init, g)[0];
              PointsOfGameMembership(init, g, q);
            }
          }
        }
      }
    }
  }

  /** Point results are drawn from this list (`pointTypes`). */
  function PointKindOf(roll: real): (k: PointKind)
    requires 0.0 <= roll < 1.0
    ensures roll < 0.25 <==> k == Winner
    ensures 0.25 <= roll < 0.5 <==> k == UnforcedError
    ensures 0.5 <= roll < 0.75 <==> k == ForcedError
    ensures 0.75 <= roll <==> k == Ace
  {
    var kinds := [Winner, UnforcedError, ForcedError, Ace];
    kinds[(roll * 4.0).Floor]
  }

  datatype SwingKind = FirstServe | SecondServe | Stroke

  /** A swing shown on the court overlay. */
  datatype Swing = Swing(speed: int, timestamp: int, x: real, y: real, kind: SwingKind, player: Player)

  /** The random draws of one detection tick, each in [0, 1). */
  datatype Rolls = Rolls(detect: real, serve: real, speed: real, serveType: real, x: real, y: real)

  predicate ValidRolls(r: Rolls) {
    && 0.0 <= r.detect < 1.0 && 0.0 <= r.serve < 1.0 && 0.0 <= r.speed < 1.0
    && 0.0 <= r.serveType < 1.0 && 0.0 <= r.x < 1.0 && 0.0 <= r.y < 1.0
  }

  /** Simulated speed: `floor(r * 80) + 120` for a serve, `floor(r * 50) + 80` for a stroke. */
  function SwingSpeed(isServe: bool, roll: real): (speed: int)
    requires 0.0 <= roll < 1.0
    ensures isServe ==> 120 <= speed <= 199
    ensures !isServe ==> 80 <= speed <= 129
  {
    if isServe then (roll * 80.0).Floor + 120 else (roll * 50.0).Floor + 80
  }

  /** The two speed ranges are disjoint above 129 km/h: a speed over 129 can only be a serve. */
  lemma FastSwingIsServe(isServe: bool, roll: real)
    requires 0.0 <= roll < 1.0
    requires SwingSpeed(isServe, roll) > 129
    ensures isServe
  {
  }

  /** The outcome of a detection tick: the updated store and the swing to display, if any. */
  datatype Tick = Tick(store: StatStore.Store, swing: Option<Swing>)

  /**
   * One tick of the simulated detection (every 4 s): with probability 0.15 a
   * point opens, a swing is generated, its speed is recorded if it is a
   * serve, and a one-position trajectory is logged.
   */
  function DetectSwing(store: StatStore.Store, server: Player, r: Rolls, now: int): (t: Tick)
    requires ValidRolls(r)
    ensures r.detect <= 0.85 ==> t == Tick(store, None)
    ensures r.detect > 0.85 ==>
              && t.swing.Some?
              && |t.store.points| == |store.points| + 1
              && t.store.points[|store.points|] == StatStore.PointRecord(now, None)
              && |t.store.trajectories| == |store.trajectories| + 1
              && t.store.trajectories[|store.trajectories|].positions
                   == [StatStore.Position(t.swing.value.x, t.swing.value.y, now)]
              && t.swing.value.player == server
              && t.swing.value.timestamp == now
              && t.swing.value.speed == SwingSpeed(r.serve > 0.6, r.speed)
              && (t.swing.value.kind == SecondServe <==> r.serve > 0.6 && r.serveType > 0.7)
              && t.store.points[..|store.points|] == store.points
              && t.store.trajectories[..|store.trajectories|] == store.trajectories
              && (t.swing.value.kind == Stroke <==> r.serve <= 0.6)
              && (t.swing.value.kind == Stroke ==> t.store.serves == store.serves)
              && (t.swing.value.kind != Stroke ==>
                    t.store.serves == store.serves + [StatStore.ServeRecord(t.swing.value.speed, now)])
    ensures t.swing.Some? ==>
              && 200.0 <= t.swing.value.y < 300.0
              && (server == Lucia ==> 50.0 <= t.swing.value.x < 250.0)
              && (server == Alex ==> 250.0 <= t.swing.value.x < 450.0)
  {
    if r.detect <= 0.85 then Tick(store, None)
    else
      var started := StatStore.StartPoint(store, now);
      var isServe := r.serve > 0.6;
      var speed := SwingSpeed(isServe, r.speed);
      var kind := if !isServe then Stroke else if r.serveType > 0.7 then SecondServe else FirstServe;
      var x := if server == Lucia then r.x * 200.0 + 50.0 else r.x * 200.0 + 250.0;
      var y := r.y * 100.0 + 200.0;
      var swing := Swing(speed, now, x, y, kind, server);
      var served := if isServe then StatStore.RecordServe(started, speed, now) else started;
      Tick(StatStore.RecordTrajectory(served, [StatStore.Position(x, y, now)]), Some(swing))
  }

  /** Every serve speed in the store lies in the simulated serve range. */
  predicate ServeSpeedsInRange(store: StatStore.Store) {
    forall k :: 0 <= k < |store.serves| ==> 120 <= store.serves[k].speed <= 199
  }

  /** The events of the simulation that touch the store. */
  datatype Event = Detect(server: Player, rolls: Rolls, at: int) | Conclude(at: int)

  predicate ValidEvents(events: seq<Event>) {
    forall k :: 0 <= k < |events| ==> (events[k].Detect? ==> ValidRolls(events[k].rolls))
  }

  /** The store after the events, in order; a point is concluded by `endPoint`. */
  function Simulate(store: StatStore.Store, events: seq<Event>): StatStore.Store
    requires ValidEvents(events)
  {
    if events == [] then store
    else
      var before := Simulate(store, events[..|events| - 1]);
      match events[|events| - 1]
      case Detect(server, rolls, at) => DetectSwing(before, server, rolls, at).store
      case Conclude(at) => StatStore.EndPoint(before, at)
  }

  /** Only serves reach `recordServe`, so from an empty store every recorded serve speed is in [120, 199]. */
  lemma {:induction false} RecordedServesInRange(events: seq<Event>)
    requires ValidEvents(events)
    ensures ServeSpeedsInRange(Simulate(StatStore.Empty, events))
  {
    if events != [] {
      var init := events[..|events| - 1];
      assert ValidEvents(init) by {
        forall k | 0 <= k < |init| ensures init[k].Detect? ==> ValidRolls(init[k].rolls) {
          assert init[k] == events[k];
        }
      }
      RecordedServesInRange(init);
      var before := Simulate(StatStore.Empty, init);
      match events[|events| - 1]
      case Detect(server, rolls, at) =>
        var t := DetectSwing(before, server, rolls, at);
        if t.swing.Some? && t.swing.value.kind != Stroke {
          assert 120 <= t.swing.value.speed <= 199;
        }
      case Conclude(at) =>
    }
  }

  /** `Math.random() > 0.5 ? "lucia" : "alex"` */
  function PointWinner(roll: real): Player {
    if roll > 0.5 then Lucia else Alex
  }

  /** The page state the point-result timer touches. */
  datatype Board = Board(game: Match, chronology: seq<PointData>, currentPoint: int)

  /**
   * The point-result timer: log the point under the current game and point
   * number, advance the point counter and award the point.
   */
  function ResolvePoint(b: Board, winRoll: real, kindRoll: real, now: int): (r: Board)
    requires Valid(b.game) && 0.0 <= kindRoll < 1.0
    ensures Valid(r.game)
    ensures |r.chronology| == |b.chronology| + 1 && r.chronology[..|b.chronology|] == b.chronology
    ensures var p := r.chronology[|b.chronology|];
            && p.gameNumber == b.game.currentGame
            && p.pointNumber == b.currentPoint
            && p.winner == Some(PointWinner(winRoll))
            && p.kind == Some(PointKindOf(kindRoll))
            && p.id == now
    ensures r.currentPoint == b.currentPoint + 1
    ensures r.game == UpdateScore(b.game, PointWinner(winRoll))
  {
    var winner := PointWinner(winRoll);
    var p := PointData(now, Some(winner), Some(PointKindOf(kindRoll)), b.game.currentGame, b.currentPoint);
    Board(UpdateScore(b.game, winner), b.chronology + [p], b.currentPoint + 1)
  }
}
