/** The session bookkeeping of the `App` component (App.tsx): the state it
    keeps, the game-over branch of its state effect (personal best, universal
    leaderboard, saved record), and the start and restart handlers. The pure
    transitions are functions on a `Session` value; the class `App` holds the
    same state in fields and updates them in place, as the component's
    setters do. */
module GameSession {
  import opened Types
  import opened Constants
  import opened Leaderboard

  /** The component state the modelled handlers read or write. */
  datatype Session = Session(
    gameState: GameState,
    gameMode: GameMode,
    levelObstacles: seq<Obstacle>,
    score: int,
    speedMultiplier: real,
    highScore: int,
    playerName: string,
    dedicationText: string,
    avatarBase64: Option<string>,
    leaderboard: seq<LeaderboardEntry>)

  /** The personal record written to storage on game over. */
  datatype PersonalRecord = PersonalRecord(name: string, score: int, dedication: string)

  /** The state after the effect ran, and the record it saved, if any. */
  datatype EffectOutcome = EffectOutcome(session: Session, saved: Option<PersonalRecord>)

  /** The state a fresh component starts in. */
  function InitialSession(): (s: Session)
    ensures s.gameState == Menu && s.score == 0 && s.highScore == 0 && s.leaderboard == []
    ensures Consistent(s)
  {
    Session(Menu, Normal, DEFAULT_LEVEL_OBSTACLES, 0, BASE_SPEED, 0, "Player 1", "", None, [])
  }

  /** What the modelled transitions keep true: the board is sorted and capped,
      and every entry on it has a name and a positive score that does not
      exceed the personal best. */
  predicate Consistent(s: Session) {
    && ValidBoard(s.leaderboard)
    && 0 <= s.highScore
    && forall i :: 0 <= i < |s.leaderboard| ==>
         s.leaderboard[i].name != [] && 0 < s.leaderboard[i].score <= s.highScore
  }

  /** `Math.max(score, highScore)`: the best of the run and the stored best. */
  function RecordScore(score: int, highScore: int): (r: int)
    ensures r >= score && r >= highScore
    ensures r == score || r == highScore
  {
    if score > highScore then score else highScore
  }

  /** `playerName || 'Anonymous'`: the name on a leaderboard entry is never
      empty, and it is the player's name whenever there is one. */
  function EntryName(playerName: string): (r: string)
    ensures r != []
    ensures playerName != [] ==> r == playerName
    ensures playerName == [] ==> r == "Anonymous"
  {
    if playerName != [] then playerName else "Anonymous"
  }

  /** The entry the game-over branch adds for the run, stamped `now`. */
  function NewEntry(s: Session, now: int): (e: LeaderboardEntry)
    ensures e.name != [] && (s.playerName != [] ==> e.name == s.playerName)
    ensures e.score == s.score && e.avatarBase64 == s.avatarBase64 && e.timestamp == now
  {
    LeaderboardEntry(EntryName(s.playerName), s.score, s.avatarBase64, now)
  }

  /** The game-over branch of the state effect: raise the personal best to the
      run's score if that is higher; for a positive score, add an entry to the
      leaderboard; always save the personal record with the better of the two
      scores under the player's name as typed. Nothing else changes. */
  function GameOverEffect(s: Session, now: int): (o: EffectOutcome)
    ensures o.session.highScore == RecordScore(s.score, s.highScore)
    ensures o.saved == Some(PersonalRecord(s.playerName, RecordScore(s.score, s.highScore), s.dedicationText))
    ensures s.score <= 0 ==> o.session.leaderboard == s.leaderboard
    ensures s.score > 0 ==> o.session.leaderboard == UpdateLeaderboard(s.leaderboard, NewEntry(s, now))
    ensures o.session == s.(highScore := o.session.highScore, leaderboard := o.session.leaderboard)
  {
    var best := if s.score > s.highScore then s.score else s.highScore;
    var board := if s.score > 0 then UpdateLeaderboard(s.leaderboard, NewEntry(s, now)) else s.leaderboard;
    var record := PersonalRecord(s.playerName, if s.score > s.highScore then s.score else s.highScore, s.dedicationText);
    EffectOutcome(s.(highScore := best, leaderboard := board), Some(record))
  }

  /** One run of the state effect. Outside game over it only starts or stops
      sounds, which this model leaves out, so the state is unchanged and
      nothing is saved. */
  function StateEffect(s: Session, now: int): (o: EffectOutcome)
    ensures s.gameState == GameOver ==> o == GameOverEffect(s, now)
    ensures s.gameState != GameOver ==> o == EffectOutcome(s, None)
    ensures o.session.gameState == s.gameState
  {
    if s.gameState == GameOver then GameOverEffect(s, now) else EffectOutcome(s, None)
  }

  /** `handleStart`: a new run of the authored level in normal mode at base
      speed from score zero. */
  function Start(s: Session): (r: Session)
    ensures r.gameState == Playing && r.gameMode == Normal && r.score == 0
    ensures r.levelObstacles == DEFAULT_LEVEL_OBSTACLES && r.speedMultiplier == BASE_SPEED
    ensures r.highScore == s.highScore && r.leaderboard == s.leaderboard
    ensures r.playerName == s.playerName && r.dedicationText == s.dedicationText
    ensures r.avatarBase64 == s.avatarBase64
  {
    s.(gameMode := Normal, levelObstacles := DEFAULT_LEVEL_OBSTACLES, speedMultiplier := BASE_SPEED,
       gameState := Playing, score := 0)
  }

  /** `handleRestart`: back to the menu, everything else kept. */
  function Restart(s: Session): (r: Session)
    ensures r.gameState == Menu
    ensures r.(gameState := s.gameState) == s
  {
    s.(gameState := Menu)
  }

  /** Every entry of an updated board is an old entry or the new one. */
  lemma UpdateFrom(prev: seq<LeaderboardEntry>, entry: LeaderboardEntry, i: nat)
    requires i < |UpdateLeaderboard(prev, entry)|
    ensures var x := UpdateLeaderboard(prev, entry)[i]; x == entry || x in prev
  {
    var r := UpdateLeaderboard(prev, entry);
    assert r[i] in multiset(r);
    assert r[i] in multiset(prev) + multiset{entry};
  }

  /** The effect keeps a consistent state consistent. */
  lemma EffectConsistent(s: Session, now: int)
    requires Consistent(s)
    ensures Consistent(StateEffect(s, now).session)
  {
    if s.gameState == GameOver && s.score > 0 {
      var t := StateEffect(s, now).session;
      var e := NewEntry(s, now);
      forall i | 0 <= i < |t.leaderboard|
        ensures t.leaderboard[i].name != [] && 0 < t.leaderboard[i].score <= t.highScore
      {
        UpdateFrom(s.leaderboard, e, i);
        if t.leaderboard[i] != e {
          var j :| 0 <= j < |s.leaderboard| && s.leaderboard[j] == t.leaderboard[i];
        }
      }
    }
  }

  /** Starting and restarting keep a consistent state consistent. */
  lemma HandlersConsistent(s: Session)
    requires Consistent(s)
    ensures Consistent(Start(s)) && Consistent(Restart(s))
  {
  }

  /** The personal best never decreases, and after game over it is at least
      the run's score; the saved record carries exactly the new best. */
  lemma BestNeverDecreases(s: Session, now: int)
    ensures var o := StateEffect(s, now);
      && o.session.highScore >= s.highScore
      && (s.gameState == GameOver ==> o.session.highScore >= s.score)
      && (o.saved.Some? ==> o.saved.value.score == o.session.highScore)
  {
  }

  /** A run that scored nothing leaves the leaderboard as it was. */
  lemma NoScoreNoEntry(s: Session, now: int)
    requires s.score <= 0
    ensures StateEffect(s, now).session.leaderboard == s.leaderboard
  {
  }

  /** One game over with a positive score adds its entry exactly once: with
      room on the board, the board afterwards is the old one plus that entry,
      as a multiset; on a full board the entry still stays whenever fewer
      than twenty entries score at least as much. */
  lemma GameOverAddsEntryOnce(s: Session, now: int)
    requires s.gameState == GameOver && s.score > 0
    ensures var b, e := StateEffect(s, now).session.leaderboard, NewEntry(s, now);
      && ValidBoard(b)
      && (|s.leaderboard| < LEADERBOARD_SIZE ==> multiset(b) == multiset(s.leaderboard) + multiset{e})
      && (CountAtLeast(s.leaderboard, s.score) < LEADERBOARD_SIZE ==> e in b)
  {
    var e := NewEntry(s, now);
    EntryPlacement(s.leaderboard, e);
    var b := UpdateLeaderboard(s.leaderboard, e);
    var c := CountAtLeast(s.leaderboard, s.score);
    if c < LEADERBOARD_SIZE {
      assert b[c] == e;
    }
  }

  /** A new run does not depend on anything of the last run: two states that
      agree on the persistent fields start the same run. */
  lemma StartForgetsRun(s1: Session, s2: Session)
    requires s1.highScore == s2.highScore && s1.leaderboard == s2.leaderboard
    requires s1.playerName == s2.playerName && s1.dedicationText == s2.dedicationText
    requires s1.avatarBase64 == s2.avatarBase64
    ensures Start(s1) == Start(s2)
  {
  }

  /** Going through the menu before starting makes no difference, and the
      effect does nothing in the states the handlers enter. */
  lemma HandlersSettle(s: Session, now: int)
    ensures Start(Restart(s)) == Start(s)
    ensures StateEffect(Start(s), now) == EffectOutcome(Start(s), None)
    ensures StateEffect(Restart(s), now) == EffectOutcome(Restart(s), None)
  {
  }

  /** The first game over of a fresh session with score 500 puts one entry on
      the board, raises the best to 500 and saves that record. */
  lemma FirstRunScenario(now: int)
    ensures var s := Start(InitialSession()).(gameState := GameOver, score := 500);
      var o := StateEffect(s, now);
      && o.session.leaderboard == [LeaderboardEntry("Player 1", 500, None, now)]
      && o.session.highScore == 500
      && o.saved == Some(PersonalRecord("Player 1", 500, ""))
  {
    var s := Start(InitialSession()).(gameState := GameOver, score := 500);
    var e := NewEntry(s, now);
    assert [] + [e] == [e];
    assert SortByScore([e]) == [e] by {
      assert [e][..0] == [];
    }
  }

  /** A run of 100 under a best of 200 keeps the best at 200 and still puts
      the run on a board with room, and the saved record shows 200. */
  lemma RunBelowBestScenario(s: Session, now: int)
    requires s.gameState == GameOver && s.score == 100 && s.highScore == 200
    requires |s.leaderboard| < LEADERBOARD_SIZE
    ensures var o := StateEffect(s, now);
      && o.session.highScore == 200
      && NewEntry(s, now) in o.session.leaderboard
      && o.saved.Some? && o.saved.value.score == 200
  {
  }

  /** The effect as the component declares it: it also depends on the
      personal best, so when the game-over branch raises the best, the effect
      runs a second time while the state is still game over (at time
      `rerunAt`), and that second run finds a positive score again. */
  function GameOverAsWritten(s: Session, now: int, rerunAt: int): (o: EffectOutcome)
    ensures o.session.highScore == StateEffect(s, now).session.highScore
  {
    var first := StateEffect(s, now);
    if first.session.highScore != s.highScore then StateEffect(first.session, rerunAt) else first
  }

  /** With the effect as written, a new personal best puts the run on the
      leaderboard twice (when there is room for both). */
  lemma NewBestDuplicatesEntry(s: Session, now: int, rerunAt: int)
    requires s.gameState == GameOver && s.score > s.highScore && s.score > 0
    requires |s.leaderboard| + 2 <= LEADERBOARD_SIZE
    ensures var b := GameOverAsWritten(s, now, rerunAt).session.leaderboard;
      && |b| == |s.leaderboard| + 2
      && multiset(b) == multiset(s.leaderboard) + multiset{NewEntry(s, now), NewEntry(s, rerunAt)}
  {
    var first := StateEffect(s, now);
    assert first.session.highScore == s.score;
    assert NewEntry(first.session, rerunAt) == NewEntry(s, rerunAt);
    UpdateTwice(s.leaderboard, NewEntry(s, now), NewEntry(s, rerunAt));
  }

  /** Two updates of a board with room for both add both entries. */
  lemma UpdateTwice(prev: seq<LeaderboardEntry>, e1: LeaderboardEntry, e2: LeaderboardEntry)
    requires |prev| + 2 <= LEADERBOARD_SIZE
    ensures var b := UpdateLeaderboard(UpdateLeaderboard(prev, e1), e2);
      |b| == |prev| + 2 && multiset(b) == multiset(prev) + multiset{e1, e2}
  {
    var b1 := UpdateLeaderboard(prev, e1);
    assert |b1| == |prev| + 1 && multiset(b1) == multiset(prev) + multiset{e1};
  }

  /** The smallest case: a fresh session's first run of 500 ends with two
      identical-looking entries on the board. */
  lemma DuplicateEntryExample(now: int)
    ensures var s := Start(InitialSession()).(gameState := GameOver, score := 500);
      var b := GameOverAsWritten(s, now, now).session.leaderboard;
      |b| == 2 && b[0] == b[1] == LeaderboardEntry("Player 1", 500, None, now)
  {
    var s := Start(InitialSession()).(gameState := GameOver, score := 500);
    NewBestDuplicatesEntry(s, now, now);
    var b := GameOverAsWritten(s, now, now).session.leaderboard;
    var e := LeaderboardEntry("Player 1", 500, None, now);
    assert multiset(b) == multiset{e, e};
    assert b[0] in multiset(b) && b[1] in multiset(b);
  }

  /** The component: the same state as fields, changed in place by the
      handlers and the effect. */
  class App {
    var gameState: GameState
    var gameMode: GameMode
    var levelObstacles: seq<Obstacle>
    var score: int
    var speedMultiplier: real
    var highScore: int
    var playerName: string
    var dedicationText: string
    var avatarBase64: Option<string>
    var leaderboard: seq<LeaderboardEntry>

    /** The fields as a `Session` value. */
    function Snapshot(): Session
      reads this
    {
      Session(gameState, gameMode, levelObstacles, score, speedMultiplier, highScore,
              playerName, dedicationText, avatarBase64, leaderboard)
    }

    /** The initial values of the component's state hooks. */
    constructor ()
      ensures Snapshot() == InitialSession()
      ensures Consistent(Snapshot())
    {
      gameState := Menu;
      gameMode := Normal;
      levelObstacles := DEFAULT_LEVEL_OBSTACLES;
      score := 0;
      speedMultiplier := BASE_SPEED;
      highScore := 0;
      playerName := "Player 1";
      dedicationText := "";
      avatarBase64 := None;
      leaderboard := [];
    }

    /** `handleStart`. */
    method HandleStart()
      modifies this
      ensures Snapshot() == Start(old(Snapshot()))
    {
      gameMode := Normal;
      levelObstacles := DEFAULT_LEVEL_OBSTACLES;
      speedMultiplier := BASE_SPEED;
      gameState := Playing;
      score := 0;
    }

    /** `handleRestart`. */
    method HandleRestart()
      modifies this
      ensures Snapshot() == Restart(old(Snapshot()))
    {
      gameState := Menu;
    }

    /** One run of the state effect at time `now`; returns the record it saved. */
    method RunStateEffect(now: int) returns (saved: Option<PersonalRecord>)
      modifies this
      ensures Snapshot() == StateEffect(old(Snapshot()), now).session
      ensures saved == StateEffect(old(Snapshot()), now).saved
    {
      ghost var before := Snapshot();
      saved := None;
      if gameState == GameOver {
        var best := highScore;
        if score > highScore {
          highScore := score;
        }
        if score > 0 {
          var newEntry := LeaderboardEntry(if playerName != [] then playerName else "Anonymous",
                                           score, avatarBase64, now);
          assert newEntry == NewEntry(before, now);
          leaderboard := UpdateLeaderboard(leaderboard, newEntry);
        }
        saved := Some(PersonalRecord(playerName, if score > best then score else best, dedicationText));
        assert Snapshot() == GameOverEffect(before, now).session;
      }
    }
  }
}
