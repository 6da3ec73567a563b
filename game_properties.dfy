/**
 * Properties of whole runs of the game: sequences of button presses, taps,
 * timer firings and music events handled one after another.
 */
module GameProperties {
  import opened Wrappers
  import opened Colors
  import M = Music
  import opened Game

  /** Every input of the run can occur when it arrives. */
  predicate Admissible(g: Session, es: seq<Input>)
    requires SessionValid(g)
    decreases |es|
  {
    es == [] || (Enabled(g, es[0]) && Admissible(Step(g, es[0]), es[1..]))
  }

  /** The session after handling the inputs in order. */
  function Run(g: Session, es: seq<Input>): (h: Session)
    requires SessionValid(g) && Admissible(g, es)
    ensures SessionValid(h)
    ensures |h.player.scheduled| <= 1
    ensures h.player.wired == g.player.wired && h.player.hasDelegate == g.player.hasDelegate
    decreases |es|
  {
    if es == [] then g else Run(Step(g, es[0]), es[1..])
  }

  /** An input that runs `finishGame`. */
  predicate Finishes(e: Input) {
    e.StopPressed? || e.SongEnded?
  }

  /**
   * The score changes in only two ways: a tap on a node adds that node's
   * colour's score, and finishing the game resets it to 0.
   */
  lemma ScoreStep(g: Session, e: Input)
    requires SessionValid(g) && Enabled(g, e)
    ensures e.Tapped? && e.hit.Some? ==>
      Step(g, e).scene.score == g.scene.score + GetScore(g.scene.nodes[e.hit.value])
    ensures !Finishes(e) && !(e.Tapped? && e.hit.Some?) ==> Step(g, e).scene.score == g.scene.score
    ensures Step(g, e).scene.score < g.scene.score ==> Finishes(e) && Step(g, e).scene.score == 0
  {
  }

  /** Without a finish, the score never decreases over a run. */
  lemma {:induction false} ScoreNeverDecreases(g: Session, es: seq<Input>)
    requires SessionValid(g) && Admissible(g, es)
    requires forall i :: 0 <= i < |es| ==> !Finishes(es[i])
    ensures Run(g, es).scene.score >= g.scene.score
    decreases |es|
  {
    if es != [] {
      ScoreStep(g, es[0]);
      ScoreNeverDecreases(Step(g, es[0]), es[1..]);
    }
  }

  /** The game is over: music stopped, no live timer, empty scene, score 0. */
  predicate Idle(g: Session) {
    !g.player.playing && g.player.scheduled == {} && g.scene.nodes == map[] && g.scene.score == 0
  }

  /** The stop button always ends the game. */
  lemma StopEndsGame(g: Session)
    requires SessionValid(g)
    ensures Idle(Step(g, StopPressed))
    ensures Step(g, StopPressed).scene.endGamePoints == g.scene.score
    ensures Step(g, StopPressed).player.currentTime == 0
  {
  }

  /** Once the music has been given its delegate, the end of the song ends the game too. */
  lemma SongEndEndsGame(g: Session, successfully: bool)
    requires SessionValid(g) && g.player.playing
    requires g.player.wired && g.player.hasDelegate
    ensures Idle(Step(g, SongEnded(successfully)))
    ensures Step(g, SongEnded(successfully)).scene.endGamePoints == g.scene.score
  {
  }

  /**
   * After the game has ended, and until the start button is pressed again,
   * no beat spawns a note and nothing scores: a stopped timer never fires.
   */
  lemma {:induction false} IdleUntilStart(g: Session, es: seq<Input>)
    requires SessionValid(g) && Admissible(g, es) && Idle(g)
    requires forall i :: 0 <= i < |es| ==> !es[i].StartPressed?
    ensures Idle(Run(g, es))
    decreases |es|
  {
    if es != [] {
      var e := es[0];
      assert e.Tapped? ==> e.hit.None?;
      assert e.TimerFired? ==> M.Fire(g.player, e.timer) == [];
      IdleUntilStart(Step(g, e), es[1..]);
    }
  }

  /**
   * The beat timer is held exactly while the music plays, from the moment
   * the delegate is set, over any run without an audio-session
   * interruption (`InterruptionKeepsSpawning` shows what one does).
   */
  lemma {:induction false} TimerHeldWhilePlaying(g: Session, es: seq<Input>)
    requires SessionValid(g) && Admissible(g, es)
    requires g.player.wired && M.Synced(g.player)
    requires forall i :: 0 <= i < |es| ==> !es[i].AudioInterrupted?
    ensures M.Synced(Run(g, es).player)
    decreases |es|
  {
    if es != [] {
      var e := es[0];
      assert M.Synced(Step(g, e).player);
      TimerHeldWhilePlaying(Step(g, e), es[1..]);
    }
  }

  /**
   * An interruption stops the music without the callback: the timer stays
   * live and every later tick still adds a note to the scene.
   */
  lemma InterruptionKeepsSpawning(g: Session, draw: nat, hasMaterial: bool)
    requires SessionValid(g) && g.player.playing && M.Synced(g.player) && g.player.hasDelegate
    requires draw < |Palette|
    ensures var h := Step(g, AudioInterrupted);
      && !h.player.playing && h.player.timer == g.player.timer
      && Step(h, TimerFired(g.player.timer.value, draw, hasMaterial)).scene == AddNote(g.scene, draw, hasMaterial)
  {
    M.InterruptionKeepsBeating(g.player);
  }

  /** A tapped note is gone, so the same note cannot be tapped twice. */
  lemma NoSecondTap(g: Session, n: NodeId)
    requires SessionValid(g) && n in g.scene.nodes
    ensures !Enabled(Step(g, Tapped(Some(n))), Tapped(Some(n)))
  {
  }

  /** Each firing of the live timer adds exactly one note, coloured from the palette when it has a material. */
  lemma BeatAddsNote(g: Session, t: M.TimerId, draw: nat, hasMaterial: bool)
    requires SessionValid(g) && draw < |Palette|
    requires g.player.timer == Some(t) && g.player.hasDelegate
    ensures Step(g, TimerFired(t, draw, hasMaterial)) == g.(scene := AddNote(g.scene, draw, hasMaterial))
    ensures |Step(g, TimerFired(t, draw, hasMaterial)).scene.nodes| == |g.scene.nodes| + 1
  {
  }

  /** The session of the three-note game once the start button has been pressed. */
  function Started(): (g: Session)
    ensures SessionValid(g)
  {
    Session(Scene(0, map[], 0, 0), M.Player(true, 0, Some(0), {0}, 1, true, true))
  }

  /** The same session after three beats drawing palette ranks 0, 2 and 4. */
  function ThreeNotes(): (g: Session)
    ensures SessionValid(g)
  {
    Started().(scene := Scene(0, map[0 := Some(Wine), 1 := Some(Red), 2 := Some(Yellow)], 3, 0))
  }

  lemma ThreeNoteStart()
    ensures Step(InitialSession(), StartPressed) == Started()
  {
  }

  lemma ThreeNoteBeats()
    ensures
      var g := Step(Step(Step(Started(), TimerFired(0, 0, true)), TimerFired(0, 2, true)), TimerFired(0, 4, true));
      g == ThreeNotes()
  {
  }

  /** A tap on a note of palette rank i scores (i + 1) * 5 and keeps every other node. */
  lemma TapPaletteNote(g: Session, n: NodeId, i: nat)
    requires SessionValid(g) && n in g.scene.nodes && i < |Palette|
    requires g.scene.nodes[n] == Some(Palette[i])
    ensures Step(g, Tapped(Some(n))).scene.score == g.scene.score + (i + 1) * 5
    ensures forall id :: id in g.scene.nodes && id != n ==>
      id in Step(g, Tapped(Some(n))).scene.nodes && Step(g, Tapped(Some(n))).scene.nodes[id] == g.scene.nodes[id]
  {
  }

  lemma ThreeNoteTaps()
    ensures
      var g := Step(Step(Step(ThreeNotes(), Tapped(Some(0))), Tapped(Some(1))), Tapped(Some(2)));
      g.scene.score == 45
  {
    PaletteShape();
    var g4 := ThreeNotes();
    TapPaletteNote(g4, 0, 0);
    var g5 := Step(g4, Tapped(Some(0)));
    TapPaletteNote(g5, 1, 2);
    var g6 := Step(g5, Tapped(Some(1)));
    TapPaletteNote(g6, 2, 4);
  }

  /**
   * A whole game: start, three beats drawing palette ranks 0, 2 and 4,
   * taps on the three notes, then stop. The taps score 5 + 15 + 25 = 45,
   * which the end-game label shows after the score is reset.
   */
  lemma ThreeNoteGame()
    ensures
      var g1 := Step(InitialSession(), StartPressed);
      var g4 := Step(Step(Step(g1, TimerFired(0, 0, true)), TimerFired(0, 2, true)), TimerFired(0, 4, true));
      && |g4.scene.nodes| == 3
      && var g7 := Step(Step(Step(g4, Tapped(Some(0))), Tapped(Some(1))), Tapped(Some(2)));
      && g7.scene.score == 45
      && var g8 := Step(g7, StopPressed);
      && Idle(g8) && g8.scene.endGamePoints == 45
  {
    ThreeNoteStart();
    ThreeNoteBeats();
    ThreeNoteTaps();
    assert |ThreeNotes().scene.nodes| == 3;
  }
}
