/**
 * The game logic of the view controller: scoring a tapped note by its
 * colour, one note per beat of the music, and the end of a game, together
 * with the buttons and music callbacks that drive them.
 *
 * The scene is reduced to its child nodes, each with an identity and the
 * colour of its first material (`None` when the node has no geometry or
 * material, or the contents are not a colour). Positions, 3D assets,
 * particles and every view are not modelled; the hit-test result and the
 * random palette draw are inputs.
 */
module Game {
  import opened Wrappers
  import opened Colors
  import M = Music

  type NodeId = nat

  /** The game's state: score, scene children, and the number shown by the end-game label. */
  datatype Scene = Scene(
    score: nat,
    nodes: map<NodeId, Option<Color>>,
    nextNode: NodeId,
    endGamePoints: nat)

  /** Node identities are fresh: every node in the scene was created before `nextNode`. */
  predicate SceneValid(s: Scene) {
    forall id :: id in s.nodes ==> id < s.nextNode
  }

  /**
   * `getScore`: no colour, or a colour outside the palette, is worth 50;
   * the palette colour of rank i (from 0) is worth (i + 1) * 5.
   */
  function GetScore(color: Option<Color>): (points: nat)
    ensures color.None? ==> points == 50
    ensures color.Some? && color.value !in Palette ==> points == 50
    ensures forall i :: 0 <= i < |Palette| && color == Some(Palette[i]) ==> points == (i + 1) * 5
  {
    match color
    case None => 50
    case Some(c) =>
      match FirstIndex(Palette, c)
      case None => 50
      case Some(index) =>
        assert forall i :: 0 <= i < |Palette| && c == Palette[i] ==> index == i by {
          forall i | 0 <= i < |Palette| && c == Palette[i] ensures index == i {
            PaletteIndexUnique(i);
          }
        }
        (index + 1) * 5
  }

  /** A palette colour scores a multiple of 5 between 5 and 25, below the fallback of 50. */
  lemma PaletteScoreRange(c: Color)
    requires c in Palette
    ensures 5 <= GetScore(Some(c)) <= 25 && GetScore(Some(c)) % 5 == 0
    ensures GetScore(Some(c)) < GetScore(None)
  {
  }

  /** The palette order is the score order: a later colour is worth strictly more. */
  lemma ScoreFollowsRank(i: nat, j: nat)
    requires i < j < |Palette|
    ensures GetScore(Some(Palette[i])) < GetScore(Some(Palette[j]))
  {
  }

  /**
   * `sceneTapped`: with no hit nothing happens; a hit on node n adds an
   * explosion node, adds n's colour's score and removes n.
   */
  function Tap(s: Scene, hit: Option<NodeId>): (t: Scene)
    requires SceneValid(s)
    requires hit.Some? ==> hit.value in s.nodes
    ensures SceneValid(t)
    ensures hit.None? ==> t == s
    ensures hit.Some? ==> t.score == s.score + GetScore(s.nodes[hit.value])
    ensures hit.Some? ==> hit.value !in t.nodes
    ensures hit.Some? ==> forall id :: id in s.nodes && id != hit.value ==> id in t.nodes && t.nodes[id] == s.nodes[id]
    ensures hit.Some? ==> |t.nodes| == |s.nodes| && s.nextNode in t.nodes && s.nextNode !in s.nodes
    ensures hit.Some? ==> t.nodes.Keys == s.nodes.Keys - {hit.value} + {s.nextNode} && t.nodes[s.nextNode] == None
    ensures t.endGamePoints == s.endGamePoints
  {
    match hit
    case None => s
    case Some(n) =>
      var explosion := s.nextNode;
      var withExplosion := s.nodes[explosion := None];
      var removed := withExplosion - {n};
      assert removed.Keys == s.nodes.Keys - {n} + {explosion};
      assert |removed.Keys| == |s.nodes.Keys - {n}| + 1;
      Scene(s.score + GetScore(s.nodes[n]), removed, explosion + 1, s.endGamePoints)
  }

  /**
   * `musicDidPassOneBeat` / `addMusicNote`: one new note joins the scene.
   * Its colour is the drawn palette colour when its geometry has a
   * material to colour, and none otherwise.
   */
  function AddNote(s: Scene, draw: nat, hasMaterial: bool): (t: Scene)
    requires SceneValid(s)
    requires draw < |Palette|
    ensures SceneValid(t)
    ensures s.nextNode !in s.nodes && t.nodes.Keys == s.nodes.Keys + {s.nextNode}
    ensures |t.nodes| == |s.nodes| + 1
    ensures forall id :: id in s.nodes ==> t.nodes[id] == s.nodes[id]
    ensures hasMaterial ==> t.nodes[s.nextNode] == Some(Random(draw)) && Random(draw) in Palette
    ensures !hasMaterial ==> t.nodes[s.nextNode] == None
    ensures t.score == s.score && t.endGamePoints == s.endGamePoints
  {
    var color := if hasMaterial then Some(Random(draw)) else None;
    Scene(s.score, s.nodes[s.nextNode := color], s.nextNode + 1, s.endGamePoints)
  }

  /** `finishGame`: the end-game label shows the score, then the score is reset and the scene emptied. */
  function Finish(s: Scene): (t: Scene)
    requires SceneValid(s)
    ensures SceneValid(t)
    ensures t.endGamePoints == s.score
    ensures t.score == 0 && t.nodes == map[]
    ensures t.nextNode == s.nextNode
  {
    Scene(0, map[], s.nextNode, s.score)
  }

  /** `didPressEndGameButton`: hiding the end-game view rewrites its label with the current score. */
  function ShowEndGameLabel(s: Scene): (t: Scene)
    ensures t.endGamePoints == s.score
    ensures t.score == s.score && t.nodes == s.nodes && t.nextNode == s.nextNode
  {
    s.(endGamePoints := s.score)
  }

  /** What the controller and its music react to. */
  datatype Input =
    | StartPressed
    | StopPressed
    | EndGamePressed
    | Tapped(hit: Option<NodeId>)
    | TimerFired(timer: M.TimerId, draw: nat, hasMaterial: bool)
    | SongEnded(successfully: bool)
    | PlaybackAdvanced(elapsed: nat)
    | AudioInterrupted

  /** The view controller's scene and its music player, together. */
  datatype Session = Session(scene: Scene, player: M.Player)

  predicate SessionValid(g: Session) {
    SceneValid(g.scene) && M.Inv(g.player)
  }

  /**
   * Which inputs can occur: hit-testing returns only nodes of the scene, the
   * random draw is in `0..<palette.count`, and the song can only end while
   * it plays.
   */
  predicate Enabled(g: Session, e: Input) {
    match e
    case Tapped(hit) => hit.Some? ==> hit.value in g.scene.nodes
    case TimerFired(_, draw, _) => draw < |Palette|
    case SongEnded(_) => g.player.playing
    case AudioInterrupted => g.player.playing
    case _ => true
  }

  /** The view controller after `viewDidLoad`: empty scene, score 0, itself the music's delegate. */
  function InitialSession(): (g: Session)
    ensures SessionValid(g) && M.Synced(g.player)
    ensures g.scene.score == 0 && g.scene.nodes == map[]
    ensures !g.player.playing && g.player.wired && g.player.hasDelegate
  {
    Session(Scene(0, map[], 0, 0), M.DelegateSet(M.Initial(), true))
  }

  /**
   * One input handled: the start button toggles the music; the stop button
   * finishes the game and stops the music; a live timer's beat adds a note;
   * the end of the song finishes the game through the delegate callback.
   */
  function Step(g: Session, e: Input): (h: Session)
    requires SessionValid(g) && Enabled(g, e)
    ensures SessionValid(h)
    ensures h.player.wired == g.player.wired && h.player.hasDelegate == g.player.hasDelegate
  {
    match e
    case StartPressed => g.(player := M.PlayedOrPaused(g.player))
    case StopPressed => Session(Finish(g.scene), M.Stopped(g.player))
    case EndGamePressed => g.(scene := ShowEndGameLabel(g.scene))
    case Tapped(hit) => g.(scene := Tap(g.scene, hit))
    case TimerFired(t, draw, hasMaterial) =>
      if M.Fire(g.player, t) == [M.DidPassOneBeat] then g.(scene := AddNote(g.scene, draw, hasMaterial)) else g
    case SongEnded(successfully) =>
      var (p, events) := M.SongEnded(g.player, successfully);
      var scene := if events == [M.DidEndPlaying(successfully)] then Finish(g.scene) else g.scene;
      Session(scene, p)
    case PlaybackAdvanced(elapsed) => g.(player := M.Advanced(g.player, elapsed))
    case AudioInterrupted => g.(player := M.Interrupted(g.player))
  }

  /** The view controller: its score, the scene's children and the music player it owns. */
  class ViewController {
    var score: nat
    var nodes: map<NodeId, Option<Color>>
    var nextNode: NodeId
    var endGamePoints: nat
    const music: M.Music

    function SceneState(): Scene
      reads this
    {
      Scene(score, nodes, nextNode, endGamePoints)
    }

    function Snapshot(): Session
      reads this, music
    {
      Session(SceneState(), music.State())
    }

    predicate Valid()
      reads this, music
    {
      SessionValid(Snapshot())
    }

    constructor ()
      ensures Valid() && fresh(music)
      ensures Snapshot() == Session(Scene(0, map[], 0, 0), M.Initial())
    {
      score, nodes, nextNode, endGamePoints := 0, map[], 0, 0;
      music := new M.Music();
    }

    method ViewDidLoad()
      requires Valid()
      modifies music
      ensures Valid()
      ensures Snapshot() == old(Snapshot()).(player := M.DelegateSet(old(music.State()), true))
    {
      music.SetDelegate(true);
    }

    method DidPressStartButton()
      requires Valid()
      modifies music
      ensures Valid()
      ensures Snapshot() == Step(old(Snapshot()), StartPressed)
    {
      music.PlayOrPause();
    }

    method DidPressStopGame()
      requires Valid()
      modifies this, music
      ensures Valid()
      ensures Snapshot() == Step(old(Snapshot()), StopPressed)
    {
      FinishGame();
      music.Stop();
    }

    method DidPressEndGameButton()
      modifies this
      ensures SceneState() == ShowEndGameLabel(old(SceneState()))
    {
      endGamePoints := score;
    }

    method SceneTapped(hit: Option<NodeId>)
      requires Valid()
      requires hit.Some? ==> hit.value in nodes
      modifies this
      ensures Valid()
      ensures SceneState() == Tap(old(SceneState()), hit)
    {
      if hit.None? {
        return;
      }
      var node := hit.value;
      var explosion := nextNode;
      nextNode := nextNode + 1;
      nodes := nodes[explosion := None];
      score := score + GetScore(nodes[node]);
      nodes := nodes - {node};
    }

    method AddMusicNote(draw: nat, hasMaterial: bool)
      requires Valid()
      requires draw < |Palette|
      modifies this
      ensures Valid()
      ensures SceneState() == AddNote(old(SceneState()), draw, hasMaterial)
    {
      var note := nextNode;
      nextNode := nextNode + 1;
      var color := None;
      if hasMaterial {
        color := Some(Random(draw));
      }
      nodes := nodes[note := color];
    }

    method MusicDidPassOneBeat(draw: nat, hasMaterial: bool)
      requires Valid()
      requires draw < |Palette|
      modifies this
      ensures Valid()
      ensures SceneState() == AddNote(old(SceneState()), draw, hasMaterial)
    {
      AddMusicNote(draw, hasMaterial);
    }

    method MusicDidEndPlaying(successfully: bool)
      requires Valid()
      modifies this
      ensures Valid()
      ensures SceneState() == Finish(old(SceneState()))
    {
      FinishGame();
    }

    /** Shows the end-game label, resets the score and removes every child node one by one. */
    method FinishGame()
      requires Valid()
      modifies this
      ensures Valid()
      ensures SceneState() == Finish(old(SceneState()))
    {
      endGamePoints := score;
      score := 0;
      var children := nodes.Keys;
      while children != {}
        invariant nodes.Keys == children
        invariant SceneValid(SceneState())
        invariant nextNode == old(nextNode) && score == 0 && endGamePoints == old(score)
        decreases children
      {
        var child :| child in children;
        nodes := nodes - {child};
        children := children - {child};
      }
      assert nodes == map[];
    }

    /** The run loop fires timer `t`; a live timer's beat reaches this delegate. */
    method OnTimerFired(t: M.TimerId, draw: nat, hasMaterial: bool)
      requires Valid()
      requires draw < |Palette|
      modifies this
      ensures Valid()
      ensures Snapshot() == Step(old(Snapshot()), TimerFired(t, draw, hasMaterial))
    {
      var events := music.FireTimer(t);
      if events == [M.DidPassOneBeat] {
        MusicDidPassOneBeat(draw, hasMaterial);
      }
    }

    /** The song reaches its end while playing. */
    method OnSongEnded(successfully: bool)
      requires Valid()
      requires music.playing
      modifies this, music
      ensures Valid()
      ensures Snapshot() == Step(old(Snapshot()), SongEnded(successfully))
    {
      var callsBack := music.ReachEnd();
      if callsBack {
        var events := music.AudioPlayerDidFinishPlaying(successfully);
        if events == [M.DidEndPlaying(successfully)] {
          MusicDidEndPlaying(successfully);
        }
      }
    }

    /** The music plays on for `elapsed` time units. */
    method OnPlaybackAdvanced(elapsed: nat)
      requires Valid()
      modifies music
      ensures Valid()
      ensures Snapshot() == Step(old(Snapshot()), PlaybackAdvanced(elapsed))
    {
      music.Advance(elapsed);
    }

    /** The audio session interrupts the music; nothing in the controller runs. */
    method OnAudioInterrupted()
      requires Valid()
      requires music.playing
      modifies music
      ensures Valid()
      ensures Snapshot() == Step(old(Snapshot()), AudioInterrupted)
    {
      music.Interrupt();
    }
  }
}
