# A verified model of the WWDC2019 AR rhythm game logic

The game spawns coloured music notes in an AR scene on every beat of a song.
The player taps notes to explode them; each note's colour decides its points.
The game ends when the song ends or the player presses Stop. This project
models the sequential game logic under the ARKit/SceneKit/UIKit presentation,
with no floating point and no frameworks:

- `palette.dfy`, module `Colors` (`UIColor+Extension.swift`): the five palette
  colours in score-rank order (wine, dark red, red, orange, yellow), Swift's
  `firstIndex(of:)`, and `UIColor.random` with its random index as an input.
  Each component of a palette literal is the 10-digit decimal of n/255 for
  some n in 0..255. The model keeps n, as four 8-bit channels, which tells
  the five colours apart exactly as their literals do. Colour equality is
  equality of all four channels.
- `music.dfy`, module `Music` (`Music.swift`): the player as a `Player` value
  with step functions (`PlayedOrPaused`, `Stopped`, `AssignTimer`,
  `DidFinishPlaying`, ...) that carry the properties. A `Music` class has one
  method per Swift method, and each is proved to produce exactly its step
  function's state. The `timer` property and its invalidating `willSet` are
  modelled with a set of scheduled (not yet invalidated) timers. Its
  invariant is that this set holds exactly the timer in `timer`, so at most
  one timer can fire. Calls to the `MusicDelegate` are returned as events.
- `game.dfy`, module `Game` (`ViewController.swift`): `getScore`; the scene as
  a map from node identity to the colour of the node's first material; and
  tap, beat, finish and end-game-button handling as functions on a `Scene`
  value. The whole controller (scene plus music) is a `Session`, and
  `Step` handles one input. A `ViewController` class has the `score`,
  `nodes` and `music` fields and one method per Swift action or callback.
  Each method is proved equal to `Step` or to the scene function it
  performs. `FinishGame` removes the child nodes one at a time in a loop, as
  the `forEach` does.
- `game_properties.dfy`, module `GameProperties`: runs of inputs (`Run`) and
  the properties that span several steps. These cover score monotonicity
  between game ends, quiet after a stop, the timer being held exactly while
  the music plays, no second tap on a note, and a complete three-note game
  worth 45 points.

Inputs from the outside world are parameters. These are the hit-test result
(`Option<NodeId>`; hit-testing returns only nodes of the scene), the random
palette index (in `0..<palette.count`), whether a new note's geometry has a
material to colour, which timer the run loop fires, the flag
`audioPlayerDidFinishPlaying` receives, how far playback advanced, and
audio-session interruptions, which pause the audio player without any
callback.

`didPressStartButton` (ViewController.swift:289-293) only calls
`playOrPause`; it does not touch the score or the notes. The score is reset
and the notes cleared in `finishGame`, when the previous game ends.
`IdleUntilStart` shows the score is still 0 and the scene still empty when
Start is next pressed.

## Model

| member | source | states |
|---|---|---|
| Colors.PaletteShape | WWDC2019/Resources/Extensions/UIColor+Extension.swift:12-20 | the palette has exactly five entries, wine, darkRed, red, orange, yellow in that order, pairwise distinct |
| Colors.FirstIndex | WWDC2019/ViewController.swift:379 | `firstIndex(of:)` is None exactly when the colour is absent; otherwise it is an index holding the colour with no earlier index holding it |
| Colors.FirstIndexOfDistinct | WWDC2019/ViewController.swift:379 | in a sequence without repeats, the first index of the entry at position i is i |
| Colors.PaletteIndexUnique | WWDC2019/Resources/Extensions/UIColor+Extension.swift:18-20 | each palette colour's first index is its own rank, so rank is well defined |
| Colors.Random | WWDC2019/Resources/Extensions/UIColor+Extension.swift:23-26 | for every index in `0..<palette.count` the random colour is a palette member whose rank is that index |
| Colors.RandomIsBijective | WWDC2019/Resources/Extensions/UIColor+Extension.swift:24-25 | every palette colour is drawn by exactly one index, so a uniform index gives a uniform colour |
| Music.Initial | WWDC2019/Resources/Music.swift:42-62 | a loaded song is stopped at position 0 with no timer and no delegate, and the invariants hold |
| Music.DelegateSet | WWDC2019/Resources/Music.swift:30-34 | setting `delegate` (even to nil) makes the object the audio player's delegate; playback and timer state are unchanged |
| Music.Schedule | WWDC2019/Resources/Music.swift:86-90 | the run loop schedules a fresh timer, distinct from every live one |
| Music.AssignTimer | WWDC2019/Resources/Music.swift:20-24 | assigning `timer` first invalidates the held timer, so afterwards only the new timer is live (at most one) |
| Music.PlayedOrPaused | WWDC2019/Resources/Music.swift:79-92 | playing becomes stopped with no live timer; stopped becomes playing with exactly one fresh repeating timer; the position is kept |
| Music.Stopped | WWDC2019/Resources/Music.swift:95-99 | afterwards the song is not playing, its position is 0, and no timer is held or live |
| Music.TimerActionEvents | WWDC2019/Resources/Music.swift:115-117 | a tick sends exactly one beat to a present delegate and nothing otherwise |
| Music.Fire | WWDC2019/Resources/Music.swift:86-90 | firing a timer yields at most one beat, exactly when the timer is live and a delegate is present, and then it is the held timer |
| Music.DidFinishPlaying | WWDC2019/Resources/Music.swift:124-129 | the delegate hears the end once with the given flag, and the timer is dropped and invalidated |
| Music.SongEnded | WWDC2019/Resources/Music.swift:30-34 | at the end of the song the player stops; only if the delegate was set does the callback run, clearing the timer |
| Music.StopIdempotent | WWDC2019/Resources/Music.swift:95-99 | stopping twice is the same as stopping once |
| Music.NoBeatAfterStop | WWDC2019/Resources/Music.swift:95-99 | after `stop`, no timer firing sends a beat |
| Music.PauseResume | WWDC2019/Resources/Music.swift:79-92 | pause then play resumes at the same position with a new timer |
| Music.InterruptionKeepsBeating | WWDC2019/Resources/Music.swift:20-24 | an interruption pauses the player without touching `timer`, so the timer stays live and every tick still sends a beat |
| Music.UnwiredEndKeepsTimer | WWDC2019/Resources/Music.swift:30-34 | if `delegate` was never set, the end of the song leaves the beat timer live while the music is stopped |
| Music.Music.IsPlaying | WWDC2019/Resources/Music.swift:26-28 | `isPlaying` is the audio player's playing state |
| Music.Music.constructor | WWDC2019/Resources/Music.swift:42-62 | the new object is in the initial state |
| Music.Music.SetDelegate | WWDC2019/Resources/Music.swift:30-34 | the fields change as `DelegateSet` says |
| Music.Music.SetTimer | WWDC2019/Resources/Music.swift:20-24 | the setter with its `willSet` changes the fields as `AssignTimer` says |
| Music.Music.ScheduleTimer | WWDC2019/Resources/Music.swift:86-90 | returns and schedules the timer `Schedule` creates |
| Music.Music.PlayOrPause | WWDC2019/Resources/Music.swift:79-92 | keeps the invariant and changes the fields as `PlayedOrPaused` says |
| Music.Music.Stop | WWDC2019/Resources/Music.swift:95-99 | keeps the invariant and changes the fields as `Stopped` says |
| Music.Music.TimerAction | WWDC2019/Resources/Music.swift:115-117 | returns the delegate calls of `TimerActionEvents` and changes nothing |
| Music.Music.FireTimer | WWDC2019/Resources/Music.swift:114-118 | returns the delegate calls of `Fire` and changes nothing |
| Music.Music.AudioPlayerDidFinishPlaying | WWDC2019/Resources/Music.swift:124-129 | keeps the invariant; state and delegate calls are those of `DidFinishPlaying` |
| Game.GetScore | WWDC2019/ViewController.swift:376-384 | nil scores 50; a colour outside the palette scores 50; the palette colour of rank i scores (i + 1) * 5 |
| Game.PaletteScoreRange | WWDC2019/ViewController.swift:379-383 | a palette colour scores 5, 10, 15, 20 or 25, always less than the fallback 50 |
| Game.ScoreFollowsRank | WWDC2019/Resources/Extensions/UIColor+Extension.swift:18-20 | a later palette colour is worth strictly more than an earlier one |
| Game.Tap | WWDC2019/ViewController.swift:353-370 | no hit changes nothing; a hit on n adds exactly n's colour's score, removes n, keeps every other node and its colour, and adds one colourless explosion node |
| Game.AddNote | WWDC2019/ViewController.swift:252-281 | exactly one fresh node is added, coloured with the drawn palette colour when it has a material; the other nodes and the score are unchanged |
| Game.Finish | WWDC2019/ViewController.swift:387-394 | the end-game label shows the score from before the reset; then the score is 0 and no child node is left |
| Game.ShowEndGameLabel | WWDC2019/ViewController.swift:301-304 | the label is rewritten with the current score; the score and nodes are unchanged |
| Game.InitialSession | WWDC2019/ViewController.swift:111-120 | after `viewDidLoad`: score 0, empty scene, music stopped with this controller as its delegate |
| Game.Step | WWDC2019/ViewController.swift:286-310 | every admissible input keeps the scene and player invariants, and never changes the delegate wiring |
| Game.ViewController.constructor | WWDC2019/ViewController.swift:96-109 | score 0, empty scene, a fresh music object in its initial state |
| Game.ViewController.ViewDidLoad | WWDC2019/ViewController.swift:111-120 | the music object gets this controller as its delegate |
| Game.ViewController.DidPressStartButton | WWDC2019/ViewController.swift:289-293 | the music toggles as in `Step(_, StartPressed)` and the scene is unchanged |
| Game.ViewController.DidPressStopGame | WWDC2019/ViewController.swift:307-310 | finishes the game, then stops the music, as in `Step(_, StopPressed)` |
| Game.ViewController.DidPressEndGameButton | WWDC2019/ViewController.swift:301-304 | the scene changes as `ShowEndGameLabel` says |
| Game.ViewController.SceneTapped | WWDC2019/ViewController.swift:353-370 | the scene changes as `Tap` says |
| Game.ViewController.AddMusicNote | WWDC2019/ViewController.swift:252-281 | the scene changes as `AddNote` says |
| Game.ViewController.MusicDidPassOneBeat | WWDC2019/ViewController.swift:432-438 | a beat adds a note as `AddNote` says |
| Game.ViewController.MusicDidEndPlaying | WWDC2019/ViewController.swift:428-430 | the end of the music finishes the game as `Finish` says |
| Game.ViewController.FinishGame | WWDC2019/ViewController.swift:387-394 | removing the children one by one leaves the scene `Finish` describes |
| Game.ViewController.OnTimerFired | WWDC2019/Resources/Music.swift:114-118 | a live timer's tick reaches the controller and adds a note, as in `Step(_, TimerFired(...))` |
| Game.ViewController.OnSongEnded | WWDC2019/Resources/Music.swift:123-130 | the end of the song reaches the controller through the callback, as in `Step(_, SongEnded(...))` |
| GameProperties.Run | WWDC2019/Resources/Music.swift:20-24 | over any admissible run the invariants hold and at most one timer is live |
| GameProperties.ScoreStep | WWDC2019/ViewController.swift:367 | the score changes only by a tap, by exactly the tapped colour's score, or by a reset to 0 when the game finishes |
| GameProperties.ScoreNeverDecreases | WWDC2019/ViewController.swift:97-101 | over a run with no Stop press and no song end, the score never decreases |
| GameProperties.StopEndsGame | WWDC2019/ViewController.swift:307-310 | Stop leaves the music stopped at position 0 with no live timer, the scene empty, the score 0 and the old score on the label |
| GameProperties.SongEndEndsGame | WWDC2019/ViewController.swift:428-430 | once the delegate is set, the end of the song leaves the same ended state |
| GameProperties.IdleUntilStart | WWDC2019/Resources/Music.swift:95-99 | after a game has ended, until Start is pressed, no beat adds a note and nothing scores |
| GameProperties.TimerHeldWhilePlaying | WWDC2019/Resources/Music.swift:79-99 | once the delegate is set, a timer is held exactly while the music plays, after any run without an audio-session interruption |
| GameProperties.InterruptionKeepsSpawning | WWDC2019/ViewController.swift:432-437 | after an interruption the music is silent but the timer is still held, and its next tick still adds a note |
| GameProperties.NoSecondTap | WWDC2019/ViewController.swift:369 | a tapped note is removed, so it cannot be hit again |
| GameProperties.BeatAddsNote | WWDC2019/ViewController.swift:432-437 | each tick of the held timer adds exactly one note, coloured from the palette when it has a material |
| GameProperties.ThreeNoteGame | WWDC2019/ViewController.swift:353-394 | start, three beats of ranks 0, 2 and 4, taps on the three notes, then Stop: the taps score 45, the label shows 45, and the game ends empty with score 0 |

## Left out

- Floating point: the beat interval `seconds` (Music.swift:74-76), `getAverageDecibels` (Music.swift:104-109), the random note coordinates and the 4x4 placement matrix in `updatePositionAndOrientation` (ViewController.swift:404-421, 433-435). Notes have no position.
- Audio and session setup in `Music.init`, including its `fatalError` paths. The player is a flag and a position. The `bpm` constant is not modelled because only `seconds` uses it.
- Real-time scheduling: a timer tick, the end of the song and playback advancing are explicit inputs (`TimerFired`, `SongEnded`, `PlaybackAdvanced`). `Music.Music.Advance` and `Music.Music.ReachEnd` stand for the audio player itself, not for code of this repository. After the song ends, the position is left wherever playback advanced it.
- Music.PlayedOrPaused: assumes `audioPlayer.play()` always starts playback. Music.swift:84 ignores its Bool result and schedules the timer at :86 anyway; a failed start would leave a live timer while the music is silent, and that case is not modelled.
- GameProperties.TimerHeldWhilePlaying: holds only for runs without an audio-session interruption and with every `play()` succeeding. An interruption (`AudioInterrupted`, modelled by `Music.Interrupted` and `Music.Music.Interrupt`) pauses the player with no callback, and `InterruptionKeepsSpawning` shows the timer then keeps adding notes. A failed `play()` is not modelled at all.
- Game.ViewController.OnSongEnded: in the source, the delegate's `finishGame` runs before `timer = nil`. The model clears the timer first. The two touch disjoint state, so the resulting state is the same.
- SceneKit: hit-testing, particle systems, 3D asset loading and the sphere fallback. The fallback's only effect kept is the optional chain at ViewController.swift:268, which is the `hasMaterial` input. A hit may name any scene node, including explosion nodes. Real hit-testing skips nodes without geometry, so the model allows more hits than the app can produce.
- Game.Tap: the score is a `nat`. Swift's `UInt` addition traps on overflow past 2^64 - 1, and that trap is not modelled.
- Presentation: every `setup*` and `shouldShow*` method, the instructions toggle, the score label's text, fade animations, `MenuButton.swift`, `UIFont+Extension.swift` and `ARSCNView+Extension.swift`. Of the end-game label, only the number it shows is kept (`endGamePoints`).
- The app keeps no game-phase variable. Menu, game and end screen differ only in which views are visible, and are not modelled.
