/**
 * The `Music` player: an audio player that can be played, paused and
 * stopped, with a repeating beat timer whose ticks are forwarded to a
 * delegate, and a finish callback that the audio player raises at the end
 * of the song.
 *
 * The audio player is reduced to whether it is playing and its playback
 * position; the run loop's timers are reduced to identities and the set of
 * timers that have not been invalidated (the only ones that can still
 * fire). Calls to the delegate are returned as a list of events.
 */
module Music {
  import opened Wrappers

  type TimerId = nat

  /** A call made on the `MusicDelegate`. */
  datatype MusicEvent = DidPassOneBeat | DidEndPlaying(successfully: bool)

  /** A `Music` object, its audio player and the run loop's timers, as one value. */
  datatype Player = Player(
    playing: bool,            // audioPlayer.isPlaying
    currentTime: nat,         // audioPlayer.currentTime, in abstract time units
    timer: Option<TimerId>,   // the `timer` property
    scheduled: set<TimerId>,  // timers created and not yet invalidated
    nextTimer: TimerId,       // identity the next created timer receives
    hasDelegate: bool,        // `delegate` is not nil
    wired: bool)              // audioPlayer.delegate is this object

  function TimerSet(t: Option<TimerId>): set<TimerId> {
    if t.Some? then {t.value} else {}
  }

  /** The only timer that can fire is the one held in `timer`: at most one is ever live. */
  predicate Inv(p: Player) {
    && p.scheduled == TimerSet(p.timer)
    && (p.timer.Some? ==> p.timer.value < p.nextTimer)
  }

  /** A timer is held exactly while the song plays. */
  predicate Synced(p: Player) {
    p.timer.Some? <==> p.playing
  }

  /** A freshly loaded song: stopped at the start, no timer, no delegate. */
  function Initial(): (p: Player)
    ensures Inv(p) && Synced(p)
    ensures !p.playing && p.currentTime == 0 && p.scheduled == {}
    ensures !p.hasDelegate && !p.wired
  {
    Player(false, 0, None, {}, 0, false, false)
  }

  /**
   * Setting `delegate`: its `didSet` makes this object the audio player's
   * delegate, whatever the new value is.
   */
  function DelegateSet(p: Player, present: bool): (q: Player)
    ensures q.wired && q.hasDelegate == present
    ensures Inv(p) ==> Inv(q)
    ensures Synced(p) ==> Synced(q)
    ensures q.playing == p.playing && q.currentTime == p.currentTime
    ensures q.timer == p.timer && q.scheduled == p.scheduled && q.nextTimer == p.nextTimer
  {
    p.(hasDelegate := present, wired := true)
  }

  /** `Timer.scheduledTimer`: the run loop creates and schedules a new timer. */
  function Schedule(p: Player): (r: (Player, TimerId))
    requires Inv(p)
    ensures r.1 !in p.scheduled && r.1 in r.0.scheduled
    ensures r.0.scheduled - {r.1} == p.scheduled
    ensures r.1 < r.0.nextTimer
    ensures r.0.timer == p.timer && r.0.playing == p.playing && r.0.currentTime == p.currentTime
    ensures r.0.hasDelegate == p.hasDelegate && r.0.wired == p.wired
  {
    (p.(scheduled := p.scheduled + {p.nextTimer}, nextTimer := p.nextTimer + 1), p.nextTimer)
  }

  /**
   * Assignment to `timer`: the `willSet` observer invalidates the timer held
   * so far before the new one is stored. The caller passes a timer other
   * than the one held, and every other live timer is the one being stored.
   */
  function AssignTimer(p: Player, t: Option<TimerId>): (q: Player)
    requires p.timer.Some? ==> p.timer != t
    requires p.scheduled <= TimerSet(p.timer) + TimerSet(t)
    requires t.Some? ==> t.value in p.scheduled && t.value < p.nextTimer
    ensures Inv(q) && q.timer == t
    ensures p.timer.Some? ==> p.timer.value !in q.scheduled
    ensures |q.scheduled| <= 1
    ensures q.playing == p.playing && q.currentTime == p.currentTime && q.nextTimer == p.nextTimer
    ensures q.hasDelegate == p.hasDelegate && q.wired == p.wired
  {
    p.(scheduled := p.scheduled - TimerSet(p.timer), timer := t)
  }

  /**
   * `playOrPause`: a playing song stops (keeping its position) and drops its
   * timer; a stopped song plays with a new repeating timer.
   */
  function PlayedOrPaused(p: Player): (q: Player)
    requires Inv(p)
    ensures Inv(q) && Synced(q)
    ensures q.playing == !p.playing
    ensures q.currentTime == p.currentTime
    ensures p.playing ==> q.timer.None? && q.scheduled == {}
    ensures !p.playing ==> q.timer.Some? && q.timer.value !in p.scheduled && q.scheduled == {q.timer.value}
    ensures q.hasDelegate == p.hasDelegate && q.wired == p.wired
  {
    if p.playing then
      AssignTimer(p.(playing := false), None)
    else
      var (r, t) := Schedule(p.(playing := true));
      AssignTimer(r, Some(t))
  }

  /** `stop`: the song stops, rewinds to the start and drops its timer. */
  function Stopped(p: Player): (q: Player)
    requires Inv(p)
    ensures Inv(q) && Synced(q)
    ensures !q.playing && q.currentTime == 0 && q.timer.None? && q.scheduled == {}
    ensures q.hasDelegate == p.hasDelegate && q.wired == p.wired
  {
    AssignTimer(p.(playing := false, currentTime := 0), None)
  }

  /** `timerAction`: one beat goes to the delegate, if there is one. */
  function TimerActionEvents(p: Player): (events: seq<MusicEvent>)
    ensures p.hasDelegate ==> events == [DidPassOneBeat]
    ensures !p.hasDelegate ==> events == []
  {
    if p.hasDelegate then [DidPassOneBeat] else []
  }

  /** The run loop fires timer `t`: only a timer that was not invalidated runs its action. */
  function Fire(p: Player, t: TimerId): (events: seq<MusicEvent>)
    ensures events == [] || events == [DidPassOneBeat]
    ensures events == [DidPassOneBeat] <==> t in p.scheduled && p.hasDelegate
    ensures Inv(p) && events != [] ==> p.timer == Some(t)
  {
    if t in p.scheduled then TimerActionEvents(p) else []
  }

  /** While the song plays, its position advances. */
  function Advanced(p: Player, elapsed: nat): (q: Player)
    ensures q.currentTime == if p.playing then p.currentTime + elapsed else p.currentTime
    ensures q.currentTime >= p.currentTime
    ensures q == p.(currentTime := q.currentTime)
  {
    if p.playing then p.(currentTime := p.currentTime + elapsed) else p
  }

  /**
   * `audioPlayerDidFinishPlaying`: the delegate hears once that the song
   * ended, with the audio player's flag, and the timer is dropped.
   */
  function DidFinishPlaying(p: Player, successfully: bool): (r: (Player, seq<MusicEvent>))
    requires Inv(p)
    ensures Inv(r.0) && r.0.timer.None? && r.0.scheduled == {}
    ensures p.hasDelegate ==> r.1 == [DidEndPlaying(successfully)]
    ensures !p.hasDelegate ==> r.1 == []
    ensures r.0.playing == p.playing && r.0.currentTime == p.currentTime
    ensures r.0.hasDelegate == p.hasDelegate && r.0.wired == p.wired
  {
    var events := if p.hasDelegate then [DidEndPlaying(successfully)] else [];
    (AssignTimer(p, None), events)
  }

  /**
   * The song reaches its end: the audio player stops by itself and, only if
   * it has been given this object as its delegate, calls the finish callback.
   */
  function SongEnded(p: Player, successfully: bool): (r: (Player, seq<MusicEvent>))
    requires Inv(p)
    ensures Inv(r.0) && !r.0.playing
    ensures p.wired ==> Synced(r.0) && r.0.scheduled == {}
    ensures p.wired && p.hasDelegate ==> r.1 == [DidEndPlaying(successfully)]
    ensures !(p.wired && p.hasDelegate) ==> r.1 == []
    ensures !p.wired ==> r.0.timer == p.timer
    ensures r.0.hasDelegate == p.hasDelegate && r.0.wired == p.wired
  {
    var ended := p.(playing := false);
    if p.wired then DidFinishPlaying(ended, successfully) else (ended, [])
  }

  /**
   * An audio-session interruption pauses the audio player with no call to
   * its delegate: the `timer` property is not touched.
   */
  function Interrupted(p: Player): (q: Player)
    ensures !q.playing
    ensures Inv(p) ==> Inv(q)
    ensures q.timer == p.timer && q.scheduled == p.scheduled && q.currentTime == p.currentTime
    ensures q.hasDelegate == p.hasDelegate && q.wired == p.wired && q.nextTimer == p.nextTimer
  {
    p.(playing := false)
  }

  /**
   * After an interruption of a playing song, the beat timer stays live:
   * the player is silent, yet every tick still sends a beat.
   */
  lemma InterruptionKeepsBeating(p: Player)
    requires Inv(p) && Synced(p) && p.playing && p.hasDelegate
    ensures var q := Interrupted(p); !Synced(q) && Fire(q, p.timer.value) == [DidPassOneBeat]
  {
  }

  /** `stop` is idempotent. */
  lemma StopIdempotent(p: Player)
    requires Inv(p)
    ensures Stopped(Stopped(p)) == Stopped(p)
  {
  }

  /** After `stop`, no timer fires: no beat reaches the delegate. */
  lemma NoBeatAfterStop(p: Player, t: TimerId)
    requires Inv(p)
    ensures Fire(Stopped(p), t) == []
  {
  }

  /** Pausing and resuming keeps the playback position and leaves exactly the new timer live. */
  lemma PauseResume(p: Player)
    requires Inv(p) && p.playing
    ensures PlayedOrPaused(PlayedOrPaused(p)).playing
    ensures PlayedOrPaused(PlayedOrPaused(p)).currentTime == p.currentTime
    ensures PlayedOrPaused(PlayedOrPaused(p)).timer != p.timer
  {
  }

  /**
   * Without the `delegate` having been set, the audio player has no delegate
   * of its own: the end of the song leaves the beat timer running.
   */
  lemma UnwiredEndKeepsTimer(p: Player, successfully: bool)
    requires Inv(p) && p.playing && Synced(p) && !p.wired
    ensures var q := SongEnded(p, successfully).0; !q.playing && q.timer.Some? && !Synced(q)
  {
  }

  /** The object itself: the audio player, the `timer` property and the delegate. */
  class Music {
    var playing: bool
    var currentTime: nat
    var timer: Option<TimerId>
    var scheduled: set<TimerId>
    var nextTimer: TimerId
    var hasDelegate: bool
    var wired: bool

    function State(): Player
      reads this
    {
      Player(playing, currentTime, timer, scheduled, nextTimer, hasDelegate, wired)
    }

    predicate Valid()
      reads this
    {
      Inv(State())
    }

    /** `isPlaying`: forwarded from the audio player. */
    function IsPlaying(): (b: bool)
      reads this
      ensures b == State().playing
    {
      playing
    }

    /** Loads the song; the audio session setup and its fatal errors are not modelled. */
    constructor ()
      ensures Valid() && State() == Initial()
    {
      playing, currentTime := false, 0;
      timer, scheduled, nextTimer := None, {}, 0;
      hasDelegate, wired := false, false;
    }

    method SetDelegate(present: bool)
      modifies this
      ensures State() == DelegateSet(old(State()), present)
    {
      hasDelegate := present;
      wired := true;
    }

    /** The `timer` property's setter, with its `willSet` observer. */
    method SetTimer(t: Option<TimerId>)
      requires timer.Some? ==> timer != t
      requires scheduled <= TimerSet(timer) + TimerSet(t)
      requires t.Some? ==> t.value in scheduled && t.value < nextTimer
      modifies this
      ensures State() == AssignTimer(old(State()), t)
    {
      if timer.Some? {
        scheduled := scheduled - {timer.value};  // timer?.invalidate()
      }
      timer := t;
    }

    /** `Timer.scheduledTimer(..., repeats: true)`. */
    method ScheduleTimer() returns (t: TimerId)
      requires Valid()
      modifies this
      ensures (State(), t) == Schedule(old(State()))
    {
      t := nextTimer;
      nextTimer := nextTimer + 1;
      scheduled := scheduled + {t};
    }

    method PlayOrPause()
      requires Valid()
      modifies this
      ensures Valid()
      ensures State() == PlayedOrPaused(old(State()))
    {
      if playing {
        playing := false;
        SetTimer(None);
      } else {
        playing := true;
        var t := ScheduleTimer();
        SetTimer(Some(t));
      }
    }

    method Stop()
      requires Valid()
      modifies this
      ensures Valid()
      ensures State() == Stopped(old(State()))
    {
      playing := false;
      currentTime := 0;
      SetTimer(None);
    }

    method TimerAction() returns (events: seq<MusicEvent>)
      ensures events == TimerActionEvents(State())
    {
      events := if hasDelegate then [DidPassOneBeat] else [];
    }

    /** The run loop fires timer `t`; an invalidated timer does nothing. */
    method FireTimer(t: TimerId) returns (events: seq<MusicEvent>)
      ensures events == Fire(State(), t)
    {
      events := [];
      if t in scheduled {
        events := TimerAction();
      }
    }

    /** The audio player plays on for `elapsed` time units. */
    method Advance(elapsed: nat)
      modifies this
      ensures State() == Advanced(old(State()), elapsed)
    {
      if playing {
        currentTime := currentTime + elapsed;
      }
    }

    /** An audio-session interruption pauses the audio player without a callback. */
    method Interrupt()
      modifies this
      ensures State() == Interrupted(old(State()))
    {
      playing := false;
    }

    /** The audio player reaches the end of the song; the result says whether it calls back. */
    method ReachEnd() returns (callsBack: bool)
      modifies this
      ensures State() == old(State()).(playing := false)
      ensures callsBack == wired
    {
      playing := false;
      callsBack := wired;
    }

    method AudioPlayerDidFinishPlaying(successfully: bool) returns (events: seq<MusicEvent>)
      requires Valid()
      modifies this
      ensures Valid()
      ensures (State(), events) == DidFinishPlaying(old(State()), successfully)
    {
      events := if hasDelegate then [DidEndPlaying(successfully)] else [];
      SetTimer(None);
    }
  }
}
