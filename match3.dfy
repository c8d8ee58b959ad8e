/**
 * The session facade (puzzling-potions/src/match3/Match3.ts), reduced to what
 * it does visibly here: it stores the configuration, owns the timer and keeps
 * the playing flag (the container's `interactiveChildren`). The board,
 * process, special, actions and stats sub-systems are not part of this model.
 */
module Match3 {
  import opened Config
  import opened Timer

  class Match3 {
    var config: Match3Config
    const timer: Match3Timer
    var interactiveChildren: bool

    ghost predicate Valid()
      reads this, timer
    {
      timer.Valid()
    }

    /** A new game holds the default configuration and a cleared timer */
    constructor ()
      ensures Valid() && fresh(timer)
      ensures config == GetConfig()
      ensures interactiveChildren
      ensures timer.State() == TimerState(0.0, 0, false, false)
    {
      config := GetConfig();
      timer := new Match3Timer();
      interactiveChildren := true;
    }

    /** Set up a new game: store the configuration, reset, size the timer in milliseconds */
    method Setup(config: Match3Config)
      requires Valid()
      modifies this, timer
      ensures Valid()
      ensures this.config == config && !interactiveChildren
      ensures timer.State() == old(timer.State()).Setup(config.duration * 1000.0)
      ensures !timer.running && !timer.paused && timer.time == 0.0
      ensures timer.duration == (config.duration * 1000.0).Floor
      ensures timer.starts == old(timer.starts) && timer.timesUp == old(timer.timesUp)
    {
      this.config := config;
      Reset();
      timer.Setup(config.duration * 1000.0);
    }

    /** Fully reset the game: not playing, timer cleared */
    method Reset()
      requires Valid()
      modifies this, timer
      ensures Valid()
      ensures config == old(config) && !interactiveChildren
      ensures timer.State() == old(timer.State()).Reset()
      ensures timer.starts == old(timer.starts) && timer.timesUp == old(timer.timesUp)
    {
      interactiveChildren := false;
      timer.Reset();
    }

    /** Start the timer and enable interaction */
    method StartPlaying()
      requires Valid()
      modifies this, timer
      ensures Valid()
      ensures config == old(config) && IsPlaying()
      ensures timer.State() == old(timer.State()).Start()
      ensures timer.starts == old(timer.starts) + 1 && timer.timesUp == old(timer.timesUp)
    {
      interactiveChildren := true;
      timer.Start();
    }

    /** Stop the timer (without firing `onTimesUp`) and disable interaction */
    method StopPlaying()
      requires Valid()
      modifies this, timer
      ensures Valid()
      ensures config == old(config) && !IsPlaying()
      ensures timer.State() == old(timer.State()).Stop()
      ensures timer.starts == old(timer.starts) && timer.timesUp == old(timer.timesUp)
    {
      interactiveChildren := false;
      timer.Stop();
    }

    /** `isPlaying`: exactly the interaction flag */
    function IsPlaying(): (r: bool)
      reads this
      ensures r == interactiveChildren
    {
      interactiveChildren
    }

    /** Pause the game: the timer is paused, playing and time unchanged */
    method Pause()
      requires Valid()
      modifies timer
      ensures Valid()
      ensures config == old(config) && IsPlaying() == old(IsPlaying())
      ensures timer.State() == old(timer.State()).Pause()
      ensures timer.starts == old(timer.starts) && timer.timesUp == old(timer.timesUp)
    {
      timer.Pause();
    }

    /** Resume the game: the timer is resumed, playing and time unchanged */
    method Resume()
      requires Valid()
      modifies timer
      ensures Valid()
      ensures config == old(config) && IsPlaying() == old(IsPlaying())
      ensures timer.State() == old(timer.State()).Resume()
      ensures timer.starts == old(timer.starts) && timer.timesUp == old(timer.timesUp)
    {
      timer.Resume();
    }

    /**
     * Update the timer. Expiry stops the timer and fires `onTimesUp`, but does
     * not by itself end play: the playing flag is left as it was.
     */
    method Update(delta: real)
      requires Valid()
      modifies timer
      ensures Valid()
      ensures config == old(config) && IsPlaying() == old(IsPlaying())
      ensures timer.State() == old(timer.State()).Update(delta).state
      ensures timer.timesUp == old(timer.timesUp) + (if old(timer.State()).Update(delta).timesUp then 1 else 0)
      ensures timer.starts == old(timer.starts)
    {
      timer.Update(delta);
    }
  }
}
