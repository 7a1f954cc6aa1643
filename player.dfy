/** The MusicPlayer object: the fields that its transport methods update in
    place, and those methods, step by step as the player runs them. Each method
    is proved to move `Model()` exactly as the matching function of module
    Transport moves a State, and to keep the invariant Transport.Valid. */
module Player {
  import opened Common
  import opened Transport

  /** The remove buttons remove_song recreates, one per remaining entry, as the
      index each button passes to remove_song when clicked. */
  method RebuildRemoveButtons(n: nat) returns (targets: seq<int>)
    ensures |targets| == n
    ensures forall k :: 0 <= k < n ==> targets[k] == k
  {
    targets := [];
    var i := 0;
    while i < n
      invariant 0 <= i <= n
      invariant |targets| == i
      invariant forall k :: 0 <= k < i ==> targets[k] == k
    {
      targets := targets + [i];
      i := i + 1;
    }
  }

  class MusicPlayer {
    var queue: seq<Track>
    var currentSongIndex: int
    var isPlaying: bool
    var currentUrl: Option<string>
    var replayQueue: bool
    var status: Status          // the "now playing" label
    var volume: int             // the volume slider
    var mixer: Mixer            // the audio mixer
    var pendingLoads: seq<Track> // play_music threads started and not yet finished
    var pendingNext: nat         // play_next calls scheduled with window.after

    ghost function Model(): State
      reads this
    {
      State(queue, currentSongIndex, isPlaying, currentUrl, replayQueue, status, volume,
            mixer, pendingLoads, pendingNext)
    }

    ghost predicate Valid()
      reads this
    {
      Transport.Valid(Model())
    }

    /** The player's initial state; the slider starts at the system volume. */
    constructor (initialVolume: int)
      requires 0 <= initialVolume <= MaxVolume
      ensures Model() == Init(initialVolume) && Valid()
    {
      queue := [];
      currentSongIndex := -1;
      isPlaying := false;
      currentUrl := None;
      replayQueue := false;
      status := NotPlaying;
      volume := initialVolume;
      mixer := Idle;
      pendingLoads := [];
      pendingNext := 0;
    }

    /** threading.Thread(target=play_music, args=(url, title)).start() */
    method StartLoad(song: Track)
      modifies this
      ensures Model() == old(Model()).(pendingLoads := old(pendingLoads) + [song])
    {
      pendingLoads := pendingLoads + [song];
    }

    method StopMusic()
      modifies this
      ensures Model() == Transport.StopMusic(old(Model()))
    {
      mixer := Idle;  // mixer.stop(); mixer.unload()
      isPlaying := false;
      status := NotPlaying;
      currentUrl := None;
    }

    method PlayNext()
      requires WellFormed(Model())
      modifies this
      ensures Model() == Transport.PlayNext(old(Model())) && Valid()
    {
      if currentSongIndex < |queue| - 1 {
        currentSongIndex := currentSongIndex + 1;
        var song := queue[currentSongIndex];
        StartLoad(song);
      } else if replayQueue && queue != [] {
        currentSongIndex := 0;
        var song := queue[0];
        StartLoad(song);
      } else {
        StopMusic();
        status := EndOfQueue;
      }
    }

    method PlayPrevious()
      requires Valid()
      modifies this
      ensures Model() == Transport.PlayPrevious(old(Model())) && Valid()
    {
      if Truthy(currentUrl) && currentSongIndex >= 0 {
        if mixer.posMs > RestartThresholdMs {
          mixer := Rewound(mixer);  // mixer.rewind(); mixer.play()
          isPlaying := true;
          return;
        }
        if currentSongIndex > 0 {
          currentSongIndex := currentSongIndex - 1;
          var song := queue[currentSongIndex];
          StartLoad(song);
        } else {
          mixer := Rewound(mixer);
          isPlaying := true;
        }
      }
    }

    method TogglePlay()
      requires WellFormed(Model())
      modifies this
      ensures Model() == Transport.TogglePlay(old(Model())) && WellFormed(Model())
    {
      if isPlaying {
        mixer := mixer.(paused := true);
        isPlaying := false;
        var song := PyIndex(queue, currentSongIndex);
        if song.Some? {
          status := Paused(song.value.title);
        }
      } else if Truthy(currentUrl) {
        mixer := mixer.(paused := false);
        isPlaying := true;
        var song := PyIndex(queue, currentSongIndex);
        if song.Some? {
          status := NowPlaying(song.value.title);
        }
      } else if queue != [] {
        if currentSongIndex == -1 {
          currentSongIndex := 0;
        }
        var song := queue[currentSongIndex];
        StartLoad(song);
      }
    }

    method PlaySelected(selection: Option<int>)
      requires Valid() && SelectionInRange(Model(), selection)
      modifies this
      ensures Model() == Transport.PlaySelected(old(Model()), selection) && Valid()
    {
      if selection.Some? {
        currentSongIndex := selection.value - 1;
        PlayNext();
      }
    }

    /** queue.pop(index) and the cursor/playback repair that follows it in
        both remove_song and remove_selected. */
    method RemoveEntry(index: int)
      requires Valid() && 0 <= index < |queue|
      modifies this
      ensures Model() == RemoveAt(old(Model()), index) && Valid()
    {
      queue := Delete(queue, index);
      if index == currentSongIndex {
        StopMusic();
        if index < |queue| {
          PlayNext();
        } else if queue != [] {
          currentSongIndex := |queue| - 1;
          PlayNext();
        }
      } else if index < currentSongIndex {
        currentSongIndex := currentSongIndex - 1;
      }
    }

    /** remove_song: also returns the rebuilt remove buttons, or None when the
        index was out of range and nothing was done. */
    method RemoveSong(index: int) returns (buttons: Option<seq<int>>)
      requires Valid()
      modifies this
      ensures Model() == Transport.RemoveSong(old(Model()), index) && Valid()
      ensures buttons.None? <==> !(0 <= index < |old(queue)|)
      ensures buttons.Some? ==>
        |buttons.value| == |queue| && forall k :: 0 <= k < |queue| ==> buttons.value[k] == k
    {
      if 0 <= index < |queue| {
        var n := |queue| - 1;
        var targets := RebuildRemoveButtons(n);
        buttons := Some(targets);
        RemoveEntry(index);
      } else {
        buttons := None;
      }
    }

    method RemoveSelected(selection: Option<int>)
      requires Valid() && SelectionInRange(Model(), selection)
      modifies this
      ensures Model() == Transport.RemoveSelected(old(Model()), selection) && Valid()
    {
      if selection.Some? {
        RemoveEntry(selection.value);
      }
    }

    method ConfirmSongEnd()
      requires Valid()
      modifies this
      ensures Model() == Transport.ConfirmSongEnd(old(Model())) && Valid()
    {
      if isPlaying && !mixer.busy {
        if currentSongIndex < |queue| - 1 {
          PlayNext();
        } else if replayQueue && queue != [] {
          currentSongIndex := -1;
          PlayNext();
        } else {
          StopMusic();
          status := EndOfQueue;
        }
      }
    }

    method ToggleReplay()
      requires Valid()
      modifies this
      ensures Model() == Transport.ToggleReplay(old(Model())) && Valid()
    {
      replayQueue := !replayQueue;
    }

    method SearchAndAdd(query: string, res: Resolution)
      requires Valid()
      modifies this
      ensures Model() == Transport.SearchAndAdd(old(Model()), query, res) && Valid()
    {
      if query != "" && query != Placeholder {
        match res
        case Found(song) =>
          queue := queue + [song];
          if |queue| == 1 {
            currentSongIndex := 0;
            StartLoad(song);
          }
        case NoResults =>
          status := NoResultsFound;
        case SearchFailed =>
          status := CouldNotFindSong;
      }
    }

    /** The play_music thread for pending load k finished its download. */
    method LoadSucceeded(k: int)
      requires Valid() && LoadPending(Model(), k)
      modifies this
      ensures Model() == Transport.LoadSucceeded(old(Model()), k) && Valid()
    {
      var song := pendingLoads[k];
      pendingLoads := Delete(pendingLoads, k);
      mixer := Mixer(Some(song.url), false, true, 0);  // stop, unload, load, play
      isPlaying := true;
      currentUrl := Some(song.url);
      status := NowPlaying(song.title);
    }

    /** The play_music thread for pending load k raised. */
    method LoadFailed(k: int)
      requires Valid() && LoadPending(Model(), k)
      modifies this
      ensures Model() == Transport.LoadFailed(old(Model()), k) && Valid()
    {
      pendingLoads := Delete(pendingLoads, k);
      isPlaying := false;
      if currentSongIndex < |queue| - 1 {
        pendingNext := pendingNext + 1;  // window.after(1000, play_next)
      }
    }

    method DelayedPlayNext()
      requires Valid() && pendingNext > 0
      modifies this
      ensures Model() == Transport.DelayedPlayNext(old(Model())) && Valid()
    {
      pendingNext := pendingNext - 1;
      PlayNext();
    }

    method VolumeUp()
      requires Valid()
      modifies this
      ensures Model() == Transport.VolumeUp(old(Model())) && Valid()
    {
      volume := Louder(volume);
    }

    method VolumeDown()
      requires Valid()
      modifies this
      ensures Model() == Transport.VolumeDown(old(Model())) && Valid()
    {
      volume := Quieter(volume);
    }

    /** The environment: `ms` milliseconds of playback pass. */
    method Elapse(ms: nat)
      requires Valid()
      modifies this
      ensures Model() == Transport.Elapse(old(Model()), ms) && Valid()
    {
      if mixer.busy && !mixer.paused {
        mixer := mixer.(posMs := mixer.posMs + ms);
      }
    }

    /** The environment: the bound track plays to its end. */
    method RunOut()
      requires Valid()
      modifies this
      ensures Model() == Transport.RunOut(old(Model())) && Valid()
    {
      mixer := mixer.(busy := false, posMs := NoPosition);
    }
  }
}
