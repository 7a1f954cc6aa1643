/** The playlist/transport state machine of the music player, as values.

    One function per method of the player that moves its state. The
    player class in module Player is proved to follow these functions, and the
    properties the player promises are stated here (as contracts) and in module
    TransportProperties (as lemmas relating several steps).

    The environment is abstract: the audio mixer is a `Mixer` value, each
    background `play_music` thread is a `Track` appended to `pendingLoads`, and
    each `window.after(1000, play_next)` is a unit added to `pendingNext`. */
module Transport {
  import opened Common

  /** One queue entry, as appended by search_and_add: `{url, title}`. */
  datatype Track = Track(url: string, title: string)

  /** The text of the "now playing" label, the only part of the UI that the
      transport methods set and that says something about the state. */
  datatype Status =
    | NotPlaying
    | EndOfQueue
    | NowPlaying(title: string)
    | Paused(title: string)
    | NoResultsFound
    | CouldNotFindSong

  /** What resolving a search query gave: a track (from the primary search or
      the fallback one), no result, or an error in both searches. */
  datatype Resolution = Found(track: Track) | NoResults | SearchFailed

  /** The audio mixer, reduced to what the transport methods read or change:
      the bound source, the paused flag, whether it reports itself busy
      (get_busy) and the playback position in milliseconds (get_pos). */
  datatype Mixer = Mixer(loaded: Option<string>, paused: bool, busy: bool, posMs: int)

  /** The whole transport state of one player. */
  datatype State = State(
    queue: seq<Track>,
    index: int,              // current_song_index
    isPlaying: bool,
    currentUrl: Option<string>,
    replay: bool,            // replay_queue
    status: Status,
    volume: int,             // the volume slider, 0..100
    mixer: Mixer,
    pendingLoads: seq<Track>,
    pendingNext: nat)

  /** Beyond this many milliseconds into a track, "previous" restarts it. */
  const RestartThresholdMs := 3000
  /** The step of one volume key press. */
  const VolumeStep := 5
  const MaxVolume := 100
  /** The search entry's placeholder text, which is never searched for. */
  const Placeholder := "Search for a song..."

  /** What get_pos reports once nothing is playing: the track ran out or was
      stopped, so the mixer has no play start time to count from. */
  const NoPosition := -1

  /** The stopped, unloaded mixer. Its position is never read: nothing is
      bound, so current_url is None and play_previous does nothing. */
  const Idle := Mixer(None, false, false, 0)

  /** The part of the invariant that the intermediate states inside
      play_selected and confirm_song_end also keep: the cursor is -1, names an
      entry, or is 0 after the last entry was removed; the mixer is bound to
      current_url; is_playing implies a current url; the slider is in range. */
  predicate WellFormed(s: State)
  {
    && (-1 <= s.index < |s.queue| || (s.queue == [] && s.index == 0))
    && s.mixer.loaded == s.currentUrl
    && (s.isPlaying ==> s.currentUrl.Some?)
    && 0 <= s.volume <= MaxVolume
  }

  /** The invariant of every reachable state: in addition, the sentinel -1 is
      only ever seen with an empty queue (the first append always autostarts). */
  predicate Valid(s: State)
  {
    WellFormed(s) && (s.index == -1 ==> s.queue == [])
  }

  /** Python truthiness of `self.current_url`: not None and not empty. */
  predicate Truthy(u: Option<string>)
  {
    u.Some? && u.value != ""
  }

  predicate SamePlayback(r: State, s: State)
  {
    r.isPlaying == s.isPlaying && r.currentUrl == s.currentUrl && r.status == s.status && r.mixer == s.mixer
  }

  predicate SameSettings(r: State, s: State)
  {
    r.replay == s.replay && r.volume == s.volume
  }

  predicate SameRequests(r: State, s: State)
  {
    r.pendingLoads == s.pendingLoads && r.pendingNext == s.pendingNext
  }

  /** A new player: empty queue, cursor -1, nothing playing (musicplayer.py:49-53, 144). */
  function Init(volume: int): (s: State)
    requires 0 <= volume <= MaxVolume
    ensures Valid(s)
    ensures s.queue == [] && s.index == -1 && !s.isPlaying && s.currentUrl == None && !s.replay
    ensures s.pendingLoads == [] && s.pendingNext == 0 && s.volume == volume
  {
    State([], -1, false, None, false, NotPlaying, volume, Idle, [], 0)
  }

  /** stop_music: the mixer stops and unloads, is_playing and current_url are
      reset, the label says "Not Playing"; queue and cursor are kept. */
  function StopMusic(s: State): (r: State)
    ensures !r.isPlaying && r.currentUrl == None && r.status == NotPlaying
    ensures r.mixer.loaded == None && !r.mixer.busy
    ensures r.queue == s.queue && r.index == s.index && SameSettings(r, s) && SameRequests(r, s)
    ensures WellFormed(s) ==> WellFormed(r)
    ensures Valid(s) ==> Valid(r)
  {
    s.(isPlaying := false, currentUrl := None, status := NotPlaying, mixer := Idle)
  }

  /** play_next. Before the last entry it moves the cursor one step and starts
      a load of the entry there; at the end it wraps to entry 0 when replay is
      on and the queue is not empty, and otherwise stops with "End of Queue".
      It never touches the queue, and only the stop branch touches playback. */
  function PlayNext(s: State): (r: State)
    requires WellFormed(s)
    ensures Valid(r)
    ensures r.queue == s.queue && SameSettings(r, s) && r.pendingNext == s.pendingNext
    ensures s.index < |s.queue| - 1 ==>
      && r.index == s.index + 1
      && r.pendingLoads == s.pendingLoads + [s.queue[s.index + 1]]
      && SamePlayback(r, s)
    ensures s.index >= |s.queue| - 1 && s.replay && s.queue != [] ==>
      && r.index == 0
      && r.pendingLoads == s.pendingLoads + [s.queue[0]]
      && SamePlayback(r, s)
    ensures s.index >= |s.queue| - 1 && !(s.replay && s.queue != []) ==>
      && r.index == s.index
      && r.pendingLoads == s.pendingLoads
      && !r.isPlaying && r.currentUrl == None && r.status == EndOfQueue
      && r.mixer.loaded == None && !r.mixer.busy
  {
    if s.index < |s.queue| - 1 then
      s.(index := s.index + 1, pendingLoads := s.pendingLoads + [s.queue[s.index + 1]])
    else if s.replay && s.queue != [] then
      s.(index := 0, pendingLoads := s.pendingLoads + [s.queue[0]])
    else
      StopMusic(s).(status := EndOfQueue)
  }

  /** A listbox selection names an entry of the queue: the listbox holds one
      line per queue entry, so curselection() only yields indices in range. */
  predicate SelectionInRange(s: State, selection: Option<int>)
  {
    selection.Some? ==> 0 <= selection.value < |s.queue|
  }

  /** play_selected: sets the cursor to i - 1 and runs play_next, so it always
      ends on entry i with a load of it requested; nothing when no selection. */
  function PlaySelected(s: State, selection: Option<int>): (r: State)
    requires Valid(s) && SelectionInRange(s, selection)
    ensures Valid(r)
    ensures selection.None? ==> r == s
    ensures selection.Some? ==>
      && r.index == selection.value
      && r.pendingLoads == s.pendingLoads + [s.queue[selection.value]]
      && r.queue == s.queue && SamePlayback(r, s) && SameSettings(r, s)
      && r.pendingNext == s.pendingNext
  {
    match selection
    case None => s
    case Some(i) => PlayNext(s.(index := i - 1))
  }

  /** The common tail of remove_song and remove_selected once the index is
      known to be valid: pop the entry, then repair cursor and playback. When
      the current entry goes, stop_music runs and play_next follows from the
      UNCHANGED cursor (or from len-1 when the last entry went); when the queue
      becomes empty the player stays stopped and the cursor keeps its value. */
  function RemoveAt(s: State, i: int): (r: State)
    requires Valid(s) && 0 <= i < |s.queue|
    ensures Valid(r)
    ensures r.queue == Delete(s.queue, i)
    ensures i < s.index ==> r.index == s.index - 1 && SamePlayback(r, s) && SameRequests(r, s)
    ensures i > s.index ==> r.index == s.index && SamePlayback(r, s) && SameRequests(r, s)
    ensures i == s.index ==> !r.isPlaying && r.currentUrl == None && !r.mixer.busy
    ensures SameSettings(r, s) && r.pendingNext == s.pendingNext
  {
    var q := Delete(s.queue, i);
    var s1 := s.(queue := q);
    if i == s.index then
      var s2 := StopMusic(s1);
      if i < |q| then PlayNext(s2)
      else if q != [] then PlayNext(s2.(index := |q| - 1))
      else s2
    else if i < s.index then
      s1.(index := s.index - 1)
    else
      s1
  }

  /** remove_song(index): nothing at all when the index is out of range
      (the stale remove buttons that search_and_add leaves behind rely on
      this), otherwise RemoveAt. */
  function RemoveSong(s: State, index: int): (r: State)
    requires Valid(s)
    ensures Valid(r)
    ensures !(0 <= index < |s.queue|) ==> r == s
    ensures 0 <= index < |s.queue| ==> r == RemoveAt(s, index)
  {
    if 0 <= index < |s.queue| then RemoveAt(s, index) else s
  }

  /** remove_selected: RemoveAt on the listbox selection, nothing without one.
      Nothing in the player calls it; it is modelled as its body reads. */
  function RemoveSelected(s: State, selection: Option<int>): (r: State)
    requires Valid(s) && SelectionInRange(s, selection)
    ensures Valid(r)
    ensures selection.None? ==> r == s
    ensures selection.Some? ==> r == RemoveAt(s, selection.value)
  {
    match selection
    case None => s
    case Some(i) => RemoveAt(s, i)
  }

  /** The mixer after rewind() and play(): the bound track again from 0 ms. */
  function Rewound(m: Mixer): (r: Mixer)
    ensures r.loaded == m.loaded && r.busy && !r.paused && r.posMs == 0
  {
    m.(posMs := 0, busy := true, paused := false)
  }

  /** play_previous. Only when current_url is set and the cursor is >= 0:
      past 3000 ms, or on entry 0, the current track is rewound and played
      again (is_playing set, cursor kept, no load); otherwise the cursor moves
      back one and a load of that entry is requested. */
  function PlayPrevious(s: State): (r: State)
    requires Valid(s)
    ensures Valid(r)
    ensures r.queue == s.queue && SameSettings(r, s) && r.pendingNext == s.pendingNext
    ensures !(Truthy(s.currentUrl) && s.index >= 0) ==> r == s
    ensures Truthy(s.currentUrl) && s.index >= 0 && (s.mixer.posMs > RestartThresholdMs || s.index == 0) ==>
      && r.index == s.index && r.isPlaying && r.pendingLoads == s.pendingLoads
      && r.mixer == Rewound(s.mixer) && r.currentUrl == s.currentUrl && r.status == s.status
    ensures Truthy(s.currentUrl) && s.index > 0 && s.mixer.posMs <= RestartThresholdMs ==>
      && r.index == s.index - 1
      && r.pendingLoads == s.pendingLoads + [s.queue[s.index - 1]]
      && SamePlayback(r, s)
  {
    if Truthy(s.currentUrl) && s.index >= 0 then
      if s.mixer.posMs > RestartThresholdMs then
        s.(isPlaying := true, mixer := Rewound(s.mixer))
      else if s.index > 0 then
        s.(index := s.index - 1, pendingLoads := s.pendingLoads + [s.queue[s.index - 1]])
      else
        s.(isPlaying := true, mixer := Rewound(s.mixer))
    else
      s
  }

  /** toggle_play. Playing: pause. Otherwise with a current url: unpause.
      Otherwise with a non-empty queue: request a load of the current entry
      (entry 0 if the cursor is -1). The label lookup uses Python indexing;
      when it raises (the queue was emptied under a track that was still
      loading), the label keeps its old text but the flags are already set.
      Stated for WellFormed states: the "cursor -1" branch the source has is
      only reachable there, since in a Valid state -1 means an empty queue. */
  function TogglePlay(s: State): (r: State)
    requires WellFormed(s)
    ensures WellFormed(r)
    ensures Valid(s) ==> Valid(r)
    ensures r.queue == s.queue && SameSettings(r, s) && r.pendingNext == s.pendingNext
    ensures s.isPlaying ==>
      && !r.isPlaying && r.mixer.paused && r.index == s.index && r.pendingLoads == s.pendingLoads
      && r.currentUrl == s.currentUrl && r.mixer == s.mixer.(paused := true)
      && (PyIndex(s.queue, s.index).Some? ==> r.status == Paused(PyIndex(s.queue, s.index).value.title))
      && (PyIndex(s.queue, s.index).None? ==> r.status == s.status)
    ensures !s.isPlaying && Truthy(s.currentUrl) ==>
      && r.isPlaying && !r.mixer.paused && r.index == s.index && r.pendingLoads == s.pendingLoads
      && r.currentUrl == s.currentUrl && r.mixer == s.mixer.(paused := false)
      && (PyIndex(s.queue, s.index).Some? ==> r.status == NowPlaying(PyIndex(s.queue, s.index).value.title))
      && (PyIndex(s.queue, s.index).None? ==> r.status == s.status)
    ensures !s.isPlaying && !Truthy(s.currentUrl) && s.queue != [] ==>
      && r.index == (if s.index == -1 then 0 else s.index) && 0 <= r.index < |s.queue|
      && r.pendingLoads == s.pendingLoads + [s.queue[r.index]]
      && SamePlayback(r, s)
    ensures !s.isPlaying && !Truthy(s.currentUrl) && s.queue == [] ==> r == s
  {
    if s.isPlaying then
      var p := s.(isPlaying := false, mixer := s.mixer.(paused := true));
      match PyIndex(s.queue, s.index)
      case Some(t) => p.(status := Paused(t.title))
      case None => p
    else if Truthy(s.currentUrl) then
      var p := s.(isPlaying := true, mixer := s.mixer.(paused := false));
      match PyIndex(s.queue, s.index)
      case Some(t) => p.(status := NowPlaying(t.title))
      case None => p
    else if s.queue != [] then
      var k := if s.index == -1 then 0 else s.index;
      s.(index := k, pendingLoads := s.pendingLoads + [s.queue[k]])
    else
      s
  }

  /** confirm_song_end, as written: only while is_playing and the mixer is not
      busy; before the end it runs play_next; at the end with replay on and a
      non-empty queue it sets the cursor to -1 and runs play_next; otherwise it
      stops with "End of Queue". TransportProperties shows this is play_next. */
  function ConfirmSongEnd(s: State): (r: State)
    requires Valid(s)
    ensures Valid(r)
    ensures !(s.isPlaying && !s.mixer.busy) ==> r == s
    ensures r.queue == s.queue && SameSettings(r, s) && r.pendingNext == s.pendingNext
  {
    if s.isPlaying && !s.mixer.busy then
      if s.index < |s.queue| - 1 then PlayNext(s)
      else if s.replay && s.queue != [] then PlayNext(s.(index := -1))
      else StopMusic(s).(status := EndOfQueue)
    else
      s
  }

  /** toggle_replay: flips the replay flag and nothing else. */
  function ToggleReplay(s: State): (r: State)
    requires Valid(s)
    ensures Valid(r)
    ensures r.replay == !s.replay
    ensures r.queue == s.queue && r.index == s.index && r.volume == s.volume
    ensures SamePlayback(r, s) && SameRequests(r, s)
  {
    s.(replay := !s.replay)
  }

  /** The queue part of search_and_add, for an already stripped query: an
      empty query or the placeholder does nothing; a found track is appended
      and, if it is now the only entry, becomes current and starts loading
      (whatever is_playing says); a failed search only sets the label. */
  function SearchAndAdd(s: State, query: string, res: Resolution): (r: State)
    requires Valid(s)
    ensures Valid(r)
    ensures SameSettings(r, s) && r.pendingNext == s.pendingNext
    ensures query == "" || query == Placeholder ==> r == s
    ensures query != "" && query != Placeholder && res.Found? ==>
      && r.queue == s.queue + [res.track]
      && SamePlayback(r, s)
      && (s.queue == [] ==> r.index == 0 && r.pendingLoads == s.pendingLoads + [res.track])
      && (s.queue != [] ==> r.index == s.index && r.pendingLoads == s.pendingLoads)
    ensures query != "" && query != Placeholder && !res.Found? ==>
      r == s.(status := if res.NoResults? then NoResultsFound else CouldNotFindSong)
  {
    if query == "" || query == Placeholder then s
    else
      match res
      case Found(t) =>
        var q := s.queue + [t];
        if |q| == 1 then s.(queue := q, index := 0, pendingLoads := s.pendingLoads + [t])
        else s.(queue := q)
      case NoResults => s.(status := NoResultsFound)
      case SearchFailed => s.(status := CouldNotFindSong)
  }

  /** pending load k was started by a play_music thread that is still running. */
  predicate LoadPending(s: State, k: int)
  {
    0 <= k < |s.pendingLoads|
  }

  /** The end of play_music when the fetch succeeded: the mixer is bound to the
      track and plays it from 0, is_playing and current_url are set, the label
      names the track. There is no check that the track is still current. */
  function LoadSucceeded(s: State, k: int): (r: State)
    requires Valid(s) && LoadPending(s, k)
    ensures Valid(r)
    ensures r.pendingLoads == Delete(s.pendingLoads, k)
    ensures r.isPlaying && r.currentUrl == Some(s.pendingLoads[k].url)
    ensures r.status == NowPlaying(s.pendingLoads[k].title)
    ensures r.mixer == Mixer(Some(s.pendingLoads[k].url), false, true, 0)
    ensures r.queue == s.queue && r.index == s.index && SameSettings(r, s) && r.pendingNext == s.pendingNext
  {
    var t := s.pendingLoads[k];
    s.(pendingLoads := Delete(s.pendingLoads, k), mixer := Mixer(Some(t.url), false, true, 0),
       isPlaying := true, currentUrl := Some(t.url), status := NowPlaying(t.title))
  }

  /** The except branch of play_music: is_playing is cleared and, if the
      cursor is not on the last entry, one play_next is scheduled in 1000 ms. */
  function LoadFailed(s: State, k: int): (r: State)
    requires Valid(s) && LoadPending(s, k)
    ensures Valid(r)
    ensures r.pendingLoads == Delete(s.pendingLoads, k)
    ensures !r.isPlaying
    ensures r.pendingNext == if s.index < |s.queue| - 1 then s.pendingNext + 1 else s.pendingNext
    ensures r.queue == s.queue && r.index == s.index && SameSettings(r, s)
    ensures r.currentUrl == s.currentUrl && r.status == s.status && r.mixer == s.mixer
  {
    var r := s.(pendingLoads := Delete(s.pendingLoads, k), isPlaying := false);
    if s.index < |s.queue| - 1 then r.(pendingNext := s.pendingNext + 1) else r
  }

  /** A play_next scheduled by a failed load comes due: it is play_next on the
      state as it is now, with one scheduled call used up. */
  function DelayedPlayNext(s: State): (r: State)
    requires Valid(s) && s.pendingNext > 0
    ensures Valid(r)
    ensures r.pendingNext == s.pendingNext - 1
    ensures r.queue == s.queue && SameSettings(r, s)
    ensures r == PlayNext(s).(pendingNext := s.pendingNext - 1)
  {
    PlayNext(s.(pendingNext := s.pendingNext - 1))
  }

  /** volume_up: min(100, v + 5). */
  function Louder(v: int): (r: int)
    ensures r <= MaxVolume && r <= v + VolumeStep
    ensures r == MaxVolume || r == v + VolumeStep
  {
    if v + VolumeStep < MaxVolume then v + VolumeStep else MaxVolume
  }

  /** volume_down: max(0, v - 5). */
  function Quieter(v: int): (r: int)
    ensures r >= 0 && r >= v - VolumeStep
    ensures r == 0 || r == v - VolumeStep
  {
    if v - VolumeStep > 0 then v - VolumeStep else 0
  }

  function VolumeUp(s: State): (r: State)
    requires Valid(s)
    ensures Valid(r)
    ensures r.volume == Louder(s.volume) && s.volume <= r.volume
    ensures r.queue == s.queue && r.index == s.index && r.replay == s.replay
    ensures SamePlayback(r, s) && SameRequests(r, s)
  {
    s.(volume := Louder(s.volume))
  }

  function VolumeDown(s: State): (r: State)
    requires Valid(s)
    ensures Valid(r)
    ensures r.volume == Quieter(s.volume) && r.volume <= s.volume
    ensures r.queue == s.queue && r.index == s.index && r.replay == s.replay
    ensures SamePlayback(r, s) && SameRequests(r, s)
  {
    s.(volume := Quieter(s.volume))
  }

  /** The environment: time passes; the position of an unpaused busy mixer advances. */
  function Elapse(s: State, ms: nat): (r: State)
    requires Valid(s)
    ensures Valid(r)
    ensures r.mixer.loaded == s.mixer.loaded && r.mixer.busy == s.mixer.busy && r.mixer.paused == s.mixer.paused
    ensures r.mixer.posMs == if s.mixer.busy && !s.mixer.paused then s.mixer.posMs + ms else s.mixer.posMs
    ensures r.queue == s.queue && r.index == s.index && r.isPlaying == s.isPlaying
    ensures SameSettings(r, s) && SameRequests(r, s) && r.status == s.status
  {
    if s.mixer.busy && !s.mixer.paused then s.(mixer := s.mixer.(posMs := s.mixer.posMs + ms)) else s
  }

  /** The environment: the track runs out, so the mixer is no longer busy and
      get_pos reports no position; the source stays bound. */
  function RunOut(s: State): (r: State)
    requires Valid(s)
    ensures Valid(r)
    ensures !r.mixer.busy && r.mixer.loaded == s.mixer.loaded && r.mixer.paused == s.mixer.paused
    ensures r.mixer.posMs == NoPosition
    ensures r.queue == s.queue && r.index == s.index && r.isPlaying == s.isPlaying
    ensures SameSettings(r, s) && SameRequests(r, s) && r.status == s.status
  {
    s.(mixer := s.mixer.(busy := false, posMs := NoPosition))
  }

  /** Every event the player reacts to: user commands, completions of
      background loads and delayed calls, and changes of the mixer.
      `RemoveSel` over-approximates: no widget or key is bound to
      remove_selected, so the running player never receives it. */
  datatype Event =
    | Next | Previous | PlayPause | Stop
    | Select(selection: Option<int>)
    | Remove(index: int)
    | RemoveSel(selection: Option<int>)
    | SongEndConfirmed | ReplayToggled
    | Search(query: string, res: Resolution)
    | Loaded(k: int) | LoadError(k: int) | RetryNext
    | VolUp | VolDown
    | Elapsed(ms: nat) | RanOut

  /** Whether the event can happen in state s (a selection comes from the
      listbox, a completion from a running thread, a retry from a scheduled call). */
  predicate Enabled(s: State, e: Event)
  {
    match e
    case Select(sel) => SelectionInRange(s, sel)
    case RemoveSel(sel) => SelectionInRange(s, sel)
    case Loaded(k) => LoadPending(s, k)
    case LoadError(k) => LoadPending(s, k)
    case RetryNext => s.pendingNext > 0
    case _ => true
  }

  function Step(s: State, e: Event): (r: State)
    requires Valid(s) && Enabled(s, e)
    ensures Valid(r)
  {
    match e
    case Next => PlayNext(s)
    case Previous => PlayPrevious(s)
    case PlayPause => TogglePlay(s)
    case Stop => StopMusic(s)
    case Select(sel) => PlaySelected(s, sel)
    case Remove(i) => RemoveSong(s, i)
    case RemoveSel(sel) => RemoveSelected(s, sel)
    case SongEndConfirmed => ConfirmSongEnd(s)
    case ReplayToggled => ToggleReplay(s)
    case Search(query, res) => SearchAndAdd(s, query, res)
    case Loaded(k) => LoadSucceeded(s, k)
    case LoadError(k) => LoadFailed(s, k)
    case RetryNext => DelayedPlayNext(s)
    case VolUp => VolumeUp(s)
    case VolDown => VolumeDown(s)
    case Elapsed(ms) => Elapse(s, ms)
    case RanOut => RunOut(s)
  }

  /** Runs a sequence of events in order, one at a time (the event loop serialises
      them); an event that cannot happen in the state reached is dropped.
      Every state reached this way is Valid. */
  function Run(s: State, events: seq<Event>): (r: State)
    requires Valid(s)
    ensures Valid(r)
    decreases |events|
  {
    if events == [] then s
    else
      var s1 := if Enabled(s, events[0]) then Step(s, events[0]) else s;
      Run(s1, events[1..])
  }
}
