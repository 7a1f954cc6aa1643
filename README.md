# Music player transport, modelled in Dafny

This project models the playlist and transport state machine of the
`MusicPlayer` class in `musicplayer.py`. That class is a Tk desktop player. It
keeps a queue of `{url, title}` entries, a cursor `current_song_index`
(initially -1), the flags `is_playing` and `replay_queue`, and the
`current_url` of the bound track. Its transport methods move that state:

- `play_next`, `play_previous`, `toggle_play`, `stop_music`;
- `play_selected`, `remove_song`, `remove_selected`;
- `confirm_song_end`, `toggle_replay`;
- `volume_up`, `volume_down`;
- the append-and-autostart part of `search_and_add`;
- the state updates at the end of `play_music`.

Files:

- `common.dfy` (module `Common`): `Option`, Python list indexing with negative
  indices (`PyIndex`), and `list.pop(i)` as a pure deletion (`Delete`).
- `transport.dfy` (module `Transport`): the state as a `State` value. It holds one
  function per method. Their contracts state what each method does to the
  queue, the cursor, playback and the requested loads. The module also holds the
  invariant `Valid`, the `Event`s the player reacts to, and `Run`, which applies
  them in order.
- `properties.dfy` (module `TransportProperties`): lemmas that relate several
  steps. They cover the removal edge cases, `confirm_song_end` versus
  `play_next`, stale loads, the single skip-ahead after a failed load, and
  repeated "next" walking (or, with replay, cycling) the queue. Concrete
  scenarios are included.
- `player.dfy` (module `Player`): class `MusicPlayer` with the source's fields.
  Its methods update them step by step as the source does. Each method is
  proved to move `Model()` exactly as the matching `Transport` function and to
  keep the invariant. The remove-button rebuild loop of `remove_song` is the
  method `RebuildRemoveButtons`.

The environment is abstract:

- The audio mixer is a `Mixer` value: the loaded source, a paused flag, the
  busy flag `get_busy` reports, and the position in ms `get_pos` reports.
- Each `threading.Thread(target=play_music, ...)` start appends the track to
  `pendingLoads`.
- A finished thread is `LoadSucceeded(k)` or `LoadFailed(k)` for any pending
  `k`, in any order. That is exactly as loose as the source, which has no
  generation check.
- `window.after(1000, play_next)` adds one to `pendingNext`. `DelayedPlayNext`
  later runs that call.
- `Elapse(ms)` and `RunOut()` are the mixer's own changes: time passing and the
  track ending. Once the track has ended, `get_pos` reports -1
  (`NoPosition`), so a later "previous" steps back instead of restarting
  (`PreviousAfterEndGoesBack`).

In several places the code does not do what a playlist player is evidently
meant to do. The model follows the code:

- No supersession. A load that finishes binds and plays its track even when the
  cursor has moved on (`StaleLoadWins`, `ScenarioNoSupersession`).
- Removing the current entry runs `stop_music`, then `play_next` from the
  *unchanged* cursor. So the entry that slid into the removed slot is skipped
  (`RemoveCurrentSkipsSuccessor`), unless replay wraps back onto it. That
  happens when the cursor was 0 of two entries (`ScenarioRemoveFirstOfTwoReplay`). For `[T1, T2, T3]` with cursor 1 and replay
  off, removing entry 1 ends in "End of Queue" without playing T3, the track
  that took the removed one's place (`ScenarioRemoveCurrentMiddle`).
- Removing the current last entry sets the cursor to `len-1` before
  `play_next`. So `play_next` is already at the end: it wraps (replay) or stops.
  It plays the new last entry only when replay wraps onto it, that is, when two
  entries became one (`RemoveCurrentLast`, `ScenarioRemoveLastOfTwoReplay`).
- Removing the only entry leaves the cursor at 0, not -1 (`RemoveOnlyEntry`).
  The invariant that actually holds is `Transport.Valid`: the cursor is in range
  whenever the queue is non-empty; with an empty queue it is -1 or 0; -1 never
  appears with a non-empty queue.
- "Previous" is guarded by `current_url` being truthy and cursor >= 0, not by
  the playback state.
- After a failed load, the retry is one delayed `play_next`. It is scheduled
  only when the cursor is not on the last entry.
- The end-of-track poll can advance more than once per ended track. After
  `play_next` advances, `is_playing` stays true and the mixer stays idle while
  the next track downloads. `check_music_end` runs every second and schedules
  `confirm_song_end` again, and each call advances once more. A track can thus
  be skipped before it ever plays (`ConfirmSongEndAdvancesAgain`,
  `ScenarioPollAdvancesTwice`).
- `remove_selected` is not bound to any widget or key, so the running player
  never calls it. It is modelled as its body reads, and `RemoveSel` is an
  over-approximating event.

## Model

| member | source | states |
|---|---|---|
| `Common.PyIndex` | musicplayer.py:386-392 | Python's `queue[i]`: defined exactly for -len <= i < len, a negative index counting from the end |
| `Common.Delete` | musicplayer.py:657 | `queue.pop(i)`: one element shorter, elements before i kept, elements after i shifted down by one, same multiset minus the popped entry |
| `Transport.Init` | musicplayer.py:49-53 | a new player has an empty queue, cursor -1, nothing playing, replay off, no loads requested; the state is Valid |
| `Transport.StopMusic` | musicplayer.py:402-408 | is_playing false, current_url None, label "Not Playing", mixer unloaded and not busy; queue, cursor, settings and requests unchanged; keeps the invariant |
| `Transport.PlayNext` | musicplayer.py:410-434 | before the last entry: cursor + 1 and a load of queue[cursor + 1] requested, playback untouched; at the end with replay on and a non-empty queue: cursor 0 and a load of queue[0]; otherwise stopped with "End of Queue" and the cursor kept; the queue never changes; the result is Valid |
| `Transport.PlaySelected` | musicplayer.py:293-298 | for a selected entry i: ends with cursor i and a load of queue[i] requested, queue and playback unchanged; no selection changes nothing |
| `Transport.RemoveAt` | musicplayer.py:675-683 | the queue becomes the old queue with entry i popped; before the cursor: cursor - 1, playback and requests untouched; after the cursor: cursor, playback and requests untouched; at the cursor: playback stopped (is_playing false, no url, mixer idle) |
| `Transport.RemoveSong` | musicplayer.py:652-683 | an out-of-range index changes nothing; an index in range behaves as RemoveAt; keeps the invariant |
| `Transport.RemoveSelected` | musicplayer.py:465-483 | no selection changes nothing; a selection behaves as RemoveAt |
| `Transport.Rewound` | musicplayer.py:442-443 | rewind and play: same source, busy, not paused, position 0 |
| `Transport.PlayPrevious` | musicplayer.py:436-463 | nothing unless current_url is truthy and cursor >= 0; past 3000 ms or on entry 0: the track is rewound and is_playing set, cursor and requests kept; otherwise cursor - 1 and a load of that entry requested, playback untouched |
| `Transport.TogglePlay` | musicplayer.py:381-400 | playing: mixer paused with source, busy flag and position kept, is_playing false, label "Paused: title" of queue[cursor] under Python indexing (negative counts from the end), and the old label kept when that lookup raises; else with a url: the same for unpausing with "Now Playing: title"; else with a non-empty queue: the cursor (0 if -1) gets a load request; else nothing |
| `Transport.ConfirmSongEnd` | musicplayer.py:508-523 | does nothing unless is_playing and the mixer is not busy; never changes the queue; keeps the invariant |
| `Transport.ToggleReplay` | musicplayer.py:685-687 | flips replay and changes nothing else |
| `Transport.SearchAndAdd` | musicplayer.py:558-640 | an empty or placeholder query does nothing; a found track is appended, and when it is the only entry it becomes current with a load requested; a failed search gives exactly the old state with the label "No results found" or "Could not find song" |
| `Transport.LoadSucceeded` | musicplayer.py:360-372 | the finished load leaves the pending set; the mixer is bound to its url and plays from 0; is_playing, current_url and "Now Playing" follow it; cursor and queue untouched |
| `Transport.LoadFailed` | musicplayer.py:374-379 | the failed load leaves the pending set; is_playing false; one delayed play_next is scheduled exactly when the cursor is before the last entry; nothing else changes |
| `Transport.DelayedPlayNext` | musicplayer.py:379 | a scheduled play_next fires: the result is exactly play_next on the current state with one scheduled call used up; queue and settings kept, state Valid |
| `Transport.Louder` | musicplayer.py:534-538 | min(100, v + 5): at most 100, at most v + 5, and equal to one of them |
| `Transport.Quieter` | musicplayer.py:540-544 | max(0, v - 5): at least 0, at least v - 5, and equal to one of them |
| `Transport.VolumeUp` | musicplayer.py:534-538 | the slider becomes Louder(v), never lower; transport untouched |
| `Transport.VolumeDown` | musicplayer.py:540-544 | the slider becomes Quieter(v), never higher; transport untouched |
| `Transport.Elapse` | musicplayer.py:440 | the position read by get_pos advances only while the mixer is busy and not paused |
| `Transport.RunOut` | musicplayer.py:510 | the track ends: get_busy now reports false and get_pos -1, the source and paused flag stay, nothing else changes |
| `Transport.Step` | musicplayer.py:275-282 | every event that can happen keeps the invariant |
| `Transport.Run` | musicplayer.py:275-282 | any sequence of events, applied one at a time, ends in a Valid state |
| `TransportProperties.ConfirmSongEndIsPlayNext` | musicplayer.py:508-523 | when is_playing and the mixer is not busy, confirm_song_end gives exactly the state play_next gives, including its "cursor := -1" wrap |
| `TransportProperties.RemoveBeforeCursorKeepsTrack` | musicplayer.py:682-683 | removing before the cursor keeps the cursor on the same track, playback and requests untouched |
| `TransportProperties.RemoveCurrentSkipsSuccessor` | musicplayer.py:675-678 | removing the current entry with two or more after it: stopped, cursor + 1, and the load requested is old entry cursor + 2, so the entry that slid in is skipped |
| `TransportProperties.RemoveCurrentBeforeLast` | musicplayer.py:675-678 | removing the current entry with one after it: play_next runs from the unchanged cursor, now the last; replay wraps to the new entry 0 and requests it (the slid-in entry only when the cursor was 0 of two), otherwise "End of Queue" on the unchanged cursor with nothing requested |
| `TransportProperties.RemoveCurrentLast` | musicplayer.py:679-681 | removing the current last entry: cursor set to len - 1, then play_next is at the end: wraps to 0 with replay, otherwise stops with "End of Queue" |
| `TransportProperties.ScenarioRemoveFirstOfTwoReplay` | musicplayer.py:675-678 | [T1, T2] with replay, cursor 0, remove entry 0: queue [T2], cursor 0, T2 requested by the wrap |
| `TransportProperties.ScenarioRemoveLastOfTwoReplay` | musicplayer.py:679-681 | [T1, T2] with replay, cursor 1, remove entry 1: queue [T1], cursor 0, T1 requested by the wrap |
| `TransportProperties.RemoveOnlyEntry` | musicplayer.py:675-681 | removing the only, current entry: empty queue, stopped, cursor left at 0 |
| `TransportProperties.RemoveAfterCursorUntouched` | musicplayer.py:652-683 | removing after the cursor changes nothing but the queue, and the cursor still names the same track |
| `TransportProperties.ConfirmSongEndAdvancesAgain` | musicplayer.py:497-517 | with two entries after the cursor and the mixer idle, two confirm_song_end calls advance twice and request both following entries, still "playing" with the mixer idle |
| `TransportProperties.PreviousAfterEndGoesBack` | musicplayer.py:439-454 | after the track ran out, previous with cursor > 0 moves back one and requests that entry |
| `TransportProperties.StaleLoadWins` | musicplayer.py:360-372 | a finishing load binds its own track even when it is no longer the current entry |
| `TransportProperties.FailedLoadSkipsAhead` | musicplayer.py:374-379 | a failed load before the last entry schedules one play_next, which requests exactly the next entry |
| `TransportProperties.FailedLoadAtEndStays` | musicplayer.py:378-379 | a failed load on the last entry schedules nothing |
| `TransportProperties.NextTimes` | musicplayer.py:410-434 | n presses of next keep the queue, the settings and the invariant |
| `TransportProperties.NextWalksInOrder` | musicplayer.py:412-417 | n presses of next before the end move the cursor by n and request exactly the n following entries in queue order |
| `TransportProperties.NextTimesAdd` | musicplayer.py:410-434 | n presses then m presses equal n + m presses |
| `TransportProperties.WrapOnce` | musicplayer.py:421-428 | next on the last entry with replay on goes to entry 0 and requests it |
| `TransportProperties.NextCyclesWithReplay` | musicplayer.py:410-434 | with replay on, len presses of next return to the same entry after requesting every entry once, in order, wrapping past the end |
| `TransportProperties.VolumeStepsUndo` | musicplayer.py:534-544 | away from the ends, up then down (and down then up) restores the volume; both stay in 0..100 |
| `TransportProperties.PlayingState` | musicplayer.py:369-372 | a playing state with the given queue, cursor and replay flag is Valid |
| `TransportProperties.ScenarioFirstAppendAutostarts` | musicplayer.py:586-590 | adding to an empty player makes entry 0 current and loads it; on success it plays |
| `TransportProperties.ScenarioEndOfQueue` | musicplayer.py:521-523 | the last of three tracks ends without replay: stopped, cursor 2, "End of Queue" |
| `TransportProperties.ScenarioReplayWraps` | musicplayer.py:515-517 | the last of three tracks ends with replay: cursor 0, first entry requested |
| `TransportProperties.ScenarioPreviousRestarts` | musicplayer.py:440-446 | previous 10 s into a track rewinds it, no load, same cursor |
| `TransportProperties.ScenarioPreviousGoesBack` | musicplayer.py:449-454 | previous 1 s into the second track requests the first |
| `TransportProperties.ScenarioRemoveCurrentMiddle` | musicplayer.py:675-678 | removing the playing middle track of three stops at "End of Queue"; the third track is not requested |
| `TransportProperties.ScenarioPollAdvancesTwice` | musicplayer.py:497-513 | T1 of three ends: two polls leave the cursor on 2 with T2 and T3 both requested |
| `TransportProperties.ScenarioPreviousAfterFailedNext` | musicplayer.py:374-379 | next to T2, whose load fails and is not retried; T1 runs out; previous then requests T1 at cursor 0 |
| `TransportProperties.ScenarioNoSupersession` | musicplayer.py:293-298 | select 0 then 2: the load for entry 0 finishes first and plays although the cursor is 2 |
| `TransportProperties.PauseResume` | musicplayer.py:381-393 | pause then unpause returns to playing with the same cursor, url and requests |
| `TransportProperties.ToggleReplayTwice` | musicplayer.py:685-687 | toggling replay twice restores the state |
| `TransportProperties.ReachableStatesValid` | musicplayer.py:49-53 | every state reached from a new player satisfies the invariant |
| `Player.RebuildRemoveButtons` | musicplayer.py:664-672 | one button per remaining entry, button k removing entry k |
| `Player.MusicPlayer.constructor` | musicplayer.py:49-53 | the fields start as Transport.Init |
| `Player.MusicPlayer.StartLoad` | musicplayer.py:414-416 | a thread start appends the track to the pending loads and changes nothing else |
| `Player.MusicPlayer.StopMusic` | musicplayer.py:402-408 | the fields move as Transport.StopMusic |
| `Player.MusicPlayer.PlayNext` | musicplayer.py:410-434 | the fields move as Transport.PlayNext and stay Valid |
| `Player.MusicPlayer.PlayPrevious` | musicplayer.py:436-463 | the fields move as Transport.PlayPrevious |
| `Player.MusicPlayer.TogglePlay` | musicplayer.py:381-400 | the fields move as Transport.TogglePlay |
| `Player.MusicPlayer.PlaySelected` | musicplayer.py:293-298 | the fields move as Transport.PlaySelected |
| `Player.MusicPlayer.RemoveEntry` | musicplayer.py:470-483 | pop plus cursor and playback repair, as Transport.RemoveAt |
| `Player.MusicPlayer.RemoveSong` | musicplayer.py:652-683 | the fields move as Transport.RemoveSong; rebuilt buttons returned exactly when the index was in range, button k removing entry k |
| `Player.MusicPlayer.RemoveSelected` | musicplayer.py:465-483 | the fields move as Transport.RemoveSelected |
| `Player.MusicPlayer.ConfirmSongEnd` | musicplayer.py:508-523 | the fields move as Transport.ConfirmSongEnd |
| `Player.MusicPlayer.ToggleReplay` | musicplayer.py:685-687 | the fields move as Transport.ToggleReplay |
| `Player.MusicPlayer.SearchAndAdd` | musicplayer.py:558-640 | the fields move as Transport.SearchAndAdd |
| `Player.MusicPlayer.LoadSucceeded` | musicplayer.py:360-372 | the fields move as Transport.LoadSucceeded |
| `Player.MusicPlayer.LoadFailed` | musicplayer.py:374-379 | the fields move as Transport.LoadFailed |
| `Player.MusicPlayer.DelayedPlayNext` | musicplayer.py:379 | the fields move as Transport.DelayedPlayNext |
| `Player.MusicPlayer.VolumeUp` | musicplayer.py:534-538 | the slider moves as Transport.VolumeUp |
| `Player.MusicPlayer.VolumeDown` | musicplayer.py:540-544 | the slider moves as Transport.VolumeDown |
| `Player.MusicPlayer.Elapse` | musicplayer.py:440 | the mixer position moves as Transport.Elapse |
| `Player.MusicPlayer.RunOut` | musicplayer.py:510 | the mixer moves as Transport.RunOut |

## Left out

- Tk widget construction, layout, colours, hover effects, the play button's
  glyph, placeholder handlers, `center_window` and listbox highlighting: UI
  only. The "now playing" label is kept as `Status`.
- pygame mixer calls: the mixer is the abstract `Mixer` value. Apart from the
  player's own stop, load and rewind calls, its busy flag and position change
  only through the `Elapse` and `RunOut` environment events. Whether the mixer
  reports busy while paused is left abstract. The position of the stopped,
  unloaded mixer is 0 in the model. It is never read there, because
  `current_url` is None until a load binds a track again.
- `Transport.LoadFailed`: a failure is taken to happen before the mixer is
  touched (network, extraction or download). A failure inside pygame's
  `load`/`play` would already have unloaded the mixer. That case is not modelled.
- yt_dlp and search network resolution, download and the temp-file cache check
  (musicplayer.py:322-358): the resolved track arrives as the `Resolution`
  input or as the track of a pending load.
- `Transport.SearchAndAdd`: takes the query already stripped. The display
  title `"title (duration)"` is part of the resolved track.
- The threading and timer re-arming in `check_music_end` (musicplayer.py:497-506):
  a confirmed end is the `ConfirmSongEnd` event. There is no interleaving
  within one method.
- The final updates of `play_music` (musicplayer.py:361-379) run on the worker
  thread. The model applies each of them atomically, as one `LoadSucceeded` or
  `LoadFailed` step. It does not interleave them with the main thread's methods.
- `set_volume`'s float scalar and the system-volume call (musicplayer.py:485-495,
  246-255): only the integer slider and its clamps are kept. The constructor
  takes the initial slider value.
- `add_to_queue` (musicplayer.py:300-320): its first line reads `self.url_var`,
  which the class never defines. The method always raises before touching any
  state.
- The remove button that `search_and_add` creates at musicplayer.py:642-650:
  UI that runs even when the search fails. Only the rebuild in `remove_song`
  is modelled.
- `Transport.PlaySelected`, `Transport.RemoveSelected`: the listbox selection
  is an input assumed to be in range. The listbox holds exactly one line per
  queue entry.
- Every `Transport` function that takes a `State` requires `Valid`, the
  invariant of reachable states, with three exceptions. `PlayNext` and
  `TogglePlay` require only `WellFormed`, and `StopMusic` requires nothing. So
  `TogglePlay`'s "cursor -1 with a non-empty queue" branch is stated although
  no reachable state enters it.
- `resource_path`, `check_dependencies`: environment plumbing.
