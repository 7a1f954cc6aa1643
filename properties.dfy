/** Properties of the transport state machine that relate several steps, or
    that pin down the edge cases of removal and of background loads. */
module TransportProperties {
  import opened Common
  import opened Transport

  /** When the track has really ended, confirm_song_end does exactly what
      play_next does: its own "cursor := -1; play_next" at the end of the queue
      with replay on lands on entry 0, as play_next's wrap-around does. */
  lemma ConfirmSongEndIsPlayNext(s: State)
    requires Valid(s) && s.isPlaying && !s.mixer.busy
    ensures ConfirmSongEnd(s) == PlayNext(s)
  {
    if s.index >= |s.queue| - 1 && s.replay && s.queue != [] {
      var t := s.(index := -1);
      assert t.index < |t.queue| - 1;
      assert PlayNext(t) == s.(index := 0, pendingLoads := s.pendingLoads + [s.queue[0]]);
    }
  }

  /** Removing an entry before the cursor keeps the cursor on the same track. */
  lemma RemoveBeforeCursorKeepsTrack(s: State, i: int)
    requires Valid(s) && 0 <= i < s.index
    ensures var r := RemoveSong(s, i);
      0 <= r.index < |r.queue| && r.queue[r.index] == s.queue[s.index]
      && SamePlayback(r, s) && SameRequests(r, s)
  {
  }

  /** Removing the current entry while at least two entries follow it: the
      player stops, then play_next runs from the unchanged cursor, so the entry
      that slid into the removed slot is skipped and the one after it loads. */
  lemma RemoveCurrentSkipsSuccessor(s: State)
    requires Valid(s) && 0 <= s.index && s.index + 2 < |s.queue|
    ensures var r := RemoveSong(s, s.index);
      && r.index == s.index + 1
      && r.queue[r.index] == s.queue[s.index + 2]
      && r.pendingLoads == s.pendingLoads + [s.queue[s.index + 2]]
      && !r.isPlaying && r.currentUrl == None && r.status == NotPlaying
  {
  }

  /** Removing the current entry when exactly one entry follows it: that entry
      becomes the last one and play_next, run from the unchanged cursor, is at
      the end of the queue. With replay the player wraps to entry 0, which is
      that entry only when the cursor was 0 of two; without replay the player
      stops with "End of Queue" and requests nothing. */
  lemma RemoveCurrentBeforeLast(s: State)
    requires Valid(s) && 0 <= s.index && s.index + 2 == |s.queue|
    ensures var r := RemoveSong(s, s.index);
      && r.queue == s.queue[..s.index] + [s.queue[s.index + 1]]
      && (s.replay ==> r.index == 0 && r.pendingLoads == s.pendingLoads + [r.queue[0]])
      && (!s.replay ==> r.index == s.index && r.pendingLoads == s.pendingLoads && r.status == EndOfQueue)
      && !r.isPlaying && r.currentUrl == None
  {
    var r := RemoveSong(s, s.index);
    assert r.queue == s.queue[..s.index] + [s.queue[s.index + 1]];
  }

  /** Removing the current entry when it is the last of two or more: the cursor
      is set to len - 1 before play_next, which is then at the end of the queue:
      replay wraps to entry 0 (the new last entry only when two entries were
      left with one), otherwise the player stops with "End of Queue" on the new
      last entry without requesting it. */
  lemma RemoveCurrentLast(s: State)
    requires Valid(s) && |s.queue| >= 2 && s.index == |s.queue| - 1
    ensures var r := RemoveSong(s, s.index);
      && r.queue == s.queue[..s.index]
      && (s.replay ==> r.index == 0 && r.pendingLoads == s.pendingLoads + [s.queue[0]])
      && (!s.replay ==> r.index == s.index - 1 && r.pendingLoads == s.pendingLoads && r.status == EndOfQueue)
      && !r.isPlaying && r.currentUrl == None
  {
  }

  /** Removing the only entry while it is current: the player stops, the queue
      is empty and the cursor keeps its value 0 instead of returning to -1. */
  lemma RemoveOnlyEntry(s: State)
    requires Valid(s) && |s.queue| == 1 && s.index == 0
    ensures var r := RemoveSong(s, 0);
      && r.queue == [] && r.index == 0
      && !r.isPlaying && r.currentUrl == None && r.status == NotPlaying
      && r.pendingLoads == s.pendingLoads
  {
  }

  /** Removing an entry after the cursor changes nothing but the queue. */
  lemma RemoveAfterCursorUntouched(s: State, i: int)
    requires Valid(s) && s.index < i < |s.queue|
    ensures var r := RemoveSong(s, i);
      r.index == s.index && SamePlayback(r, s) && SameRequests(r, s) && SameSettings(r, s)
      && (0 <= r.index ==> r.queue[r.index] == s.queue[s.index])
  {
  }

  /** A load finishing always binds its own track, whatever the cursor says
      now: there is no generation check, so a stale load takes over playback. */
  lemma StaleLoadWins(s: State, k: int)
    requires Valid(s) && LoadPending(s, k)
    requires 0 <= s.index < |s.queue| && s.pendingLoads[k] != s.queue[s.index]
    ensures var r := LoadSucceeded(s, k);
      r.isPlaying && r.currentUrl == Some(s.pendingLoads[k].url) && r.index == s.index
  {
  }

  /** A failed load followed by its delayed play_next requests the next entry:
      a single skip ahead, and only when the cursor was not on the last entry. */
  lemma FailedLoadSkipsAhead(s: State, k: int)
    requires Valid(s) && LoadPending(s, k) && s.index < |s.queue| - 1
    ensures var f := LoadFailed(s, k);
      && f.pendingNext == s.pendingNext + 1
      && var r := DelayedPlayNext(f);
      && r.index == s.index + 1
      && r.pendingLoads == Delete(s.pendingLoads, k) + [s.queue[s.index + 1]]
      && r.pendingNext == s.pendingNext
  {
  }

  /** A failed load on the last entry schedules nothing. */
  lemma FailedLoadAtEndStays(s: State, k: int)
    requires Valid(s) && LoadPending(s, k) && s.index >= |s.queue| - 1
    ensures var r := LoadFailed(s, k);
      !r.isPlaying && r.pendingNext == s.pendingNext && r.index == s.index
  {
  }

  /** The completion poll, as written: once the mixer is idle, play_next's
      advance leaves is_playing set and the mixer idle while the next track
      downloads, so a second confirm_song_end (check_music_end schedules one
      every second) advances again, against a track that never played. */
  lemma ConfirmSongEndAdvancesAgain(s: State)
    requires Valid(s) && s.isPlaying && !s.mixer.busy && 0 <= s.index && s.index + 2 < |s.queue|
    ensures var r := ConfirmSongEnd(ConfirmSongEnd(s));
      && r.index == s.index + 2
      && r.pendingLoads == s.pendingLoads + [s.queue[s.index + 1], s.queue[s.index + 2]]
      && r.isPlaying && !r.mixer.busy && r.currentUrl == s.currentUrl
  {
    ConfirmSongEndIsPlayNext(s);
    ConfirmSongEndIsPlayNext(PlayNext(s));
  }

  /** Once a track has run out, get_pos reports no position, so "previous"
      steps back to the entry before the cursor instead of restarting. */
  lemma PreviousAfterEndGoesBack(s: State)
    requires Valid(s) && Truthy(s.currentUrl) && s.index > 0
    ensures var r := PlayPrevious(RunOut(s));
      && r.index == s.index - 1
      && r.pendingLoads == s.pendingLoads + [s.queue[s.index - 1]]
  {
  }

  /** n presses of "next". */
  function NextTimes(s: State, n: nat): (r: State)
    requires Valid(s)
    ensures Valid(r)
    ensures r.queue == s.queue && SameSettings(r, s)
    decreases n
  {
    if n == 0 then s else NextTimes(PlayNext(s), n - 1)
  }

  /** Pressing "next" n times before the end walks the queue in order: the
      loads requested are exactly the n entries after the cursor. */
  lemma {:induction false} NextWalksInOrder(s: State, n: nat)
    requires Valid(s) && s.index + n < |s.queue|
    ensures NextTimes(s, n).index == s.index + n
    ensures NextTimes(s, n).pendingLoads == s.pendingLoads + s.queue[s.index + 1 .. s.index + n + 1]
    decreases n
  {
    if n > 0 {
      var s1 := PlayNext(s);
      NextWalksInOrder(s1, n - 1);
      assert [s.queue[s.index + 1]] + s.queue[s.index + 2 .. s.index + n + 1]
          == s.queue[s.index + 1 .. s.index + n + 1];
    }
  }

  /** n presses followed by m presses are n + m presses. */
  lemma {:induction false} NextTimesAdd(s: State, n: nat, m: nat)
    requires Valid(s)
    ensures NextTimes(s, n + m) == NextTimes(NextTimes(s, n), m)
    decreases n
  {
    if n > 0 {
      NextTimesAdd(PlayNext(s), n - 1, m);
    }
  }

  /** With replay on, |queue| presses of "next" go once round the queue: back
      on the same entry, having requested every entry once, in queue order
      starting after the cursor and wrapping past the end to entry 0. */
  lemma NextCyclesWithReplay(s: State, len: nat)
    requires Valid(s) && s.replay && s.queue != [] && 0 <= s.index && len == |s.queue|
    ensures NextTimes(s, len).index == s.index
    ensures NextTimes(s, len).pendingLoads
         == s.pendingLoads + s.queue[s.index + 1..] + s.queue[..s.index + 1]
  {
    var c := s.index;
    var toEnd := len - 1 - c;
    var e := NextTimes(s, toEnd);
    NextWalksInOrder(s, toEnd);
    assert e.pendingLoads == s.pendingLoads + s.queue[c + 1..len];
    var w := WrapOnce(e);
    var f := NextTimes(w, c);
    NextWalksInOrder(w, c);
    assert f.pendingLoads == w.pendingLoads + s.queue[1..c + 1];
    NextTimesAdd(e, 1, c);
    NextTimesAdd(s, toEnd, c + 1);
    assert NextTimes(s, len) == f;
    RotationSplit(s.pendingLoads, s.queue, c);
  }

  /** One press of "next" on the last entry with replay on wraps to entry 0. */
  lemma WrapOnce(e: State) returns (w: State)
    requires Valid(e) && e.replay && e.queue != [] && e.index == |e.queue| - 1
    ensures w == NextTimes(e, 1) && Valid(w) && w.queue == e.queue
    ensures w.index == 0 && w.pendingLoads == e.pendingLoads + [e.queue[0]]
  {
    w := PlayNext(e);
    assert NextTimes(e, 1) == NextTimes(w, 0);
  }

  lemma RotationSplit<T>(p: seq<T>, q: seq<T>, c: nat)
    requires c < |q|
    ensures p + q[c + 1..|q|] + [q[0]] + q[1..c + 1] == p + q[c + 1..] + q[..c + 1]
  {
    assert [q[0]] + q[1..c + 1] == q[..c + 1];
  }

  /** The volume keys undo each other away from the ends of the slider. */
  lemma VolumeStepsUndo(v: int)
    requires 0 <= v <= MaxVolume
    ensures v + VolumeStep <= MaxVolume ==> Quieter(Louder(v)) == v
    ensures v - VolumeStep >= 0 ==> Louder(Quieter(v)) == v
    ensures 0 <= Louder(v) <= MaxVolume && 0 <= Quieter(v) <= MaxVolume
  {
  }

  const T1 := Track("u1", "t1")
  const T2 := Track("u2", "t2")
  const T3 := Track("u3", "t3")

  /** The state of a player with the given queue, cursor and replay flag, with
      the current entry playing for `posMs` milliseconds. */
  function PlayingState(q: seq<Track>, i: int, replay: bool, posMs: int): (s: State)
    requires 0 <= i < |q|
    ensures Valid(s) && s.isPlaying && s.queue == q && s.index == i && s.replay == replay
  {
    State(q, i, true, Some(q[i].url), replay, NowPlaying(q[i].title), 50,
          Mixer(Some(q[i].url), false, true, posMs), [], 0)
  }

  /** Adding a track to an empty player makes it current and loads it; when
      the load succeeds, it plays. */
  lemma ScenarioFirstAppendAutostarts()
    ensures var s := SearchAndAdd(Init(50), "song", Found(T1));
      && s.index == 0 && s.pendingLoads == [T1]
      && var r := LoadSucceeded(s, 0);
      && r.isPlaying && r.currentUrl == Some("u1") && r.index == 0 && r.pendingLoads == []
  {
  }

  /** The last track ends without replay: stopped, cursor kept, "End of Queue". */
  lemma ScenarioEndOfQueue()
    ensures var r := ConfirmSongEnd(RunOut(PlayingState([T1, T2, T3], 2, false, 0)));
      && !r.isPlaying && r.index == 2 && r.status == EndOfQueue && r.pendingLoads == []
  {
  }

  /** The last track ends with replay: cursor 0 and a load of the first entry. */
  lemma ScenarioReplayWraps()
    ensures var r := ConfirmSongEnd(RunOut(PlayingState([T1, T2, T3], 2, true, 0)));
      && r.index == 0 && r.pendingLoads == [T1]
  {
    ConfirmSongEndIsPlayNext(RunOut(PlayingState([T1, T2, T3], 2, true, 0)));
  }

  /** "previous" 10 s into the second track restarts it: no load, same cursor. */
  lemma ScenarioPreviousRestarts()
    ensures var r := PlayPrevious(PlayingState([T1, T2], 1, false, 10000));
      && r.index == 1 && r.isPlaying && r.pendingLoads == [] && r.mixer.posMs == 0
  {
  }

  /** "previous" 1 s into the second track goes back to the first. */
  lemma ScenarioPreviousGoesBack()
    ensures var r := PlayPrevious(PlayingState([T1, T2], 1, false, 1000));
      && r.index == 0 && r.pendingLoads == [T1]
  {
  }

  /** Removing the playing middle track of three: T3 slides into its slot but
      play_next from the unchanged cursor finds the end of the queue, so the
      player stops with "End of Queue" and T3 is not requested. */
  lemma ScenarioRemoveCurrentMiddle()
    ensures var r := RemoveSong(PlayingState([T1, T2, T3], 1, false, 0), 1);
      && r.queue == [T1, T3] && r.index == 1 && !r.isPlaying && r.status == EndOfQueue
      && r.pendingLoads == []
  {
    RemoveCurrentBeforeLast(PlayingState([T1, T2, T3], 1, false, 0));
  }

  /** Track T1 of three runs out with nothing else happening: two polls of
      confirm_song_end skip T2 and request T3 while T2 is still loading. */
  lemma ScenarioPollAdvancesTwice()
    ensures var r := ConfirmSongEnd(ConfirmSongEnd(RunOut(PlayingState([T1, T2, T3], 0, false, 0))));
      && r.index == 2 && r.pendingLoads == [T2, T3] && r.isPlaying
  {
  }

  /** T1 of [T1, T2] playing 5 s in; "next" requests T2, whose load fails
      (nothing is retried on the last entry); T1 then runs out, and "previous"
      goes back to entry 0 and requests T1 rather than restarting. */
  lemma ScenarioPreviousAfterFailedNext()
    ensures var s := LoadFailed(PlayNext(PlayingState([T1, T2], 0, false, 5000)), 0);
      && s.index == 1 && !s.isPlaying && s.pendingNext == 0
      && var r := PlayPrevious(RunOut(s));
      && r.index == 0 && r.pendingLoads == [T1]
  {
  }

  /** [T1, T2] with replay, T1 current and removed: play_next from cursor 0 of
      the one-entry queue wraps onto T2, the entry that slid into the slot. */
  lemma ScenarioRemoveFirstOfTwoReplay()
    ensures var r := RemoveSong(PlayingState([T1, T2], 0, true, 0), 0);
      && r.queue == [T2] && r.index == 0 && r.pendingLoads == [T2] && !r.isPlaying
  {
  }

  /** [T1, T2] with replay, T2 current and removed: the cursor is set to 0, the
      last entry, and play_next wraps onto T1, the new last entry. */
  lemma ScenarioRemoveLastOfTwoReplay()
    ensures var r := RemoveSong(PlayingState([T1, T2], 1, true, 0), 1);
      && r.queue == [T1] && r.index == 0 && r.pendingLoads == [T1] && !r.isPlaying
  {
  }

  /** Selecting entry 0 and then entry 2 before either load finishes: when the
      load of entry 0 finishes first, it binds and plays T1 although the cursor
      is on entry 2; the load of T3 is still pending and will take over later. */
  lemma ScenarioNoSupersession()
    ensures var s := PlaySelected(PlaySelected(PlayingState([T1, T2, T3], 0, false, 0), Some(0)), Some(2));
      && s.index == 2 && s.pendingLoads == [T1, T3]
      && var r := LoadSucceeded(s, 0);
      && r.isPlaying && r.currentUrl == Some("u1") && r.status == NowPlaying("t1") && r.index == 2
      && r.pendingLoads == [T3]
  {
  }

  /** Toggling twice from a playing state: pause then unpause, back to playing. */
  lemma PauseResume(s: State)
    requires Valid(s) && s.isPlaying && Truthy(s.currentUrl)
    ensures var r := TogglePlay(TogglePlay(s));
      r.isPlaying && !r.mixer.paused && r.index == s.index && r.queue == s.queue
      && r.pendingLoads == s.pendingLoads && r.currentUrl == s.currentUrl
  {
  }

  /** toggle_replay twice restores the state. */
  lemma ToggleReplayTwice(s: State)
    requires Valid(s)
    ensures ToggleReplay(ToggleReplay(s)) == s
  {
  }

  /** Any sequence of events from a fresh player keeps the invariant. */
  lemma ReachableStatesValid(volume: int, events: seq<Event>)
    requires 0 <= volume <= MaxVolume
    ensures Valid(Run(Init(volume), events))
  {
  }
}
