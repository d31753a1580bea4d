/** Whole runs of the controller over a fresh store, stated as methods whose
    results pin down what the user sees afterwards. */
module PlayerScenarios {
  import opened Wrappers
  import MP = MediaProgress
  import opened MediaPlayer
  import YT = YouTube

  /** An audio source `ep-1` whose element reports a 120 s duration: a seek to
      0.5 lands at 60 s and is recorded at once as not completed. */
  method SeekToHalfRecordsProgress(now: string) returns (time: real, saved: Option<MP.Progress>)
    ensures time == 60.0
    ensures saved == Some(MP.Progress("ep-1", MP.Audio, 60.0, 120.0, now, false))
  {
    var storage := new MP.LocalStorage();
    var player := new Player(Source(MP.Audio, "a.mp3", "ep-1"), storage, null, null);
    var element := new MediaElement();
    var a, threw := player.SetMediaElement(element);
    element.duration, element.durationKnown := 120.0, true;
    player.OnLoadedMetadata(a);
    player.Seek(0.5, now);
    time := player.currentTime;
    saved := player.progress.GetProgress("ep-1", MP.Audio);
  }

  /** Saved progress is restored on mount and sought to by the first
      `canplay` only: a later `canplay` leaves a user's own seek alone, while
      attaching the element again arms the restore once more. */
  method CanPlayRestoresOncePerAttachment(now: string) returns (afterFirst: real, afterRepeat: real, afterReattach: real)
    ensures afterFirst == 30.0 && afterRepeat == 50.0 && afterReattach == 30.0
  {
    var player, element, a := MountSavedAudio(now);
    player.OnCanPlay(a);
    afterFirst := element.currentTime;
    element.currentTime := 50.0;
    player.OnCanPlay(a);
    afterRepeat := element.currentTime;
    var b, _ := player.SetMediaElement(element);
    player.OnCanPlay(b);
    afterReattach := element.currentTime;
  }

  /** An audio player mounted over storage that holds 30 s of progress for its
      episode, with a fresh element attached. */
  method MountSavedAudio(now: string) returns (player: Player, element: MediaElement, a: Attachment)
    ensures fresh(player) && fresh(element) && fresh(a) && fresh(player.progress) && fresh(player.progress.storage)
    ensures player.Valid() && player.currentTime == 30.0
    ensures a.element == element && !a.canPlayHandled
  {
    var storage := new MP.LocalStorage();
    var earlier := new MP.ProgressStore(storage);
    earlier.UpdateProgress("ep-1", MP.Audio, 30.0, 120.0, now);
    MP.LookupPut([], MP.MakeRecord("ep-1", MP.Audio, 30.0, 120.0, now), "ep-1");

    player := new Player(Source(MP.Audio, "a.mp3", "ep-1"), storage, null, null);
    var loader := new YT.ApiLoader();
    player.Mount(false, loader, false, "");
    element := new MediaElement();
    var attached, _ := player.SetMediaElement(element);
    a := attached;
  }

  /** PLAYING reported twice starts one poll; PAUSED stops it and unmounting
      leaves no timer behind. */
  method OnePollAtATime() returns (timersWhilePlaying: nat, timersAfterPause: nat, timersAfterUnmount: nat)
    ensures timersWhilePlaying == 1 && timersAfterPause == 0 && timersAfterUnmount == 0
  {
    var storage := new MP.LocalStorage();
    var player := new Player(Source(MP.YouTube, "https://youtu.be/abc123", "yt-1"), storage, null, null);
    player.OnStateChange(PLAYING);
    player.OnStateChange(BUFFERING);
    player.OnStateChange(PLAYING);
    timersWhilePlaying := |player.liveTimers|;
    player.OnStateChange(PAUSED);
    timersAfterPause := |player.liveTimers|;
    player.OnStateChange(PLAYING);
    player.Unmount();
    timersAfterUnmount := |player.liveTimers|;
  }
}
