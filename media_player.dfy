/** The player controller (`useMediaPlayer`): a state record driven by user
    commands and by the events of a native media element or a YouTube widget,
    with the progress of the current source written to the progress store. */
module MediaPlayer {
  import opened Wrappers
  import MP = MediaProgress
  import YT = YouTube

  /** `MediaSource`. */
  datatype Source = Source(kind: MP.MediaKind, url: string, id: string)

  /** `source.type` as written into messages. */
  function KindName(kind: MP.MediaKind): string
  {
    match kind
    case Audio => "audio"
    case Video => "video"
    case YouTube => "youtube"
  }

  /** The message of the error the element `error` listener stores. */
  function LoadingError(kind: MP.MediaKind): string
  {
    KindName(kind) + " loading error"
  }

  const YouTubeError: string := "YouTube player error"

  /** `window.YT.PlayerState` codes. */
  const ENDED: int := 0
  const PLAYING: int := 1
  const PAUSED: int := 2
  const BUFFERING: int := 3

  const DEFAULT_SKIP: real := 10.0
  /** Tolerance of the resync before a native play. */
  const RESYNC_TOLERANCE: real := 0.1

  function Abs(x: real): real
  {
    if x < 0.0 then -x else x
  }

  /** The seek rule: a value up to 1 (0 and negative values included) is a
      fraction of the duration, anything larger is in seconds. */
  function SeekTarget(time: real, duration: real): real
  {
    if time <= 1.0 then time * duration else time
  }

  /** A fraction in [0, 1] lands inside the media. */
  lemma FractionWithinDuration(time: real, duration: real)
    requires 0.0 <= time <= 1.0 && duration >= 0.0
    ensures 0.0 <= SeekTarget(time, duration) <= duration
  {
    assert 0.0 <= time * duration by {
      if time > 0.0 && duration > 0.0 {
        assert time * duration > 0.0 * duration;
      }
    }
    assert time * duration <= 1.0 * duration;
  }

  /** A skip back that ends in the first second of the media jumps to that
      fraction of the duration instead: at 10.5 s of a 120 s item, a 10 s
      skip back lands at 60 s. */
  lemma SkipBackIntoFirstSecond(current: real, seconds: real, duration: real)
    requires 0.0 < current - seconds <= 1.0 && duration > 0.0
    ensures SeekTarget(current - seconds, duration) == (current - seconds) * duration
    ensures duration > 1.0 ==> SeekTarget(current - seconds, duration) > current - seconds
  {
    if duration > 1.0 {
      FractionTargetAbove(current - seconds, duration);
    }
  }

  /** A positive fraction of a duration above 1 s targets a later time than
      the fraction itself read as seconds. */
  lemma FractionTargetAbove(x: real, duration: real)
    requires 0.0 < x <= 1.0 && duration > 1.0
    ensures SeekTarget(x, duration) > x
  {
    assert x * (duration - 1.0) > 0.0;
    assert x * duration == x + x * (duration - 1.0);
  }

  /** A skip back past the start gives a negative target. */
  lemma SkipBackPastStart(current: real, seconds: real, duration: real)
    requires current - seconds < 0.0 && duration > 0.0
    ensures SeekTarget(current - seconds, duration) < 0.0
  {
    assert (current - seconds) * duration < 0.0 * duration;
  }

  /** The condition under which `play()` first moves the element to the state's
      time. */
  predicate NeedsResync(elementTime: real, stateTime: real)
  {
    stateTime > 0.0 && Abs(elementTime - stateTime) > RESYNC_TOLERANCE
  }

  /** No resync when the element is within 0.1 s of the state, or the state
      is at the start. */
  lemma ResyncOnlyWhenApart(elementTime: real, stateTime: real)
    ensures NeedsResync(elementTime, stateTime) <==>
      stateTime > 0.0 && (elementTime > stateTime + 0.1 || elementTime < stateTime - 0.1)
  {
  }

  /** `loadedmetadata` and `durationchange` only take a duration that is
      truthy: a known number other than zero. */
  predicate UsableDuration(known: bool, d: real)
  {
    known && d != 0.0
  }

  /** An `HTMLMediaElement`, reduced to the properties the controller reads
      and writes. `durationKnown` is false while the duration is NaN. */
  class MediaElement {
    var currentTime: real
    var duration: real
    var durationKnown: bool
    var volume: real
    var playbackRate: real
    var paused: bool

    constructor ()
      ensures currentTime == 0.0 && !durationKnown && volume == 1.0 && playbackRate == 1.0 && paused
    {
      currentTime := 0.0;
      duration := 0.0;
      durationKnown := false;
      volume := 1.0;
      playbackRate := 1.0;
      paused := true;
    }

    /** The `volume` setter, which throws for a value outside [0, 1]. */
    method SetVolume(v: real) returns (threw: bool)
      modifies this
      ensures threw <==> !(0.0 <= v <= 1.0)
      ensures threw ==> unchanged(this)
      ensures !threw ==> volume == v
      ensures currentTime == old(currentTime) && duration == old(duration) && durationKnown == old(durationKnown)
      ensures playbackRate == old(playbackRate) && paused == old(paused)
    {
      if !(0.0 <= v <= 1.0) {
        return true;
      }
      volume := v;
      return false;
    }

    /** `play()`; when its promise rejects the element stays as it was. */
    method Play(rejects: bool)
      modifies this
      ensures paused == (old(paused) && rejects)
      ensures currentTime == old(currentTime) && duration == old(duration) && durationKnown == old(durationKnown)
      ensures volume == old(volume) && playbackRate == old(playbackRate)
    {
      if !rejects {
        paused := false;
      }
    }
  }

  /** The calls the controller makes on a `YT.Player`. */
  datatype WidgetCall = PlayVideo | PauseVideo | SeekTo(seconds: real, allowSeekAhead: bool)
    | SetVolume(percent: real) | SetPlaybackRate(rate: real)

  /** A `YT.Player`: the calls it received, and what `getCurrentTime()` and
      `getDuration()` report. */
  class Widget {
    const videoId: string
    var calls: seq<WidgetCall>
    var currentTime: real
    var duration: real

    constructor (videoId: string)
      ensures this.videoId == videoId && calls == [] && currentTime == 0.0 && duration == 0.0
    {
      this.videoId := videoId;
      calls := [];
      currentTime := 0.0;
      duration := 0.0;
    }

    method Call(c: WidgetCall)
      modifies this
      ensures calls == old(calls) + [c]
      ensures currentTime == old(currentTime) && duration == old(duration)
    {
      calls := calls + [c];
    }
  }

  /** The listeners one `setMediaElement(element)` call adds, with their own
      `canPlayHandled` flag. */
  class Attachment {
    const element: MediaElement
    var canPlayHandled: bool

    constructor (element: MediaElement)
      ensures this.element == element && !canPlayHandled
    {
      this.element := element;
      canPlayHandled := false;
    }
  }

  /** One `useMediaPlayer(source, container, elements)` instance. */
  class Player {
    const source: Source
    const progress: MP.ProgressStore

    // `state`
    var currentTime: real
    var duration: real
    var isPlaying: bool
    var isLoading: bool
    var volume: real
    var speed: real
    var error: Option<string>

    var audio: MediaElement?
    var video: MediaElement?
    var widget: Widget?
    var attachments: seq<Attachment>

    /** `timeTrackingInterval`; the interval ids the page still runs are
        `liveTimers`, and `nextTimerId` is the id `setInterval` hands out next. */
    var interval: Option<nat>
    var liveTimers: set<nat>
    var nextTimerId: nat

    /** The (time, duration) pair the progress watcher last saw. */
    var watchedTime: real
    var watchedDuration: real

    ghost predicate Valid()
      reads this, progress, progress.storage
    {
      progress.Valid() && nextTimerId > 0
      && (interval.None? ==> liveTimers == {})
      && (interval.Some? ==> liveTimers == {interval.value} && 0 < interval.value < nextTimerId)
    }

    /** The element the controls act on: `audioElement?.value || videoElement?.value`. */
    function Active(): (e: MediaElement?)
      reads this
      ensures e == null <==> audio == null && video == null
      ensures audio != null ==> e == audio
    {
      if audio != null then audio else video
    }

    /** Whether the controls talk to the widget rather than an element. */
    predicate UsesWidget()
      reads this
    {
      source.kind == MP.YouTube && widget != null
    }

    constructor (source: Source, storage: MP.LocalStorage, audio: MediaElement?, video: MediaElement?)
      requires storage.Valid()
      ensures Valid() && this.source == source && fresh(progress) && progress.storage == storage
      ensures forall kind: MP.MediaKind :: progress.Part(kind) == MP.Saved(storage.items, kind)
      ensures currentTime == 0.0 && duration == 0.0 && !isPlaying && isLoading
      ensures volume == 1.0 && speed == 1.0 && error == None
      ensures this.audio == audio && this.video == video && widget == null && attachments == []
      ensures interval == None && liveTimers == {}
    {
      this.source := source;
      progress := new MP.ProgressStore(storage);
      currentTime, duration := 0.0, 0.0;
      isPlaying, isLoading := false, true;
      volume, speed := 1.0, 1.0;
      error := None;
      this.audio, this.video := audio, video;
      widget := null;
      attachments := [];
      interval, liveTimers, nextTimerId := None, {}, 1;
      watchedTime, watchedDuration := 0.0, 0.0;
    }

    /** The progress watcher, run after a change of time or duration: it
        writes through `updateProgress` when both are positive. */
    method WatchStep(now: string)
      requires Valid()
      modifies this, progress, progress.storage
      ensures Valid()
      ensures watchedTime == currentTime && watchedDuration == duration
      ensures var changed := old(watchedTime) != currentTime || old(watchedDuration) != duration;
        if changed && currentTime > 0.0 && MP.Accepts(source.id, currentTime, duration) then
          progress.Part(source.kind) == MP.Put(old(progress.Part(source.kind)), MP.MakeRecord(source.id, source.kind, currentTime, duration, now))
          && progress.storage.items == old(progress.storage.items)[MP.StorageKey(source.kind) := progress.Part(source.kind)]
        else
          unchanged(progress, progress.storage)
      ensures forall k :: k != source.kind ==> progress.Part(k) == old(progress.Part(k))
      ensures currentTime == old(currentTime) && duration == old(duration) && isPlaying == old(isPlaying)
      ensures isLoading == old(isLoading) && volume == old(volume) && speed == old(speed) && error == old(error)
      ensures interval == old(interval) && liveTimers == old(liveTimers)
    {
      var changed := watchedTime != currentTime || watchedDuration != duration;
      watchedTime, watchedDuration := currentTime, duration;
      if changed && currentTime > 0.0 && duration > 0.0 {
        progress.UpdateProgress(source.id, source.kind, currentTime, duration, now);
      }
    }

    /** The widget received `c` and nothing else changed: the elements are
        untouched. */
    twostate predicate WidgetOnly(c: WidgetCall)
      requires SameBackends() && UsesWidget()
      reads this, widget, audio, video
    {
      && widget.calls == old(widget.calls) + [c]
      && widget.currentTime == old(widget.currentTime) && widget.duration == old(widget.duration)
      && (audio != null ==> unchanged(audio)) && (video != null ==> unchanged(video))
    }

    /** The player still refers to the same widget and elements. */
    twostate predicate SameBackends()
      reads this
    {
      widget == old(widget) && audio == old(audio) && video == old(video)
    }

    /** Off the widget path, the widget and the element not in use are
        untouched. */
    twostate predicate OthersUntouched()
      requires SameBackends()
      reads this, widget, audio, video
    {
      && (widget != null ==> unchanged(widget))
      && (video != null && video != Active() ==> unchanged(video))
    }

    /** The active element keeps its position, pause flag and duration. */
    twostate predicate ActivePlaybackKept()
      requires SameBackends()
      reads this, audio, video
    {
      Active() != null ==>
        && Active().currentTime == old(Active().currentTime) && Active().paused == old(Active().paused)
        && Active().duration == old(Active().duration) && Active().durationKnown == old(Active().durationKnown)
    }

    /** On the element path the widget and the element not in use are
        untouched, and the active element keeps its duration, volume and rate. */
    twostate predicate ActiveOnly()
      requires SameBackends()
      reads this, widget, audio, video
    {
      && OthersUntouched()
      && (Active() != null ==>
            && Active().duration == old(Active().duration) && Active().durationKnown == old(Active().durationKnown)
            && Active().volume == old(Active().volume) && Active().playbackRate == old(Active().playbackRate))
    }

    /** What `play()` leaves: the widget is told to play, or the active
        element is first moved to the state's time when it is more than 0.1 s
        off, and then plays unless its promise rejects. */
    twostate predicate PlayOutcome(rejects: bool)
      requires unchanged(this)
      reads this, widget, audio, video
    {
      if UsesWidget() then WidgetOnly(PlayVideo)
      else
        && ActiveOnly()
        && (Active() != null ==>
              && Active().paused == (old(Active().paused) && rejects)
              && Active().currentTime == (if NeedsResync(old(Active().currentTime), currentTime) then currentTime else old(Active().currentTime)))
    }

    /** What `pause()` leaves: the widget is told to pause, or the active
        element is paused where it stands. */
    twostate predicate PauseOutcome()
      requires unchanged(this)
      reads this, widget, audio, video
    {
      if UsesWidget() then WidgetOnly(PauseVideo)
      else
        && ActiveOnly()
        && (Active() != null ==> Active().paused && Active().currentTime == old(Active().currentTime))
    }

    /** `play()`. A rejected element play is swallowed: the state is untouched. */
    method Play(rejects: bool)
      requires Valid()
      modifies widget, audio, video
      ensures Valid()
      ensures PlayOutcome(rejects)
    {
      if UsesWidget() {
        widget.Call(PlayVideo);
      } else {
        var e := Active();
        if e != null {
          if NeedsResync(e.currentTime, currentTime) {
            e.currentTime := currentTime;
          }
          e.Play(rejects);
        }
      }
    }

    /** `pause()`. */
    method Pause()
      requires Valid()
      modifies widget, audio, video
      ensures Valid()
      ensures PauseOutcome()
    {
      if UsesWidget() {
        widget.Call(PauseVideo);
      } else {
        var e := Active();
        if e != null {
          e.paused := true;
        }
      }
    }

    /** `togglePlay()`: pause when the state says playing, play otherwise. */
    method TogglePlay(rejects: bool)
      requires Valid()
      modifies widget, audio, video
      ensures Valid()
      ensures if isPlaying then PauseOutcome() else PlayOutcome(rejects)
    {
      if isPlaying {
        Pause();
      } else {
        Play(rejects);
      }
    }

    /** `updateProgress(source.id, source.type, time, dur)` as the player
        sees it: an accepted write puts the record into the source's partition
        and saves that partition to its key; a refused one changes nothing.
        Other ids and other kinds keep their records either way. */
    twostate predicate Recorded(time: real, dur: real, now: string)
      reads progress, progress.storage
    {
      && (if MP.Accepts(source.id, time, dur) then
            && progress.Part(source.kind) == MP.Put(old(progress.Part(source.kind)), MP.MakeRecord(source.id, source.kind, time, dur, now))
            && progress.storage.items == old(progress.storage.items)[MP.StorageKey(source.kind) := progress.Part(source.kind)]
            && progress.GetProgress(source.id, source.kind) == Some(MP.MakeRecord(source.id, source.kind, time, dur, now))
          else unchanged(progress, progress.storage))
      && (forall other :: other != source.id ==> progress.GetProgress(other, source.kind) == old(progress.GetProgress(other, source.kind)))
      && (forall k :: k != source.kind ==> progress.Part(k) == old(progress.Part(k)))
    }

    /** The state `seek` leaves for the target it computed. The widget path
        moves the state only; the element path moves element and state and
        records progress at once; with neither, nothing happens. */
    twostate predicate SeekOutcome(target: real, now: string)
      reads this, widget, audio, video, progress, progress.storage
    {
      && SameBackends() && attachments == old(attachments)
      && (if old(UsesWidget()) then
            && WidgetOnly(SeekTo(target, true))
            && currentTime == target
            && unchanged(progress, progress.storage)
          else if old(Active()) != null then
            && ActiveOnly() && Active().paused == old(Active().paused)
            && Active().currentTime == target && currentTime == target
            && Recorded(target, duration, now)
          else
            && OthersUntouched()
            && currentTime == old(currentTime) && unchanged(progress, progress.storage))
      && duration == old(duration) && isPlaying == old(isPlaying) && isLoading == old(isLoading)
      && volume == old(volume) && speed == old(speed) && error == old(error)
      && interval == old(interval) && liveTimers == old(liveTimers) && nextTimerId == old(nextTimerId)
      && watchedTime == old(watchedTime) && watchedDuration == old(watchedDuration)
    }

    /** `seek(time)`: a value up to 1 is a fraction of the duration. */
    method Seek(time: real, now: string)
      requires Valid()
      modifies this, widget, audio, video, progress, progress.storage
      ensures Valid()
      ensures SeekOutcome(SeekTarget(time, old(duration)), now)
    {
      var target := SeekTarget(time, duration);
      if UsesWidget() {
        SeekWidget(target, now);
      } else {
        SeekElement(target, now);
      }
    }

    /** The widget path of `seek`: `seekTo(target, true)`, and the state moves. */
    method SeekWidget(target: real, now: string)
      requires Valid() && UsesWidget()
      modifies this, widget
      ensures Valid()
      ensures SeekOutcome(target, now)
    {
      widget.Call(SeekTo(target, true));
      currentTime := target;
    }

    /** The element path of `seek`: the element and the state move, and the
        new position is saved straight away. */
    method SeekElement(target: real, now: string)
      requires Valid() && !UsesWidget()
      modifies this, audio, video, progress, progress.storage
      ensures Valid()
      ensures SeekOutcome(target, now)
    {
      var e := Active();
      if e != null {
        e.currentTime := target;
        currentTime := target;
        progress.UpdateProgress(source.id, source.kind, currentTime, duration, now);
        assert ActiveOnly() && e.paused == old(e.paused);
        assert Recorded(target, duration, now);
      } else {
        assert OthersUntouched();
      }
    }

    /** `skipForward(seconds = 10)`: a seek to `currentTime + seconds`. */
    method SkipForward(now: string, seconds: real := DEFAULT_SKIP)
      requires Valid()
      modifies this, widget, audio, video, progress, progress.storage
      ensures Valid()
      ensures SeekOutcome(SeekTarget(old(currentTime) + seconds, old(duration)), now)
    {
      Seek(currentTime + seconds, now);
    }

    /** `skipBackward(seconds = 10)`: a seek to `currentTime - seconds`, which
        the seek rule reads as a fraction once it is 1 or less. */
    method SkipBackward(now: string, seconds: real := DEFAULT_SKIP)
      requires Valid()
      modifies this, widget, audio, video, progress, progress.storage
      ensures Valid()
      ensures SeekOutcome(SeekTarget(old(currentTime) - seconds, old(duration)), now)
    {
      Seek(currentTime - seconds, now);
    }

    /** `setVolume(volume)`: the widget takes a percentage; the element setter
        throws outside [0, 1], and then the state keeps its old volume. */
    method SetVolume(v: real)
      requires Valid()
      modifies this, widget, audio, video
      ensures Valid()
      ensures SameBackends() && attachments == old(attachments)
      ensures old(UsesWidget()) ==> WidgetOnly(WidgetCall.SetVolume(v * 100.0)) && volume == v
      ensures !old(UsesWidget()) ==> OthersUntouched() && ActivePlaybackKept()
      ensures !old(UsesWidget()) && old(Active()) != null ==>
        && Active().playbackRate == old(Active().playbackRate)
        && if 0.0 <= v <= 1.0 then Active().volume == v && volume == v
           else Active().volume == old(Active().volume) && volume == old(volume)
      ensures !old(UsesWidget()) && old(Active()) == null ==> volume == v
      ensures currentTime == old(currentTime) && duration == old(duration) && speed == old(speed)
      ensures isPlaying == old(isPlaying) && isLoading == old(isLoading) && error == old(error)
      ensures interval == old(interval) && liveTimers == old(liveTimers) && nextTimerId == old(nextTimerId)
      ensures watchedTime == old(watchedTime) && watchedDuration == old(watchedDuration)
    {
      if UsesWidget() {
        widget.Call(WidgetCall.SetVolume(v * 100.0));
      } else {
        var e := Active();
        if e != null {
          var threw := e.SetVolume(v);
          if threw {
            return;
          }
        }
      }
      volume := v;
    }

    /** `setSpeed(speed)`: applied to the active backend, then stored as given. */
    method SetSpeed(s: real)
      requires Valid()
      modifies this, widget, audio, video
      ensures Valid()
      ensures SameBackends() && attachments == old(attachments)
      ensures speed == s
      ensures old(UsesWidget()) ==> WidgetOnly(SetPlaybackRate(s))
      ensures !old(UsesWidget()) ==> OthersUntouched() && ActivePlaybackKept()
      ensures !old(UsesWidget()) && old(Active()) != null ==>
        Active().playbackRate == s && Active().volume == old(Active().volume)
      ensures currentTime == old(currentTime) && duration == old(duration) && volume == old(volume)
      ensures isPlaying == old(isPlaying) && isLoading == old(isLoading) && error == old(error)
      ensures interval == old(interval) && liveTimers == old(liveTimers) && nextTimerId == old(nextTimerId)
      ensures watchedTime == old(watchedTime) && watchedDuration == old(watchedDuration)
    {
      if UsesWidget() {
        widget.Call(SetPlaybackRate(s));
      } else {
        var e := Active();
        if e != null {
          e.playbackRate := s;
        }
      }
      speed := s;
    }

    /** `setMediaElement(element)`: null is ignored; otherwise the element
        becomes the audio or video element (a YouTube source keeps neither),
        gets a fresh set of listeners, and receives the state's volume and
        speed. `threw` reports the volume setter throwing, which ends the call
        with the listeners already added and the speed not applied. */
    method SetMediaElement(element: MediaElement?) returns (a: Attachment?, threw: bool)
      requires Valid()
      modifies this, element
      ensures Valid()
      ensures element == null ==> a == null && !threw && unchanged(this)
      ensures element != null ==>
        && a != null && fresh(a) && a.element == element && !a.canPlayHandled
        && attachments == old(attachments) + [a]
        && audio == (if source.kind == MP.Audio then element else old(audio))
        && video == (if source.kind == MP.Video then element else old(video))
        && (threw <==> !(0.0 <= volume <= 1.0))
        && (!threw ==> element.volume == volume && element.playbackRate == speed)
        && (threw ==> element.volume == old(element.volume) && element.playbackRate == old(element.playbackRate))
        && element.currentTime == old(element.currentTime) && element.paused == old(element.paused)
        && element.duration == old(element.duration) && element.durationKnown == old(element.durationKnown)
      ensures currentTime == old(currentTime) && duration == old(duration) && isPlaying == old(isPlaying)
      ensures isLoading == old(isLoading) && volume == old(volume) && speed == old(speed) && error == old(error)
      ensures widget == old(widget) && interval == old(interval) && liveTimers == old(liveTimers)
      ensures nextTimerId == old(nextTimerId) && watchedTime == old(watchedTime) && watchedDuration == old(watchedDuration)
    {
      if element == null {
        return null, false;
      }
      if source.kind == MP.Audio {
        audio := element;
      } else if source.kind == MP.Video {
        video := element;
      }
      a := new Attachment(element);
      attachments := attachments + [a];
      threw := element.SetVolume(volume);
      if threw {
        return;
      }
      element.playbackRate := speed;
    }

    /** `loadedmetadata`: a usable duration is taken over; loading ends. */
    method OnLoadedMetadata(a: Attachment)
      requires Valid()
      modifies this
      ensures Valid()
      ensures duration == if UsableDuration(a.element.durationKnown, a.element.duration) then a.element.duration else old(duration)
      ensures !isLoading
      ensures currentTime == old(currentTime) && isPlaying == old(isPlaying) && volume == old(volume)
      ensures speed == old(speed) && error == old(error) && audio == old(audio) && video == old(video)
      ensures widget == old(widget) && attachments == old(attachments) && interval == old(interval)
      ensures liveTimers == old(liveTimers) && nextTimerId == old(nextTimerId)
      ensures watchedTime == old(watchedTime) && watchedDuration == old(watchedDuration)
    {
      if UsableDuration(a.element.durationKnown, a.element.duration) {
        duration := a.element.duration;
      }
      isLoading := false;
    }

    /** `timeupdate`: the state follows the element and progress is recorded. */
    method OnTimeUpdate(a: Attachment, now: string)
      requires Valid()
      modifies this, progress, progress.storage
      ensures Valid()
      ensures currentTime == a.element.currentTime
      ensures Recorded(currentTime, duration, now)
      ensures duration == old(duration) && isPlaying == old(isPlaying) && isLoading == old(isLoading)
      ensures volume == old(volume) && speed == old(speed) && error == old(error)
      ensures audio == old(audio) && video == old(video) && widget == old(widget) && attachments == old(attachments)
      ensures interval == old(interval) && liveTimers == old(liveTimers) && nextTimerId == old(nextTimerId)
      ensures watchedTime == old(watchedTime) && watchedDuration == old(watchedDuration)
    {
      currentTime := a.element.currentTime;
      progress.UpdateProgress(source.id, source.kind, currentTime, duration, now);
    }

    /** `durationchange`: a usable duration is taken over and recorded. */
    method OnDurationChange(a: Attachment, now: string)
      requires Valid()
      modifies this, progress, progress.storage
      ensures Valid()
      ensures !UsableDuration(a.element.durationKnown, a.element.duration) ==> unchanged(this, progress, progress.storage)
      ensures UsableDuration(a.element.durationKnown, a.element.duration) ==>
        && duration == a.element.duration
        && Recorded(currentTime, duration, now)
      ensures currentTime == old(currentTime) && isPlaying == old(isPlaying) && isLoading == old(isLoading)
      ensures volume == old(volume) && speed == old(speed) && error == old(error)
      ensures audio == old(audio) && video == old(video) && widget == old(widget) && attachments == old(attachments)
      ensures interval == old(interval) && liveTimers == old(liveTimers) && nextTimerId == old(nextTimerId)
      ensures watchedTime == old(watchedTime) && watchedDuration == old(watchedDuration)
    {
      var e := a.element;
      if UsableDuration(e.durationKnown, e.duration) {
        duration := e.duration;
        progress.UpdateProgress(source.id, source.kind, currentTime, e.duration, now);
      }
    }

    /** `play` event. */
    method OnPlay()
      requires Valid()
      modifies this
      ensures Valid()
      ensures isPlaying && !isLoading
      ensures currentTime == old(currentTime) && duration == old(duration) && volume == old(volume)
      ensures speed == old(speed) && error == old(error) && audio == old(audio) && video == old(video)
      ensures widget == old(widget) && attachments == old(attachments) && interval == old(interval)
      ensures liveTimers == old(liveTimers) && nextTimerId == old(nextTimerId)
      ensures watchedTime == old(watchedTime) && watchedDuration == old(watchedDuration)
    {
      isPlaying, isLoading := true, false;
    }

    /** `pause` event. */
    method OnPause()
      requires Valid()
      modifies this
      ensures Valid()
      ensures !isPlaying && isLoading == old(isLoading)
      ensures currentTime == old(currentTime) && duration == old(duration) && volume == old(volume)
      ensures speed == old(speed) && error == old(error) && audio == old(audio) && video == old(video)
      ensures widget == old(widget) && attachments == old(attachments) && interval == old(interval)
      ensures liveTimers == old(liveTimers) && nextTimerId == old(nextTimerId)
      ensures watchedTime == old(watchedTime) && watchedDuration == old(watchedDuration)
    {
      isPlaying := false;
    }

    /** `waiting` event. */
    method OnWaiting()
      requires Valid()
      modifies this
      ensures Valid()
      ensures isLoading && isPlaying == old(isPlaying)
      ensures currentTime == old(currentTime) && duration == old(duration) && volume == old(volume)
      ensures speed == old(speed) && error == old(error) && audio == old(audio) && video == old(video)
      ensures widget == old(widget) && attachments == old(attachments) && interval == old(interval)
      ensures liveTimers == old(liveTimers) && nextTimerId == old(nextTimerId)
      ensures watchedTime == old(watchedTime) && watchedDuration == old(watchedDuration)
    {
      isLoading := true;
    }

    /** `canplay`: only the first one per attachment ends loading and moves the
        element to a positive state time. */
    method OnCanPlay(a: Attachment)
      requires Valid()
      modifies this, a, a.element
      ensures Valid()
      ensures a.canPlayHandled
      ensures old(a.canPlayHandled) ==> unchanged(this, a, a.element)
      ensures !old(a.canPlayHandled) ==>
        && !isLoading
        && a.element.currentTime == (if currentTime > 0.0 then currentTime else old(a.element.currentTime))
        && currentTime == old(currentTime) && duration == old(duration) && isPlaying == old(isPlaying)
        && volume == old(volume) && speed == old(speed) && error == old(error)
        && audio == old(audio) && video == old(video) && widget == old(widget) && attachments == old(attachments)
        && interval == old(interval) && liveTimers == old(liveTimers) && nextTimerId == old(nextTimerId)
        && watchedTime == old(watchedTime) && watchedDuration == old(watchedDuration)
      ensures a.element.volume == old(a.element.volume) && a.element.playbackRate == old(a.element.playbackRate)
      ensures a.element.paused == old(a.element.paused)
      ensures a.element.duration == old(a.element.duration) && a.element.durationKnown == old(a.element.durationKnown)
    {
      if !a.canPlayHandled {
        isLoading := false;
        if currentTime > 0.0 {
          a.element.currentTime := currentTime;
        }
        a.canPlayHandled := true;
      }
    }

    /** `error` event. */
    method OnError()
      requires Valid()
      modifies this
      ensures Valid()
      ensures error == Some(LoadingError(source.kind)) && !isLoading
      ensures currentTime == old(currentTime) && duration == old(duration) && isPlaying == old(isPlaying)
      ensures volume == old(volume) && speed == old(speed) && audio == old(audio) && video == old(video)
      ensures widget == old(widget) && attachments == old(attachments) && interval == old(interval)
      ensures liveTimers == old(liveTimers) && nextTimerId == old(nextTimerId)
      ensures watchedTime == old(watchedTime) && watchedDuration == old(watchedDuration)
    {
      error := Some(LoadingError(source.kind));
      isLoading := false;
    }

    /** `onMounted`: restore saved progress into the state, then, for a
        YouTube source with a container, load the API and create the widget for
        the extracted video id. `constructionThrows` stands for `new YT.Player`
        throwing `thrown`. */
    method Mount(hasContainer: bool, loader: YT.ApiLoader, constructionThrows: bool, thrown: string)
      requires Valid() && loader.Valid()
      modifies this, loader
      ensures Valid() && loader.Valid()
      ensures match old(progress.GetProgress(source.id, source.kind))
        case Some(saved) => currentTime == saved.currentTime && duration == saved.duration
        case None => currentTime == old(currentTime) && duration == old(duration)
      ensures source.kind == MP.YouTube && hasContainer ==>
        && loader.promise != null
        && (old(loader.promise) != null ==> unchanged(loader))
        && (old(loader.promise) == null ==> loader.scriptsInjected == old(loader.scriptsInjected) + 1)
        && (constructionThrows ==> error == Some(thrown) && !isLoading && widget == old(widget))
        && (!constructionThrows ==>
              && widget != null && fresh(widget) && widget.videoId == YT.GetYouTubeVideoId(source.url)
              && widget.calls == [] && error == old(error) && isLoading == old(isLoading))
      ensures !(source.kind == MP.YouTube && hasContainer) ==>
        unchanged(loader) && widget == old(widget) && error == old(error) && isLoading == old(isLoading)
      ensures isPlaying == old(isPlaying) && volume == old(volume) && speed == old(speed)
      ensures audio == old(audio) && video == old(video) && attachments == old(attachments)
      ensures interval == old(interval) && liveTimers == old(liveTimers) && nextTimerId == old(nextTimerId)
      ensures watchedTime == old(watchedTime) && watchedDuration == old(watchedDuration)
    {
      RestoreSaved();
      if source.kind == MP.YouTube && hasContainer {
        StartWidget(loader, constructionThrows, thrown);
      }
    }

    /** The first half of `onMounted`: saved progress goes into the state. */
    method RestoreSaved()
      requires Valid()
      modifies this
      ensures Valid()
      ensures match old(progress.GetProgress(source.id, source.kind))
        case Some(saved) => currentTime == saved.currentTime && duration == saved.duration
        case None => currentTime == old(currentTime) && duration == old(duration)
      ensures isPlaying == old(isPlaying) && isLoading == old(isLoading) && volume == old(volume)
      ensures speed == old(speed) && error == old(error) && widget == old(widget)
      ensures audio == old(audio) && video == old(video) && attachments == old(attachments)
      ensures interval == old(interval) && liveTimers == old(liveTimers) && nextTimerId == old(nextTimerId)
      ensures watchedTime == old(watchedTime) && watchedDuration == old(watchedDuration)
    {
      var saved := progress.GetProgress(source.id, source.kind);
      if saved.Some? {
        currentTime := saved.value.currentTime;
        duration := saved.value.duration;
      }
    }

    /** The second half of `onMounted` for a YouTube source with a container:
        load the API and create the widget for the extracted video id. */
    method StartWidget(loader: YT.ApiLoader, constructionThrows: bool, thrown: string)
      requires Valid() && loader.Valid()
      modifies this, loader
      ensures Valid() && loader.Valid() && loader.promise != null
      ensures old(loader.promise) != null ==> unchanged(loader)
      ensures old(loader.promise) == null ==> loader.scriptsInjected == old(loader.scriptsInjected) + 1
      ensures constructionThrows ==> error == Some(thrown) && !isLoading && widget == old(widget)
      ensures !constructionThrows ==>
        && widget != null && fresh(widget) && widget.videoId == YT.GetYouTubeVideoId(source.url)
        && widget.calls == [] && error == old(error) && isLoading == old(isLoading)
      ensures currentTime == old(currentTime) && duration == old(duration)
      ensures isPlaying == old(isPlaying) && volume == old(volume) && speed == old(speed)
      ensures audio == old(audio) && video == old(video) && attachments == old(attachments)
      ensures interval == old(interval) && liveTimers == old(liveTimers) && nextTimerId == old(nextTimerId)
      ensures watchedTime == old(watchedTime) && watchedDuration == old(watchedDuration)
    {
      var _ := loader.Load();
      var videoId := YT.GetYouTubeVideoId(source.url);
      if constructionThrows {
        error := Some(thrown);
        isLoading := false;
      } else {
        widget := new Widget(videoId);
      }
    }

    /** The widget's `onReady`: loading ends, the duration comes from the
        widget, and saved progress is sought to. */
    method OnReady()
      requires Valid() && widget != null
      modifies this, widget
      ensures Valid()
      ensures audio == old(audio) && video == old(video) && widget == old(widget) && attachments == old(attachments)
      ensures !isLoading && duration == old(widget.duration)
      ensures widget.currentTime == old(widget.currentTime) && widget.duration == old(widget.duration)
      ensures match old(progress.GetProgress(source.id, source.kind))
        case Some(saved) =>
          currentTime == saved.currentTime && widget.calls == old(widget.calls) + [SeekTo(saved.currentTime, true)]
        case None =>
          currentTime == old(currentTime) && widget.calls == old(widget.calls)
      ensures isPlaying == old(isPlaying) && volume == old(volume) && speed == old(speed) && error == old(error)
      ensures interval == old(interval) && liveTimers == old(liveTimers) && nextTimerId == old(nextTimerId)
      ensures watchedTime == old(watchedTime) && watchedDuration == old(watchedDuration)
    {
      var saved := progress.GetProgress(source.id, source.kind);
      isLoading := false;
      duration := widget.duration;
      if saved.Some? {
        widget.Call(SeekTo(saved.value.currentTime, true));
        currentTime := saved.value.currentTime;
      }
    }

    /** Cancels the polling timer, if any. */
    method ClearPoll()
      requires Valid()
      modifies this
      ensures Valid()
      ensures interval == None && liveTimers == {} && nextTimerId == old(nextTimerId)
      ensures currentTime == old(currentTime) && duration == old(duration) && isPlaying == old(isPlaying)
      ensures isLoading == old(isLoading) && volume == old(volume) && speed == old(speed) && error == old(error)
      ensures audio == old(audio) && video == old(video) && widget == old(widget) && attachments == old(attachments)
      ensures watchedTime == old(watchedTime) && watchedDuration == old(watchedDuration)
    {
      if interval.Some? {
        liveTimers := liveTimers - {interval.value};
        interval := None;
      }
    }

    /** The widget's `onStateChange(event)`: PLAYING starts the 250 ms poll
        unless one runs, PAUSED and ENDED stop it, BUFFERING marks loading,
        every other code is ignored. */
    method OnStateChange(code: int)
      requires Valid()
      modifies this
      ensures Valid()
      ensures code == PLAYING ==>
        && isPlaying && !isLoading
        && (old(interval).Some? ==> interval == old(interval) && liveTimers == old(liveTimers) && nextTimerId == old(nextTimerId))
        && (old(interval).None? ==> interval == Some(old(nextTimerId)) && liveTimers == {old(nextTimerId)} && nextTimerId == old(nextTimerId) + 1)
      ensures code == PAUSED || code == ENDED ==>
        !isPlaying && !isLoading && interval == None && liveTimers == {} && nextTimerId == old(nextTimerId)
      ensures code == BUFFERING ==>
        isLoading && isPlaying == old(isPlaying) && interval == old(interval) && liveTimers == old(liveTimers)
        && nextTimerId == old(nextTimerId)
      ensures code !in {PLAYING, PAUSED, ENDED, BUFFERING} ==> unchanged(this)
      ensures currentTime == old(currentTime) && duration == old(duration) && volume == old(volume)
      ensures speed == old(speed) && error == old(error) && audio == old(audio) && video == old(video)
      ensures widget == old(widget) && attachments == old(attachments)
      ensures watchedTime == old(watchedTime) && watchedDuration == old(watchedDuration)
    {
      if code == PLAYING {
        isPlaying, isLoading := true, false;
        if interval.None? {
          interval := Some(nextTimerId);
          liveTimers := liveTimers + {nextTimerId};
          nextTimerId := nextTimerId + 1;
        }
      } else if code == PAUSED || code == ENDED {
        isPlaying, isLoading := false, false;
        ClearPoll();
      } else if code == BUFFERING {
        isLoading := true;
      }
    }

    /** The widget's `onError`. */
    method OnWidgetError()
      requires Valid()
      modifies this
      ensures Valid()
      ensures error == Some(YouTubeError) && !isLoading
      ensures currentTime == old(currentTime) && duration == old(duration) && isPlaying == old(isPlaying)
      ensures volume == old(volume) && speed == old(speed) && audio == old(audio) && video == old(video)
      ensures widget == old(widget) && attachments == old(attachments) && interval == old(interval)
      ensures liveTimers == old(liveTimers) && nextTimerId == old(nextTimerId)
      ensures watchedTime == old(watchedTime) && watchedDuration == old(watchedDuration)
    {
      error := Some(YouTubeError);
      isLoading := false;
    }

    /** One run of the polling timer: the state follows the widget's current
        time and progress is recorded. */
    method PollTick(now: string)
      requires Valid() && interval.Some?
      modifies this, progress, progress.storage
      ensures Valid()
      ensures widget == null ==> unchanged(this, progress, progress.storage)
      ensures widget != null ==> currentTime == widget.currentTime && Recorded(currentTime, duration, now)
      ensures duration == old(duration) && isPlaying == old(isPlaying) && isLoading == old(isLoading)
      ensures volume == old(volume) && speed == old(speed) && error == old(error)
      ensures audio == old(audio) && video == old(video) && widget == old(widget) && attachments == old(attachments)
      ensures interval == old(interval) && liveTimers == old(liveTimers) && nextTimerId == old(nextTimerId)
      ensures watchedTime == old(watchedTime) && watchedDuration == old(watchedDuration)
    {
      if widget != null {
        currentTime := widget.currentTime;
        progress.UpdateProgress(source.id, source.kind, currentTime, duration, now);
      }
    }

    /** `onUnmounted`: the polling timer is cleared. */
    method Unmount()
      requires Valid()
      modifies this
      ensures Valid()
      ensures interval == None && liveTimers == {} && nextTimerId == old(nextTimerId)
      ensures currentTime == old(currentTime) && duration == old(duration) && isPlaying == old(isPlaying)
      ensures isLoading == old(isLoading) && volume == old(volume) && speed == old(speed) && error == old(error)
      ensures audio == old(audio) && video == old(video) && widget == old(widget) && attachments == old(attachments)
      ensures watchedTime == old(watchedTime) && watchedDuration == old(watchedDuration)
    {
      ClearPoll();
    }
  }
}
