/**
 * The recorder page of pages/recorder/index.tsx as an object whose fields
 * the handlers update in place: React state and refs are fields, each
 * handler is a method, and each method is proved to move the page exactly
 * as the matching function of RecorderSpec says.
 */
module RecorderPage {
  import opened Wrappers
  import opened RecorderSpec

  class Page {
    // React state
    var state: SessionState
    var time: nat
    var audioUrl: Option<nat>
    var toastVisible: bool
    // refs
    var timer: Option<nat>
    var recorder: Option<Recorder>
    var chunks: seq<Blob>
    // the id captured by the toast effect's cleanup
    var toastTimer: Option<nat>
    // the browser, abstracted
    var timers: map<nat, HostTimer>
    var nextHandle: nat
    var objectUrls: seq<Blob>
    var pendingStreams: nat
    var recordersMade: nat
    var issued: seq<Issued>

    /** The page's fields as one value. */
    function Snapshot(): View
      reads this
    {
      View(state, time, timer, recorder, chunks, audioUrl, toastVisible, toastTimer,
           timers, nextHandle, objectUrls, pendingStreams, recordersMade, issued)
    }

    /** Mounting the page. */
    constructor ()
      ensures Snapshot() == Init()
    {
      state, time, audioUrl, toastVisible := Idle, 0, None, false;
      timer, recorder, chunks, toastTimer := None, None, [], None;
      timers, nextHandle, objectUrls := map[], 1, [];
      pendingStreams, recordersMade, issued := 0, 0, [];
    }

    /** `setInterval`: the host's next handle, now a live interval. */
    method SetInterval(periodMs: nat) returns (h: nat)
      modifies this
      ensures h == old(nextHandle)
      ensures Snapshot() == old(Snapshot()).(timers := old(timers)[h := Interval(periodMs)], nextHandle := h + 1)
    {
      h := nextHandle;
      timers := timers[h := Interval(periodMs)];
      nextHandle := nextHandle + 1;
    }

    /** `setTimeout`: the host's next handle, now a pending timeout. */
    method SetTimeout(delayMs: nat) returns (h: nat)
      modifies this
      ensures h == old(nextHandle)
      ensures Snapshot() == old(Snapshot()).(timers := old(timers)[h := Timeout(delayMs)], nextHandle := h + 1)
    {
      h := nextHandle;
      timers := timers[h := Timeout(delayMs)];
      nextHandle := nextHandle + 1;
    }

    /** `clearInterval` / `clearTimeout`. */
    method ClearTimer(h: nat)
      modifies this
      ensures Snapshot() == old(Snapshot()).(timers := old(timers) - {h})
    {
      timers := timers - {h};
    }

    method StartTimer()
      modifies this
      ensures Snapshot() == RecorderSpec.StartTimer(old(Snapshot()))
    {
      var h := SetInterval(TickPeriodMs);
      timer := Some(h);
    }

    method StopTimer()
      modifies this
      ensures Snapshot() == RecorderSpec.StopTimer(old(Snapshot()))
    {
      if timer.Some? {
        ClearTimer(timer.value);
        timer := None;
      }
    }

    /** `showToast`, and the effect that its change of `toastVisible` runs. */
    method ShowToast()
      modifies this
      ensures Snapshot() == RecorderSpec.ShowToast(old(Snapshot()))
    {
      if !toastVisible {
        toastVisible := true;
        var id := SetTimeout(ToastDismissMs);
        toastTimer := Some(id);
      }
    }

    method OnStartRecord()
      modifies this
      ensures Snapshot() == RecorderSpec.OnStartRecord(old(Snapshot()))
    {
      time := 0;
      audioUrl := None;
      StartTimer();
      state := Recording;
    }

    method OnStopRecord(url: nat)
      modifies this
      ensures Snapshot() == RecorderSpec.OnStopRecord(old(Snapshot()), url)
    {
      audioUrl := Some(url);
      state := Idle;
      StopTimer();
      ShowToast();
    }

    /** `record()`: the microphone request is sent; the rest happens when
        it resolves. */
    method Record()
      modifies this
      ensures Snapshot() == RecorderSpec.Record(old(Snapshot()))
    {
      pendingStreams := pendingStreams + 1;
    }

    /** The `.then` of the microphone request: the recorder is created,
        stored in the ref, and started. */
    method OnStreamAcquired()
      requires pendingStreams > 0
      modifies this
      ensures Snapshot() == RecorderSpec.OnStreamAcquired(old(Snapshot()))
    {
      pendingStreams := pendingStreams - 1;
      var r := Recorder(recordersMade, RecorderMime);
      recordersMade := recordersMade + 1;
      recorder := Some(r);
      issued := issued + [Issued(r.id, StartCmd)];
    }

    /** The recorder's `onstart`. */
    method OnRecorderStart()
      modifies this
      ensures Snapshot() == RecorderSpec.OnStartRecord(old(Snapshot()))
    {
      OnStartRecord();
    }

    /** The recorder's `ondataavailable`: the chunk goes at the end of the
        buffer. */
    method OnDataAvailable(chunk: Blob)
      modifies this
      ensures Snapshot() == RecorderSpec.OnDataAvailable(old(Snapshot()), chunk)
    {
      chunks := chunks + [chunk];
    }

    /** `URL.createObjectURL`: a new URL denoting `blob`. */
    method CreateObjectUrl(blob: Blob) returns (url: nat)
      modifies this
      ensures url == |old(objectUrls)|
      ensures Snapshot() == old(Snapshot()).(objectUrls := old(objectUrls) + [blob])
    {
      url := |objectUrls|;
      objectUrls := objectUrls + [blob];
    }

    /** The recorder's `onstop`, with the stream the handler closed over.
        `thrown` is the TypeError of reading the first chunk of an empty
        buffer, which ends the handler before it changes anything. */
    method OnRecorderStop(stream: array<bool>) returns (thrown: bool)
      modifies this, stream
      ensures Snapshot() == RecorderSpec.OnRecorderStop(old(Snapshot()))
      ensures thrown <==> old(chunks) == []
      ensures thrown ==> unchanged(stream)
      ensures !thrown ==> forall i :: 0 <= i < stream.Length ==> !stream[i]
    {
      if chunks == [] {
        return true;
      }
      var blob := Blob(JoinParts(chunks), chunks[0].mime);
      chunks := [];
      var url := CreateObjectUrl(blob);
      OnStopRecord(url);
      StopAudioTracks(stream);
      thrown := false;
    }

    method Stop()
      modifies this
      ensures Snapshot() == Send(old(Snapshot()), StopCmd)
    {
      if recorder.Some? {
        issued := issued + [Issued(recorder.value.id, StopCmd)];
      }
    }

    method Pause()
      modifies this
      ensures Snapshot() == Send(old(Snapshot()), PauseCmd)
    {
      if recorder.Some? {
        issued := issued + [Issued(recorder.value.id, PauseCmd)];
      }
    }

    method Resume()
      modifies this
      ensures Snapshot() == Send(old(Snapshot()), ResumeCmd)
    {
      if recorder.Some? {
        issued := issued + [Issued(recorder.value.id, ResumeCmd)];
      }
    }

    method OnPressRecord()
      modifies this
      ensures Snapshot() == RecorderSpec.Record(old(Snapshot()))
    {
      Record();
    }

    method OnPressSave()
      modifies this
      ensures Snapshot() == Send(old(Snapshot()), StopCmd)
    {
      Stop();
    }

    method OnPressPause()
      modifies this
      ensures Snapshot() == PressPause(old(Snapshot()))
    {
      if state == Recording {
        Pause();
        StopTimer();
        state := Paused;
      } else if state == Paused {
        Resume();
        StartTimer();
        state := Recording;
      }
    }

    /** The ticker's interval `h` calls back. */
    method OnInterval(h: nat)
      requires h in ActiveIntervals(Snapshot())
      modifies this
      ensures Snapshot() == Tick(old(Snapshot()), h)
    {
      time := time + 1;
    }

    /** The toast's dismissal timeout `h` calls back. */
    method OnToastTimeout(h: nat)
      requires h in timers && timers[h].Timeout?
      modifies this
      ensures Snapshot() == ToastTimeout(old(Snapshot()), h)
    {
      var wasVisible := toastVisible;
      timers := timers - {h};
      toastVisible := false;
      if wasVisible && toastTimer.Some? {
        ClearTimer(toastTimer.value);
        toastTimer := None;
      }
    }

    /** Tearing the page down. */
    method Unmount()
      modifies this
      ensures Snapshot() == RecorderSpec.Unmount(old(Snapshot()))
    {
      if toastTimer.Some? {
        ClearTimer(toastTimer.value);
        toastTimer := None;
      }
    }

    /** Deliver one event to the handler the page registered for it;
        `stream` is the one the stopping recorder's handler closed over. */
    method Handle(e: Event, stream: array<bool>)
      requires Enabled(Snapshot(), e)
      modifies this, stream
      ensures Snapshot() == Next(old(Snapshot()), e)
      ensures e == RecorderStopped && old(chunks) != [] ==> forall i :: 0 <= i < stream.Length ==> !stream[i]
      ensures e != RecorderStopped || old(chunks) == [] ==> unchanged(stream)
    {
      match e
      case Press(PressRecord) => OnPressRecord();
      case Press(PressPauseToggle) => OnPressPause();
      case Press(PressSave) => OnPressSave();
      case StreamGranted => OnStreamAcquired();
      case RecorderStarted => OnRecorderStart();
      case DataAvailable(c) => OnDataAvailable(c);
      case RecorderStopped => var _ := OnRecorderStop(stream);
      case IntervalFired(h) => OnInterval(h);
      case TimeoutFired(h) => OnToastTimeout(h);
    }
  }

  /** Stopping each audio track of the stream the recorder was built on, so
      that the browser leaves its recording state (true stands for a live
      track). */
  method StopAudioTracks(tracks: array<bool>)
    modifies tracks
    ensures forall i :: 0 <= i < tracks.Length ==> !tracks[i]
  {
    var i := 0;
    while i < tracks.Length
      invariant 0 <= i <= tracks.Length
      invariant forall j :: 0 <= j < i ==> !tracks[j]
    {
      tracks[i] := false;
      i := i + 1;
    }
  }
}
