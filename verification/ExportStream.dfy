/** The server-sent events of an export job: what the client sees for every sequence of job reads. */
module ExportStream {
  import opened Wrappers

  datatype JobStatus = Pending | Running | Succeeded | Failed | Cancelled

  datatype Job = Job(progress: int, processed: int, total: int, status: JobStatus, error: Option<string>)

  /** Reading the job by its uuid; None when it cannot be read. */
  type Read = Option<Job>

  datatype Frame =
    | Progress(progress: int, processed: int, total: int, status: JobStatus)
    | Heartbeat
    | Done(status: JobStatus, error: Option<string>)

  predicate IsTerminal(s: JobStatus) {
    s == Succeeded || s == Failed || s == Cancelled
  }

  predicate ProgressChanged(last: Job, job: Job) {
    last.progress != job.progress || last.processed != job.processed || last.status != job.status
  }

  function ProgressOf(job: Job): Frame {
    Progress(job.progress, job.processed, job.total, job.status)
  }

  const VANISHED: Frame := Done(Failed, Some("job not found"))

  /** The stream so far: the job of the last progress frame, and whether it is closed. */
  datatype Stream = Stream(frames: seq<Frame>, last: Option<Job>, closed: bool)

  /** One read: the first one always shows the progress, later ones only a change. */
  function Tick(s: Stream, read: Read): Stream {
    if s.closed then s
    else
      match read
      case None => Stream(s.frames + [VANISHED], s.last, true)
      case Some(job) =>
        var show := s.last.None? || ProgressChanged(s.last.value, job);
        var frames := s.frames + [if show then ProgressOf(job) else Heartbeat];
        var last := if show then Some(job) else s.last;
        if IsTerminal(job.status) then Stream(frames + [Done(job.status, job.error)], last, true)
        else Stream(frames, last, false)
  }

  function After(polls: seq<Read>): Stream {
    if polls == [] then Stream([], None, false) else Tick(After(polls[..|polls| - 1]), polls[|polls| - 1])
  }

  // --- The loop as it runs ----------------------------------------------------------------------

  /** Reads until the stream closes or the polls end, which is when the client leaves. */
  method StreamJobEvents(polls: seq<Read>) returns (frames: seq<Frame>)
    ensures frames == After(polls).frames
    ensures AllInProgress(polls) ==> |frames| == |polls| && NoDone(frames)
    ensures forall k :: 0 <= k < |polls| && FirstEnd(polls, k) ==> EndsAs(frames, polls[k])
  {
    StreamEnds(polls);
    hide AllInProgress, FirstEnd, NoDone, EndsAs;
    frames := [];
    assert polls[..0] == [];
    if polls == [] {
      return;
    }
    // the initial state
    assert polls[..1][..0] == [];
    if polls[0].None? {
      frames := frames + [VANISHED];
      ClosedStays(polls, 1);
      return;
    }
    var last := polls[0].value;
    frames := frames + [Progress(last.progress, last.processed, last.total, last.status)];
    if IsTerminal(last.status) {
      frames := frames + [Done(last.status, last.error)];
      ClosedStays(polls, 1);
      return;
    }
    for i := 1 to |polls|
      invariant After(polls[..i]) == Stream(frames, Some(last), false)
    {
      assert polls[..i + 1][..i] == polls[..i];
      if polls[i].None? {
        frames := frames + [VANISHED];
        ClosedStays(polls, i + 1);
        return;
      }
      var job := polls[i].value;
      if ProgressChanged(last, job) {
        frames := frames + [Progress(job.progress, job.processed, job.total, job.status)];
        last := job;
      } else {
        frames := frames + [Heartbeat];
      }
      if IsTerminal(job.status) {
        frames := frames + [Done(job.status, job.error)];
        ClosedStays(polls, i + 1);
        return;
      }
    }
    assert polls[..|polls|] == polls;
  }

  /** The job is there and has not ended. */
  predicate InProgress(read: Read) {
    read.Some? && (read.value.status == Pending || read.value.status == Running)
  }

  ghost predicate AllInProgress(polls: seq<Read>) {
    forall k :: 0 <= k < |polls| ==> InProgress(polls[k])
  }

  /** The first read that does not find the job in progress. */
  ghost predicate FirstEnd(polls: seq<Read>, k: int) {
    0 <= k < |polls| && AllInProgress(polls[..k]) && !InProgress(polls[k])
  }

  ghost predicate NoDone(frames: seq<Frame>) {
    forall k :: 0 <= k < |frames| ==> !frames[k].Done?
  }

  /** A done is last: the job's own status and error, or the failure of a job that is gone. */
  ghost predicate EndsAs(frames: seq<Frame>, read: Read) {
    && frames != []
    && frames[|frames| - 1] == if read.None? then Done(Failed, Some("job not found")) else Done(read.value.status, read.value.error)
  }

  lemma StreamEnds(polls: seq<Read>)
    ensures AllInProgress(polls) ==> |After(polls).frames| == |polls| && NoDone(After(polls).frames)
    ensures forall k :: 0 <= k < |polls| && FirstEnd(polls, k) ==> EndsAs(After(polls).frames, polls[k])
  {
    hide After, AllInProgress, FirstEnd, NoDone, EndsAs;
    if AllInProgress(polls) {
      OpenInProgress(polls);
    }
    forall k | 0 <= k < |polls| && FirstEnd(polls, k)
      ensures EndsAs(After(polls).frames, polls[k])
    {
      EndOfStream(polls, k);
    }
  }

  /** While the job goes on each read sends one frame and none of them is a done. The first read that
      does not find it going on sends the done that is last. */
  lemma EndOfStream(polls: seq<Read>, k: int)
    requires FirstEnd(polls, k)
    ensures EndsAs(After(polls).frames, polls[k])
    ensures |After(polls[..k]).frames| == k && NoDone(After(polls[..k]).frames)
  {
    hide After, AllInProgress, NoDone, EndsAs, InProgress;
    OpenInProgress(polls[..k]);
    EndsAt(polls, k);
    ClosedStays(polls, k + 1);
  }

  lemma {:induction false} OpenInProgress(polls: seq<Read>)
    requires AllInProgress(polls)
    ensures !After(polls).closed && |After(polls).frames| == |polls| && NoDone(After(polls).frames)
  {
    if polls == [] {
    } else {
      OpenInProgress(polls[..|polls| - 1]);
    }
  }

  lemma EndsAt(polls: seq<Read>, k: nat)
    requires k < |polls| && !After(polls[..k]).closed && !InProgress(polls[k])
    ensures After(polls[..k + 1]).closed && EndsAs(After(polls[..k + 1]).frames, polls[k])
  {
    assert polls[..k + 1][..k] == polls[..k];
  }

  lemma {:induction false} ClosedStays(polls: seq<Read>, k: nat)
    requires k <= |polls| && After(polls[..k]).closed
    ensures After(polls) == After(polls[..k])
    decreases |polls|
  {
    if k == |polls| {
      assert polls[..k] == polls;
    } else {
      assert polls[..|polls| - 1][..k] == polls[..k];
      ClosedStays(polls[..|polls| - 1], k);
    }
  }

  // --- What the client sees ---------------------------------------------------------------------

  /** The last progress frame, if any. */
  function LastProgress(frames: seq<Frame>): (p: Option<Frame>)
    ensures p.Some? ==> p.value.Progress?
  {
    if frames == [] then None
    else if frames[|frames| - 1].Progress? then Some(frames[|frames| - 1])
    else LastProgress(frames[..|frames| - 1])
  }

  /** Progress first, then progress and heartbeats, then at most one done, last of all; or a done
      alone when the first read failed. */
  ghost predicate FramesOk(s: Stream) {
    && ((s.frames != [] && s.frames[0].Progress?) || (s.frames == [] && !s.closed) || s.frames == [VANISHED])
    && (forall k :: 0 <= k < |s.frames| && s.frames[k].Done? ==> k == |s.frames| - 1 && s.closed)
    && (s.closed ==> s.frames != [] && s.frames[|s.frames| - 1].Done?)
  }

  /** The baseline for changes is what the last progress frame showed. */
  ghost predicate BaselineOk(s: Stream) {
    LastProgress(s.frames) == if s.last.Some? then Some(ProgressOf(s.last.value)) else None
  }

  /** A done after a terminal status follows a progress frame with that status; the other one says
      that the job vanished. */
  ghost predicate DoneOk(s: Stream) {
    s.closed && s.frames != [] && s.frames[|s.frames| - 1].Done? ==>
      var d, p := s.frames[|s.frames| - 1], LastProgress(s.frames);
      d == VANISHED || (p.Some? && IsTerminal(d.status) && p.value.status == d.status)
  }

  ghost predicate Shape(s: Stream) {
    && FramesOk(s) && BaselineOk(s) && DoneOk(s)
    && (s.last.None? ==> s.frames == [] || s.closed) && (s.last.Some? ==> s.frames != [])
  }

  lemma LastProgressSnoc(frames: seq<Frame>, f: Frame)
    ensures LastProgress(frames + [f]) == if f.Progress? then Some(f) else LastProgress(frames)
  {
    assert (frames + [f])[..|frames|] == frames;
  }

  lemma TickKeepsFrames(s: Stream, read: Read)
    requires FramesOk(s) && (s.last.None? ==> s.frames == [] || s.closed) && (s.last.Some? ==> s.frames != [])
    ensures FramesOk(Tick(s, read))
  {
    assert s.frames == [] ==> s.frames + [VANISHED] == [VANISHED];
    assert s.frames == [VANISHED] ==> s.frames[0].Done?;
  }

  lemma TickKeepsBaseline(s: Stream, read: Read)
    requires BaselineOk(s)
    ensures BaselineOk(Tick(s, read))
    ensures DoneOk(s) ==> DoneOk(Tick(s, read))
  {
    hide LastProgress;
    if !s.closed {
      match read
      case None => LastProgressSnoc(s.frames, VANISHED);
      case Some(job) =>
        var show := s.last.None? || ProgressChanged(s.last.value, job);
        var f := if show then ProgressOf(job) else Heartbeat;
        LastProgressSnoc(s.frames, f);
        LastProgressSnoc(s.frames + [f], Done(job.status, job.error));
    }
  }

  lemma TickKeepsShape(s: Stream, read: Read)
    requires Shape(s)
    ensures Shape(Tick(s, read))
  {
    TickKeepsFrames(s, read);
    TickKeepsBaseline(s, read);
    hide FramesOk, BaselineOk, DoneOk;
  }

  lemma {:induction false} StreamShape(polls: seq<Read>)
    ensures Shape(After(polls))
  {
    if polls == [] {
    } else {
      StreamShape(polls[..|polls| - 1]);
      TickKeepsShape(After(polls[..|polls| - 1]), polls[|polls| - 1]);
    }
  }

  /** After every successful read that was served, the last progress frame agrees with it. */
  lemma LastProgressIsCurrent(polls: seq<Read>, k: nat)
    requires k < |polls| && polls[k].Some? && !After(polls[..k]).closed
    ensures var p, job := LastProgress(After(polls[..k + 1]).frames), polls[k].value;
            p.Some? && p.value.progress == job.progress && p.value.processed == job.processed && p.value.status == job.status
  {
    StreamShape(polls[..k + 1]);
    assert polls[..k + 1][..k] == polls[..k];
  }

  /** On the total it agrees if and only if the read was shown, or the total is the one shown last:
      a change of the total alone sends a heartbeat only. */
  lemma TotalIsCurrentIff(polls: seq<Read>, k: nat)
    requires k < |polls| && polls[k].Some? && !After(polls[..k]).closed
    ensures LastProgress(After(polls[..k + 1]).frames).Some?
    ensures var s, job := After(polls[..k]), polls[k].value;
            LastProgress(After(polls[..k + 1]).frames).value.total == job.total <==>
              s.last.None? || ProgressChanged(s.last.value, job) || s.last.value.total == job.total
  {
    StreamShape(polls[..k + 1]);
    assert polls[..k + 1][..k] == polls[..k];
  }

  /** Two reads that differ in the total only. */
  lemma TotalCanBeStale(job: Job, total: int)
    requires !IsTerminal(job.status) && total != job.total
    ensures var polls := [Some(job), Some(job.(total := total))];
            After(polls).frames == [ProgressOf(job), Heartbeat] && LastProgress(After(polls).frames) == Some(ProgressOf(job))
  {
    var polls := [Some(job), Some(job.(total := total))];
    assert polls[..1] == [Some(job)] && [Some(job)][..0] == [];
    assert After([Some(job)]) == Stream([ProgressOf(job)], Some(job), false);
    assert After(polls).frames == [ProgressOf(job)] + [Heartbeat];
    LastProgressSnoc([ProgressOf(job)], Heartbeat);
    LastProgressSnoc([], ProgressOf(job));
    assert [] + [ProgressOf(job)] == [ProgressOf(job)];
  }

  /** What one read adds while the stream is open: the job's own numbers if it is the first progress or
      differs in progress, rows or status from the last one shown, and a heartbeat otherwise. */
  lemma EachRead(polls: seq<Read>, k: nat)
    requires k < |polls| && polls[k].Some? && !After(polls[..k]).closed
    ensures var was, now, job := After(polls[..k]).frames, After(polls[..k + 1]).frames, polls[k].value;
            var shown := LastProgress(was);
            && was < now && |now| == |was| + (if InProgress(polls[k]) then 1 else 2)
            && now[|was|] == (
                 if shown.Some? && shown.value.progress == job.progress && shown.value.processed == job.processed
                    && shown.value.status == job.status
                 then Heartbeat
                 else Progress(job.progress, job.processed, job.total, job.status))
  {
    StreamShape(polls[..k]);
    assert polls[..k + 1][..k] == polls[..k];
  }
}
