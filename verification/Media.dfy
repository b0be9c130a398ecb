/**
 The media upload pipeline: clients create and complete uploads, an
 at-least-once queue carries jobs, any number of workers claim, process and
 finish them (and may crash between any two steps), and an hourly sweep
 re-enqueues stale uploads. Each event below is one SQL statement, one
 transaction or one queue operation.
 */
module MediaPipeline {
  import opened Common

  // ---------- Data ----------

  datatype Status = Pending | Uploaded | Processing | Failed | Completed

  function Rank(st: Status): nat {
    match st
    case Pending => 0
    case Uploaded => 1
    case Processing => 2
    case Failed => 3
    case Completed => 4
  }

  predicate Terminal(st: Status) { st.Failed? || st.Completed? }

  datatype Size = Thumb | Medium

  datatype ContentType = ImageJpeg | ImagePng | ImageWebp | Unsupported(text: string)

  datatype Ext = Jpg | Png | Webp

  /** `uploads/{owner}/{upload}.{ext}` or `media/{owner}/{upload}/{size}.{ext}`. */
  datatype ObjectKey =
    | Original(owner: Id, upload: Id, ext: Ext)
    | Variant(owner: Id, upload: Id, size: Size, ext: Ext)

  datatype Upload = Upload(
    owner: Id, originalKey: ObjectKey, contentType: ContentType, bytes: int,
    status: Status, createdAt: int, uploadedAt: Option<int>, processedMediaId: Option<Id>)

  datatype Media = Media(owner: Id, originalKey: ObjectKey, thumbKey: ObjectKey, mediumKey: ObjectKey, bytes: int)

  datatype Job = Job(uploadId: Id, owner: Id, originalKey: ObjectKey)

  /** Where a worker stands: the columns it got from its claim, or what is left to do. */
  datatype Phase =
    | Working(originalKey: ObjectKey, contentType: ContentType, bytes: int)
    | Condemned  // permanent error met, mark_failed still to run
    | Settled    // outcome Completed, message still to be deleted

  datatype Attempt = Attempt(message: Id, job: Job, phase: Phase)

  datatype State = State(
    uploads: map<Id, Upload>,
    media: map<Id, Media>,
    queue: map<Id, Job>,         // messages by message id
    sending: set<Job>,           // jobs some enqueue call is still sending
    attempts: map<Id, Attempt>)  // workers inside process_job

  const Init := State(map[], map[], map[], {}, map[])

  function Extension(contentType: ContentType): Option<Ext> {
    match contentType
    case ImageJpeg => Some(Jpg)
    case ImagePng => Some(Png)
    case ImageWebp => Some(Webp)
    case Unsupported(_) => None
  }

  const STALE_SECONDS: int := 900
  const STALE_UPLOAD_BATCH: nat := 100

  predicate IsStale(up: Upload, now: int) {
    && (up.status.Uploaded? || up.status.Processing?)
    && (if up.uploadedAt.Some? then up.uploadedAt.value else up.createdAt) < now - STALE_SECONDS
  }

  /** `rows` is a legal answer of the sweep's SELECT: the oldest stale uploads, at most 100, ties in any order. */
  ghost predicate IsSweepBatch(uploads: map<Id, Upload>, now: int, rows: seq<Id>) {
    && (forall k :: 0 <= k < |rows| ==> rows[k] in uploads && IsStale(uploads[rows[k]], now))
    && (forall k, l :: 0 <= k < l < |rows| ==>
          rows[k] != rows[l] && uploads[rows[k]].createdAt <= uploads[rows[l]].createdAt)
    && |rows| <= STALE_UPLOAD_BATCH
    && (forall u :: u in uploads && IsStale(uploads[u], now) && u !in rows ==>
          |rows| == STALE_UPLOAD_BATCH
          && forall k :: 0 <= k < |rows| ==> uploads[rows[k]].createdAt <= uploads[u].createdAt)
  }

  function JobFor(s: State, u: Id): Job
    requires u in s.uploads
  {
    Job(u, s.uploads[u].owner, s.uploads[u].originalKey)
  }

  // ---------- Events ----------

  datatype Event =
    | CreateUpload(upload: Id, owner: Id, contentType: ContentType, bytes: int, now: int)
    | CompleteUpload(upload: Id, owner: Id, now: int)
    | Sweep(now: int, rows: seq<Id>)
    | Enqueue(job: Job, message: Id)
    | SendEnds(job: Job)  // the enqueue call returned, successful or not, or its process died
    | Lose(message: Id)
    | Claim(attempt: Id, message: Id)
    | Finish(attempt: Id, mediaId: Id)
    | PermanentFailure(attempt: Id)
    | MarkFailed(attempt: Id, ok: bool)
    | DeleteMessage(attempt: Id, ok: bool)
    | Abandon(attempt: Id)  // transient error, crash, or a commit whose answer was lost

  predicate Claimable(s: State, job: Job) {
    && job.uploadId in s.uploads
    && s.uploads[job.uploadId].owner == job.owner
    && (s.uploads[job.uploadId].status.Uploaded? || s.uploads[job.uploadId].status.Processing?)
  }

  predicate IsWorking(s: State, a: Id) {
    a in s.attempts && s.attempts[a].phase.Working?
  }

  function CreateUploadStep(s: State, u: Id, owner: Id, contentType: ContentType, bytes: int, now: int): State {
    if u in s.uploads || Extension(contentType).None? then s else
    var key := Original(owner, u, Extension(contentType).value);
    s.(uploads := s.uploads[u := Upload(owner, key, contentType, bytes, Pending, now, None, None)])
  }

  function CompleteUploadStep(s: State, u: Id, owner: Id, now: int): State {
    if u in s.uploads && s.uploads[u].owner == owner
       && (s.uploads[u].status.Pending? || s.uploads[u].status.Uploaded?) then
      var up := s.uploads[u];
      var at := if up.uploadedAt.Some? then up.uploadedAt else Some(now);
      s.(uploads := s.uploads[u := up.(status := Uploaded, uploadedAt := at)],
         sending := s.sending + {JobFor(s, u)})
    else s
  }

  function JobsFor(s: State, rows: seq<Id>): set<Job>
    requires forall k :: 0 <= k < |rows| ==> rows[k] in s.uploads
  {
    set k | 0 <= k < |rows| :: JobFor(s, rows[k])
  }

  function ClaimStep(s: State, a: Id, m: Id): State {
    if m !in s.queue || a in s.attempts then s else
    var job := s.queue[m];
    if Claimable(s, job) then
      var up := s.uploads[job.uploadId];
      s.(uploads := s.uploads[job.uploadId := up.(status := Processing)],
         attempts := s.attempts[a := Attempt(m, job, Working(up.originalKey, up.contentType, up.bytes))])
    else
      s.(attempts := s.attempts[a := Attempt(m, job, Settled)])
  }

  function NewMedia(at: Attempt): Media
    requires at.phase.Working? && Extension(at.phase.contentType).Some?
  {
    var ext := Extension(at.phase.contentType).value;
    Media(at.job.owner, at.phase.originalKey,
          Variant(at.job.owner, at.job.uploadId, Thumb, ext),
          Variant(at.job.owner, at.job.uploadId, Medium, ext), at.phase.bytes)
  }

  function FinishStep(s: State, a: Id, mediaId: Id): State {
    if !IsWorking(s, a) || mediaId in s.media || Extension(s.attempts[a].phase.contentType).None? then s else
    var at := s.attempts[a];
    var u := at.job.uploadId;
    s.(media := s.media[mediaId := NewMedia(at)],
       uploads := if u in s.uploads && s.uploads[u].owner == at.job.owner
                  then s.uploads[u := s.uploads[u].(status := Completed, processedMediaId := Some(mediaId))]
                  else s.uploads,
       attempts := s.attempts[a := at.(phase := Settled)])
  }

  function MarkFailedStep(s: State, a: Id, ok: bool): State {
    if a !in s.attempts || !s.attempts[a].phase.Condemned? then s else
    var at := s.attempts[a];
    var u := at.job.uploadId;
    s.(uploads := if ok && u in s.uploads && s.uploads[u].owner == at.job.owner && s.uploads[u].status.Processing?
                  then s.uploads[u := s.uploads[u].(status := Failed)]
                  else s.uploads,
       attempts := s.attempts[a := at.(phase := Settled)])
  }

  /** What an event does to the state; an event that is not enabled does nothing. */
  ghost function Apply(s: State, e: Event): State {
    match e
    case CreateUpload(u, owner, ct, bytes, now) => CreateUploadStep(s, u, owner, ct, bytes, now)
    case CompleteUpload(u, owner, now) => CompleteUploadStep(s, u, owner, now)
    case Sweep(now, rows) =>
      if IsSweepBatch(s.uploads, now, rows) then s.(sending := s.sending + JobsFor(s, rows)) else s
    case Enqueue(job, m) =>
      if job in s.sending && m !in s.queue then s.(queue := s.queue[m := job]) else s
    case SendEnds(job) => s.(sending := s.sending - {job})
    case Lose(m) => s.(queue := s.queue - {m})
    case Claim(a, m) => ClaimStep(s, a, m)
    case Finish(a, mediaId) => FinishStep(s, a, mediaId)
    case PermanentFailure(a) =>
      if IsWorking(s, a) then s.(attempts := s.attempts[a := s.attempts[a].(phase := Condemned)]) else s
    case MarkFailed(a, ok) => MarkFailedStep(s, a, ok)
    case DeleteMessage(a, ok) =>
      if a in s.attempts && s.attempts[a].phase.Settled?
      then s.(queue := if ok then s.queue - {s.attempts[a].message} else s.queue, attempts := s.attempts - {a})
      else s
    case Abandon(a) => s.(attempts := s.attempts - {a})
  }

  ghost function Run(s: State, es: seq<Event>): State
    decreases |es|
  {
    if es == [] then s else Run(Apply(s, es[0]), es[1..])
  }

  lemma {:induction false} RunConcat(s: State, es: seq<Event>, fs: seq<Event>)
    ensures Run(s, es + fs) == Run(Run(s, es), fs)
    decreases |es|
  {
    if es == [] {
      assert es + fs == fs;
    } else {
      assert (es + fs)[1..] == es[1..] + fs;
      RunConcat(Apply(s, es[0]), es[1..], fs);
    }
  }

  // ---------- The invariant ----------

  ghost predicate UploadOk(s: State, u: Id)
    requires u in s.uploads
  {
    var up := s.uploads[u];
    && Extension(up.contentType).Some?
    && up.originalKey == Original(up.owner, u, Extension(up.contentType).value)
    && (up.status.Pending? <==> up.uploadedAt.None?)
    && (up.status.Completed? <==> up.processedMediaId.Some?)
    && (up.status.Completed? ==> NamesItsMedia(s, u))
  }

  /** processed_media_id names a media row with the upload's owner, key and size, and variants of this upload. */
  ghost predicate NamesItsMedia(s: State, u: Id)
    requires u in s.uploads
  {
    var up := s.uploads[u];
    && up.processedMediaId.Some?
    && up.processedMediaId.value in s.media
    && s.media[up.processedMediaId.value].owner == up.owner
    && s.media[up.processedMediaId.value].originalKey == up.originalKey
    && s.media[up.processedMediaId.value].bytes == up.bytes
    && s.media[up.processedMediaId.value].thumbKey.upload == u
  }

  ghost predicate JobOk(s: State, job: Job) {
    && job.uploadId in s.uploads
    && job == JobFor(s, job.uploadId)
    && Rank(s.uploads[job.uploadId].status) >= Rank(Uploaded)
  }

  ghost predicate AttemptOk(s: State, at: Attempt) {
    && JobOk(s, at.job)
    && (!at.phase.Settled? ==> Rank(s.uploads[at.job.uploadId].status) >= Rank(Processing))
    && (at.phase.Working? ==>
          at.phase == Working(s.uploads[at.job.uploadId].originalKey,
                              s.uploads[at.job.uploadId].contentType,
                              s.uploads[at.job.uploadId].bytes))
  }

  ghost predicate MediaOk(s: State, md: Media) {
    var u := md.thumbKey.upload;
    && md.originalKey.Original? && md.thumbKey == Variant(md.owner, u, Thumb, md.originalKey.ext)
    && md.mediumKey == Variant(md.owner, u, Medium, md.originalKey.ext)
    && u in s.uploads && s.uploads[u].status.Completed?
    && md.owner == s.uploads[u].owner && md.originalKey == s.uploads[u].originalKey
  }

  ghost predicate UploadsOk(s: State) { forall u :: u in s.uploads ==> UploadOk(s, u) }

  ghost predicate JobsOk(s: State) {
    && (forall m :: m in s.queue ==> JobOk(s, s.queue[m]))
    && (forall job :: job in s.sending ==> JobOk(s, job))
  }

  ghost predicate AttemptsOk(s: State) { forall a :: a in s.attempts ==> AttemptOk(s, s.attempts[a]) }

  ghost predicate MediaRowsOk(s: State) { forall m :: m in s.media ==> MediaOk(s, s.media[m]) }

  ghost predicate Inv(s: State) {
    UploadsOk(s) && JobsOk(s) && AttemptsOk(s) && MediaRowsOk(s)
  }

  // ---------- Status ratchet ----------

  /** What every step keeps: no upload or media row disappears, and no status goes back. */
  ghost predicate Grows(s: State, t: State) {
    && (forall u :: u in s.uploads ==>
          && u in t.uploads
          && Rank(s.uploads[u].status) <= Rank(t.uploads[u].status)
          && t.uploads[u].owner == s.uploads[u].owner
          && t.uploads[u].originalKey == s.uploads[u].originalKey
          && t.uploads[u].contentType == s.uploads[u].contentType
          && t.uploads[u].bytes == s.uploads[u].bytes)
    && (forall m :: m in s.media ==> m in t.media && t.media[m] == s.media[m])
  }

  lemma RowGrows(s: State, u: Id, up: Upload, media: map<Id, Media>)
    requires u in s.uploads && Rank(s.uploads[u].status) <= Rank(up.status)
    requires up.owner == s.uploads[u].owner && up.originalKey == s.uploads[u].originalKey
    requires up.contentType == s.uploads[u].contentType && up.bytes == s.uploads[u].bytes
    requires forall m :: m in s.media ==> m in media && media[m] == s.media[m]
    ensures Grows(s, s.(uploads := s.uploads[u := up], media := media))
  {}

  lemma ClaimGrows(s: State, a: Id, m: Id)
    ensures Grows(s, ClaimStep(s, a, m))
  {
    if m in s.queue && a !in s.attempts && Claimable(s, s.queue[m]) {
      var u := s.queue[m].uploadId;
      RowGrows(s, u, s.uploads[u].(status := Processing), s.media);
    }
  }

  lemma FinishGrows(s: State, a: Id, mediaId: Id)
    ensures Grows(s, FinishStep(s, a, mediaId))
  {
    if IsWorking(s, a) && mediaId !in s.media && s.attempts[a].job.uploadId in s.uploads {
      var u := s.attempts[a].job.uploadId;
      var up := s.uploads[u].(status := Completed, processedMediaId := Some(mediaId));
      RowGrows(s, u, up, FinishStep(s, a, mediaId).media);
    }
  }

  lemma MarkFailedGrows(s: State, a: Id, ok: bool)
    ensures Grows(s, MarkFailedStep(s, a, ok))
  {
    if a in s.attempts && s.attempts[a].job.uploadId in s.uploads {
      var u := s.attempts[a].job.uploadId;
      if s.uploads[u].status.Processing? { RowGrows(s, u, s.uploads[u].(status := Failed), s.media); }
    }
  }

  lemma ApplyGrows(s: State, e: Event)
    ensures Grows(s, Apply(s, e))
  {
    if e.Claim? {
      ClaimGrows(s, e.attempt, e.message);
    } else if e.Finish? {
      FinishGrows(s, e.attempt, e.mediaId);
    } else if e.MarkFailed? {
      MarkFailedGrows(s, e.attempt, e.ok);
    }
  }

  lemma JobOkGrows(s: State, t: State, job: Job)
    requires JobOk(s, job) && Grows(s, t)
    ensures JobOk(t, job)
  {}

  /** From `s` to `t` every row, job and attempt is either untouched or in order again. */
  ghost predicate Framed(s: State, t: State) {
    && Grows(s, t)
    && (forall u :: u in t.uploads ==> (u in s.uploads && t.uploads[u] == s.uploads[u]) || UploadOk(t, u))
    && (forall m :: m in t.queue ==> (m in s.queue && t.queue[m] == s.queue[m]) || t.queue[m] in s.sending)
    && (forall job :: job in t.sending ==> job in s.sending || JobOk(t, job))
    && (forall a :: a in t.attempts ==>
          (a in s.attempts && t.attempts[a] == s.attempts[a]) || AttemptOk(t, t.attempts[a]))
    && (forall m :: m in t.media ==> m in s.media || MediaOk(t, t.media[m]))
  }

  lemma AttemptOkGrows(s: State, t: State, at: Attempt)
    requires AttemptOk(s, at) && Grows(s, t)
    ensures AttemptOk(t, at)
  {}

  lemma FramedKeepsTables(s: State, t: State)
    requires UploadsOk(s) && MediaRowsOk(s) && Framed(s, t)
    ensures UploadsOk(t) && MediaRowsOk(t)
  {
    forall u | u in t.uploads ensures UploadOk(t, u) {
      if u in s.uploads && t.uploads[u] == s.uploads[u] { assert UploadOk(s, u); }
    }
    forall m | m in t.media ensures MediaOk(t, t.media[m]) {
      if m in s.media { assert MediaOk(s, s.media[m]); }
    }
  }

  lemma FramedKeepsWork(s: State, t: State)
    requires JobsOk(s) && AttemptsOk(s) && Framed(s, t)
    ensures JobsOk(t) && AttemptsOk(t)
  {
    forall m | m in t.queue ensures JobOk(t, t.queue[m]) { JobOkGrows(s, t, t.queue[m]); }
    forall job | job in t.sending ensures JobOk(t, job) { if job in s.sending { JobOkGrows(s, t, job); } }
    forall a | a in t.attempts ensures AttemptOk(t, t.attempts[a]) {
      if a in s.attempts && t.attempts[a] == s.attempts[a] { AttemptOkGrows(s, t, t.attempts[a]); }
    }
  }

  lemma FramedKeepsInv(s: State, t: State)
    requires Inv(s) && Framed(s, t)
    ensures Inv(t)
  {
    FramedKeepsTables(s, t);
    FramedKeepsWork(s, t);
  }

  lemma CompleteUploadFramed(s: State, u: Id, owner: Id, now: int)
    requires u in s.uploads ==> UploadOk(s, u)
    ensures Framed(s, CompleteUploadStep(s, u, owner, now))
  {}

  lemma ClaimFramed(s: State, a: Id, m: Id)
    requires m in s.queue ==> JobOk(s, s.queue[m])
    requires m in s.queue && Claimable(s, s.queue[m]) ==> UploadOk(s, s.queue[m].uploadId)
    ensures Framed(s, ClaimStep(s, a, m))
  {}

  lemma FinishFramed(s: State, a: Id, mediaId: Id)
    requires a in s.attempts ==> AttemptOk(s, s.attempts[a]) && UploadOk(s, s.attempts[a].job.uploadId)
    ensures Framed(s, FinishStep(s, a, mediaId))
  {}

  lemma MarkFailedFramed(s: State, a: Id, ok: bool)
    requires a in s.attempts ==> AttemptOk(s, s.attempts[a]) && UploadOk(s, s.attempts[a].job.uploadId)
    ensures Framed(s, MarkFailedStep(s, a, ok))
  {}

  lemma SweepFramed(s: State, now: int, rows: seq<Id>)
    ensures Framed(s, Apply(s, Sweep(now, rows)))
  {}

  lemma QueueFramed(s: State, e: Event)
    requires e.CreateUpload? || e.Enqueue? || e.SendEnds? || e.Lose?
    ensures Framed(s, Apply(s, e))
  {}

  lemma AttemptFramed(s: State, e: Event)
    requires e.DeleteMessage? || e.Abandon? || e.PermanentFailure?
    requires e.attempt in s.attempts ==> AttemptOk(s, s.attempts[e.attempt])
    ensures Framed(s, Apply(s, e))
  {}

  lemma ApplyKeepsInv(s: State, e: Event)
    requires Inv(s)
    ensures Inv(Apply(s, e))
  {
    match e {
      case CompleteUpload(u, owner, now) => CompleteUploadFramed(s, u, owner, now);
      case Sweep(now, rows) => SweepFramed(s, now, rows);
      case Claim(a, m) => ClaimFramed(s, a, m);
      case Finish(a, mediaId) => FinishFramed(s, a, mediaId);
      case MarkFailed(a, ok) => MarkFailedFramed(s, a, ok);
      case PermanentFailure(a) => AttemptFramed(s, e);
      case DeleteMessage(a, ok) => AttemptFramed(s, e);
      case Abandon(a) => AttemptFramed(s, e);
      case _ => QueueFramed(s, e);
    }
    FramedKeepsInv(s, Apply(s, e));
  }

  lemma {:induction false} RunKeepsInv(s: State, es: seq<Event>)
    requires Inv(s)
    ensures Inv(Run(s, es))
    decreases |es|
  {
    if es != [] {
      ApplyKeepsInv(s, es[0]);
      RunKeepsInv(Apply(s, es[0]), es[1..]);
    }
  }

  /** Over every run, with any number of workers, statuses only rise and completed is final. */
  lemma {:induction false} StatusRatchet(s: State, es: seq<Event>)
    requires Inv(s)
    ensures Grows(s, Run(s, es))
    ensures forall u :: u in s.uploads && s.uploads[u].status.Completed? ==> Run(s, es).uploads[u].status.Completed?
    decreases |es|
  {
    if es != [] {
      ApplyGrows(s, es[0]);
      ApplyKeepsInv(s, es[0]);
      StatusRatchet(Apply(s, es[0]), es[1..]);
    }
  }

  /** In every reachable state, completed means exactly that processed_media_id names a media row of this upload. */
  lemma CompletedExactlyWithMedia(es: seq<Event>, u: Id)
    requires u in Run(Init, es).uploads
    ensures Run(Init, es).uploads[u].status.Completed? <==> NamesItsMedia(Run(Init, es), u)
  {
    RunKeepsInv(Init, es);
    assert UploadOk(Run(Init, es), u);
  }

  // ---------- What clients do ----------

  lemma OnlyCompletingEndsPending(s: State, e: Event, u: Id)
    requires u in s.uploads && s.uploads[u].status.Pending? && !e.CompleteUpload?
    requires e.Claim? && e.message in s.queue ==> JobOk(s, s.queue[e.message])
    requires (e.Finish? || e.MarkFailed?) && e.attempt in s.attempts ==> AttemptOk(s, s.attempts[e.attempt])
    ensures u in Apply(s, e).uploads && Apply(s, e).uploads[u].status.Pending?
  {}

  /** An upload leaves 'pending' exactly when its owner completes it, and its job is then being sent. */
  lemma PendingEndsWithItsOwner(es: seq<Event>, e: Event, u: Id)
    requires u in Run(Init, es).uploads && Run(Init, es).uploads[u].status.Pending?
    ensures var s := Run(Init, es);
            var s' := Apply(s, e);
            && u in s'.uploads
            && (!s'.uploads[u].status.Pending? <==> e.CompleteUpload? && e.upload == u && e.owner == s.uploads[u].owner)
            && (!s'.uploads[u].status.Pending? ==>
                  && s'.uploads[u] == s.uploads[u].(status := Uploaded, uploadedAt := Some(e.now))
                  && Job(u, s.uploads[u].owner, s.uploads[u].originalKey) in s'.sending)
  {
    var s := Run(Init, es);
    RunKeepsInv(Init, es);
    assert UploadOk(s, u);
    if !e.CompleteUpload? { OnlyCompletingEndsPending(s, e, u); }
  }

  /** Completing again is safe: it sends the job of an upload still waiting, and does nothing to any other. */
  lemma CompletingAgain(s: State, u: Id, owner: Id, now: int)
    requires u in s.uploads && s.uploads[u].owner == owner
    ensures var s' := Apply(s, CompleteUpload(u, owner, now));
            && (s.uploads[u].status.Uploaded? ==> JobFor(s, u) in s'.sending && s'.uploads[u].status.Uploaded?)
            && (Rank(s.uploads[u].status) >= 2 ==> s' == s)
    ensures forall other :: other != owner ==> Apply(s, CompleteUpload(u, other, now)) == s
  {}

  /** The time an upload was completed first never moves, however often it is completed again. */
  lemma {:induction false} UploadedAtNeverMoves(s: State, es: seq<Event>, u: Id)
    requires u in s.uploads && s.uploads[u].uploadedAt.Some?
    ensures u in Run(s, es).uploads && Run(s, es).uploads[u].uploadedAt == s.uploads[u].uploadedAt
    decreases |es|
  {
    if es != [] {
      OneStepKeepsUploadedAt(s, es[0], u);
      UploadedAtNeverMoves(Apply(s, es[0]), es[1..], u);
    }
  }

  lemma OneStepKeepsUploadedAt(s: State, e: Event, u: Id)
    requires u in s.uploads && s.uploads[u].uploadedAt.Some?
    ensures u in Apply(s, e).uploads && Apply(s, e).uploads[u].uploadedAt == s.uploads[u].uploadedAt
  {}

  /** A supported type gives a pending upload of the caller; any other type gives nothing. */
  lemma CreatedUpload(s: State, u: Id, owner: Id, ct: ContentType, bytes: int, now: int)
    requires u !in s.uploads
    ensures var s' := Apply(s, CreateUpload(u, owner, ct, bytes, now));
            && (ct.Unsupported? <==> s' == s)
            && (!ct.Unsupported? ==>
                  && u in s'.uploads && s'.uploads[u].owner == owner && s'.uploads[u].status.Pending?
                  && s'.uploads[u].contentType == ct && s'.uploads[u].bytes == bytes && s'.uploads[u].createdAt == now)
  {
    if !ct.Unsupported? { assert u in Apply(s, CreateUpload(u, owner, ct, bytes, now)).uploads; }
  }

  /** Every object key of an upload and its media carries the content type's extension, the owner and the upload. */
  lemma KeysFollowContentType(es: seq<Event>, u: Id, m: Id, ext: Ext)
    requires var s := Run(Init, es);
             && u in s.uploads
             && (s.uploads[u].contentType.ImageJpeg? ==> ext == Jpg)
             && (s.uploads[u].contentType.ImagePng? ==> ext == Png)
             && (s.uploads[u].contentType.ImageWebp? ==> ext == Webp)
    ensures var s := Run(Init, es);
            var owner := s.uploads[u].owner;
            && s.uploads[u].originalKey == Original(owner, u, ext)
            && (m in s.media && s.media[m].thumbKey.upload == u ==>
                  && s.media[m].originalKey == Original(owner, u, ext)
                  && s.media[m].thumbKey == Variant(owner, u, Thumb, ext)
                  && s.media[m].mediumKey == Variant(owner, u, Medium, ext))
  {
    RunKeepsInv(Init, es);
    var s := Run(Init, es);
    assert UploadOk(s, u);
    if m in s.media { assert MediaOk(s, s.media[m]); }
  }
}
