/**
 How many media rows an upload can get, and when a terminal status can still change.
 */
module MediaRows {
  import opened Common
  import opened MediaPipeline

  /** Attempts that claimed `u` and can still finish it. */
  ghost function Open(s: State, u: Id): set<Id> {
    set a | a in s.attempts && s.attempts[a].phase.Working? && s.attempts[a].job.uploadId == u
  }

  /** Media rows made for `u` (their variants live under its id). */
  ghost function Rows(s: State, u: Id): set<Id> {
    set m | m in s.media && s.media[m].thumbKey.upload == u
  }

  /** The event is a finish transaction that commits a media row for `u`. */
  ghost predicate Finishes(s: State, e: Event, u: Id) {
    e.Finish? && e.attempt in Open(s, u) && e.mediaId !in s.media
  }

  lemma RowsChangeOnlyByFinish(s: State, e: Event, u: Id)
    requires Inv(s)
    ensures Rows(Apply(s, e), u) == Rows(s, u) + (if Finishes(s, e, u) then {e.mediaId} else {})
    ensures Finishes(s, e, u) ==> u in Apply(s, e).uploads && Apply(s, e).uploads[u].status.Completed?
  {
    if e.Finish? && IsWorking(s, e.attempt) {
      assert AttemptOk(s, s.attempts[e.attempt]);
      assert UploadOk(s, s.attempts[e.attempt].job.uploadId);
    }
  }

  lemma TerminalOpensNone(s: State, e: Event, u: Id)
    requires u in s.uploads && Terminal(s.uploads[u].status)
    ensures Open(Apply(s, e), u) <= Open(s, u)
  {}

  lemma FinishCloses(s: State, e: Event, u: Id)
    requires Finishes(s, e, u) && u in s.uploads && UploadOk(s, u) && AttemptOk(s, s.attempts[e.attempt])
    ensures Open(Apply(s, e), u) == Open(s, u) - {e.attempt}
  {}

  lemma OpenAfter(s: State, e: Event, u: Id)
    requires Inv(s)
    ensures u in s.uploads && Terminal(s.uploads[u].status) ==> Open(Apply(s, e), u) <= Open(s, u)
    ensures Finishes(s, e, u) ==> Open(Apply(s, e), u) == Open(s, u) - {e.attempt}
  {
    if u in s.uploads && Terminal(s.uploads[u].status) { TerminalOpensNone(s, e, u); }
    if Finishes(s, e, u) { FinishCloses(s, e, u); }
  }

  /** Once an upload is terminal no attempt on it ever opens again. */
  lemma {:induction false} TerminalOpensNothing(s: State, es: seq<Event>, u: Id)
    requires Inv(s) && u in s.uploads && Terminal(s.uploads[u].status)
    ensures Open(Run(s, es), u) <= Open(s, u)
    decreases |es|
  {
    if es != [] {
      OpenAfter(s, es[0], u);
      ApplyGrows(s, es[0]);
      ApplyKeepsInv(s, es[0]);
      TerminalOpensNothing(Apply(s, es[0]), es[1..], u);
    }
  }

  ghost function At(s: State, es: seq<Event>, i: nat): State
    requires i <= |es|
  {
    Run(s, es[..i])
  }

  lemma AtSplits(s: State, es: seq<Event>, i: nat, j: nat)
    requires i <= j <= |es|
    ensures At(s, es, j) == Run(At(s, es, i), es[i..j])
  {
    assert es[..j] == es[..i] + es[i..j];
    RunConcat(s, es[..i], es[i..j]);
  }

  lemma AtNext(s: State, es: seq<Event>, i: nat)
    requires i < |es|
    ensures At(s, es, i + 1) == Apply(At(s, es, i), es[i])
  {
    AtSplits(s, es, i, i + 1);
    assert es[i..i + 1] == [es[i]];
    assert Run(At(s, es, i), [es[i]]) == Run(Apply(At(s, es, i), es[i]), []);
  }

  /** Every media row of a run was committed by one finish of the run. */
  lemma {:induction false} RowsComeFromFinishes(es: seq<Event>, u: Id, m: Id) returns (k: nat)
    requires m in Rows(Run(Init, es), u)
    ensures k < |es| && Finishes(At(Init, es, k), es[k], u) && es[k].mediaId == m
    decreases |es|
  {
    assert Run(Init, []) == Init;
    var n := |es| - 1;
    assert es[..|es|] == es;
    AtNext(Init, es, n);
    RunKeepsInv(Init, es[..n]);
    RowsChangeOnlyByFinish(At(Init, es, n), es[n], u);
    if m in Rows(At(Init, es, n), u) {
      k := RowsComeFromFinishes(es[..n], u, m);
      assert es[..n][..k] == es[..k];
    } else {
      k := n;
    }
  }

  /** Media row law: a later finish belongs to another attempt that was already open when an earlier one committed. */
  lemma MediaRowLaw(es: seq<Event>, i: nat, j: nat, u: Id)
    requires i < j < |es|
    requires Finishes(At(Init, es, i), es[i], u) && Finishes(At(Init, es, j), es[j], u)
    ensures es[j].attempt in Open(At(Init, es, i), u) && es[j].attempt != es[i].attempt
  {
    var si := At(Init, es, i);
    RunKeepsInv(Init, es[..i]);
    RunKeepsInv(Init, es[..i + 1]);
    AtNext(Init, es, i);
    RowsChangeOnlyByFinish(si, es[i], u);
    OpenAfter(si, es[i], u);
    AtSplits(Init, es, i + 1, j);
    TerminalOpensNothing(At(Init, es, i + 1), es[i + 1..j], u);
  }

  /** If attempts on an upload never overlap there is never a second row, whatever is redelivered. */
  lemma NoOverlapOneRow(es: seq<Event>, u: Id, m: Id, m': Id)
    requires forall i, a, b ::
               0 <= i <= |es| && a in Open(At(Init, es, i), u) && b in Open(At(Init, es, i), u) ==> a == b
    requires m in Rows(Run(Init, es), u) && m' in Rows(Run(Init, es), u)
    ensures m == m'
  {
    var k := RowsComeFromFinishes(es, u, m);
    var k' := RowsComeFromFinishes(es, u, m');
    if k < k' { MediaRowLaw(es, k, k', u); }
    if k' < k { MediaRowLaw(es, k', k, u); }
  }

  ghost function StatusOf(s: State, u: Id): Option<Status> {
    if u in s.uploads then Some(s.uploads[u].status) else None
  }

  /** The events `es` change the upload's media rows or status. */
  ghost predicate ChangesAfter(s: State, es: seq<Event>, u: Id) {
    Rows(Run(s, es), u) != Rows(s, u) || StatusOf(Run(s, es), u) != StatusOf(s, u)
  }

  /**
   "Failed is final" and "completed gets no second row" both fail, and exactly when an
   attempt on the terminal upload is still open: then some continuation adds a row and
   completes the upload; otherwise none does anything to it.
   */
  lemma TerminalReopensIffAttemptOpen(s: State, u: Id, m: Id)
    requires m !in s.media
    requires Inv(s) && u in s.uploads && Terminal(s.uploads[u].status)
    ensures Open(s, u) != {} <==>
            exists es :: ChangesAfter(s, es, u)
  {
    if a :| a in Open(s, u) {
      var es := [Finish(a, m)];
      assert Run(s, es) == Run(Apply(s, es[0]), []);
      RowsChangeOnlyByFinish(s, es[0], u);
      assert m in Rows(Run(s, es), u) && m !in Rows(s, u);
      assert ChangesAfter(s, es, u);
    } else {
      forall es ensures !ChangesAfter(s, es, u) {
        NothingOpenNothingChanges(s, es, u);
      }
    }
  }

  lemma {:induction false} NothingOpenNothingChanges(s: State, es: seq<Event>, u: Id)
    requires Inv(s) && u in s.uploads && Terminal(s.uploads[u].status) && Open(s, u) == {}
    ensures Rows(Run(s, es), u) == Rows(s, u) && StatusOf(Run(s, es), u) == StatusOf(s, u)
    decreases |es|
  {
    if es != [] {
      RowsChangeOnlyByFinish(s, es[0], u);
      OpenAfter(s, es[0], u);
      ApplyKeepsInv(s, es[0]);
      TerminalStatusKept(s, es[0], u);
      NothingOpenNothingChanges(Apply(s, es[0]), es[1..], u);
    }
  }

  lemma TerminalStatusKept(s: State, e: Event, u: Id)
    requires u in s.uploads && Terminal(s.uploads[u].status)
    requires e.Finish? ==> e.attempt !in Open(s, u)
    ensures StatusOf(Apply(s, e), u) == StatusOf(s, u)
  {}

  lemma MarkThenFinish(t: State, f: State, a: Id, b: Id, u: Id, w: Attempt, row: Upload)
    requires a != b && w.phase.Working? && Extension(w.phase.contentType).Some? && w.job.uploadId == u
             && w.job.owner == row.owner
    requires t.media == map[]
    requires t.uploads == map[u := row.(status := Processing)] && t.attempts == map[a := w.(phase := Condemned), b := w]
    requires f == t.(uploads := map[u := row.(status := Failed)], attempts := map[a := w.(phase := Settled), b := w])
    ensures Run(t, [MarkFailed(a, true)]) == f
    ensures StatusOf(Run(f, [Finish(b, u)]), u) == Some(Completed)
  {
    assert Apply(t, MarkFailed(a, true)) == f;
    assert Run(t, [MarkFailed(a, true)]) == Run(f, []);
    assert Run(f, [Finish(b, u)]) == Run(FinishStep(f, b, u), []);
  }

  /** The failure is real: two workers on one message, one condemns the file, the other completes it. */
  lemma FailedIsNotFinal(u: Id, owner: Id, m: Id, a: Id, b: Id)
    requires a != b
    ensures exists es, fs ::
              StatusOf(Run(Init, es), u) == Some(Failed) && StatusOf(Run(Init, es + fs), u) == Some(Completed)
  {
    var up := Upload(owner, Original(owner, u, Png), ImagePng, 1, Pending, 0, None, None);
    var job := Job(u, owner, up.originalKey);
    var s := Queued(u, up, m, job);
    var w := Attempt(m, job, Working(up.originalKey, ImagePng, 1));
    var es1 := [CreateUpload(u, owner, ImagePng, 1, 0), CompleteUpload(u, owner, 0), Enqueue(job, m)];
    var es2 := [Claim(a, m), Claim(b, m), PermanentFailure(a)];
    var es3 := [MarkFailed(a, true)];
    var fs := [Finish(b, u)];
    ReachQueued(u, owner, m, es1);
    TwoWorkers(u, up, m, job, a, b, es2);
    var t := s.(uploads := map[u := s.uploads[u].(status := Processing)],
                attempts := map[a := w.(phase := Condemned), b := w]);
    var f := t.(uploads := map[u := s.uploads[u].(status := Failed)],
                attempts := map[a := w.(phase := Settled), b := w]);
    MarkThenFinish(t, f, a, b, u, w, s.uploads[u]);
    RunConcat(Init, es1, es2);
    RunConcat(Init, es1 + es2, es3);
    var es := es1 + es2 + es3;
    RunConcat(Init, es, fs);
    assert StatusOf(Run(Init, es), u) == Some(Failed) && StatusOf(Run(Init, es + fs), u) == Some(Completed);
  }

  /** And so is the second row: two workers on one message, both finish. */
  lemma TwoMediaRows(u: Id, owner: Id, m: Id, a: Id, b: Id, x: Id, y: Id)
    requires a != b && x != y
    ensures exists es :: Rows(Run(Init, es), u) == {x, y}
  {
    var up := Upload(owner, Original(owner, u, Png), ImagePng, 1, Pending, 0, None, None);
    var job := Job(u, owner, up.originalKey);
    var es1 := [CreateUpload(u, owner, ImagePng, 1, 0), CompleteUpload(u, owner, 0), Enqueue(job, m)];
    var es2 := [Claim(a, m), Claim(b, m), Finish(a, x)];
    ReachQueued(u, owner, m, es1);
    RunConcat(Init, es1, es2);
    RunConcat(Init, es1 + es2, [Finish(b, y)]);
    BothFinish(u, up, m, job, a, b, x, y, es2);
    assert Run(Run(Init, es1 + es2), [Finish(b, y)]) == Run(Apply(Run(Init, es1 + es2), Finish(b, y)), []);
    assert Rows(Run(Init, es1 + es2 + [Finish(b, y)]), u) == {x, y};
  }

  lemma BothFinish(u: Id, up: Upload, m: Id, job: Job, a: Id, b: Id, x: Id, y: Id, es: seq<Event>)
    requires a != b && x != y && job == Job(u, up.owner, up.originalKey) && up.contentType == ImagePng
    requires es == [Claim(a, m), Claim(b, m), Finish(a, x)]
    ensures Rows(Apply(Run(Queued(u, up, m, job), es), Finish(b, y)), u) == {x, y}
  {
    var s := Queued(u, up, m, job);
    var w := Attempt(m, job, Working(up.originalKey, up.contentType, up.bytes));
    var t1 := s.(uploads := map[u := s.uploads[u].(status := Processing)], attempts := map[a := w]);
    var t2 := t1.(attempts := map[a := w, b := w]);
    assert Apply(s, es[0]) == t1;
    assert Apply(t1, es[1]) == t2;
    RunThree(s, es, t1, t2);
    var t3 := Apply(t2, es[2]);
    assert t3.media == map[x := NewMedia(w)] && t3.attempts[b] == w;
    assert Apply(t3, Finish(b, y)).media == map[x := NewMedia(w), y := NewMedia(w)];
  }

  /** A message can be deleted over an upload still in processing: it takes a mark_failed that did not get through. */
  lemma LostMarkLosesTheMessage(u: Id, owner: Id, m: Id, a: Id)
    ensures exists es ::
              && MarkFailed(a, false) in es && m in Run(Init, es).queue
              && m !in Run(Init, es + [DeleteMessage(a, true)]).queue
              && StatusOf(Run(Init, es + [DeleteMessage(a, true)]), u) == Some(Processing)
  {
    var up := Upload(owner, Original(owner, u, Png), ImagePng, 1, Pending, 0, None, None);
    var job := Job(u, owner, up.originalKey);
    var es1 := [CreateUpload(u, owner, ImagePng, 1, 0), CompleteUpload(u, owner, 0), Enqueue(job, m)];
    var es2 := [Claim(a, m), PermanentFailure(a), MarkFailed(a, false)];
    ReachQueued(u, owner, m, es1);
    RunConcat(Init, es1, es2);
    RunConcat(Init, es1 + es2, [DeleteMessage(a, true)]);
    MarkIsLost(u, up, m, job, a, es2);
    var s := Run(Init, es1 + es2);
    assert Run(s, [DeleteMessage(a, true)]) == Run(Apply(s, DeleteMessage(a, true)), []);
    assert es2[2] in es1 + es2;
    assert m in s.queue && m !in Run(Init, es1 + es2 + [DeleteMessage(a, true)]).queue;
  }

  lemma MarkIsLost(u: Id, up: Upload, m: Id, job: Job, a: Id, es: seq<Event>)
    requires job == Job(u, up.owner, up.originalKey)
    requires es == [Claim(a, m), PermanentFailure(a), MarkFailed(a, false)]
    ensures var s := Queued(u, up, m, job);
            Run(s, es) == s.(uploads := map[u := s.uploads[u].(status := Processing)],
                             attempts := map[a := Attempt(m, job, Settled)])
  {
    var s := Queued(u, up, m, job);
    var w := Attempt(m, job, Working(up.originalKey, up.contentType, up.bytes));
    var t1 := s.(uploads := map[u := s.uploads[u].(status := Processing)], attempts := map[a := w]);
    var t2 := t1.(attempts := map[a := w.(phase := Condemned)]);
    assert Apply(s, es[0]) == t1;
    assert Apply(t1, es[1]) == t2;
    RunThree(s, es, t1, t2);
  }

  function Queued(u: Id, up: Upload, m: Id, job: Job): State {
    State(map[u := up.(status := Uploaded, uploadedAt := Some(0))], map[], map[m := job], {job}, map[])
  }

  lemma ReachQueued(u: Id, owner: Id, m: Id, es: seq<Event>)
    requires var job := Job(u, owner, Original(owner, u, Png));
             es == [CreateUpload(u, owner, ImagePng, 1, 0), CompleteUpload(u, owner, 0), Enqueue(job, m)]
    ensures var up := Upload(owner, Original(owner, u, Png), ImagePng, 1, Pending, 0, None, None);
            Run(Init, es) == Queued(u, up, m, Job(u, owner, up.originalKey))
  {
    var up := Upload(owner, Original(owner, u, Png), ImagePng, 1, Pending, 0, None, None);
    var job := Job(u, owner, up.originalKey);
    var t1 := Init.(uploads := map[u := up]);
    var t2 := t1.(uploads := map[u := up.(status := Uploaded, uploadedAt := Some(0))], sending := {job});
    assert Apply(Init, es[0]) == t1;
    assert Apply(t1, es[1]) == t2;
    RunThree(Init, es, t1, t2);
  }

  lemma TwoWorkers(u: Id, up: Upload, m: Id, job: Job, a: Id, b: Id, es: seq<Event>)
    requires a != b && job == Job(u, up.owner, up.originalKey)
    requires es == [Claim(a, m), Claim(b, m), PermanentFailure(a)]
    ensures var s := Queued(u, up, m, job);
            var w := Attempt(m, job, Working(up.originalKey, up.contentType, up.bytes));
            Run(s, es) == s.(uploads := map[u := s.uploads[u].(status := Processing)],
                             attempts := map[a := w.(phase := Condemned), b := w])
  {
    var s := Queued(u, up, m, job);
    var w := Attempt(m, job, Working(up.originalKey, up.contentType, up.bytes));
    var t1 := s.(uploads := map[u := s.uploads[u].(status := Processing)], attempts := map[a := w]);
    var t2 := t1.(attempts := map[a := w, b := w]);
    assert Apply(s, es[0]) == t1;
    assert Apply(t1, es[1]) == t2;
    RunThree(s, es, t1, t2);
  }

  lemma RunThree(s: State, es: seq<Event>, t: State, t': State)
    requires |es| == 3 && t == Apply(s, es[0]) && t' == Apply(t, es[1])
    ensures Run(s, es) == Apply(t', es[2])
  {
    assert es[1..][1..] == es[2..];
    assert Run(t', es[2..]) == Run(Apply(t', es[2]), []);
  }
}
