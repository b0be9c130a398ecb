/**
 No upload is lost: what a queued message promises, what the sweep reaches, and what one
 clean delivery achieves; and the worker code itself, proved to take exactly these steps.
 */
module MediaRecovery {
  import opened Common
  import opened MediaPipeline

  /** In every reachable state a queued job matches an upload that its client completed. */
  lemma QueuedJobsMatchUploads(es: seq<Event>, m: Id)
    requires m in Run(Init, es).queue
    ensures JobOk(Run(Init, es), Run(Init, es).queue[m])
  {
    RunKeepsInv(Init, es);
  }

  /** The "stale message" branch of a claim discards a message only when its upload is already terminal. */
  lemma StaleMessageIsSettled(es: seq<Event>, m: Id)
    requires m in Run(Init, es).queue && !Claimable(Run(Init, es), Run(Init, es).queue[m])
    ensures var s := Run(Init, es); s.queue[m].uploadId in s.uploads && Terminal(s.uploads[s.queue[m].uploadId].status)
  {
    QueuedJobsMatchUploads(es, m);
  }

  /** Attempt `a` ends without a fault: it finishes, or marks the failure it met. */
  ghost predicate CleanEnd(s: State, e: Event, a: Id) {
    a in s.attempts &&
    (|| (e.Finish? && e.attempt == a && IsWorking(s, a) && e.mediaId !in s.media)
     || (e == MarkFailed(a, true) && s.attempts[a].phase.Condemned?))
  }

  /** In any interleaving, an attempt that ends without a fault leaves its upload terminal, for good. */
  lemma CleanEndIsTerminal(s: State, e: Event, a: Id, rest: seq<Event>)
    requires Inv(s) && CleanEnd(s, e, a)
    ensures TerminalIn(Run(Apply(s, e), rest), s.attempts[a].job.uploadId)
  {
    assert AttemptOk(s, s.attempts[a]);
    assert UploadOk(s, s.attempts[a].job.uploadId);
    ApplyKeepsInv(s, e);
    TerminalStays(Apply(s, e), rest, s.attempts[a].job.uploadId);
  }

  ghost predicate TerminalIn(s: State, u: Id) { u in s.uploads && Terminal(s.uploads[u].status) }

  lemma TerminalStays(s: State, es: seq<Event>, u: Id)
    requires Inv(s) && TerminalIn(s, u)
    ensures TerminalIn(Run(s, es), u)
  {
    StatusRatchet(s, es);
  }

  // ---------- When a message is deleted ----------

  /** Workers that are done left a terminal upload behind. */
  ghost predicate SettledIsTerminal(s: State) {
    forall a :: a in s.attempts && s.attempts[a].phase.Settled? ==> TerminalIn(s, s.attempts[a].job.uploadId)
  }

  lemma ClaimSettles(s: State, a: Id, m: Id)
    requires JobsOk(s) && a !in s.attempts && m in s.queue && !Claimable(s, s.queue[m])
    ensures TerminalIn(ClaimStep(s, a, m), s.queue[m].uploadId)
  {
    assert JobOk(s, s.queue[m]);
  }

  lemma EndSettles(s: State, e: Event, a: Id)
    requires a in s.attempts && !s.attempts[a].phase.Settled? && (e.MarkFailed? ==> e.ok)
    requires a in Apply(s, e).attempts && Apply(s, e).attempts[a].phase.Settled?
    ensures CleanEnd(s, e, a)
  {}

  /** A worker changes its job never, and is new exactly when it claims. */
  lemma AttemptsKeepJobs(s: State, e: Event, a: Id)
    requires a in Apply(s, e).attempts
    ensures a in s.attempts ==> Apply(s, e).attempts[a].job == s.attempts[a].job
    ensures a !in s.attempts ==>
              && e.Claim? && e.attempt == a && e.message in s.queue
              && Apply(s, e).attempts[a].job == s.queue[e.message]
              && (Apply(s, e).attempts[a].phase.Settled? ==> !Claimable(s, s.queue[e.message]))
  {}

  lemma ApplySettles(s: State, e: Event, a: Id)
    requires Inv(s) && SettledIsTerminal(s) && (e.MarkFailed? ==> e.ok)
    requires a in Apply(s, e).attempts && Apply(s, e).attempts[a].phase.Settled?
    ensures TerminalIn(Apply(s, e), Apply(s, e).attempts[a].job.uploadId)
  {
    AttemptsKeepJobs(s, e, a);
    if a !in s.attempts {
      ClaimSettles(s, a, e.message);
    } else if s.attempts[a].phase.Settled? {
      TerminalStays(s, [e], s.attempts[a].job.uploadId);
      assert [e][1..] == [] && Run(s, [e]) == Apply(s, e);
    } else {
      EndSettles(s, e, a);
      CleanEndIsTerminal(s, e, a, []);
    }
  }

  lemma {:induction false} RunSettles(s: State, es: seq<Event>)
    requires Inv(s) && SettledIsTerminal(s) && forall i :: 0 <= i < |es| ==> es[i].MarkFailed? ==> es[i].ok
    ensures SettledIsTerminal(Run(s, es))
    decreases |es|
  {
    if es != [] {
      var t := Apply(s, es[0]);
      ApplyKeepsInv(s, es[0]);
      forall a | a in t.attempts && t.attempts[a].phase.Settled? ensures TerminalIn(t, t.attempts[a].job.uploadId) {
        ApplySettles(s, es[0], a);
      }
      RunSettles(t, es[1..]);
    }
  }

  /**
   A message is deleted only by the worker that received it, and, as long as no mark_failed is lost, only
   once the upload it worked on is terminal.
   */
  lemma MessagesLeaveWhenDone(es: seq<Event>, e: Event, m: Id)
    requires m in Run(Init, es).queue && m !in Run(Init, es + [e]).queue
    ensures var s := Run(Init, es);
            || e == Lose(m)
            || (&& e.DeleteMessage? && e.attempt in s.attempts && s.attempts[e.attempt].message == m
                && ((forall i :: 0 <= i < |es| ==> es[i].MarkFailed? ==> es[i].ok) ==>
                      TerminalIn(s, s.attempts[e.attempt].job.uploadId)))
  {
    RunConcat(Init, es, [e]);
    assert [e][1..] == [] && Run(Run(Init, es), [e]) == Apply(Run(Init, es), e);
    if forall i :: 0 <= i < |es| ==> es[i].MarkFailed? ==> es[i].ok {
      RunSettles(Init, es);
    }
  }

  /**
   The worker deletes its message after mark_failed whatever came of it; the upload is terminal by then
   exactly when the mark got through or another worker had settled it.
   */
  lemma MarkDecides(es: seq<Event>, a: Id, ok: bool)
    requires a in Run(Init, es).attempts && Run(Init, es).attempts[a].phase.Condemned?
    ensures var s := Run(Init, es);
            var u, m := s.attempts[a].job.uploadId, s.attempts[a].message;
            var t := Apply(Apply(s, MarkFailed(a, ok)), DeleteMessage(a, true));
            m !in t.queue && (TerminalIn(t, u) <==> ok || TerminalIn(s, u))
  {
    RunKeepsInv(Init, es);
    var s := Run(Init, es);
    assert AttemptOk(s, s.attempts[a]);
  }

  // ---------- The sweep ----------

  /** The sweep selects exactly the uploads completed over 900 seconds ago that are not terminal. */
  lemma StaleMeans(es: seq<Event>, u: Id, now: int)
    requires u in Run(Init, es).uploads
    ensures var up := Run(Init, es).uploads[u];
            IsStale(up, now) <==>
              !up.status.Pending? && !Terminal(up.status) && up.uploadedAt.Some? && up.uploadedAt.value + 900 < now
  {
    RunKeepsInv(Init, es);
    assert UploadOk(Run(Init, es), u);
  }

  /** A batch holds at most 100 such uploads, oldest first and none twice, and leaves one out only when it is full. */
  lemma SweepBatchMeans(es: seq<Event>, now: int, rows: seq<Id>)
    requires IsSweepBatch(Run(Init, es).uploads, now, rows)
    ensures var ups := Run(Init, es).uploads;
            && |rows| <= 100
            && (forall k :: 0 <= k < |rows| ==>
                  rows[k] in ups && !ups[rows[k]].status.Pending? && !Terminal(ups[rows[k]].status))
            && (forall k, l :: 0 <= k < l < |rows| ==>
                  && rows[k] != rows[l] && rows[k] in ups && rows[l] in ups
                  && ups[rows[k]].createdAt <= ups[rows[l]].createdAt)
            && (|rows| < 100 ==> forall u :: u in ups && IsStale(ups[u], now) ==> u in rows)
  {
    forall k | 0 <= k < |rows| ensures !Run(Init, es).uploads[rows[k]].status.Pending? { StaleMeans(es, rows[k], now); }
  }

  /** Stale uploads the sweep may put before `u`. */
  ghost function OlderStale(uploads: map<Id, Upload>, now: int, u: Id): set<Id>
    requires u in uploads
  {
    set v | v in uploads && v != u && IsStale(uploads[v], now) && uploads[v].createdAt <= uploads[u].createdAt
  }

  lemma {:induction false} DistinctSeqToSet(rows: seq<Id>)
    requires forall k, l :: 0 <= k < l < |rows| ==> rows[k] != rows[l]
    ensures |set k | 0 <= k < |rows| :: rows[k]| == |rows|
  {
    var all := set k | 0 <= k < |rows| :: rows[k];
    if rows == [] {
      assert all == {};
    } else {
      var n := |rows| - 1;
      var front := rows[..n];
      var fs := set k | 0 <= k < |front| :: front[k];
      DistinctSeqToSet(front);
      assert all == fs + {rows[n]} by {
        forall x | x in fs ensures x in all {
          var k :| 0 <= k < |front| && front[k] == x;
          assert rows[k] == x;
        }
        forall x | x in all ensures x in fs + {rows[n]} {
          var k :| 0 <= k < |rows| && rows[k] == x;
          if k < n { assert front[k] == x; }
        }
      }
      assert rows[n] !in fs;
    }
  }

  /** Any answer of the sweep's query holds every stale upload with fewer than 100 stale ones before it. */
  lemma SweepReaches(uploads: map<Id, Upload>, now: int, rows: seq<Id>, u: Id)
    requires IsSweepBatch(uploads, now, rows)
    requires u in uploads && IsStale(uploads[u], now)
    requires |OlderStale(uploads, now, u)| < 100
    ensures u in rows
  {
    if u !in rows {
      var picked := set k | 0 <= k < |rows| :: rows[k];
      DistinctSeqToSet(rows);
      assert picked <= OlderStale(uploads, now, u);
      SubsetSize(picked, OlderStale(uploads, now, u));
      assert false;
    }
  }

  lemma {:induction false} SubsetSize(a: set<Id>, b: set<Id>)
    requires a <= b
    ensures |a| <= |b|
  {
    assert b == a + (b - a);
    assert |b| == |a| + |b - a|;
  }

  /** The sweep's query always has an answer. */
  lemma SweepBatchExists(uploads: map<Id, Upload>, now: int) returns (rows: seq<Id>)
    ensures IsSweepBatch(uploads, now, rows)
  {
    rows := [];
    var left := set u | u in uploads && IsStale(uploads[u], now);
    while left != {} && |rows| < STALE_UPLOAD_BATCH
      invariant forall u :: u in left ==> u in uploads && IsStale(uploads[u], now)
      invariant forall u :: u in uploads && IsStale(uploads[u], now) ==> u in left || u in rows
      invariant forall k :: 0 <= k < |rows| ==> rows[k] in uploads && IsStale(uploads[rows[k]], now) && rows[k] !in left
      invariant forall k, l :: 0 <= k < l < |rows| ==>
                  rows[k] != rows[l] && uploads[rows[k]].createdAt <= uploads[rows[l]].createdAt
      invariant forall k, v :: 0 <= k < |rows| && v in left ==> uploads[rows[k]].createdAt <= uploads[v].createdAt
      invariant |rows| <= STALE_UPLOAD_BATCH
      decreases left
    {
      var u := Oldest(uploads, left);
      rows, left := rows + [u], left - {u};
    }
  }

  lemma {:induction false} Oldest(uploads: map<Id, Upload>, some: set<Id>) returns (u: Id)
    requires some != {} && forall v :: v in some ==> v in uploads
    ensures u in some && forall v :: v in some ==> uploads[u].createdAt <= uploads[v].createdAt
    decreases some
  {
    u :| u in some;
    if some != {u} {
      var w := Oldest(uploads, some - {u});
      if uploads[w].createdAt < uploads[u].createdAt { u := w; }
      assert some == (some - {u}) + {u};
    }
  }

  /** What storage, decoding and the finishing transaction answer to one delivery. */
  datatype World = Clean | TransientError | Undecodable

  /** The events of one delivery applied in order, with nothing in between. */
  ghost function Deliver(s: State, a: Id, m: Id, world: World, mediaId: Id, markOk: bool, deleteOk: bool): State {
    var s1 := Apply(s, Claim(a, m));
    if !IsWorking(s1, a) then Apply(s1, DeleteMessage(a, deleteOk))
    else if world.TransientError? then Apply(s1, Abandon(a))
    else if world.Undecodable? || Extension(s1.attempts[a].phase.contentType).None?
    then Apply(Apply(Apply(s1, PermanentFailure(a)), MarkFailed(a, markOk)), DeleteMessage(a, deleteOk))
    else Apply(Apply(s1, Finish(a, mediaId)), DeleteMessage(a, deleteOk))
  }

  /** The job is being sent until its send ends. */
  lemma {:induction false} SendingLasts(s: State, es: seq<Event>, job: Job)
    requires job in s.sending && SendEnds(job) !in es
    ensures job in Run(s, es).sending
    decreases |es|
  {
    if es != [] {
      assert es[0] in es && es[0] != SendEnds(job);
      SendingLasts(Apply(s, es[0]), es[1..], job);
    }
  }

  lemma SweepSends(s: State, u: Id, now: int, rows: seq<Id>, mid: seq<Event>)
    requires Inv(s) && u in s.uploads && IsStale(s.uploads[u], now) && IsSweepBatch(s.uploads, now, rows)
    requires |OlderStale(s.uploads, now, u)| < STALE_UPLOAD_BATCH && SendEnds(JobFor(s, u)) !in mid
    ensures JobFor(s, u) in Run(Apply(s, Sweep(now, rows)), mid).sending && Inv(Run(Apply(s, Sweep(now, rows)), mid))
  {
    var swept := Apply(s, Sweep(now, rows));
    SweepReaches(s.uploads, now, rows, u);
    assert JobFor(s, u) in swept.sending by {
      var k :| 0 <= k < |rows| && rows[k] == u;
    }
    SendingLasts(swept, mid, JobFor(s, u));
    ApplyKeepsInv(s, Sweep(now, rows));
    RunKeepsInv(swept, mid);
  }

  /** A claim of a queued message takes the upload up, or finds it terminal for good. */
  lemma ClaimTakesUpOrIsTerminal(s: State, a: Id, m: Id, work: seq<Event>)
    requires Inv(s) && m in s.queue && a !in s.attempts
    ensures var s1 := Apply(s, Claim(a, m));
            || (IsWorking(s1, a) && s1.attempts[a].job == s.queue[m])
            || TerminalIn(Run(s1, work), s.queue[m].uploadId)
  {
    assert JobOk(s, s.queue[m]);
    var s1 := Apply(s, Claim(a, m));
    ApplyKeepsInv(s, Claim(a, m));
    if !IsWorking(s1, a) {
      TerminalStays(s1, work, s.queue[m].uploadId);
    }
  }

  /**
   A delivery, with any events of other workers, clients and sweeps between its steps: when the
   attempt that claimed the message ends without a fault its upload is terminal, for good.
   */
  lemma DeliveryMakesTerminal(s: State, a: Id, m: Id, work: seq<Event>, e: Event, rest: seq<Event>)
    requires Inv(s) && m in s.queue && a !in s.attempts
    ensures var x := Run(Apply(s, Claim(a, m)), work);
            CleanEnd(x, e, a) && x.attempts[a].job == s.queue[m] ==>
              TerminalIn(Run(Apply(x, e), rest), s.queue[m].uploadId)
  {
    var x := Run(Apply(s, Claim(a, m)), work);
    ApplyKeepsInv(s, Claim(a, m));
    RunKeepsInv(Apply(s, Claim(a, m)), work);
    if CleanEnd(x, e, a) { CleanEndIsTerminal(x, e, a, rest); }
  }

  /** An upload its client completed over 900 seconds ago that is neither completed nor failed. */
  ghost predicate Overdue(up: Upload, now: int) {
    !up.status.Pending? && !Terminal(up.status) && up.uploadedAt.Some? && up.uploadedAt.value + 900 < now
  }

  lemma OverdueAreStale(es: seq<Event>, u: Id, now: int)
    requires u in Run(Init, es).uploads
    ensures var ups := Run(Init, es).uploads;
            OlderStale(ups, now, u)
            == set v | v in ups && v != u && Overdue(ups[v], now) && ups[v].createdAt <= ups[u].createdAt
  {
    var ups := Run(Init, es).uploads;
    forall v | v in ups ensures IsStale(ups[v], now) <==> Overdue(ups[v], now) { StaleMeans(es, v, now); }
  }

  /**
   No lost upload: from every reachable state, whatever failed or crashed before, a sweep sends the
   job of each upload completed over 900 seconds ago that is not terminal and has fewer than 100
   older such ones; while that send lasts it can be enqueued; and once the message is delivered,
   the claim takes the upload up or finds it terminal, and a clean end makes it terminal. Any
   events may come in between.
   */
  lemma NoLostUpload(es: seq<Event>, u: Id, now: int, rows: seq<Id>, mid: seq<Event>, m: Id, wait: seq<Event>,
                     a: Id, work: seq<Event>, e: Event, rest: seq<Event>)
    requires var s := Run(Init, es);
             && u in s.uploads && !s.uploads[u].status.Pending? && !Terminal(s.uploads[u].status)
             && s.uploads[u].uploadedAt.Some? && s.uploads[u].uploadedAt.value + 900 < now
             && |set v | v in s.uploads && v != u && Overdue(s.uploads[v], now)
                         && s.uploads[v].createdAt <= s.uploads[u].createdAt| < 100
             && IsSweepBatch(s.uploads, now, rows) && SendEnds(JobFor(s, u)) !in mid
             && m !in Run(Apply(s, Sweep(now, rows)), mid).queue
    ensures var s := Run(Init, es);
            var job := JobFor(s, u);
            var q := Apply(Run(Apply(s, Sweep(now, rows)), mid), Enqueue(job, m));
            var c := Run(q, wait);
            var w := Apply(c, Claim(a, m));
            var x := Run(w, work);
            && m in q.queue && q.queue[m] == job
            && (m in c.queue && c.queue[m] == job && a !in c.attempts ==>
                  && ((IsWorking(w, a) && w.attempts[a].job == job) || TerminalIn(x, u))
                  && (CleanEnd(x, e, a) && x.attempts[a].job == job ==> TerminalIn(Run(Apply(x, e), rest), u)))
  {
    var s := Run(Init, es);
    var job := JobFor(s, u);
    var sent := Run(Apply(s, Sweep(now, rows)), mid);
    RunKeepsInv(Init, es);
    StaleMeans(es, u, now);
    OverdueAreStale(es, u, now);
    SweepSends(s, u, now, rows, mid);
    var q := Apply(sent, Enqueue(job, m));
    var c := Run(q, wait);
    ApplyKeepsInv(sent, Enqueue(job, m));
    RunKeepsInv(q, wait);
    if m in c.queue && c.queue[m] == job && a !in c.attempts {
      ClaimTakesUpOrIsTerminal(c, a, m, work);
      DeliveryMakesTerminal(c, a, m, work, e, rest);
    }
  }

  function Remaining(s: State, m: Id, deleteOk: bool): map<Id, Job> {
    if deleteOk then s.queue - {m} else s.queue
  }

  lemma DeliverStale(s: State, a: Id, m: Id, world: World, mediaId: Id, markOk: bool, deleteOk: bool)
    requires m in s.queue && s.attempts == map[] && !Claimable(s, s.queue[m])
    ensures Deliver(s, a, m, world, mediaId, markOk, deleteOk) == s.(queue := Remaining(s, m, deleteOk))
  {
    assert map[a := Attempt(m, s.queue[m], Settled)] - {a} == map[];
  }

  function Row(s: State, m: Id): Upload
    requires m in s.queue && Claimable(s, s.queue[m])
  {
    s.uploads[s.queue[m].uploadId]
  }

  function Worker(s: State, m: Id): Attempt
    requires m in s.queue && Claimable(s, s.queue[m])
  {
    Attempt(m, s.queue[m], Working(Row(s, m).originalKey, Row(s, m).contentType, Row(s, m).bytes))
  }

  lemma DeliverTransient(s: State, a: Id, m: Id, mediaId: Id, markOk: bool, deleteOk: bool)
    requires m in s.queue && s.attempts == map[] && Claimable(s, s.queue[m])
    ensures Deliver(s, a, m, TransientError, mediaId, markOk, deleteOk)
         == s.(uploads := s.uploads[s.queue[m].uploadId := Row(s, m).(status := Processing)])
  {
    assert map[a := Worker(s, m)] - {a} == map[];
  }

  /** The state a claim leaves. */
  function ClaimedState(s: State, a: Id, m: Id): State
    requires m in s.queue && Claimable(s, s.queue[m])
  {
    s.(uploads := s.uploads[s.queue[m].uploadId := Row(s, m).(status := Processing)],
       attempts := map[a := Worker(s, m)])
  }

  lemma ClaimGives(s: State, a: Id, m: Id)
    requires m in s.queue && s.attempts == map[] && Claimable(s, s.queue[m])
    ensures Apply(s, Claim(a, m)) == ClaimedState(s, a, m)
  {}

  lemma CondemningGives(s: State, a: Id, w: Attempt)
    requires s.attempts == map[a := w] && w.phase.Working?
    ensures Apply(s, PermanentFailure(a)) == s.(attempts := map[a := w.(phase := Condemned)])
  {}

  lemma DeliverCondemned(s: State, a: Id, m: Id, world: World, mediaId: Id, markOk: bool, deleteOk: bool)
    requires m in s.queue && s.attempts == map[] && Claimable(s, s.queue[m])
    requires world.Undecodable? || (world.Clean? && Extension(Row(s, m).contentType).None?)
    ensures Deliver(s, a, m, world, mediaId, markOk, deleteOk)
         == s.(queue := Remaining(s, m, deleteOk),
               uploads := s.uploads[s.queue[m].uploadId := Row(s, m).(status := if markOk then Failed else Processing)])
  {
    var u := s.queue[m].uploadId;
    var s1 := ClaimedState(s, a, m);
    ClaimGives(s, a, m);
    var s2 := s1.(attempts := map[a := Worker(s, m).(phase := Condemned)]);
    CondemningGives(s1, a, Worker(s, m));
    var s3 := s2.(uploads := s.uploads[u := Row(s, m).(status := if markOk then Failed else Processing)],
                  attempts := map[a := Worker(s, m).(phase := Settled)]);
    assert Apply(s2, MarkFailed(a, markOk)) == s3;
    assert s3.attempts - {a} == map[];
  }

  lemma DeliverFinished(s: State, a: Id, m: Id, mediaId: Id, markOk: bool, deleteOk: bool)
    requires m in s.queue && s.attempts == map[] && Claimable(s, s.queue[m]) && mediaId !in s.media
    requires Extension(Row(s, m).contentType).Some?
    ensures Deliver(s, a, m, Clean, mediaId, markOk, deleteOk)
         == s.(queue := Remaining(s, m, deleteOk), media := s.media[mediaId := NewMedia(Worker(s, m))],
               uploads := s.uploads[s.queue[m].uploadId :=
                                      Row(s, m).(status := Completed, processedMediaId := Some(mediaId))])
  {
    var u := s.queue[m].uploadId;
    var s1 := ClaimedState(s, a, m);
    ClaimGives(s, a, m);
    var s2 := s.(media := s.media[mediaId := NewMedia(Worker(s, m))],
                 uploads := s.uploads[u := Row(s, m).(status := Completed, processedMediaId := Some(mediaId))],
                 attempts := map[a := Worker(s, m).(phase := Settled)]);
    assert Apply(s1, Finish(a, mediaId)) == s2;
    assert s2.attempts - {a} == map[];
  }

  lemma DeliverCases(s: State, a: Id, m: Id, world: World, mediaId: Id, markOk: bool, deleteOk: bool)
    requires m in s.queue && s.attempts == map[] && mediaId !in s.media
    ensures Deliver(s, a, m, world, mediaId, markOk, deleteOk) ==
            if !Claimable(s, s.queue[m]) then s.(queue := Remaining(s, m, deleteOk))
            else if world.TransientError? then
              s.(uploads := s.uploads[s.queue[m].uploadId := Row(s, m).(status := Processing)])
            else if world.Undecodable? || Extension(Row(s, m).contentType).None? then
              s.(queue := Remaining(s, m, deleteOk),
                 uploads := s.uploads[s.queue[m].uploadId :=
                                        Row(s, m).(status := if markOk then Failed else Processing)])
            else
              s.(queue := Remaining(s, m, deleteOk), media := s.media[mediaId := NewMedia(Worker(s, m))],
                 uploads := s.uploads[s.queue[m].uploadId :=
                                        Row(s, m).(status := Completed, processedMediaId := Some(mediaId))])
  {
    if !Claimable(s, s.queue[m]) { DeliverStale(s, a, m, world, mediaId, markOk, deleteOk); }
    else if world.TransientError? { DeliverTransient(s, a, m, mediaId, markOk, deleteOk); }
    else if world.Undecodable? || Extension(Row(s, m).contentType).None? {
      DeliverCondemned(s, a, m, world, mediaId, markOk, deleteOk);
    } else { DeliverFinished(s, a, m, mediaId, markOk, deleteOk); }
  }

  // ---------- The code that runs the steps ----------

  datatype Outcome = Done | RetryLater | PermanentError

  /** The tables and the queue as one worker process sees them. */
  class Backend {
    var uploads: map<Id, Upload>
    var media: map<Id, Media>
    var queue: map<Id, Job>

    ghost function Snapshot(): State
      reads this
    {
      State(uploads, media, queue, {}, map[])
    }

    /** The sweep's loop: one message per selected row, a failed enqueue skips only its own row. */
    method RequeueStaleUploads(ghost now: int, rows: seq<Id>, ids: seq<Id>, accepted: seq<bool>)
      requires IsSweepBatch(uploads, now, rows) && |ids| == |accepted| == |rows|
      requires forall k, l :: 0 <= k < l < |ids| ==> ids[k] != ids[l]
      requires forall k :: 0 <= k < |ids| ==> ids[k] !in queue
      modifies this`queue
      ensures forall m :: m in queue <==> m in old(queue) || exists k :: 0 <= k < |ids| && accepted[k] && m == ids[k]
      ensures forall m :: m in old(queue) ==> m in queue && queue[m] == old(queue)[m]
      ensures forall k :: 0 <= k < |ids| && accepted[k] ==>
                ids[k] in queue && queue[ids[k]] == JobFor(Snapshot(), rows[k])
    {
      for i := 0 to |rows|
        invariant forall m :: m in queue <==> m in old(queue) || exists k :: 0 <= k < i && accepted[k] && m == ids[k]
        invariant forall m :: m in old(queue) ==> m in queue && queue[m] == old(queue)[m]
        invariant forall k :: 0 <= k < i && accepted[k] ==>
                    ids[k] in queue && queue[ids[k]] == JobFor(Snapshot(), rows[k])
      {
        var job := Job(rows[i], uploads[rows[i]].owner, uploads[rows[i]].originalKey);
        if accepted[i] {
          queue := queue[ids[i] := job];
        }
      }
    }

    /** process_job: claim, work, then insert the media row and flip the status in one transaction. */
    method ProcessJob(job: Job, world: World, mediaId: Id) returns (r: Outcome)
      requires mediaId !in media
      modifies this`uploads, this`media
      ensures !Claimable(old(Snapshot()), job) ==> r == Done && uploads == old(uploads) && media == old(media)
      ensures Claimable(old(Snapshot()), job) ==>
                var row := old(uploads)[job.uploadId];
                if world.TransientError? then
                  r == RetryLater && media == old(media)
                      && uploads == old(uploads)[job.uploadId := row.(status := Processing)]
                else if world.Undecodable? || Extension(row.contentType).None? then
                  r == PermanentError && media == old(media)
                      && uploads == old(uploads)[job.uploadId := row.(status := Processing)]
                else
                  && r == Done
                  && media == old(media)[mediaId :=
                       NewMedia(Attempt(mediaId, job, Working(row.originalKey, row.contentType, row.bytes)))]
                  && uploads == old(uploads)[job.uploadId :=
                       row.(status := Completed, processedMediaId := Some(mediaId))]
    {
      if job.uploadId !in uploads || uploads[job.uploadId].owner != job.owner
         || !(uploads[job.uploadId].status.Uploaded? || uploads[job.uploadId].status.Processing?) {
        return Done;
      }
      uploads := uploads[job.uploadId := uploads[job.uploadId].(status := Processing)];
      var row := uploads[job.uploadId];
      if world.TransientError? { return RetryLater; }
      if world.Undecodable? || Extension(row.contentType).None? { return PermanentError; }
      var ext := Extension(row.contentType).value;
      var thumb := Variant(job.owner, job.uploadId, Thumb, ext);
      var medium := Variant(job.owner, job.uploadId, Medium, ext);
      media := media[mediaId := Media(job.owner, row.originalKey, thumb, medium, row.bytes)];
      if uploads[job.uploadId].owner == job.owner {
        uploads := uploads[job.uploadId :=
                             uploads[job.uploadId].(status := Completed, processedMediaId := Some(mediaId))];
      }
      return Done;
    }

    /** mark_failed: only a row still in 'processing' becomes 'failed'. */
    method MarkJobFailed(job: Job, ok: bool)
      modifies this`uploads
      ensures uploads == if ok && job.uploadId in old(uploads) && old(uploads)[job.uploadId].owner == job.owner
                            && old(uploads)[job.uploadId].status.Processing?
                         then old(uploads)[job.uploadId := old(uploads)[job.uploadId].(status := Failed)]
                             else old(uploads)
    {
      if ok && job.uploadId in uploads && uploads[job.uploadId].owner == job.owner
          && uploads[job.uploadId].status.Processing? {
        uploads := uploads[job.uploadId := uploads[job.uploadId].(status := Failed)];
      }
    }

    /** One round of the worker loop takes exactly the events of one delivery. */
    method HandleMessage(m: Id, ghost a: Id, world: World, mediaId: Id, markOk: bool, deleteOk: bool)
      requires m in queue && mediaId !in media
      modifies this
      ensures Snapshot() == Deliver(old(Snapshot()), a, m, world, mediaId, markOk, deleteOk)
    {
      DeliverCases(Snapshot(), a, m, world, mediaId, markOk, deleteOk);
      var outcome := ProcessJob(queue[m], world, mediaId);
      if outcome.PermanentError? {
        MarkJobFailed(queue[m], markOk);
        outcome := Done;
      }
      if outcome.Done? && deleteOk {
        queue := queue - {m};
      }
    }
  }
}
