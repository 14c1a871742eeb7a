/** The page's own objects: hydration from history, then the live feed. */
module BrowserTab {
  import opened Common
  import opened Events
  import opened QueueModel
  import opened Browser

  /** One page of the run's history; also the default limit of the plane's endpoint. */
  const PAGE: nat := 1000

  /** The last sequence number of a page, or the cursor it was asked with. */
  function EndOf(page: seq<Row>, after: nat): nat { if page == [] then after else page[|page| - 1].seqNo }

  lemma PageEnd(log: seq<Event>, read: nat, after: nat)
    requires after <= read <= |log|
    ensures EndOf(Page(log, read, after, PAGE), after) == after + |Page(log, read, after, PAGE)|
  {}

  lemma StartOfReplay(seed: View, log: seq<Event>)
    ensures Replay(seed, log[..0]) == seed
  {}

  class Tab {
    var view: View
    /** The cursor the socket resumes from. */
    var cursor: nat
    /** Jobs that have been read again after they ended, by the status they ended in. */
    var enriched: set<(JobId, JobStatus)>

    constructor ()
      ensures view == View(RunQueued, [], map[]) && cursor == 0 && enriched == {}
    {
      view, cursor, enriched := View(RunQueued, [], map[]), 0, {};
    }

    /** `seedFromJobs` */
    static method SeedFromJobs(jobs: map<JobId, Job>, ids: seq<JobId>, status: RunStatus) returns (v: View)
      requires forall j :: j in ids ==> j in jobs
      ensures v == Seed(jobs, ids, status)
    {
      v := View(status, [], map[]);
      for i := 0 to |ids|
        invariant v == Seed(jobs, ids[..i], status)
      {
        assert ids[..i + 1][..i] == ids[..i];
        v := v.(order := v.order + [ids[i]]);
        v := v.(nodes := v.nodes[ids[i] := SeedNode(jobs[ids[i]])]);
      }
      assert ids[..|ids|] == ids;
    }

    static method ApplyPage(v: View, page: seq<Row>) returns (next: View)
      ensures next == ApplyAll(v, page)
    {
      next := v;
      for i := 0 to |page|
        invariant ApplyAll(next, page[i..]) == ApplyAll(v, page)
      {
        assert page[i..][0] == page[i] && page[i..][1..] == page[i + 1..];
        next := Apply(next, page[i]);
      }
      assert page[|page|..] == [];
    }

    /**
     * The hydration loop. `log` is what will have been committed when it is done; each
     * page is read at some moment along the way, the first when `seen` events were
     * committed. The page's cursor ends where the applied history does, with nothing
     * committed before the last read, `lastSeen`, left out.
     */
    method Hydrate(log: seq<Event>, seed: View, seen: nat) returns (lastSeen: nat)
      requires seen <= |log|
      modifies this
      ensures seen <= lastSeen == cursor <= |log| && view == Replay(seed, log[..cursor])
      ensures enriched == old(enriched)
    {
      hide Apply, Replay, ApplyAll, Page, EndOf;
      var read: nat := seen;
      var page := Page(log, read, 0, PAGE);
      var next := seed;
      ghost var done: nat := 0;
      var after := EndOf(page, 0);
      PageEnd(log, read, 0);
      StartOfReplay(seed, log);
      while true
        invariant done <= read <= |log| && seen <= read
        invariant page == Page(log, read, done, PAGE) && after == done + |page|
        invariant next == Replay(seed, log[..done]) && enriched == old(enriched)
        decreases |log| - done
      {
        ApplyAllIsReplay(seed, log, done, page);
        next := ApplyPage(next, page);
        done := after;
        if |page| < PAGE { break; }
        var later: nat :| read <= later <= |log|;
        read := later;
        page := Page(log, read, after, PAGE);
        PageEnd(log, read, done);
        after := EndOf(page, after);
      }
      view, cursor, lastSeen := next, after, read;
    }

    /** The event reports a job's success or failure, the two ends whose row holds more than the event does. */
    static predicate Enriching(e: Event) {
      e.job.Some? && e.body.StatusIs? && (e.body.status.Succeeded? || e.body.status.Failed?)
    }

    /**
     * `onmessage` and the handler it calls. The job's row is to be read again exactly
     * when a new event reports its success or its failure for the first time.
     */
    method OnMessage(row: Row) returns (reread: bool)
      modifies this
      ensures row.seqNo <= old(cursor) ==> view == old(view) && cursor == old(cursor)
      ensures row.seqNo > old(cursor) ==> view == Apply(old(view), row) && cursor == row.seqNo
      ensures reread <==>
        && row.seqNo > old(cursor) && Enriching(row.event)
        && (row.event.job.value, row.event.body.status) !in old(enriched)
      ensures enriched == old(enriched) + if reread then {(row.event.job.value, row.event.body.status)} else {}
    {
      reread := false;
      if row.seqNo <= cursor { return; }
      cursor := row.seqNo;
      view := Apply(view, row);
      if row.event.body.StatusIs? && row.event.job.Some? {
        var status := row.event.body.status;
        if status.Succeeded? || status.Failed? {
          var key := (row.event.job.value, status);
          if key !in enriched {
            enriched := enriched + {key};
            reread := true;
          }
        }
      }
    }

    /** The reply of that read. */
    method OnJobRead(j: JobId, job: Job)
      modifies this`view
      ensures view == Merge(old(view), j, job) && SameStory(view, old(view))
    {
      MergeKeepsStory(view, view, j, job);
      view := Merge(view, j, job);
    }
  }
}
