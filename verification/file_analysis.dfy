/** The file-analysis component: choose a file, upload it, then poll the
    analysis every few seconds for as long as the provider reports it as
    queued. The poll loop is driven here by a finite sequence of replies, one
    per fetch, in the order the fetches settle; the delay between fetches is
    not modelled. */
module FileAnalysis {
  import opened Js
  import opened Http
  import opened Palette
  import VtFileRoute

  /** The one status on which polling continues. */
  const QueuedStatus := "queued"
  const PollFailedMessage := "Failed to fetch analysis results"
  const AnalyzeFailedMessage := "Failed to analyze file"

  /** One engine's row of an analysis, as the provider reports it. */
  datatype EngineResult = EngineResult(engineName: string, category: string, result: Option<string>, detectionMethod: string)

  /** The provider's per-category counts; shown as given, never recomputed. */
  datatype Stats = Stats(malicious: int, suspicious: int, undetected: int, harmless: int,
                         timeout: int, confirmedTimeout: int, failure: int, typeUnsupported: int)

  /** `results` keeps the provider's key order, which is the order the rows are shown in. */
  datatype Attributes = Attributes(status: string, stats: Stats, results: seq<(string, EngineResult)>)

  /** An analysis document. `attributes` is `None` when `data` or
      `data.attributes` is missing, so that reading the status throws. */
  datatype AnalysisDoc = AnalysisDoc(attributes: Option<Attributes>)

  datatype SelectedFile = SelectedFile(name: string, size: nat)

  /** The component's state. */
  datatype View = View(file: Option<SelectedFile>, loading: bool, error: Option<string>,
                       analysisId: Option<string>, result: Option<AnalysisDoc>)

  /** A poll reply after which another fetch is scheduled. */
  predicate KeepsPolling(reply: Settled<AnalysisDoc>)
  {
    reply.Resolved? && reply.value.attributes.Some? && reply.value.attributes.value.status == QueuedStatus
  }

  /** A poll reply that lands in the `catch`: the request failed, or the
      document had no attributes to read the status from. */
  predicate Breaks(reply: Settled<AnalysisDoc>)
  {
    reply.Rejected? || reply.value.attributes.None?
  }

  /** The result of driving the poll loop: the final state, the id of every
      fetch issued, and whether a further fetch is still scheduled when the
      replies run out. */
  datatype PollRun = PollRun(view: View, requests: seq<string>, pending: bool)

  /** `fetchAnalysisResult(id)` and the fetches it schedules. Each fetched
      document is stored before its status is read; another fetch follows
      exactly when the status is "queued"; a failure records the error and
      schedules nothing. */
  function Poll(v: View, id: string, replies: seq<Settled<AnalysisDoc>>): (run: PollRun)
    decreases |replies|
    ensures |run.requests| <= |replies|
    ensures forall k | 0 <= k < |run.requests| :: run.requests[k] == id
    ensures forall k | 0 <= k < |run.requests| - 1 :: KeepsPolling(replies[k])
    ensures run.pending <==> forall k | 0 <= k < |replies| :: KeepsPolling(replies[k])
    ensures run.pending ==> |run.requests| == |replies|
    ensures !run.pending ==> 0 < |run.requests| && !KeepsPolling(replies[|run.requests| - 1])
    ensures run.view.file == v.file && run.view.loading == v.loading && run.view.analysisId == v.analysisId
    ensures !run.pending && Breaks(replies[|run.requests| - 1]) ==> run.view.error == Some(PollFailedMessage)
    ensures !(!run.pending && Breaks(replies[|run.requests| - 1])) ==> run.view.error == v.error
  {
    if |replies| == 0 then PollRun(v, [], true)
    else
      match replies[0]
      case Rejected(_) => PollRun(v.(error := Some(PollFailedMessage)), [id], false)
      case Resolved(doc) =>
        var stored := v.(result := Some(doc));
        match doc.attributes
        case None => PollRun(stored.(error := Some(PollFailedMessage)), [id], false)
        case Some(attrs) =>
          if attrs.status == QueuedStatus then
            var rest := Poll(stored, id, replies[1..]);
            PollRun(rest.view, [id] + rest.requests, rest.pending)
          else PollRun(stored, [id], false)
  }

  /** Reference definition of the stored result: the document of the latest
      successful fetch, or what was stored before if no fetch succeeded. */
  function LatestDoc(before: Option<AnalysisDoc>, replies: seq<Settled<AnalysisDoc>>): Option<AnalysisDoc>
    decreases |replies|
  {
    if |replies| == 0 then before
    else match replies[|replies| - 1]
      case Resolved(doc) => Some(doc)
      case Rejected(_) => LatestDoc(before, replies[..|replies| - 1])
  }

  /** Taking the first reply into the starting value leaves the latest document unchanged. */
  lemma {:induction false} LatestDocCons(before: Option<AnalysisDoc>, first: Settled<AnalysisDoc>, rest: seq<Settled<AnalysisDoc>>)
    ensures LatestDoc(before, [first] + rest) == LatestDoc(if first.Resolved? then Some(first.value) else before, rest)
    decreases |rest|
  {
    var start := if first.Resolved? then Some(first.value) else before;
    if |rest| == 0 {
      assert [first] + rest == [first];
      assert [first][..0] == [];
    } else {
      var all := [first] + rest;
      assert all[|all| - 1] == rest[|rest| - 1];
      assert all[..|all| - 1] == [first] + rest[..|rest| - 1];
      if rest[|rest| - 1].Rejected? {
        LatestDocCons(before, first, rest[..|rest| - 1]);
      }
    }
  }

  /** Each successful fetch replaces the stored result: after polling, the
      stored result is the latest document fetched. */
  lemma {:induction false} PollKeepsLatest(v: View, id: string, replies: seq<Settled<AnalysisDoc>>)
    ensures var run := Poll(v, id, replies); run.view.result == LatestDoc(v.result, replies[..|run.requests|])
    decreases |replies|
  {
    var run := Poll(v, id, replies);
    if |replies| > 0 {
      var n := |run.requests|;
      assert replies[..n] == [replies[0]] + replies[1..][..n - 1];
      LatestDocCons(v.result, replies[0], replies[1..][..n - 1]);
      if KeepsPolling(replies[0]) {
        PollKeepsLatest(v.(result := Some(replies[0].value)), id, replies[1..]);
      } else {
        assert n == 1;
      }
    }
  }

  /** Polling has no bound: as long as every reply says "queued", every reply
      is fetched and one more fetch is still scheduled. */
  lemma QueuedForever(v: View, id: string, replies: seq<Settled<AnalysisDoc>>)
    requires forall k | 0 <= k < |replies| :: KeepsPolling(replies[k])
    ensures var run := Poll(v, id, replies);
      run.pending && |run.requests| == |replies| && run.view.error == v.error
  {
  }

  /** Once polling has stopped, replies the loop never asked for change nothing. */
  lemma {:induction false} PollIgnoresLaterReplies(v: View, id: string, replies: seq<Settled<AnalysisDoc>>, more: seq<Settled<AnalysisDoc>>)
    requires !Poll(v, id, replies).pending
    ensures Poll(v, id, replies + more) == Poll(v, id, replies)
    decreases |replies|
  {
    assert (replies + more)[0] == replies[0];
    if KeepsPolling(replies[0]) {
      assert (replies + more)[1..] == replies[1..] + more;
      PollIgnoresLaterReplies(v.(result := Some(replies[0].value)), id, replies[1..], more);
    }
  }

  /** Polling is incremental: a loop still waiting after some replies carries
      on from where it stood when more replies arrive. */
  lemma {:induction false} PollResumes(v: View, id: string, replies: seq<Settled<AnalysisDoc>>, more: seq<Settled<AnalysisDoc>>)
    requires Poll(v, id, replies).pending
    ensures var first := Poll(v, id, replies);
      var second := Poll(first.view, id, more);
      Poll(v, id, replies + more) == PollRun(second.view, first.requests + second.requests, second.pending)
    decreases |replies|
  {
    if |replies| == 0 {
      assert replies + more == more;
    } else {
      assert (replies + more)[0] == replies[0];
      assert (replies + more)[1..] == replies[1..] + more;
      var stored := v.(result := Some(replies[0].value));
      PollResumes(stored, id, replies[1..], more);
      var first := Poll(stored, id, replies[1..]);
      var second := Poll(first.view, id, more);
      assert [id] + (first.requests + second.requests) == ([id] + first.requests) + second.requests;
    }
  }

  /** The provider reports an analysis under way as "in-progress" as well as
      "queued"; only "queued" is polled on, so an in-progress reply ends
      polling with the partial document stored and summarised. */
  lemma InProgressStopsPolling(v: View, id: string, attrs: Attributes, more: seq<Settled<AnalysisDoc>>)
    requires attrs.status == "in-progress"
    ensures Poll(v, id, [Resolved(AnalysisDoc(Some(attrs)))] + more)
      == PollRun(v.(result := Some(AnalysisDoc(Some(attrs)))), [id], false)
    ensures ResultPanel(attrs).Summary?
  {
    assert ([Resolved(AnalysisDoc(Some(attrs)))] + more)[0] == Resolved(AnalysisDoc(Some(attrs)));
  }

  /** A poll goes through the file route's `GET`: the provider's document
      reaches the loop unchanged, and any provider failure ends the loop with
      the poll error. */
  lemma PollingThroughRoute(id: string, upstream: Upstream<AnalysisDoc>)
    requires id != ""
    ensures var reply := Receive(VtFileRoute.Get(Some(id), upstream).response);
      (Axios(upstream).Resolved? ==> reply == Resolved(upstream.body))
      && (Axios(upstream).Rejected? ==> reply.Rejected? && Breaks(reply) && !KeepsPolling(reply))
  {
  }

  /** A selection made in the file input. */
  function HandleFileChange(v: View, chosen: seq<SelectedFile>): (v': View)
    ensures |chosen| == 0 ==> v' == v
    ensures |chosen| > 0 ==> v'.file == Some(chosen[0]) && v'.result.None? && v'.analysisId.None?
    ensures v'.loading == v.loading && v'.error == v.error
  {
    if |chosen| > 0 then v.(file := Some(chosen[0]), result := None, analysisId := None) else v
  }

  /** What one press of "Analyze" does: the file uploaded (if any), the state
      once the upload has settled, and the poll loop started from it. */
  datatype Session = Session(uploaded: Option<SelectedFile>, submitted: View, run: PollRun)

  /** `analyzeFile`: with no file, nothing happens. Otherwise the error, id and
      result are cleared and the file uploaded; a failed upload records the
      error and never polls; a successful one records the id and starts
      polling with it. Loading ends as soon as the upload settles: the poll
      loop is started but not awaited. */
  function AnalyzeFile(v: View, submit: Settled<string>, replies: seq<Settled<AnalysisDoc>>): (s: Session)
    ensures v.file.None? ==> s.uploaded.None? && s.run == PollRun(v, [], false)
    ensures v.file.Some? ==> s.uploaded == v.file && s.run.view.file == v.file && !s.run.view.loading
    ensures v.file.Some? && submit.Rejected? ==>
      s.run == PollRun(v.(loading := false, error := Some(AnalyzeFailedMessage), analysisId := None, result := None), [], false)
    ensures v.file.Some? && submit.Resolved? ==>
      && s.submitted == v.(loading := false, error := None, analysisId := Some(submit.value), result := None)
      && s.run == Poll(s.submitted, submit.value, replies)
      && s.run.view.analysisId == Some(submit.value)
      && (forall k | 0 <= k < |s.run.requests| :: s.run.requests[k] == submit.value)
  {
    match v.file
    case None => Session(None, v, PollRun(v, [], false))
    case Some(f) =>
      var cleared := v.(loading := true, error := None, analysisId := None, result := None);
      match submit
      case Rejected(_) =>
        var failed := cleared.(error := Some(AnalyzeFailedMessage), loading := false);
        Session(Some(f), failed, PollRun(failed, [], false))
      case Resolved(id) =>
        var started := cleared.(analysisId := Some(id), loading := false);
        Session(Some(f), started, Poll(started, id, replies))
  }

  /** The upload as the file route's `POST` sees it: the chosen file's size. */
  function Upload(f: SelectedFile): VtFileRoute.Form
  {
    VtFileRoute.Parsed(VtFileRoute.FileField(f.size))
  }

  /** An oversized file goes through the route without reaching the provider:
      the route answers 400, the component records the upload failure and
      never polls. The provider's acknowledgement is reduced to its id. */
  lemma OversizedFileNeverPolled(v: View, upstream: Upstream<string>, replies: seq<Settled<AnalysisDoc>>)
    requires v.file.Some? && v.file.value.size > VtFileRoute.MaxUploadBytes
    ensures var h := VtFileRoute.Post(Upload(v.file.value), upstream);
      var s := AnalyzeFile(v, Receive(h.response), replies);
      && h.request.None?
      && s.run.requests == []
      && s.run.view.error == Some(AnalyzeFailedMessage)
      && !s.run.view.loading
  {
  }

  /** A file within the limit is sent on; when the provider accepts it, the
      component polls with exactly the id the provider returned, and when it
      does not, the component records the failure and never polls. */
  lemma UploadThroughRoute(v: View, upstream: Upstream<string>, replies: seq<Settled<AnalysisDoc>>)
    requires v.file.Some? && v.file.value.size <= VtFileRoute.MaxUploadBytes
    ensures var h := VtFileRoute.Post(Upload(v.file.value), upstream);
      var s := AnalyzeFile(v, Receive(h.response), replies);
      && h.request == Some(VtFileRoute.FileField(v.file.value.size))
      && (Axios(upstream).Resolved? ==>
            s.run.view.analysisId == Some(upstream.body)
            && (forall k | 0 <= k < |s.run.requests| :: s.run.requests[k] == upstream.body))
      && (Axios(upstream).Rejected? ==> s.run.requests == [] && s.run.view.error == Some(AnalyzeFailedMessage))
  {
  }

  /** Choosing a file and then analysing behaves as analysing that file: the
      result and id the choice cleared are cleared again before the upload. */
  lemma ChooseThenAnalyze(v: View, f: SelectedFile, submit: Settled<string>, replies: seq<Settled<AnalysisDoc>>)
    ensures AnalyzeFile(HandleFileChange(v, [f]), submit, replies) == AnalyzeFile(v.(file := Some(f)), submit, replies)
  {
  }

  /** `getStatusColor`: the text colour of one engine's verdict. */
  function StatusColor(category: string): (cls: string)
    ensures cls == TextClass(VerdictHue(category))
  {
    match category
    case "malicious" => "text-red-600"
    case "suspicious" => "text-yellow-600"
    case "harmless" => "text-green-600"
    case _ => "text-gray-600"
  }

  /** `result.result || result.category`: an engine's own label, or its category when it gives none. */
  function Label(e: EngineResult): (s: string)
    ensures e.result.Some? && Truthy(Str(e.result.value)) ==> s == e.result.value
    ensures e.result.None? || !Truthy(Str(e.result.value)) ==> s == e.category
  {
    if e.result.Some? && e.result.value != "" then e.result.value else e.category
  }

  datatype Row = Row(engine: string, verdict: string, colour: string, detectionMethod: string)

  /** What the results area shows for a stored document: a progress note while
      queued, otherwise four of the provider's counts and one row per engine. */
  datatype Panel = InProgress | Summary(malicious: int, suspicious: int, harmless: int, undetected: int, rows: seq<Row>)

  function Rows(results: seq<(string, EngineResult)>): (rows: seq<Row>)
    ensures |rows| == |results|
    ensures forall k | 0 <= k < |results| ::
      rows[k].engine == results[k].1.engineName && rows[k].detectionMethod == results[k].1.detectionMethod
      && rows[k].verdict == Label(results[k].1) && rows[k].colour == StatusColor(results[k].1.category)
  {
    seq(|results|, k requires 0 <= k < |results| =>
      Row(results[k].1.engineName, Label(results[k].1), StatusColor(results[k].1.category), results[k].1.detectionMethod))
  }

  /** Rows follow the provider's order: the rows of two runs of results, one
      after the other, are the rows of each run, one after the other. */
  lemma RowsFollowProviderOrder(a: seq<(string, EngineResult)>, b: seq<(string, EngineResult)>)
    ensures Rows([]) == []
    ensures Rows(a + b) == Rows(a) + Rows(b)
  {
  }

  function ResultPanel(attrs: Attributes): (p: Panel)
    ensures p.InProgress? <==> attrs.status == QueuedStatus
    ensures p.Summary? ==> p == Summary(attrs.stats.malicious, attrs.stats.suspicious, attrs.stats.harmless,
                                        attrs.stats.undetected, Rows(attrs.results))
  {
    if attrs.status == QueuedStatus then InProgress
    else Summary(attrs.stats.malicious, attrs.stats.suspicious, attrs.stats.harmless, attrs.stats.undetected,
                 Rows(attrs.results))
  }

  /** The panel agrees with the loop: while another fetch is scheduled the
      stored document shows as in progress; when polling stops on a readable
      document, that document's summary is shown. */
  lemma PanelFollowsPolling(v: View, id: string, replies: seq<Settled<AnalysisDoc>>)
    ensures var run := Poll(v, id, replies);
      run.pending && 0 < |replies| ==>
        run.view.result == Some(replies[|replies| - 1].value) && ResultPanel(run.view.result.value.attributes.value).InProgress?
    ensures var run := Poll(v, id, replies);
      !run.pending && !Breaks(replies[|run.requests| - 1]) ==>
        run.view.result == Some(replies[|run.requests| - 1].value) && ResultPanel(run.view.result.value.attributes.value).Summary?
  {
    var run := Poll(v, id, replies);
    PollKeepsLatest(v, id, replies);
    if 0 < |replies| && (run.pending || !Breaks(replies[|run.requests| - 1])) {
      var n := |run.requests|;
      assert replies[..n][n - 1] == replies[n - 1];
      if run.pending {
        assert replies[..n] == replies;
      }
    }
  }
}
