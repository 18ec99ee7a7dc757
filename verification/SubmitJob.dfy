/** The submit job: retried until it has a result, keeping or replacing its transaction
    id so that it takes effect at most once. */
module SubmitJob {
  import opened Wrappers

  // ---- Errors ----

  datatype ErrorClass = FromContract | FromTimeout | FromElsewhere

  /** What a submission can throw: an error has a class, perhaps the validation code of a
      failed commit, and the details of each failed endorsement. */
  datatype SubmitError =
    | Undefined
    | Error(class_: ErrorClass, transactionCode: Option<string>, endorsements: seq<seq<Option<string>>>)

  datatype RetryAction = WithExistingTransactionId | WithNewTransactionId | NoRetry

  const DUPLICATE_CODE := "DUPLICATE_TXID"
  const DUPLICATE_DETAILS := "duplicate transaction found"

  predicate ReportsDuplicate(details: Option<string>) {
    details.Some? && DUPLICATE_DETAILS <= details.value
  }

  predicate IsDuplicateTransactionError(err: SubmitError) {
    err.Error? &&
    if err.transactionCode.Some? then err.transactionCode.value == DUPLICATE_CODE
    else
      exists i, j :: 0 <= i < |err.endorsements| && 0 <= j < |err.endorsements[i]| &&
        ReportsDuplicate(err.endorsements[i][j])
  }

  function GetRetryAction(err: SubmitError): RetryAction {
    if IsDuplicateTransactionError(err) || (err.Error? && err.class_.FromContract?) then NoRetry
    else if err.Error? && err.class_.FromTimeout? then WithExistingTransactionId
    else WithNewTransactionId
  }

  // ---- One attempt ----

  datatype Response = Committed(payload: string) | Failed(error: SubmitError)

  datatype JobResult = JobResult(transactionPayload: Option<string>, transactionError: Option<SubmitError>)

  datatype JobData = JobData(transactionState: Option<string>, transactionIds: seq<string>)

  /** Where the worker dies during an attempt, if it does. */
  datatype Cut = Nowhere | BeforeSaving | AfterSaving | AfterSubmitting

  /** What an attempt leaves: the stored data, the id it submitted, and a result, unless the
      attempt threw or died, in which case the job is retried. */
  datatype Attempted = Attempted(data: JobData, submitted: Option<string>, result: Option<JobResult>)

  function UpdatedJobData(data: JobData, transaction: Option<string>): JobData {
    match transaction
    case Some(id) => JobData(Some(id), data.transactionIds + [id])
    case None => data.(transactionState := None)
  }

  /** One attempt, `newId` being the id a new transaction gets and `response` what comes
      back from submitting. */
  function Attempt(known: bool, data: JobData, newId: string, response: Response, cut: Cut): Attempted {
    if !known then Attempted(data, None, Some(JobResult(None, None)))
    else if data.transactionState.None? && cut == BeforeSaving then Attempted(data, None, None)
    else
      var saved := if data.transactionState.None? then UpdatedJobData(data, Some(newId)) else data;
      var id := if data.transactionState.None? then newId else data.transactionState.value;
      if cut == BeforeSaving || cut == AfterSaving then Attempted(saved, None, None)
      else if cut == AfterSubmitting then Attempted(saved, Some(id), None)
      else
        match response
        case Committed(payload) => Attempted(saved, Some(id), Some(JobResult(Some(payload), None)))
        case Failed(error) =>
          match GetRetryAction(error)
          case NoRetry => Attempted(saved, Some(id), Some(JobResult(None, Some(error))))
          case WithNewTransactionId => Attempted(UpdatedJobData(saved, None), Some(id), None)
          case WithExistingTransactionId => Attempted(saved, Some(id), None)
  }

  class Job {
    var data: JobData

    constructor ()
      ensures data == JobData(None, [])
    {
      data := JobData(None, []);
    }

    method UpdateJobData(transaction: Option<string>)
      modifies this
      ensures data == UpdatedJobData(old(data), transaction)
    {
      var newData := data;
      if transaction.Some? {
        newData := newData.(transactionIds := newData.transactionIds + [transaction.value]);
        newData := newData.(transactionState := Some(transaction.value));
      } else {
        newData := newData.(transactionState := None);
      }
      data := newData;
    }

    /** `thrown` means the queue retries the job. */
    method ProcessSubmitTransactionJob(known: bool, newId: string, response: Response, cut: Cut)
      returns (result: Option<JobResult>, submitted: Option<string>)
      modifies this
      ensures Attempted(data, submitted, result) == Attempt(known, old(data), newId, response, cut)
      ensures !known ==> result == Some(JobResult(None, None)) && submitted == None && data == old(data)
      ensures known && cut == Nowhere && response.Committed? ==>
        result == Some(JobResult(Some(response.payload), None)) && data == Submitting(old(data), newId)
      ensures known && cut in {Nowhere, AfterSubmitting} ==> submitted == Submitting(old(data), newId).transactionState
      ensures known && cut in {BeforeSaving, AfterSaving} ==> submitted == None
      ensures known && cut != Nowhere ==>
        && result == None
        && data == if cut == BeforeSaving then old(data) else Submitting(old(data), newId)
    {
      submitted := None;
      if !known {
        return Some(JobResult(None, None)), None;
      }
      var transaction;
      if data.transactionState.Some? {
        transaction := data.transactionState.value;
      } else {
        if cut == BeforeSaving {
          return None, None;
        }
        transaction := newId;
        UpdateJobData(Some(transaction));
      }
      if cut == BeforeSaving || cut == AfterSaving {
        return None, None;
      }
      submitted := Some(transaction);
      if cut == AfterSubmitting {
        return None, submitted;
      }
      match response {
        case Committed(payload) =>
          result := Some(JobResult(Some(payload), None));
        case Failed(error) =>
          var retryAction := GetRetryAction(error);
          if retryAction == NoRetry {
            return Some(JobResult(None, Some(error))), submitted;
          }
          if retryAction == WithNewTransactionId {
            UpdateJobData(None);
          }
          result := None;
      }
    }
  }

  // ---- What an attempt does about each error ----

  /** An error that says the transaction is on the ledger already, by the validation code
      if there is one and else by what some endorser said. */
  ghost predicate SaysDuplicate(err: SubmitError) {
    err.Error? &&
    match err.transactionCode
    case Some(code) => code == "DUPLICATE_TXID"
    case None =>
      exists i, j, rest :: 0 <= i < |err.endorsements| && 0 <= j < |err.endorsements[i]|
        && err.endorsements[i][j] == Some("duplicate transaction found" + rest)
  }

  lemma {:induction false} DuplicateByDetails(err: SubmitError, i: nat, j: nat)
    requires err.Error? && i < |err.endorsements| && j < |err.endorsements[i]|
    ensures ReportsDuplicate(err.endorsements[i][j]) <==>
            exists rest :: err.endorsements[i][j] == Some("duplicate transaction found" + rest)
  {
    var details, found := err.endorsements[i][j], "duplicate transaction found";
    if ReportsDuplicate(details) {
      assert details.value == found + details.value[|found|..];
    }
  }

  lemma {:induction false} DuplicateIsRecognised(err: SubmitError)
    ensures IsDuplicateTransactionError(err) <==> SaysDuplicate(err)
  {
    if err.Error? && err.transactionCode.None? {
      forall i, j | 0 <= i < |err.endorsements| && 0 <= j < |err.endorsements[i]|
        ensures ReportsDuplicate(err.endorsements[i][j]) <==>
                exists rest :: err.endorsements[i][j] == Some("duplicate transaction found" + rest)
      {
        DuplicateByDetails(err, i, j);
      }
    }
  }

  /** What an attempt leaves stored before the error comes back. */
  function Submitting(data: JobData, newId: string): JobData {
    match data.transactionState
    case Some(_) => data
    case None => JobData(Some(newId), data.transactionIds + [newId])
  }

  /** An error's effect, from its fields: a duplicate or an error of the contract ends the
      job with that error, any other timeout keeps the transaction for the next attempt, and
      everything else drops it. */
  lemma {:induction false} ErrorDecides(data: JobData, newId: string, err: SubmitError)
    ensures var a, saved := Attempt(true, data, newId, Failed(err), Nowhere), Submitting(data, newId);
            && a.submitted == saved.transactionState
            && if SaysDuplicate(err) || (err.Error? && err.class_ == FromContract) then
                 a.data == saved && a.result == Some(JobResult(None, Some(err)))
               else if err.Error? && err.class_ == FromTimeout then
                 a.data == saved && a.result == None
               else
                 a.data == JobData(None, saved.transactionIds) && a.result == None
  {
    DuplicateIsRecognised(err);
  }

  // ---- Runs of a job against the network ----

  /** What the network knows of the job's transactions: those committed, in order, and
      those with a submission that may still commit. */
  datatype Network = Network(commits: seq<string>, pending: set<string>)

  datatype System = System(data: JobData, result: Option<JobResult>, attempts: nat, net: Network)

  /** How the network may take a submission. It never commits an id twice; a commit is
      reported or is left pending. */
  predicate Takes(net: Network, id: string, response: Response, net': Network) {
    match response
    case Committed(_) => id !in net.commits && net' == Network(net.commits + [id], net.pending - {id})
    case Failed(_) =>
      net'.commits == net.commits && net'.pending <= net.pending + {id} && net.pending - {id} <= net'.pending
  }

  /** Nothing is in doubt about an id. */
  predicate Settled(net: Network, id: string) {
    id !in net.commits && id !in net.pending
  }

  predicate IsTimeout(err: SubmitError) {
    err.Error? && err.class_.FromTimeout?
  }

  datatype Event =
    | Try(known: bool, newId: string, response: Response, cut: Cut, after: Network)
    | LateCommit(id: string)

  predicate Step(s: System, e: Event, s': System) {
    match e
    case Try(known, newId, response, cut, after) =>
      var a := Attempt(known, s.data, newId, response, cut);
      && s.result.None? && newId !in s.data.transactionIds && newId !in s.net.commits && newId !in s.net.pending
      && s' == System(a.data, a.result, s.attempts + 1, after)
      && (if a.submitted.None? then after == s.net else Takes(s.net, a.submitted.value, response, after))
    case LateCommit(id) =>
      && id in s.net.pending && id !in s.net.commits
      && s' == s.(net := Network(s.net.commits + [id], s.net.pending - {id}))
  }

  /** What is asked of the network, response by response: a failure the job sees, unless
      it is a timeout, puts nothing in doubt that was not in doubt before. */
  predicate AddsNoDoubt(s: System, e: Event) {
    e.Try? && e.cut == Nowhere && e.response.Failed? && !IsTimeout(e.response.error) ==>
      e.after.pending <= s.net.pending
  }

  /** The attempts to beware of, as the job itself can tell: it starts from a saved
      transaction and meets an error that is answered with a new id. */
  predicate Reckless(data: JobData, e: Event) {
    && data.transactionState.Some?
    && e.Try? && e.known && e.cut == Nowhere && e.response.Failed?
    && GetRetryAction(e.response.error) == WithNewTransactionId
  }

  const START := System(JobData(None, []), None, 0, Network([], {}))

  /** A run from a new job: `states[i]` is the state before event `i`. */
  predicate Run(states: seq<System>, events: seq<Event>) {
    && |states| == |events| + 1 && states[0] == START
    && (forall i :: 0 <= i < |events| ==> Step(states[i], events[i], states[i + 1]))
    && (forall i :: 0 <= i < |events| ==> AddsNoDoubt(states[i], events[i]))
  }

  /** No attempt before event `n` is reckless. */
  predicate Careful(states: seq<System>, events: seq<Event>, n: nat)
    requires |states| == |events| + 1 && n <= |events|
  {
    forall i :: 0 <= i < n ==> !Reckless(states[i].data, events[i])
  }

  // ---- The bookkeeping of every run ----

  predicate Distinct(ids: seq<string>) {
    forall i, j :: 0 <= i < j < |ids| ==> ids[i] != ids[j]
  }

  predicate IsLast(ids: seq<string>, id: string) {
    ids != [] && ids[|ids| - 1] == id
  }

  /** Ids are all different, and saved state is for the last one. */
  predicate Booked(data: JobData) {
    && Distinct(data.transactionIds)
    && (data.transactionState.Some? ==> IsLast(data.transactionIds, data.transactionState.value))
  }

  predicate Submits(s: System, e: Event, id: string) {
    e.Try? && Attempt(e.known, s.data, e.newId, e.response, e.cut).submitted == Some(id)
  }

  lemma {:induction false} StepBooks(s: System, e: Event, s': System)
    requires Booked(s.data) && |s.data.transactionIds| <= s.attempts && Step(s, e, s')
    ensures Booked(s'.data) && |s'.data.transactionIds| <= s'.attempts
    ensures s.data.transactionIds <= s'.data.transactionIds
    ensures forall id :: Submits(s, e, id) ==> id in s'.data.transactionIds
  {
  }

  /** In every run, careful or not, there is at most one id an attempt. */
  lemma {:induction false} RunBooks(states: seq<System>, events: seq<Event>, n: nat)
    requires Run(states, events) && n <= |events|
    ensures Booked(states[n].data) && |states[n].data.transactionIds| <= states[n].attempts
  {
    if n > 0 {
      RunBooks(states, events, n - 1);
      StepBooks(states[n - 1], events[n - 1], states[n]);
    }
  }

  /** The list of ids only grows, and holds every id the job has submitted. */
  lemma {:induction false} IdsListEverySubmission(states: seq<System>, events: seq<Event>, m: nat, n: nat)
    requires Run(states, events) && m <= n <= |events|
    decreases n - m
    ensures states[m].data.transactionIds <= states[n].data.transactionIds
    ensures forall id :: m < n && Submits(states[m], events[m], id) ==> id in states[n].data.transactionIds
  {
    if m < n {
      RunBooks(states, events, m);
      StepBooks(states[m], events[m], states[m + 1]);
      IdsListEverySubmission(states, events, m + 1, n);
      assert forall id :: Submits(states[m], events[m], id) ==> id in states[m + 1].data.transactionIds;
    }
  }

  // ---- At most once ----

  /** The network's side: only the id with saved state is in doubt or committed, and a
      success result means that one is committed. */
  ghost predicate Kept(s: System) {
    && Booked(s.data) && |s.data.transactionIds| <= s.attempts
    && (forall id :: id in s.net.commits || id in s.net.pending ==> s.data.transactionState == Some(id))
    && Distinct(s.net.commits)
    && (s.result.Some? && s.result.value.transactionPayload.Some? ==> s.net.commits != [])
  }

  lemma {:induction false} StepKeeps(s: System, e: Event, s': System)
    requires Kept(s) && Step(s, e, s') && AddsNoDoubt(s, e) && !Reckless(s.data, e)
    ensures Kept(s') && s.data.transactionIds <= s'.data.transactionIds
  {
  }

  lemma {:induction false} RunKeeps(states: seq<System>, events: seq<Event>, n: nat)
    requires Run(states, events) && n <= |events| && Careful(states, events, n)
    ensures Kept(states[n])
  {
    if n > 0 {
      RunKeeps(states, events, n - 1);
      StepKeeps(states[n - 1], events[n - 1], states[n]);
    }
  }

  /** The job is done with an id: it has moved past it, or cleared its saved state. */
  predicate Abandoned(data: JobData, id: string) {
    id in data.transactionIds && (data.transactionState.None? || !IsLast(data.transactionIds, id))
  }

  /** An abandoned id has not committed and never will. */
  lemma {:induction false} AbandonedNeverCommits(states: seq<System>, events: seq<Event>, m: nat, n: nat, id: string)
    requires Run(states, events) && m <= n <= |events| && Careful(states, events, n)
    requires Abandoned(states[m].data, id)
    decreases n - m
    ensures Abandoned(states[n].data, id) && Settled(states[n].net, id)
  {
    RunKeeps(states, events, m);
    if m < n {
      StepKeeps(states[m], events[m], states[m + 1]);
      AbandonedNeverCommits(states, events, m + 1, n, id);
    }
  }

  lemma {:induction false} TwoDiffer(ids: seq<string>)
    requires Distinct(ids)
    ensures ids == [] || ids == [ids[0]] || (ids[0] in ids && ids[1] in ids && ids[0] != ids[1])
  {
  }

  lemma {:induction false} AllTheSame(ids: seq<string>, only: string)
    requires Distinct(ids) && forall id :: id in ids ==> id == only
    ensures ids == [] || ids == [only]
  {
    TwoDiffer(ids);
    assert ids != [] ==> ids[0] in ids;
  }

  /** At-most-once: over any attempts, timeouts, deaths, late commits and retries, as long
      as no attempt is reckless, at most one transaction of the job ever commits, and a
      success result means one did. */
  lemma {:induction false} AtMostOnce(states: seq<System>, events: seq<Event>, n: nat)
    requires Run(states, events) && n <= |events| && Careful(states, events, n)
    ensures |states[n].net.commits| <= 1
    ensures states[n].result.Some? && states[n].result.value.transactionPayload.Some? ==> |states[n].net.commits| == 1
  {
    RunKeeps(states, events, n);
    var s := states[n];
    if s.net.commits != [] {
      assert s.net.commits[0] in s.net.commits;
      AllTheSame(s.net.commits, s.data.transactionState.value);
    }
  }

  /** An attempt that comes back with an error. */
  predicate Meets(e: Event, err: SubmitError) {
    e.Try? && e.known && e.cut == Nowhere && e.response == Failed(err)
  }

  lemma {:induction false} ResultStays(states: seq<System>, events: seq<Event>, m: nat, n: nat)
    requires Run(states, events) && m <= n <= |events| && states[m].result.Some?
    ensures states[n].data == states[m].data && states[n].result == states[m].result
    ensures forall i :: m <= i < n ==> events[i].LateCommit?
  {
    if m < n {
      ResultStays(states, events, m, n - 1);
      assert Step(states[n - 1], events[n - 1], states[n]);
    }
  }

  /** A duplicate report is safe in every run: the attempt is not reckless, it ends the job
      with the error and keeps what is saved, and no id is submitted ever after. */
  lemma {:induction false} DuplicateEndsTheJob(states: seq<System>, events: seq<Event>, m: nat, n: nat,
                                               err: SubmitError)
    requires Run(states, events) && m < n <= |events| && Meets(events[m], err) && SaysDuplicate(err)
    ensures !Reckless(states[m].data, events[m])
    ensures states[n].result == Some(JobResult(None, Some(err)))
    ensures states[n].data == Submitting(states[m].data, events[m].newId)
    ensures forall i, id :: m < i < n ==> !Submits(states[i], events[i], id)
  {
    assert Step(states[m], events[m], states[m + 1]);
    ErrorDecides(states[m].data, events[m].newId, err);
    DuplicateIsRecognised(err);
    ResultStays(states, events, m + 1, n);
  }

  // ---- The guard is exact ----

  /** Events that lead on from a state. */
  predicate Follows(s: System, events: seq<Event>, t: seq<System>) {
    && |t| == |events|
    && (forall i :: 0 <= i < |events| ==> Step(([s] + t)[i], events[i], t[i]))
    && (forall i :: 0 <= i < |events| ==> AddsNoDoubt(([s] + t)[i], events[i]))
  }

  lemma {:induction false} Extend(states: seq<System>, events: seq<Event>, more: seq<Event>, t: seq<System>)
    requires Run(states, events) && Follows(states[|events|], more, t)
    ensures Run(states + t, events + more)
  {
    var n, s := |events|, states[|events|];
    forall i | 0 <= i < |events + more|
      ensures Step((states + t)[i], (events + more)[i], (states + t)[i + 1])
      ensures AddsNoDoubt((states + t)[i], (events + more)[i])
    {
      if i < n {
        assert (states + t)[i] == states[i] && (states + t)[i + 1] == states[i + 1];
      } else {
        assert (states + t)[i] == ([s] + t)[i - n] && (states + t)[i + 1] == t[i - n];
      }
    }
  }

  /** Any list of distinct ids can come about: each attempt makes a new transaction and is
      refused. */
  lemma {:induction false} RefusedAgainAndAgain(ids: seq<string>, refused: SubmitError)
    returns (states: seq<System>, events: seq<Event>)
    requires Distinct(ids) && GetRetryAction(refused) == WithNewTransactionId
    ensures Run(states, events) && |events| == |ids| && Careful(states, events, |events|)
    ensures states[|events|] == System(JobData(None, ids), None, |ids|, Network([], {}))
  {
    states, events := [START], [];
    if ids != [] {
      var n := |ids| - 1;
      states, events := RefusedAgainAndAgain(ids[..n], refused);
      var e := Try(true, ids[n], Failed(refused), Nowhere, Network([], {}));
      var s' := System(JobData(None, ids), None, |ids|, Network([], {}));
      assert ids[..n] + [ids[n]] == ids;
      Extend(states, events, [e], [s']);
      states, events := states + [s'], events + [e];
    }
  }

  /** No attempt but perhaps the one at event `m` is reckless. */
  predicate CarefulBut(states: seq<System>, events: seq<Event>, m: nat)
    requires |states| == |events| + 1
  {
    forall i :: 0 <= i < |events| && i != m ==> !Reckless(states[i].data, events[i])
  }

  /** Event `m` meets `error` with the stored data `data`, no other attempt is reckless, and
      the job commits twice. */
  ghost predicate CommitsTwice(states: seq<System>, events: seq<Event>, m: nat, data: JobData, error: SubmitError) {
    && Run(states, events) && m < |events| && states[m].data == data
    && events[m].Try? && events[m].known && events[m].cut == Nowhere && events[m].response == Failed(error)
    && CarefulBut(states, events, m)
    && |states[|events|].net.commits| > 1
  }

  /** The events from a timeout to a double commit: the saved id is abandoned, commits late
      all the same, and so does the next one. */
  lemma {:induction false} AbandonedTooSoon(s: System, id: string, timeout: SubmitError, refused: SubmitError,
                                            next: string)
    returns (t: seq<System>, events: seq<Event>)
    requires s.data.transactionState.None? && s.result.None? && s.net == Network([], {}) && Booked(s.data)
    requires id !in s.data.transactionIds && next !in s.data.transactionIds && next != id
    requires GetRetryAction(timeout) == WithExistingTransactionId && GetRetryAction(refused) == WithNewTransactionId
    ensures |events| == 4 && Follows(s, events, t)
    ensures !Reckless(s.data, events[0]) && !Reckless(t[1].data, events[2]) && !Reckless(t[2].data, events[3])
    ensures t[0].data == JobData(Some(id), s.data.transactionIds + [id])
    ensures events[1] == Try(true, next, Failed(refused), Nowhere, t[1].net)
    ensures t[3].net.commits == [id, next] && t[3].data.transactionIds == s.data.transactionIds + [id, next]
  {
    var ids, doubt := s.data.transactionIds + [id], Network([], {id});
    var both := Network([id, next], {});
    events := [
      Try(true, id, Failed(timeout), Nowhere, doubt),
      Try(true, next, Failed(refused), Nowhere, doubt),
      LateCommit(id),
      Try(true, next, Committed(""), Nowhere, both)];
    t := [
      System(JobData(Some(id), ids), None, s.attempts + 1, doubt),
      System(JobData(None, ids), None, s.attempts + 2, doubt),
      System(JobData(None, ids), None, s.attempts + 2, Network([id], {})),
      System(JobData(Some(next), ids + [next]), Some(JobResult(Some(""), None)), s.attempts + 3, both)];
    assert [] + [id] == [id] && [id] + [next] == [id, next];
    assert ids + [next] == s.data.transactionIds + [id, next];
    assert [s] + t == [s, t[0], t[1], t[2], t[3]];
    assert Step(s, events[0], t[0]) && Step(t[0], events[1], t[1]);
    assert Step(t[1], events[2], t[2]) && Step(t[2], events[3], t[3]);
  }

  lemma {:induction false} JoinCareful(before: seq<System>, done: seq<Event>, more: seq<Event>, t: seq<System>)
    requires |before| == |done| + 1 && |t| == |more| == 4 && Careful(before, done, |done|)
    requires !Reckless(before[|done|].data, more[0]) && !Reckless(t[1].data, more[2]) && !Reckless(t[2].data, more[3])
    ensures CarefulBut(before + t, done + more, |done| + 1)
    ensures (before + t)[|done| + 1] == t[0] && (before + t)[|done| + 4] == t[3] && (done + more)[|done| + 1] == more[1]
  {
    var states, events, n := before + t, done + more, |done|;
    forall i | 0 <= i < |events| && i != n + 1
      ensures !Reckless(states[i].data, events[i])
    {
      if i < n {
        assert states[i] == before[i] && events[i] == done[i];
      } else {
        assert events[i] == more[i - n] && states[i] == if i == n then before[n] else t[i - n - 1];
      }
    }
  }

  lemma {:induction false} TimeoutThenRefusal(before: seq<System>, done: seq<Event>, id: string, timeout: SubmitError,
                                              refused: SubmitError, next: string)
    returns (states: seq<System>, events: seq<Event>)
    requires Run(before, done) && Careful(before, done, |done|)
    requires var s := before[|done|];
             && s.data.transactionState.None? && s.result.None? && s.net == Network([], {}) && Booked(s.data)
             && id !in s.data.transactionIds && next !in s.data.transactionIds && next != id
    requires GetRetryAction(timeout) == WithExistingTransactionId && GetRetryAction(refused) == WithNewTransactionId
    ensures var ids := before[|done|].data.transactionIds;
            && CommitsTwice(states, events, |done| + 1, JobData(Some(id), ids + [id]), refused)
            && states[|events|].net.commits == [id, next] && states[|events|].data.transactionIds == ids + [id, next]
  {
    var t, more := AbandonedTooSoon(before[|done|], id, timeout, refused, next);
    Extend(before, done, more, t);
    JoinCareful(before, done, more, t);
    states, events := before + t, done + more;
  }

  lemma {:induction false} TakeLast(ids: seq<string>)
    requires Distinct(ids) && ids != []
    ensures var n := |ids| - 1; ids == ids[..n] + [ids[n]] && ids[n] !in ids[..n] && Distinct(ids[..n])
    ensures forall next :: var n := |ids| - 1; ids[..n] + [ids[n], next] == ids + [next]
  {
  }

  /** Whatever a job has stored with a saved transaction, and whatever the errors, a run
      leads there, meets the error answered with a new id, and commits twice. */
  lemma {:induction false} SavedStateCanCommitTwice(data: JobData, timeout: SubmitError, refused: SubmitError,
                                                    next: string)
    returns (states: seq<System>, events: seq<Event>)
    requires Booked(data) && data.transactionState.Some? && next !in data.transactionIds
    requires GetRetryAction(timeout) == WithExistingTransactionId && GetRetryAction(refused) == WithNewTransactionId
    ensures CommitsTwice(states, events, |data.transactionIds|, data, refused)
    ensures states[|events|].net.commits == [data.transactionState.value, next]
    ensures states[|events|].data.transactionIds == data.transactionIds + [next]
  {
    TakeLast(data.transactionIds);
    var before, done := RefusedAgainAndAgain(data.transactionIds[..|data.transactionIds| - 1], refused);
    states, events := TimeoutThenRefusal(before, done, data.transactionState.value, timeout, refused, next);
  }

  /** The guard is exact. Take any data a job can have stored, and an error that is answered
      with a new id: if no other attempt is reckless, meeting the error can end in two
      commits if and only if a transaction is saved. */
  lemma {:induction false} SafeExactlyWhenNothingIsSaved(data: JobData, timeout: SubmitError, refused: SubmitError,
                                                         next: string)
    requires Booked(data) && next !in data.transactionIds
    requires GetRetryAction(timeout) == WithExistingTransactionId && GetRetryAction(refused) == WithNewTransactionId
    ensures data.transactionState.Some? <==> exists states, events, m :: CommitsTwice(states, events, m, data, refused)
  {
    if data.transactionState.Some? {
      var states, events := SavedStateCanCommitTwice(data, timeout, refused, next);
      assert CommitsTwice(states, events, |data.transactionIds|, data, refused);
    } else {
      forall states: seq<System>, events: seq<Event>, m: nat
        ensures !CommitsTwice(states, events, m, data, refused)
      {
        if CommitsTwice(states, events, m, data, refused) {
          assert !Reckless(states[m].data, events[m]);
          AtMostOnce(states, events, |events|);
        }
      }
    }
  }

  /** The shortest such run, for any two ids: a timeout, another error, and two commits. */
  lemma {:induction false} ErrorAfterTimeoutCommitsTwice(a: string, b: string, timeout: SubmitError,
                                                         refused: SubmitError)
    returns (states: seq<System>, events: seq<Event>)
    requires a != b
    requires GetRetryAction(timeout) == WithExistingTransactionId && GetRetryAction(refused) == WithNewTransactionId
    ensures Run(states, events) && states[|events|].net.commits == [a, b]
    ensures states[|events|].data.transactionIds == [a, b]
  {
    states, events := SavedStateCanCommitTwice(JobData(Some(a), [a]), timeout, refused, b);
    assert [a] + [b] == [a, b];
  }

  // ---- What the network knows ----

  /** Seen from the network, for one attempt: when an error is answered with a new id, the
      bookkeeping is kept if and only if the old id is settled; if it is not, the job can
      commit twice. */
  lemma {:induction false} NewIdNeedsSettled(s: System, e: Event, s': System, next: string)
    returns (late: System, again: System)
    requires Kept(s) && Step(s, e, s') && e.Try? && e.known && e.cut == Nowhere
    requires e.response.Failed? && GetRetryAction(e.response.error) == WithNewTransactionId
    requires next !in s'.data.transactionIds
    ensures s'.data.transactionIds != []
    ensures var id := s'.data.transactionIds[|s'.data.transactionIds| - 1];
            && (Kept(s') <==> Settled(e.after, id))
            && (!Settled(e.after, id) ==>
                  && (late == s' || Step(s', LateCommit(id), late))
                  && Step(late, Try(true, next, Committed(""), Nowhere, again.net), again)
                  && again.net.commits == [id, next])
  {
    var id := s'.data.transactionIds[|s'.data.transactionIds| - 1];
    late := if id in s'.net.commits then s'
            else s'.(net := Network(s'.net.commits + [id], s'.net.pending - {id}));
    var a := Attempt(true, late.data, next, Committed(""), Nowhere);
    var net := Network(late.net.commits + [next], late.net.pending - {next});
    again := System(a.data, a.result, late.attempts + 1, net);
    if !Settled(e.after, id) {
      assert s'.net.commits == s.net.commits;
      AllTheSame(s.net.commits, id);
    }
  }
}
