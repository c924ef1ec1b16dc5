/** Usage delivery: a bounded queue, one worker that posts batches, retries, and a log of what
    could not be delivered.  Everything between two awaits is one step. */
module UsageQueue {
  import opened Common

  type Usage = map<string, string>

  const MAX_BATCH := 100
  const MAX_BUFFER := 10000
  const MAX_RETRIES := 3

  /** How one post ends; `Status` is any answer that is not a success. */
  datatype Answer = Acknowledged | Status(code: int) | Transport | OtherFailure

  /** `_is_retryable`, of a failure. */
  predicate Retryable(a: Answer) {
    a.Transport? || (a.Status? && (a.code >= 500 || a.code == 408 || a.code == 429))
  }

  const SAFE: set<string> := {"provider", "model_name", "billing_unit_breakdown", "service", "sub_agent_id",
                              "scheduled_job_id", "sub_agent_config_version_id", "catalog_id"}

  /** The line written for an undeliverable record. */
  function Redact(r: Usage): Usage { map k | k in r && k in SAFE :: r[k] }

  function RedactAll(rs: seq<Usage>): seq<Usage> {
    if rs == [] then [] else RedactAll(rs[..|rs| - 1]) + [Redact(rs[|rs| - 1])]
  }

  // ---- The state machine -----------------------------------------------------------------------

  /** `Posting` has `answers` behind it and one post under way. */
  datatype Phase = Waiting | Posting(batch: seq<Usage>, answers: seq<Answer>)

  /** A batch the worker is done with, with every answer it got. */
  datatype Settled = Settled(batch: seq<Usage>, answers: seq<Answer>)
  {
    predicate Delivered() { answers != [] && answers[|answers| - 1].Acknowledged? }
  }

  /** `settled`, `accepted` and `dropped` are the history; `lines` is the dead-letter log. */
  datatype State = State(
    queue: seq<Usage>, phase: Phase, unfinished: int, lines: seq<Usage>,
    settled: seq<Settled>, accepted: seq<Usage>, dropped: seq<Usage>)

  datatype Event = Success(record: Usage) | Wakes | Answered(answer: Answer)

  const START := State([], Waiting, 0, [], [], [], [])

  function Enqueue(s: State, r: Usage): State {
    if |s.queue| < MAX_BUFFER then
      s.(queue := s.queue + [r], unfinished := s.unfinished + 1, accepted := s.accepted + [r])
    else s.(lines := s.lines + RedactAll([r]), dropped := s.dropped + [r])
  }

  function Take(s: State): State {
    if s.phase.Posting? || s.queue == [] then s
    else
      var n := if |s.queue| < MAX_BATCH then |s.queue| else MAX_BATCH;
      s.(queue := s.queue[n..], phase := Posting(s.queue[..n], []))
  }

  /** The batch is given up or done on this answer. */
  predicate Final(answers: seq<Answer>, a: Answer) {
    a.Acknowledged? || !Retryable(a) || |answers| >= MAX_RETRIES
  }

  function Post(s: State, a: Answer): State {
    if s.phase.Waiting? then s
    else
      var batch, answers := s.phase.batch, s.phase.answers + [a];
      if !Final(s.phase.answers, a) then s.(phase := Posting(batch, answers))
      else
        s.(phase := Waiting, unfinished := s.unfinished - |batch|,
           lines := if a.Acknowledged? then s.lines else s.lines + RedactAll(batch),
           settled := s.settled + [Settled(batch, answers)])
  }

  function Step(s: State, e: Event): State {
    match e
    case Success(r) => Enqueue(s, r)
    case Wakes => Take(s)
    case Answered(a) => Post(s, a)
  }

  function Run(es: seq<Event>): State {
    if es == [] then START else Step(Run(es[..|es| - 1]), es[|es| - 1])
  }

  // ---- The code ------------------------------------------------------------------------------------

  /** The logger with its queue, its worker and its log. */
  class CostLogger {
    var queue: seq<Usage>
    var batch: seq<Usage>
    var posting: bool
    var attempt: nat
    var unfinished: int
    var lines: seq<Usage>
    ghost var answers: seq<Answer>
    ghost var settled: seq<Settled>
    ghost var accepted: seq<Usage>
    ghost var dropped: seq<Usage>

    ghost predicate Valid()
      reads this
    {
      attempt == |answers| <= MAX_RETRIES && (!posting ==> batch == [])
    }

    ghost function Now(): State
      reads this
    {
      State(queue, if posting then Posting(batch, answers) else Waiting, unfinished, lines, settled, accepted, dropped)
    }

    constructor ()
      ensures Valid() && Now() == START
    {
      queue, batch, posting, attempt, unfinished, lines := [], [], false, 0, 0, [];
      answers, settled, accepted, dropped := [], [], [], [];
    }

    method DeadLetter(records: seq<Usage>)
      modifies this`lines
      ensures lines == old(lines) + RedactAll(records)
    {
      for n := 0 to |records|
        invariant lines == old(lines) + RedactAll(records[..n])
      {
        var record := records[n];
        lines := lines + [map k | k in record && k in SAFE :: record[k]];
        assert records[..n + 1][..n] == records[..n];
      }
      assert records[..|records|] == records;
    }

    /** `async_log_success_event` from the moment the record is built: nothing is billed without
        a record, and nothing is sent without an address. */
    method LogSuccess(record: Option<Usage>, configured: bool)
      requires Valid()
      modifies this
      ensures Valid()
      ensures Now() == if record.Some? && configured then Step(old(Now()), Success(record.value)) else old(Now())
    {
      if record.None? || !configured { return; }
      if |queue| < MAX_BUFFER {
        queue, unfinished := queue + [record.value], unfinished + 1;
        accepted := accepted + [record.value];
      } else {
        DeadLetter([record.value]);
        dropped := dropped + [record.value];
      }
    }

    /** The worker gets a record and whatever else is queued. */
    method Wake()
      requires Valid() && !posting && queue != []
      modifies this
      ensures Valid() && Now() == Step(old(Now()), Wakes)
    {
      batch, queue := [queue[0]], queue[1..];
      while |batch| < MAX_BATCH && queue != []
        invariant 1 <= |batch| <= MAX_BATCH && batch + queue == old(queue)
        invariant !posting && unfinished == old(unfinished) && lines == old(lines)
        invariant settled == old(settled) && accepted == old(accepted) && dropped == old(dropped)
        decreases |queue|
      {
        batch, queue := batch + [queue[0]], queue[1..];
      }
      posting, attempt, answers := true, 0, [];
    }

    /** A post of the batch has come back. */
    method Answer(a: Answer)
      requires Valid() && posting
      modifies this
      ensures Valid() && Now() == Step(old(Now()), Answered(a))
    {
      answers := answers + [a];
      if !a.Acknowledged? {
        if Retryable(a) && attempt != MAX_RETRIES {
          attempt := attempt + 1;
          return;
        }
        DeadLetter(batch);
      }
      settled := settled + [Settled(batch, answers)];
      for n := 0 to |batch|
        invariant unfinished == old(unfinished) - n
        invariant batch == old(batch) && answers == old(answers) + [a] && posting
        invariant settled == old(settled) + [Settled(batch, answers)] && attempt == old(attempt)
        invariant queue == old(queue) && accepted == old(accepted) && dropped == old(dropped)
        invariant lines == if a.Acknowledged? then old(lines) else old(lines) + RedactAll(batch)
      {
        unfinished := unfinished - 1;
      }
      posting, batch, attempt, answers := false, [], 0, [];
    }

    /** `_flush`: post, and post again while that is worth it, four times at most.  Nothing is
        left unsettled when it ends. */
    method Flush(answers: seq<Answer>)
      requires Valid() && posting && attempt == 0 && |answers| == MAX_RETRIES + 1
      modifies this
      ensures Valid() && !posting
      ensures Now() == Posts(old(Now()), answers)
    {
      assert answers[0..] == answers;
      for k := 0 to MAX_RETRIES + 1
        invariant Valid() && posting && attempt == k
        invariant Posts(Now(), answers[k..]) == Posts(old(Now()), answers)
      {
        assert answers[k..][0] == answers[k] && answers[k..][1..] == answers[k + 1..];
        Answer(answers[k]);
        if !posting {
          WaitingIgnores(Now(), answers[k + 1..]);
          return;
        }
      }
    }
  }

  // ---- What every run keeps ----------------------------------------------------------------------

  function InBatch(s: State): seq<Usage> { if s.phase.Posting? then s.phase.batch else [] }

  function Batches(settled: seq<Settled>): seq<Usage> {
    if settled == [] then [] else Batches(settled[..|settled| - 1]) + settled[|settled| - 1].batch
  }

  /** Failures that each earned another try. */
  predicate AllRetried(answers: seq<Answer>) {
    forall i :: 0 <= i < |answers| ==> !answers[i].Acknowledged? && Retryable(answers[i])
  }

  /** One to four posts, each failure but the last worth a retry; given up on only after a
      failure not worth one, or the fourth. */
  predicate FairlySettled(b: Settled) {
    && 1 <= |b.batch| <= MAX_BATCH && 1 <= |b.answers| <= MAX_RETRIES + 1
    && AllRetried(b.answers[..|b.answers| - 1])
    && (!b.Delivered() && Retryable(b.answers[|b.answers| - 1]) ==> |b.answers| == MAX_RETRIES + 1)
  }

  predicate Bounded(s: State) {
    && |s.queue| <= MAX_BUFFER && s.unfinished == |s.queue| + |InBatch(s)|
    && (s.phase.Posting? ==>
          1 <= |s.phase.batch| <= MAX_BATCH && |s.phase.answers| <= MAX_RETRIES && AllRetried(s.phase.answers))
    && forall i :: 0 <= i < |s.settled| ==> FairlySettled(s.settled[i])
  }

  lemma {:induction false} RunsAreBounded(es: seq<Event>)
    ensures Bounded(Run(es))
  {
    if es != [] {
      RunsAreBounded(es[..|es| - 1]);
      StepIsBounded(Run(es[..|es| - 1]), es[|es| - 1]);
    }
  }

  lemma StepIsBounded(s: State, e: Event)
    requires Bounded(s)
    ensures Bounded(Step(s, e))
  {
    if e.Answered? && s.phase.Posting? {
      var answers := s.phase.answers + [e.answer];
      assert answers[..|answers| - 1] == s.phase.answers;
    }
  }

  // ---- The same, in codes and numbers ---------------------------------------------------------------

  /** A failure that may pass: the connection, a timeout, too many requests, or the server's own. */
  predicate MayPass(a: Answer) {
    match a
    case Acknowledged => false
    case Status(code) => code == 408 || code == 429 || code >= 500
    case Transport => true
    case OtherFailure => false
  }

  /** Four posts at most; each but the last ended in a failure that may pass; and the last was
      acknowledged, or could not get better, or was the fourth. */
  predicate TriedFairly(b: Settled) {
    && 1 <= |b.answers| <= 4
    && (forall i :: 0 <= i < |b.answers| - 1 ==> MayPass(b.answers[i]))
    && var last := b.answers[|b.answers| - 1];
       && (b.Delivered() <==> last == Acknowledged)
       && (MayPass(last) ==> |b.answers| == 4)
  }

  /** In every run: no batch is given up that another post might still deliver, none is posted a
      fifth time, none is larger than a hundred records and the queue never holds more than ten
      thousand. */
  lemma BatchesAreTriedFairly(es: seq<Event>)
    ensures var s := Run(es);
      && |s.queue| <= 10000
      && (forall i :: 0 <= i < |s.settled| ==> TriedFairly(s.settled[i]) && 1 <= |s.settled[i].batch| <= 100)
      && (s.phase.Posting? ==>
            && 1 <= |s.phase.batch| <= 100 && |s.phase.answers| <= 3
            && forall i :: 0 <= i < |s.phase.answers| ==> MayPass(s.phase.answers[i]))
  {
    RunsAreBounded(es);
    var s := Run(es);
    forall i | 0 <= i < |s.settled| ensures TriedFairly(s.settled[i]) {
      var b := s.settled[i];
      assert FairlySettled(b);
      var early := b.answers[..|b.answers| - 1];
      forall j | 0 <= j < |b.answers| - 1 ensures MayPass(b.answers[j]) { assert early[j] == b.answers[j]; }
    }
  }

  /** What an answer does to the batch being posted: a failure that may pass earns the next of four
      posts; anything else settles the batch, with a line for each record unless acknowledged. */
  lemma AnswerDecides(s: State, a: Answer)
    requires s.phase.Posting?
    ensures var s', answers := Step(s, Answered(a)), s.phase.answers + [a];
      if MayPass(a) && |answers| < 4 then s' == s.(phase := Posting(s.phase.batch, answers))
      else
        && s'.phase == Waiting && s'.settled == s.settled + [Settled(s.phase.batch, answers)]
        && s'.unfinished == s.unfinished - |s.phase.batch| && s'.queue == s.queue
        && s'.lines == s.lines + if a == Acknowledged then [] else RedactAll(s.phase.batch)
  {
    assert s.lines + [] == s.lines;
  }

  /** What an offered record does: it is queued behind the others below ten thousand, and logged
      as lost from there on.  And what the worker takes: the oldest, up to a hundred. */
  lemma OfferAndTake(s: State, r: Usage)
    ensures var s' := Step(s, Success(r));
      if |s.queue| < 10000 then s'.queue == s.queue + [r] && s'.lines == s.lines && s'.dropped == s.dropped
      else s'.queue == s.queue && s'.lines == s.lines + [Redact(r)] && s'.dropped == s.dropped + [r]
    ensures s.phase.Waiting? && s.queue != [] ==>
      var s' := Step(s, Wakes);
      && s'.phase.Posting? && s'.phase.answers == [] && s'.phase.batch + s'.queue == s.queue
      && (|s.queue| <= 100 ==> s'.queue == []) && (|s.queue| > 100 ==> |s'.phase.batch| == 100)
  {
    assert RedactAll([r]) == RedactAll([]) + [Redact(r)] by { assert [r][..0] == []; }
  }

  /** What a line of the log keeps of a record. */
  lemma LineKeeps(r: Usage, key: string)
    ensures key in Redact(r) ==> key in r && Redact(r)[key] == r[key]
    ensures key in r ==>
      (key in Redact(r) <==>
        || key == "provider" || key == "model_name" || key == "billing_unit_breakdown" || key == "service"
        || key == "sub_agent_id" || key == "scheduled_job_id" || key == "sub_agent_config_version_id"
        || key == "catalog_id")
  {
  }

  function Ledger(s: State): seq<Usage> { Batches(s.settled) + InBatch(s) + s.queue }

  /** No accepted record is lost, repeated or overtaken: what was settled, what is being posted
      and what is queued are, in this order, what was accepted. */
  lemma {:induction false} RecordsAreConserved(es: seq<Event>)
    ensures Ledger(Run(es)) == Run(es).accepted
  {
    if es != [] {
      RecordsAreConserved(es[..|es| - 1]);
      StepConserves(Run(es[..|es| - 1]), es[|es| - 1]);
    }
  }

  lemma StepConserves(s: State, e: Event)
    requires Ledger(s) == s.accepted
    ensures Ledger(Step(s, e)) == Step(s, e).accepted
  {
    match e
    case Success(r) =>
      assert Batches(s.settled) + InBatch(s) + (s.queue + [r]) == Ledger(s) + [r];
    case Wakes => TakeConserves(s);
    case Answered(a) => PostConserves(s, a);
  }

  lemma TakeConserves(s: State)
    ensures Ledger(Take(s)) == Ledger(s)
  {
    var s' := Take(s);
    if s.phase.Waiting? { assert InBatch(s') + s'.queue == s.queue; }
    assert Ledger(s') == Batches(s.settled) + (InBatch(s') + s'.queue);
  }

  lemma PostConserves(s: State, a: Answer)
    ensures Ledger(Post(s, a)) == Ledger(s)
  {
    var s' := Post(s, a);
    if s.phase.Posting? && Final(s.phase.answers, a) {
      assert s'.settled[..|s'.settled| - 1] == s.settled;
    }
  }

  function Chosen(settled: seq<Settled>, delivered: bool): seq<Usage> {
    if settled == [] then []
    else
      var last := settled[|settled| - 1];
      Chosen(settled[..|settled| - 1], delivered) + if last.Delivered() == delivered then last.batch else []
  }

  lemma {:induction false} BatchesSplit(settled: seq<Settled>)
    ensures multiset(Batches(settled)) == multiset(Chosen(settled, true)) + multiset(Chosen(settled, false))
  {
    if settled != [] { BatchesSplit(settled[..|settled| - 1]); }
  }

  /** Each accepted record is in exactly one place: acknowledged, given up, being posted, or
      queued. */
  lemma EachRecordInOnePlace(es: seq<Event>)
    ensures var s := Run(es);
      multiset(s.accepted) == multiset(Chosen(s.settled, true)) + multiset(Chosen(s.settled, false))
        + multiset(InBatch(s)) + multiset(s.queue)
  {
    var s := Run(es);
    RecordsAreConserved(es);
    BatchesSplit(s.settled);
    assert s.accepted == Ledger(s);
  }

  function Offered(es: seq<Event>): seq<Usage> {
    if es == [] then []
    else
      Offered(es[..|es| - 1]) + if es[|es| - 1].Success? then [es[|es| - 1].record] else []
  }

  /** `whole` is `a` and `b` shuffled together, each in its own order. */
  ghost predicate Shuffles(whole: seq<Usage>, a: seq<Usage>, b: seq<Usage>)
    decreases |whole|
  {
    if whole == [] then a == [] && b == []
    else
      var init, last := whole[..|whole| - 1], whole[|whole| - 1];
      || (a != [] && a[|a| - 1] == last && Shuffles(init, a[..|a| - 1], b))
      || (b != [] && b[|b| - 1] == last && Shuffles(init, a, b[..|b| - 1]))
  }

  lemma ShuffleGrows(whole: seq<Usage>, a: seq<Usage>, b: seq<Usage>, r: Usage)
    requires Shuffles(whole, a, b)
    ensures Shuffles(whole + [r], a + [r], b) && Shuffles(whole + [r], a, b + [r])
  {
    assert (whole + [r])[..|whole + [r]| - 1] == whole;
    assert (a + [r])[..|a + [r]| - 1] == a && (b + [r])[..|b + [r]| - 1] == b;
  }

  /** Every record offered is accepted or dead-lettered on the spot, in the order offered. */
  lemma {:induction false} OfferedAreAcceptedOrDropped(es: seq<Event>)
    ensures Shuffles(Offered(es), Run(es).accepted, Run(es).dropped)
  {
    if es != [] {
      OfferedAreAcceptedOrDropped(es[..|es| - 1]);
      var s, e := Run(es[..|es| - 1]), es[|es| - 1];
      assert !e.Success? ==> Offered(es) == Offered(es[..|es| - 1]);
      if e.Success? { ShuffleGrows(Offered(es[..|es| - 1]), s.accepted, s.dropped, e.record); }
    }
  }

  ghost predicate Discreet(lines: seq<Usage>) {
    forall i :: 0 <= i < |lines| ==> lines[i].Keys <= SAFE
  }

  lemma {:induction false} RedactedAreDiscreet(rs: seq<Usage>)
    ensures |RedactAll(rs)| == |rs| && Discreet(RedactAll(rs))
  {
    if rs != [] { RedactedAreDiscreet(rs[..|rs| - 1]); }
  }

  ghost predicate LogIsComplete(s: State) { |s.lines| == |s.dropped| + |Chosen(s.settled, false)| }

  lemma StepLogs(s: State, e: Event)
    requires LogIsComplete(s) && Discreet(s.lines)
    ensures LogIsComplete(Step(s, e)) && Discreet(Step(s, e).lines)
  {
    var s' := Step(s, e);
    match e
    case Success(r) => RedactedAreDiscreet([r]);
    case Wakes =>
    case Answered(a) =>
      if s.phase.Posting? && Final(s.phase.answers, a) {
        RedactedAreDiscreet(s.phase.batch);
        assert s'.settled[..|s'.settled| - 1] == s.settled;
      }
  }

  lemma DiscreetNamesNobody(lines: seq<Usage>, i: nat)
    requires Discreet(lines) && i < |lines|
    ensures "user_sub" !in lines[i] && "conversation_id" !in lines[i]
  {
    assert "user_sub" !in SAFE && "conversation_id" !in SAFE;
  }

  /** The log holds one line for each record dropped or given up, and none names a person. */
  lemma {:induction false} LogIsCompleteAndDiscreet(es: seq<Event>)
    ensures LogIsComplete(Run(es)) && Discreet(Run(es).lines)
  {
    if es != [] {
      LogIsCompleteAndDiscreet(es[..|es| - 1]);
      StepLogs(Run(es[..|es| - 1]), es[|es| - 1]);
    }
  }

  function Posts(s: State, answers: seq<Answer>): State
    decreases |answers|
  {
    if answers == [] then s else Posts(Post(s, answers[0]), answers[1..])
  }

  /** No batch blocks the worker: four answers of any kind settle it, and it alone. */
  lemma {:induction false} FourAnswersSettle(s: State, answers: seq<Answer>)
    requires Bounded(s) && s.phase.Posting? && |s.phase.answers| + |answers| == MAX_RETRIES + 1
    ensures var s' := Posts(s, answers);
      && s'.phase.Waiting? && s'.queue == s.queue && s'.accepted == s.accepted
      && |s'.settled| == |s.settled| + 1 && s'.settled[..|s.settled|] == s.settled
      && s'.settled[|s.settled|].batch == s.phase.batch
    decreases |answers|
  {
    var next := Post(s, answers[0]);
    StepIsBounded(s, Answered(answers[0]));
    if next.phase.Posting? {
      FourAnswersSettle(next, answers[1..]);
    } else {
      WaitingIgnores(next, answers[1..]);
    }
  }

  lemma {:induction false} WaitingIgnores(s: State, answers: seq<Answer>)
    requires s.phase.Waiting?
    ensures Posts(s, answers) == s
    decreases |answers|
  {
    if answers != [] { WaitingIgnores(s, answers[1..]); }
  }
}
