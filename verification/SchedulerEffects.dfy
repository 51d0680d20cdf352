/**
 What each call but the step itself does to the requests, said of the states before and
 after it.
 */
module SchedulerEffects {
  import opened Seqs
  import opened SchedulerState
  import opened SchedulerStep

  /** No trace of the request is left. */
  predicate Absent(st: State, id: ReqId) {
    id !in st.reqs && id !in st.running && id !in st.waiting && id !in st.skipped && id !in st.inflight
  }

  /** The requests `gone` have left without a trace; the others are in the queues they
      were in, in the same order. */
  ghost predicate Left(st: State, st1: State, gone: set<ReqId>) {
    && (forall id :: id in gone ==> Absent(st1, id))
    && st1.reqs.Keys == st.reqs.Keys - gone && st1.inflight == st.inflight - gone
    && Dropped(st.running, st1.running, gone) && Dropped(st.waiting, st1.waiting, gone)
    && Dropped(st.skipped, st1.skipped, gone)
    && st1.pause == st.pause && st1.prefillBound == st.prefillBound
  }

  // ---------------------------------------------------------------------
  // Abort
  // ---------------------------------------------------------------------

  /** The requests `ids` are gone; the record of every other is the same. */
  ghost predicate Aborted(st: State, st1: State, ids: set<ReqId>) {
    Left(st, st1, ids) && forall id :: id in st.reqs && id !in ids ==> st1.reqs[id] == st.reqs[id]
  }

  lemma FinishAborts(st: State, ids: set<ReqId>)
    ensures Aborted(st, Finish(st, ids), ids)
  {
    WithoutDrops(st.running, ids);
    WithoutDrops(st.waiting, ids);
    WithoutDrops(st.skipped, ids);
    hide Dropped;
  }

  // ---------------------------------------------------------------------
  // Addition, drafts
  // ---------------------------------------------------------------------

  /** The request joins the end of the queue that its status asks for; nothing else
      changes. */
  predicate Added(st: State, st1: State, id: ReqId, r: Request) {
    && st1.reqs == st.reqs[id := r] && st1.running == st.running && st1.inflight == st.inflight
    && st1.pause == st.pause && st1.prefillBound == st.prefillBound
    && (r.status == WaitingForGrammar ==> st1.skipped == st.skipped + [id] && st1.waiting == st.waiting)
    && (r.status != WaitingForGrammar ==> st1.waiting == st.waiting + [id] && st1.skipped == st.skipped)
  }

  /** A request that is no prefill chunk has exactly the drafts it was given, a prefill
      chunk none; nothing else changes. */
  predicate Drafted(st: State, st1: State, drafts: map<ReqId, seq<Token>>) {
    && st1.reqs.Keys == st.reqs.Keys && st1 == st.(reqs := st1.reqs)
    && forall id :: id in st.reqs ==>
         && st1.reqs[id] == st.reqs[id].(spec := st1.reqs[id].spec)
         && st1.reqs[id].spec == if id !in drafts then st.reqs[id].spec
                                 else if st.reqs[id].isPrefillChunk then [] else drafts[id]
  }

  lemma CallsAddAndDraft(st: State, id: ReqId, r: Request, drafts: map<ReqId, seq<Token>>)
    ensures Added(st, AddRequest(st, id, r), id, r)
    ensures Drafted(st, UpdateDrafts(st, drafts), drafts)
  {
  }

  // ---------------------------------------------------------------------
  // Output
  // ---------------------------------------------------------------------

  /** With the first `j` generated tokens the request is at its end. */
  predicate EndsAt(cfg: Config, isEos: Token -> bool, r: Request, generated: seq<Token>, j: nat)
    requires j <= |generated|
  {
    Stops(cfg, isEos, r.(tokens := r.tokens + generated[..j]))
  }

  ghost predicate Ends(cfg: Config, isEos: Token -> bool, r: Request, generated: seq<Token>) {
    exists j :: 1 <= j <= |generated| && EndsAt(cfg, isEos, r, generated, j)
  }

  /** What `Append` makes of the tokens from `k` on, when none before ends the request. */
  ghost predicate AppendsFrom(cfg: Config, isEos: Token -> bool, r: Request, generated: seq<Token>, k: nat, a: Appended)
    requires k <= |generated|
  {
    var end := k + |a.kept|;
    && end <= |generated| && a.r == r.(tokens := r.tokens + generated[..end])
    && (forall j :: k < j < end ==> !EndsAt(cfg, isEos, r, generated, j))
    && (a.stopped ==> end > k && EndsAt(cfg, isEos, r, generated, end))
    && (!a.stopped ==> end == |generated| && forall j :: k < j <= end ==> !EndsAt(cfg, isEos, r, generated, j))
  }

  lemma {:induction false} AppendIsExactFrom(cfg: Config, isEos: Token -> bool, r: Request, generated: seq<Token>,
      k: nat)
    requires k <= |generated|
    ensures AppendsFrom(cfg, isEos, r, generated, k,
                        Append(cfg, isEos, r.(tokens := r.tokens + generated[..k]), generated[k..]))
    decreases |generated| - k
  {
    hide Stops;
    var r0 := r.(tokens := r.tokens + generated[..k]);
    if k < |generated| {
      OneToken(r, generated, k);
      var r1 := r.(tokens := r.tokens + generated[..k + 1]);
      if !Stops(cfg, isEos, r1) {
        AppendIsExactFrom(cfg, isEos, r, generated, k + 1);
        assert !EndsAt(cfg, isEos, r, generated, k + 1);
      }
    }
  }

  lemma OneToken(r: Request, generated: seq<Token>, k: nat)
    requires k < |generated|
    ensures (r.tokens + generated[..k]) + [generated[k]] == r.tokens + generated[..k + 1]
    ensures generated[k..][0] == generated[k] && generated[k..][1..] == generated[k + 1..]
  {
  }

  /** Tokens are appended up to the first with which the request is at its end, and that
      is when it stops. */
  lemma AppendIsExact(cfg: Config, isEos: Token -> bool, r: Request, generated: seq<Token>)
    ensures var a := Append(cfg, isEos, r, generated);
            && (a.stopped <==> Ends(cfg, isEos, r, generated))
            && (a.stopped ==> a.kept != [] && EndsAt(cfg, isEos, r, generated, |a.kept|))
            && (forall j :: 1 <= j < |a.kept| ==> !EndsAt(cfg, isEos, r, generated, j))
            && a.r == r.(tokens := r.tokens + generated[..|a.kept|])
            && (!a.stopped ==> a.kept == generated)
  {
    assert r.tokens + generated[..0] == r.tokens && generated[0..] == generated;
    hide EndsAt;
    AppendIsExactFrom(cfg, isEos, r, generated, 0);
  }

  /** The tokens that were computed for drafts not accepted. */
  function Rejected(r: Request, row: Row, generated: seq<Token>): int {
    if row.drafts == [] || generated == [] || r.numComputed <= 0 then 0
    else |row.drafts| - (|generated| - 1)
  }

  /** One request across the output of its row, if it does not end. */
  predicate Extended(r: Request, r1: Request, row: Row, generated: seq<Token>) {
    r1 == r.(tokens := r.tokens + generated, numComputed := r.numComputed - Rejected(r, row, generated))
  }

  /** The requests of the step at their end are gone; the others of it have all their
      generated tokens and none computed for rejected drafts; no other request changes. */
  ghost predicate Answered(cfg: Config, isEos: Token -> bool, st: State, st1: State, rows: map<ReqId, Row>,
      ans: Answer) {
    && Left(st, st1, set id | id in rows && id in st.reqs && Ends(cfg, isEos, st.reqs[id], ans(id)))
    && forall id :: id in st1.reqs ==>
         && (id in rows ==> Extended(st.reqs[id], st1.reqs[id], rows[id], ans(id)))
         && (id !in rows ==> st1.reqs[id] == st.reqs[id])
  }

  lemma UpdateAnswers(cfg: Config, isEos: Token -> bool, st: State, rows: map<ReqId, Row>, ans: Answer)
    requires forall id :: id in rows && id in st.reqs ==> id !in st.skipped
    ensures Answered(cfg, isEos, st, Update(cfg, isEos, st, rows, ans), rows, ans)
  {
    var gone := Stopped(cfg, isEos, st, rows, ans);
    forall id | id in rows && id in st.reqs
      ensures id in gone <==> Ends(cfg, isEos, st.reqs[id], ans(id))
      ensures id !in gone ==> Extended(st.reqs[id], Received(cfg, isEos, st, rows, ans, id).r, rows[id], ans(id))
    {
      RowAnswered(cfg, isEos, st.reqs[id], rows[id], ans(id));
    }
    hide Received, Ends, Extended;
    assert gone == set id | id in rows && id in st.reqs && Ends(cfg, isEos, st.reqs[id], ans(id));
    UpdateLeaves(cfg, isEos, st, rows, ans);
  }

  lemma UpdateLeaves(cfg: Config, isEos: Token -> bool, st: State, rows: map<ReqId, Row>, ans: Answer)
    requires forall id :: id in rows && id in st.reqs ==> id !in st.skipped
    ensures Left(st, Update(cfg, isEos, st, rows, ans), Stopped(cfg, isEos, st, rows, ans))
  {
    var gone := Stopped(cfg, isEos, st, rows, ans);
    hide Received, Dropped;
    WithoutDrops(st.running, gone);
    WithoutDrops(st.waiting, gone);
    WithoutNone(st.skipped, gone);
    WithoutDrops(st.skipped, gone);
  }

  lemma RowAnswered(cfg: Config, isEos: Token -> bool, r: Request, row: Row, generated: seq<Token>)
    ensures var a := Receive(cfg, isEos, r, row, generated);
            && (a.stopped <==> Ends(cfg, isEos, r, generated))
            && (!a.stopped ==> Extended(r, a.r, row, generated))
  {
    var r0 := Reject(r, row, generated);
    AppendIsExact(cfg, isEos, r0, generated);
    EndsDespiteRejection(cfg, isEos, r, row, generated);
    assert generated[..|generated|] == generated;
    hide EndsAt, Ends, Append;
  }

  /** The counter plays no part in when a request is at its end. */
  lemma EndsDespiteRejection(cfg: Config, isEos: Token -> bool, r: Request, row: Row, generated: seq<Token>)
    ensures Ends(cfg, isEos, Reject(r, row, generated), generated) <==> Ends(cfg, isEos, r, generated)
  {
    var r0 := Reject(r, row, generated);
    forall j | 1 <= j <= |generated| ensures EndsAt(cfg, isEos, r0, generated, j) ==
        EndsAt(cfg, isEos, r, generated, j) {
    }
    hide EndsAt;
  }
}
