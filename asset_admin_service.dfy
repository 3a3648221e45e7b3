/**
 * The asset administration jobs: closing the day's cash-out requests and realizing the due
 * cashflows. Each item is tried on its own; a failure falls back to marking the item ERROR,
 * and a failure of that fallback is ignored, so one bad item never stops the job.
 */
module AssetAdmin {
  import opened Wrappers
  import opened TimePoints
  import opened ActionStatus
  import opened Timestamping
  import opened Orm
  import opened Ledger
  import Cashflows
  import CashInOuts
  import CashBalances

  /**
   * What closing leaves of one request due today: PROCESSED with its new cashflow when the
   * cashflow could be registered (value day not past), ERROR otherwise.
   */
  predicate Closed(before: CashInOut, after: CashInOut, today: Day, actor: string) {
    if today <= before.valueDay then
      after.cashflowId.Some? && after == before.(statusType := Processed, updateActor := actor, cashflowId := after.cashflowId)
    else
      after == before.(statusType := ActionStatusType.Error, updateActor := actor)
  }

  /** Every request in `done` is closed in `now`, and the cashflow of each processed one is stored. */
  predicate AllClosed(rows: map<string, CashInOut>, now: map<string, CashInOut>, cashflows: map<string, Cashflow>,
                      done: set<string>, today: Day, actor: string) {
    forall id :: id in done ==>
      && id in rows && id in now
      && Closed(rows[id], now[id], today, actor)
      && (today <= rows[id].valueDay ==> now[id].cashflowId.value in cashflows)
  }

  /** Closing one more request keeps the requests closed so far closed. */
  lemma ClosedStep(rows: map<string, CashInOut>, before: map<string, CashInOut>, after: map<string, CashInOut>,
                   cfBefore: map<string, Cashflow>, cfAfter: map<string, Cashflow>,
                   done: set<string>, x: string, today: Day, actor: string)
    requires AllClosed(rows, before, cfBefore, done, today, actor)
    requires x in rows && x !in done && x in after && after == before[x := after[x]]
    requires Closed(rows[x], after[x], today, actor)
    requires today <= rows[x].valueDay ==> after[x].cashflowId.value in cfAfter
    requires cfBefore.Keys <= cfAfter.Keys
    ensures AllClosed(rows, after, cfAfter, done + {x}, today, actor)
  {
    forall id | id in done + {x}
      ensures && id in rows && id in after
              && Closed(rows[id], after[id], today, actor)
              && (today <= rows[id].valueDay ==> after[id].cashflowId.value in cfAfter)
    {
      if id != x {
        assert after[id] == before[id];
      }
    }
  }

  /** The cashflow `process` stores for `cio` under `k`: PROCESSED when due `today`, UNPROCESSED otherwise. */
  function Opened(cio: CashInOut, k: string, today: Day, actor: string): Cashflow {
    Cashflows.Created(CashInOuts.RegCf(cio), k, today, actor).(
      statusType := if cio.valueDay <= today then Processed else Unprocessed)
  }

  /**
   * One item of the closing job: `process`, and on its failure `error`, whose own failure is
   * ignored. A request due today that is still open always ends closed: PROCESSED with a new
   * cashflow, posted at once when its value day is today, or ERROR with the cashflows and
   * balances untouched.
   */
  method CloseOne(rep: Repository, cio: CashInOut)
    requires rep.Valid() && cio.id in rep.cashInOuts
    requires cio.eventDay == rep.time.Day() && IsUnprocessed(cio.statusType)
    modifies rep, rep.uid
    ensures rep.Valid()
    ensures cio.id in rep.cashInOuts && rep.cashInOuts == old(rep.cashInOuts)[cio.id := rep.cashInOuts[cio.id]]
    ensures Closed(cio, rep.cashInOuts[cio.id], rep.time.Day(), rep.actorId)
    ensures rep.time.Day() <= cio.valueDay ==>
      var k := rep.cashInOuts[cio.id].cashflowId.value;
      k !in old(rep.cashflows) && rep.cashflows == old(rep.cashflows)[k := Opened(cio, k, rep.time.Day(), rep.actorId)]
    ensures cio.valueDay < rep.time.Day() ==> rep.cashflows == old(rep.cashflows)
    ensures cio.valueDay == rep.time.Day() ==>
      CashBalances.Posted(old(rep.balances), rep.balances, cio.accountId, cio.currency, rep.time.Day(),
                          CashInOuts.RegCf(cio).amount, rep.fractionDigits(cio.currency))
    ensures cio.valueDay != rep.time.Day() ==> rep.balances == old(rep.balances)
    ensures rep.uid.values == old(rep.uid.values)
    ensures rep.accounts == old(rep.accounts) && rep.fiAccounts == old(rep.fiAccounts)
    ensures rep.selfFiAccounts == old(rep.selfFiAccounts)
  {
    var processed := CashInOuts.Process(rep, cio);
    if processed.Failure? {
      var marked := CashInOuts.Error(rep, cio);
    }
  }

  /**
   * The cashflows of closing so far: the rows of `cfOld` are kept, each processed request of
   * `done` owns a new row holding its `Opened` cashflow, and every new row is owned by one of them.
   */
  ghost predicate CashflowsSoFar(cfOld: map<string, Cashflow>, cfNow: map<string, Cashflow>,
                                 rows: map<string, CashInOut>, now: map<string, CashInOut>,
                                 done: set<string>, today: Day, actor: string) {
    && (forall k :: k in cfOld ==> k in cfNow && cfNow[k] == cfOld[k])
    && (forall id :: id in done && id in rows && id in now && today <= rows[id].valueDay ==>
          && now[id].cashflowId.Some?
          && now[id].cashflowId.value !in cfOld && now[id].cashflowId.value in cfNow
          && cfNow[now[id].cashflowId.value] == Opened(rows[id], now[id].cashflowId.value, today, actor))
    && (forall k :: k in cfNow && k !in cfOld ==> exists id :: id in done && id in now && now[id].cashflowId == Some(k))
  }

  /** Closing one more request adds its own cashflow, if any, and keeps every other row. */
  lemma CashflowsStep(cfOld: map<string, Cashflow>, cfBefore: map<string, Cashflow>, cfAfter: map<string, Cashflow>,
                      rows: map<string, CashInOut>, before: map<string, CashInOut>, after: map<string, CashInOut>,
                      done: set<string>, x: string, today: Day, actor: string)
    requires CashflowsSoFar(cfOld, cfBefore, rows, before, done, today, actor)
    requires x in rows && x !in done && x in after && after == before[x := after[x]]
    requires today <= rows[x].valueDay ==>
      && after[x].cashflowId.Some? && after[x].cashflowId.value !in cfBefore
      && cfAfter == cfBefore[after[x].cashflowId.value := Opened(rows[x], after[x].cashflowId.value, today, actor)]
    requires rows[x].valueDay < today ==> cfAfter == cfBefore
    ensures CashflowsSoFar(cfOld, cfAfter, rows, after, done + {x}, today, actor)
  {
    forall k | k in cfAfter && k !in cfOld
      ensures exists id :: id in done + {x} && id in after && after[id].cashflowId == Some(k)
    {
      if today <= rows[x].valueDay && k == after[x].cashflowId.value {
        assert after[x].cashflowId == Some(k);
      } else {
        var id :| id in done && id in before && before[id].cashflowId == Some(k);
        assert after[id] == before[id];
      }
    }
    forall id | id in done + {x} && id in rows && id in after && today <= rows[id].valueDay
      ensures && after[id].cashflowId.Some?
              && after[id].cashflowId.value !in cfOld && after[id].cashflowId.value in cfAfter
              && cfAfter[after[id].cashflowId.value] == Opened(rows[id], after[id].cashflowId.value, today, actor)
    {
      if id != x {
        assert after[id] == before[id];
      }
    }
  }

  /**
   * `after` is `before` with the amount of each request of `ids` whose value day is `day`, in
   * that order, posted to its account's balance row of `day`, as closing leaves the balances:
   * only a request settling today registers a cashflow that is realized at once.
   */
  ghost predicate ClosingPosted(before: map<string, CashBalance>, after: map<string, CashBalance>,
                                rows: map<string, CashInOut>, ids: seq<string>, day: Day, digits: string -> int)
    decreases |ids|
  {
    if ids == [] then after == before
    else
      var x := ids[|ids| - 1];
      && x in rows
      && if rows[x].valueDay == day then
           exists mid :: ClosingPosted(before, mid, rows, ids[..|ids| - 1], day, digits)
             && CashBalances.Posted(mid, after, rows[x].accountId, rows[x].currency, day,
                                    CashInOuts.RegCf(rows[x]).amount, digits(rows[x].currency))
         else ClosingPosted(before, after, rows, ids[..|ids| - 1], day, digits)
  }

  /** Closing one more request extends the posted sequence by that request. */
  lemma ClosingPostedStep(before: map<string, CashBalance>, mid: map<string, CashBalance>, after: map<string, CashBalance>,
                          rows: map<string, CashInOut>, ids: seq<string>, x: string, day: Day, digits: string -> int)
    requires ClosingPosted(before, mid, rows, ids, day, digits) && x in rows
    requires rows[x].valueDay == day ==>
      CashBalances.Posted(mid, after, rows[x].accountId, rows[x].currency, day,
                          CashInOuts.RegCf(rows[x]).amount, digits(rows[x].currency))
    requires rows[x].valueDay != day ==> after == mid
    ensures ClosingPosted(before, after, rows, ids + [x], day, digits)
  {
    assert (ids + [x])[..|ids|] == ids;
  }

  /** Closing leaves the balance rows of an account and currency with no request settling today untouched. */
  lemma {:induction false} ClosingKeepsOthers(before: map<string, CashBalance>, after: map<string, CashBalance>,
                                              rows: map<string, CashInOut>, ids: seq<string>, day: Day,
                                              digits: string -> int, a: string, c: string)
    requires ClosingPosted(before, after, rows, ids, day, digits)
    requires forall i :: 0 <= i < |ids| ==>
      ids[i] in rows && (rows[ids[i]].valueDay != day || rows[ids[i]].accountId != a || rows[ids[i]].currency != c)
    ensures forall k :: k in before && CashBalances.IsOf(before[k], a, c) ==> k in after && after[k] == before[k]
    decreases |ids|
  {
    if ids != [] {
      var x := ids[|ids| - 1];
      if rows[x].valueDay == day {
        var mid :| ClosingPosted(before, mid, rows, ids[..|ids| - 1], day, digits)
          && CashBalances.Posted(mid, after, rows[x].accountId, rows[x].currency, day,
                                 CashInOuts.RegCf(rows[x]).amount, digits(rows[x].currency));
        ClosingKeepsOthers(before, mid, rows, ids[..|ids| - 1], day, digits, a, c);
        PostedKeepsOthers(mid, after, rows[x].accountId, rows[x].currency, day,
                          CashInOuts.RegCf(rows[x]).amount, digits(rows[x].currency), a, c);
      } else {
        ClosingKeepsOthers(before, after, rows, ids[..|ids| - 1], day, digits, a, c);
      }
    }
  }

  /**
   * `closingCashOutInTx`: visits every open request whose event day is today, ascending by
   * identifier, and processes it, falling back to `error`. Every visited request ends closed;
   * each processed one owns a new cashflow holding its `regCf`, the cashflows already stored
   * are kept, the balances take the visited requests settling today in visit order, and every
   * other request and table is left as it was.
   */
  method ClosingCashOut(rep: Repository) returns (visited: seq<string>)
    requires rep.Valid()
    modifies rep, rep.uid
    ensures rep.Valid()
    ensures Ascending(visited)
    ensures forall id :: id in visited <==> id in old(CashInOuts.UnprocessedToday(rep.cashInOuts, rep.time.Day()))
    ensures rep.cashInOuts.Keys == old(rep.cashInOuts.Keys)
    ensures forall id :: id in visited ==>
      && Closed(old(rep.cashInOuts[id]), rep.cashInOuts[id], rep.time.Day(), rep.actorId)
      && (rep.time.Day() <= old(rep.cashInOuts[id]).valueDay ==>
            var k := rep.cashInOuts[id].cashflowId.value;
            k !in old(rep.cashflows) && k in rep.cashflows
            && rep.cashflows[k] == Opened(old(rep.cashInOuts[id]), k, rep.time.Day(), rep.actorId))
    ensures forall id :: id in old(rep.cashInOuts) && id !in visited ==> rep.cashInOuts[id] == old(rep.cashInOuts[id])
    ensures forall k :: k in old(rep.cashflows) ==> k in rep.cashflows && rep.cashflows[k] == old(rep.cashflows[k])
    ensures forall k :: k in rep.cashflows && k !in old(rep.cashflows) ==>
      exists id :: id in visited && id in rep.cashInOuts && rep.cashInOuts[id].cashflowId == Some(k)
    ensures ClosingPosted(old(rep.balances), rep.balances, old(rep.cashInOuts), visited, rep.time.Day(), rep.fractionDigits)
    ensures rep.uid.values == old(rep.uid.values)
    ensures rep.accounts == old(rep.accounts) && rep.fiAccounts == old(rep.fiAccounts)
    ensures rep.selfFiAccounts == old(rep.selfFiAccounts)
  {
    var rows := rep.cashInOuts;
    visited := CashInOuts.FindUnprocessedToday(rows, rep.time.Day());
    AscendingDistinct(visited);
    ghost var done := CloseAll(rep, rows, visited);
    ClosingDone(rows, visited, done, rep.cashInOuts, old(rep.cashflows), rep.cashflows,
                old(rep.balances), rep.balances, rep.time.Day(), rep.actorId, rep.fractionDigits);
  }

  /**
   * The state of closing after the first `i` requests of `ids`, the set `done`: those requests
   * are closed, the others untouched, the cashflows and balances as `CashflowsSoFar` and
   * `ClosingPosted` say.
   */
  ghost predicate ClosingSoFar(rows: map<string, CashInOut>, ids: seq<string>, i: int, done: set<string>,
                               now: map<string, CashInOut>, cfOld: map<string, Cashflow>, cfNow: map<string, Cashflow>,
                               balOld: map<string, CashBalance>, balNow: map<string, CashBalance>,
                               today: Day, actor: string, digits: string -> int) {
    && 0 <= i <= |ids|
    && now.Keys == rows.Keys
    && (forall id :: id in done <==> id in ids[..i])
    && AllClosed(rows, now, cfNow, done, today, actor)
    && (forall id :: id in rows && id !in done ==> now[id] == rows[id])
    && CashflowsSoFar(cfOld, cfNow, rows, now, done, today, actor)
    && ClosingPosted(balOld, balNow, rows, ids[..i], today, digits)
  }

  /** Closing the request `ids[i]` as `CloseOne` does carries `ClosingSoFar` from `i` to `i + 1`. */
  lemma ClosingStep(rows: map<string, CashInOut>, ids: seq<string>, i: int, done: set<string>,
                    before: map<string, CashInOut>, after: map<string, CashInOut>, cfOld: map<string, Cashflow>,
                    cfBefore: map<string, Cashflow>, cfAfter: map<string, Cashflow>, balOld: map<string, CashBalance>,
                    posted: map<string, CashBalance>, balAfter: map<string, CashBalance>,
                    today: Day, actor: string, digits: string -> int)
    requires ClosingSoFar(rows, ids, i, done, before, cfOld, cfBefore, balOld, posted, today, actor, digits)
    requires i < |ids| && ids[i] in rows && ids[i] !in ids[..i]
    requires ids[i] in after && after == before[ids[i] := after[ids[i]]]
    requires Closed(rows[ids[i]], after[ids[i]], today, actor)
    requires today <= rows[ids[i]].valueDay ==>
      var k := after[ids[i]].cashflowId.value;
      k !in cfBefore && cfAfter == cfBefore[k := Opened(rows[ids[i]], k, today, actor)]
    requires rows[ids[i]].valueDay < today ==> cfAfter == cfBefore
    requires rows[ids[i]].valueDay == today ==>
      CashBalances.Posted(posted, balAfter, rows[ids[i]].accountId, rows[ids[i]].currency, today,
                          CashInOuts.RegCf(rows[ids[i]]).amount, digits(rows[ids[i]].currency))
    requires rows[ids[i]].valueDay != today ==> balAfter == posted
    ensures ClosingSoFar(rows, ids, i + 1, done + {ids[i]}, after, cfOld, cfAfter, balOld, balAfter, today, actor, digits)
  {
    var x := ids[i];
    assert ids[..i + 1] == ids[..i] + [x];
    ClosedStep(rows, before, after, cfBefore, cfAfter, done, x, today, actor);
    CashflowsStep(cfOld, cfBefore, cfAfter, rows, before, after, done, x, today, actor);
    ClosingPostedStep(balOld, posted, balAfter, rows, ids[..i], x, today, digits);
  }

  /** Once every request of `ids` is closed, `ClosingSoFar` says what `ClosingCashOut` promises. */
  lemma ClosingDone(rows: map<string, CashInOut>, ids: seq<string>, done: set<string>,
                    now: map<string, CashInOut>, cfOld: map<string, Cashflow>, cfNow: map<string, Cashflow>,
                    balOld: map<string, CashBalance>, balNow: map<string, CashBalance>,
                    today: Day, actor: string, digits: string -> int)
    requires ClosingSoFar(rows, ids, |ids|, done, now, cfOld, cfNow, balOld, balNow, today, actor, digits)
    ensures now.Keys == rows.Keys
    ensures forall id :: id in ids ==>
      && id in rows && Closed(rows[id], now[id], today, actor)
      && (today <= rows[id].valueDay ==>
            var k := now[id].cashflowId.value;
            k !in cfOld && k in cfNow && cfNow[k] == Opened(rows[id], k, today, actor))
    ensures forall id :: id in rows && id !in ids ==> now[id] == rows[id]
    ensures forall k :: k in cfOld ==> k in cfNow && cfNow[k] == cfOld[k]
    ensures forall k :: k in cfNow && k !in cfOld ==> exists id :: id in ids && id in now && now[id].cashflowId == Some(k)
    ensures ClosingPosted(balOld, balNow, rows, ids, today, digits)
  {
    assert ids[..|ids|] == ids;
  }

  /**
   * The loop of `closingCashOutInTx` over the requests `ids`, listed once each, of the table as
   * it was, `rows`; `done` is the set of them.
   */
  method CloseAll(rep: Repository, rows: map<string, CashInOut>, ids: seq<string>) returns (ghost done: set<string>)
    requires rep.Valid() && rep.cashInOuts == rows
    requires forall j, k :: 0 <= j < k < |ids| ==> ids[j] != ids[k]
    requires forall j :: 0 <= j < |ids| ==> ids[j] in CashInOuts.UnprocessedToday(rows, rep.time.Day())
    modifies rep, rep.uid
    ensures rep.Valid()
    ensures ClosingSoFar(rows, ids, |ids|, done, rep.cashInOuts, old(rep.cashflows), rep.cashflows,
                         old(rep.balances), rep.balances, rep.time.Day(), rep.actorId, rep.fractionDigits)
    ensures rep.uid.values == old(rep.uid.values)
    ensures rep.accounts == old(rep.accounts) && rep.fiAccounts == old(rep.fiAccounts)
    ensures rep.selfFiAccounts == old(rep.selfFiAccounts)
  {
    var today := rep.time.Day();
    done := {};
    var i := 0;
    while i < |ids|
      invariant rep.Valid()
      invariant ClosingSoFar(rows, ids, i, done, rep.cashInOuts, old(rep.cashflows), rep.cashflows,
                             old(rep.balances), rep.balances, today, rep.actorId, rep.fractionDigits)
      invariant rep.uid.values == old(rep.uid.values)
      invariant rep.accounts == old(rep.accounts) && rep.fiAccounts == old(rep.fiAccounts)
      invariant rep.selfFiAccounts == old(rep.selfFiAccounts)
    {
      var x := ids[i];
      assert x in CashInOuts.UnprocessedToday(rows, today) && x !in ids[..i];
      ghost var before, cfBefore, posted := rep.cashInOuts, rep.cashflows, rep.balances;
      CloseOne(rep, rows[x]);
      ClosingStep(rows, ids, i, done, before, rep.cashInOuts, old(rep.cashflows), cfBefore, rep.cashflows,
                  old(rep.balances), posted, rep.balances, today, rep.actorId, rep.fractionDigits);
      done := done + {x};
      i := i + 1;
    }
  }

  /** `now` keeps every row of `rows`: those in `done` realized by `actor`, the others as they were. */
  predicate RealizedSoFar(rows: map<string, Cashflow>, now: map<string, Cashflow>, done: set<string>, actor: string) {
    && now.Keys == rows.Keys
    && (forall id :: id in rows && id in done ==> now[id] == rows[id].(statusType := Processed, updateActor := actor))
    && (forall id :: id in rows && id !in done ==> now[id] == rows[id])
  }

  /** `visited` lists, once each, the entries of `due` that are no longer in `rest`. */
  ghost predicate Visiting(due: set<string>, rest: set<string>, visited: seq<string>) {
    && rest <= due
    && |visited| == |due| - |rest|
    && (forall id :: id in visited <==> id in due && id !in rest)
  }

  /** Realizing one more entry of `rest` extends the realized part `due - rest` by that entry alone. */
  lemma RealizedStep(rows: map<string, Cashflow>, before: map<string, Cashflow>, due: set<string>, rest: set<string>,
                     visited: seq<string>, x: string, actor: string)
    requires RealizedSoFar(rows, before, due - rest, actor) && Visiting(due, rest, visited)
    requires x in rest && due <= rows.Keys
    ensures RealizedSoFar(rows, before[x := rows[x].(statusType := Processed, updateActor := actor)], due - (rest - {x}), actor)
    ensures Visiting(due, rest - {x}, visited + [x])
  {
    assert due - (rest - {x}) == (due - rest) + {x};
  }

  /**
   * `after` is `before` with the amount of each entry of `ids`, in that order, posted to its
   * account's balance row of `day`, as successive `realize` calls leave the balances.
   */
  ghost predicate PostedAlong(before: map<string, CashBalance>, after: map<string, CashBalance>,
                              rows: map<string, Cashflow>, ids: seq<string>, day: Day, digits: string -> int)
    decreases |ids|
  {
    if ids == [] then after == before
    else
      var x := ids[|ids| - 1];
      && x in rows
      && exists mid :: PostedAlong(before, mid, rows, ids[..|ids| - 1], day, digits)
           && CashBalances.Posted(mid, after, rows[x].accountId, rows[x].currency, day, rows[x].amount,
                                  digits(rows[x].currency))
  }

  /** Posting one more entry extends the posted sequence by that entry. */
  lemma PostedAlongStep(before: map<string, CashBalance>, mid: map<string, CashBalance>, after: map<string, CashBalance>,
                        rows: map<string, Cashflow>, ids: seq<string>, x: string, day: Day, digits: string -> int)
    requires PostedAlong(before, mid, rows, ids, day, digits) && x in rows
    requires CashBalances.Posted(mid, after, rows[x].accountId, rows[x].currency, day, rows[x].amount,
                                 digits(rows[x].currency))
    ensures PostedAlong(before, after, rows, ids + [x], day, digits)
  {
    assert (ids + [x])[..|ids|] == ids;
  }

  /** Posting to one account and currency leaves every row of another account or currency as it was. */
  lemma PostedKeepsOthers(before: map<string, CashBalance>, after: map<string, CashBalance>, accountId: string,
                          currency: string, day: Day, delta: real, digits: int, a: string, c: string)
    requires CashBalances.Posted(before, after, accountId, currency, day, delta, digits)
    requires a != accountId || c != currency
    ensures forall k :: k in before && CashBalances.IsOf(before[k], a, c) ==> k in after && after[k] == before[k]
  {
    var b :| CashBalances.DayRow(before, accountId, currency, day, b)
      && after == before[b.id := b.(amount := CashBalances.Added(b.amount, delta, digits))];
    forall k | k in before && CashBalances.IsOf(before[k], a, c)
      ensures k in after && after[k] == before[k]
    {
      assert k != b.id;
    }
  }

  /** The realize job leaves the balance rows of an account and currency none of its entries has untouched. */
  lemma {:induction false} PostedAlongKeepsOthers(before: map<string, CashBalance>, after: map<string, CashBalance>,
                                                  rows: map<string, Cashflow>, ids: seq<string>, day: Day,
                                                  digits: string -> int, a: string, c: string)
    requires PostedAlong(before, after, rows, ids, day, digits)
    requires forall i :: 0 <= i < |ids| ==> ids[i] in rows && (rows[ids[i]].accountId != a || rows[ids[i]].currency != c)
    ensures forall k :: k in before && CashBalances.IsOf(before[k], a, c) ==> k in after && after[k] == before[k]
    decreases |ids|
  {
    if ids != [] {
      var x := ids[|ids| - 1];
      var mid :| PostedAlong(before, mid, rows, ids[..|ids| - 1], day, digits)
        && CashBalances.Posted(mid, after, rows[x].accountId, rows[x].currency, day, rows[x].amount,
                               digits(rows[x].currency));
      PostedAlongKeepsOthers(before, mid, rows, ids[..|ids| - 1], day, digits, a, c);
      PostedKeepsOthers(mid, after, rows[x].accountId, rows[x].currency, day, rows[x].amount,
                        digits(rows[x].currency), a, c);
    }
  }

  /**
   * One visit of `realizeCashflowInTx`: realize the entry, marking it ERROR should that fail. A due
   * UNPROCESSED entry ends PROCESSED; any other one still in the unprocessed group ends ERROR.
   */
  method RealizeOne(rep: Repository, cf: Cashflow)
    requires rep.Valid() && cf.id in rep.cashflows
    modifies rep, rep.uid
    ensures rep.Valid()
    ensures cf.statusType == Unprocessed && cf.valueDay <= rep.time.Day() ==>
      rep.cashflows == old(rep.cashflows)[cf.id := cf.(statusType := Processed, updateActor := rep.actorId)]
    ensures !(cf.statusType == Unprocessed && cf.valueDay <= rep.time.Day()) ==>
      rep.cashflows == if IsUnprocessed(cf.statusType)
                       then old(rep.cashflows)[cf.id := cf.(statusType := ActionStatusType.Error, updateActor := rep.actorId)]
                       else old(rep.cashflows)
    ensures cf.statusType == Unprocessed && cf.valueDay <= rep.time.Day() ==>
      CashBalances.Posted(old(rep.balances), rep.balances, cf.accountId, cf.currency, rep.time.Day(), cf.amount,
                          rep.fractionDigits(cf.currency))
    ensures !(cf.statusType == Unprocessed && cf.valueDay <= rep.time.Day()) ==> rep.balances == old(rep.balances)
    ensures rep.cashInOuts == old(rep.cashInOuts)
  {
    var realized := Cashflows.Realize(rep, cf);
    if realized.Failure? {
      var marked := Cashflows.Error(rep, cf);
    }
  }

  /**
   * `realizeCashflowInTx`: realizes every UNPROCESSED cashflow whose value day has come, falling
   * back to `error`; each of them ends PROCESSED with its amount posted to today's balance row,
   * and every other cashflow is left as it was. The order of the visits is not part of the model.
   */
  method RealizeCashflow(rep: Repository) returns (visited: seq<string>)
    requires rep.Valid()
    modifies rep, rep.uid
    ensures rep.Valid()
    ensures |visited| == |old(Cashflows.FindDoRealize(rep.cashflows, rep.time.Day()))|
    ensures forall id :: id in visited <==> id in old(Cashflows.FindDoRealize(rep.cashflows, rep.time.Day()))
    ensures rep.cashflows.Keys == old(rep.cashflows.Keys)
    ensures forall id :: id in visited ==>
      rep.cashflows[id] == old(rep.cashflows[id]).(statusType := Processed, updateActor := rep.actorId)
    ensures forall id :: id in old(rep.cashflows) && id !in visited ==> rep.cashflows[id] == old(rep.cashflows[id])
    ensures PostedAlong(old(rep.balances), rep.balances, old(rep.cashflows), visited, rep.time.Day(), rep.fractionDigits)
    ensures rep.cashInOuts == old(rep.cashInOuts)
  {
    var rows := rep.cashflows;
    var due := Cashflows.FindDoRealize(rows, rep.time.Day());
    visited := RealizeAll(rep, rows, due);
  }

  /** The loop of `realizeCashflowInTx` over the due entries `due` of the table as it was, `rows`. */
  method RealizeAll(rep: Repository, rows: map<string, Cashflow>, due: set<string>) returns (visited: seq<string>)
    requires rep.Valid() && rep.cashflows == rows && due <= rows.Keys
    requires forall id :: id in rows ==> rows[id].id == id
    requires forall id :: id in due ==> rows[id].statusType == Unprocessed && rows[id].valueDay <= rep.time.Day()
    modifies rep, rep.uid
    ensures rep.Valid() && rep.cashInOuts == old(rep.cashInOuts)
    ensures |visited| == |due|
    ensures forall id :: id in visited <==> id in due
    ensures RealizedSoFar(rows, rep.cashflows, due, rep.actorId)
    ensures PostedAlong(old(rep.balances), rep.balances, rows, visited, rep.time.Day(), rep.fractionDigits)
  {
    var rest := due;
    visited := [];
    while rest != {}
      invariant Visiting(due, rest, visited)
      invariant rep.Valid() && rep.cashInOuts == old(rep.cashInOuts)
      invariant RealizedSoFar(rows, rep.cashflows, due - rest, rep.actorId)
      invariant PostedAlong(old(rep.balances), rep.balances, rows, visited, rep.time.Day(), rep.fractionDigits)
      decreases |rest|
    {
      var id :| id in rest;
      var cf := rows[id];
      assert cf.id == id && cf.statusType == Unprocessed && cf.valueDay <= rep.time.Day();
      ghost var before := rep.cashflows;
      ghost var posted := rep.balances;
      RealizeOne(rep, cf);
      assert rep.cashflows == before[id := cf.(statusType := Processed, updateActor := rep.actorId)];
      RealizedStep(rows, before, due, rest, visited, id, rep.actorId);
      PostedAlongStep(old(rep.balances), posted, rep.balances, rows, visited, id, rep.time.Day(), rep.fractionDigits);
      rest := rest - {id};
      visited := visited + [id];
    }
    assert due - rest == due;
  }
}
