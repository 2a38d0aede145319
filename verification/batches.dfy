/** A batch of declaration rows applied one call at a time, as both copies of
    `change_records` do it: one call per row, in row order, each call starting
    from the handler state the previous one left; an exception out of a call
    leaves the loop, so the rows after it are never attempted. */
module Batches {
  import opened Effects

  /** What one call, or a run of calls, leaves behind: the handler state it
      ends in, the requests it posted, the lines it logged and how it
      returned. */
  datatype Effect<S> = Effect(state: S, sent: seq<Request>, logged: seq<LogEvent>, completion: Completion)

  /** `first`, then `next` from the state `first` ended in. */
  function Then<S>(first: Effect<S>, next: Effect<S>): Effect<S> {
    Effect(next.state, first.sent + next.sent, first.logged + next.logged, next.completion)
  }

  /** The first `n` rows of the batch: `call` on each row in turn, `replies[i]`
      being what the network answers row `i`'s post, stopping at the first call
      that raises. */
  function RunTo<S>(call: (S, Row, Reply) -> Effect<S>, s: S, rows: seq<Row>, replies: seq<Reply>, n: nat): Effect<S>
    requires |replies| == |rows| && n <= |rows|
    decreases n
  {
    if n == 0 then Effect(s, [], [], Normal)
    else
      var prev := RunTo(call, s, rows, replies, n - 1);
      if prev.completion.Raised? then prev else Then(prev, call(prev.state, rows[n - 1], replies[n - 1]))
  }

  /** The whole batch. */
  function Run<S>(call: (S, Row, Reply) -> Effect<S>, s: S, rows: seq<Row>, replies: seq<Reply>): Effect<S>
    requires |replies| == |rows|
  {
    RunTo(call, s, rows, replies, |rows|)
  }

  /** While no call has raised, one more row adds that row's call. */
  lemma RunStep<S>(call: (S, Row, Reply) -> Effect<S>, s: S, rows: seq<Row>, replies: seq<Reply>, i: nat)
    requires |replies| == |rows| && i < |rows|
    requires RunTo(call, s, rows, replies, i).completion == Normal
    ensures var prev := RunTo(call, s, rows, replies, i);
            RunTo(call, s, rows, replies, i + 1) == Then(prev, call(prev.state, rows[i], replies[i]))
  {
  }

  /** Requests and lines recorded after `first`'s and then `next`'s are those of
      `Then(first, next)`. */
  lemma ThenExtends<S>(sent0: seq<Request>, log0: seq<LogEvent>, first: Effect<S>, next: Effect<S>)
    ensures sent0 + first.sent + next.sent == sent0 + Then(first, next).sent
    ensures log0 + first.logged + next.logged == log0 + Then(first, next).logged
  {
  }

  /** Once a call has raised, the rest of the rows are never attempted: the
      first `m` rows do what the first `n` did. */
  lemma {:induction false} RunStopsOnRaise<S>(call: (S, Row, Reply) -> Effect<S>, s: S,
                                             rows: seq<Row>, replies: seq<Reply>, n: nat, m: nat)
    requires |replies| == |rows| && n <= m <= |rows|
    requires RunTo(call, s, rows, replies, n).completion.Raised?
    ensures RunTo(call, s, rows, replies, m) == RunTo(call, s, rows, replies, n)
    decreases m
  {
    if n < m {
      RunStopsOnRaise(call, s, rows, replies, n, m - 1);
    }
  }

  /** A call that returns normally, leaves the state `s` as it was, posts
      `posts` requests and logs one line. */
  ghost predicate Steady<S>(e: Effect<S>, s: S, posts: nat) {
    e.state == s && e.completion == Normal && |e.sent| == posts && |e.logged| == 1
  }

  /** When every one of the first `n` rows' calls from state `s` returns
      normally, leaves `s` as it was, posts one request and logs one line, those
      rows return normally in state `s` having posted and logged once per row,
      in row order. */
  lemma {:induction false} RunSteady<S>(call: (S, Row, Reply) -> Effect<S>, s: S,
                                       rows: seq<Row>, replies: seq<Reply>, n: nat)
    requires |replies| == |rows| && n <= |rows|
    requires forall i :: 0 <= i < n ==> Steady(call(s, rows[i], replies[i]), s, 1)
    ensures var t := RunTo(call, s, rows, replies, n);
            && t.state == s && t.completion == Normal
            && |t.sent| == n && |t.logged| == n
            && (forall i :: 0 <= i < n ==> [t.sent[i]] == call(s, rows[i], replies[i]).sent)
            && (forall i :: 0 <= i < n ==> [t.logged[i]] == call(s, rows[i], replies[i]).logged)
    decreases n
  {
    if n > 0 {
      RunSteady(call, s, rows, replies, n - 1);
      var prev := RunTo(call, s, rows, replies, n - 1);
      var e := call(s, rows[n - 1], replies[n - 1]);
      assert Steady(e, s, 1);
      RunStep(call, s, rows, replies, n - 1);
      var sent := prev.sent + e.sent;
      var log := prev.logged + e.logged;
      assert |sent| == n && |log| == n;
      assert RunTo(call, s, rows, replies, n).sent == sent;
      assert RunTo(call, s, rows, replies, n).logged == log;
      forall i | 0 <= i < n
        ensures [sent[i]] == call(s, rows[i], replies[i]).sent
        ensures [log[i]] == call(s, rows[i], replies[i]).logged
      {
        if i < n - 1 {
          assert sent[i] == prev.sent[i] && log[i] == prev.logged[i];
        }
      }
    }
  }

  /** When each of the first `n` rows' calls from state `s` returns normally,
      leaves `s` as it was, posts one request and logs one line, and row `n`'s
      call from `s` raises, the batch ends with row `n`'s call: it raises that
      exception, after the first `n` rows' requests and lines and row `n`'s. */
  lemma RunAbortsAt<S>(call: (S, Row, Reply) -> Effect<S>, s: S, rows: seq<Row>, replies: seq<Reply>, n: nat)
    requires |replies| == |rows| && n < |rows|
    requires forall i :: 0 <= i < n ==> Steady(call(s, rows[i], replies[i]), s, 1)
    requires call(s, rows[n], replies[n]).completion.Raised?
    ensures var t := Run(call, s, rows, replies);
            var e := call(s, rows[n], replies[n]);
            && t.completion == e.completion
            && |t.sent| == n + |e.sent| && |t.logged| == n + |e.logged|
            && (forall i :: 0 <= i < n ==> [t.sent[i]] == call(s, rows[i], replies[i]).sent)
            && (forall i :: 0 <= i < n ==> [t.logged[i]] == call(s, rows[i], replies[i]).logged)
            && t.sent[n..] == e.sent && t.logged[n..] == e.logged
  {
    RunSteady(call, s, rows, replies, n);
    RunStep(call, s, rows, replies, n);
    RunStopsOnRaise(call, s, rows, replies, n + 1, |rows|);
    var prev := RunTo(call, s, rows, replies, n);
    var e := call(s, rows[n], replies[n]);
    assert (prev.sent + e.sent)[n..] == e.sent;
    assert (prev.logged + e.logged)[n..] == e.logged;
  }

  /** When every one of the first `n` rows' calls from state `s` returns
      normally, leaves `s` as it was, posts nothing and logs one line, those
      rows post nothing and log once per row, in row order. */
  lemma {:induction false} RunSilent<S>(call: (S, Row, Reply) -> Effect<S>, s: S,
                                       rows: seq<Row>, replies: seq<Reply>, n: nat)
    requires |replies| == |rows| && n <= |rows|
    requires forall i :: 0 <= i < n ==> Steady(call(s, rows[i], replies[i]), s, 0)
    ensures var t := RunTo(call, s, rows, replies, n);
            && t.state == s && t.completion == Normal && t.sent == [] && |t.logged| == n
            && (forall i :: 0 <= i < n ==> [t.logged[i]] == call(s, rows[i], replies[i]).logged)
    decreases n
  {
    if n > 0 {
      RunSilent(call, s, rows, replies, n - 1);
      var prev := RunTo(call, s, rows, replies, n - 1);
      var e := call(s, rows[n - 1], replies[n - 1]);
      assert Steady(e, s, 0);
      RunStep(call, s, rows, replies, n - 1);
      var log := prev.logged + e.logged;
      assert RunTo(call, s, rows, replies, n).logged == log;
      forall i | 0 <= i < n
        ensures [log[i]] == call(s, rows[i], replies[i]).logged
      {
        if i < n - 1 {
          assert log[i] == prev.logged[i];
        }
      }
    }
  }

  /** When every line any of the first `n` rows' calls can log satisfies `ok`,
      whatever state the call starts from, so does every line those rows log. */
  lemma {:induction false} RunLogsAll<S>(call: (S, Row, Reply) -> Effect<S>, s: S,
                                        rows: seq<Row>, replies: seq<Reply>, n: nat, ok: LogEvent -> bool)
    requires |replies| == |rows| && n <= |rows|
    requires forall t: S, i, j :: 0 <= i < n && 0 <= j < |call(t, rows[i], replies[i]).logged| ==>
               ok(call(t, rows[i], replies[i]).logged[j])
    ensures forall j :: 0 <= j < |RunTo(call, s, rows, replies, n).logged| ==>
              ok(RunTo(call, s, rows, replies, n).logged[j])
    decreases n
  {
    if n > 0 {
      RunLogsAll(call, s, rows, replies, n - 1, ok);
      var prev := RunTo(call, s, rows, replies, n - 1);
      if prev.completion.Normal? {
        var e := call(prev.state, rows[n - 1], replies[n - 1]);
        var log := prev.logged + e.logged;
        assert RunTo(call, s, rows, replies, n).logged == log;
        forall j | 0 <= j < |log|
          ensures ok(log[j])
        {
          if j < |prev.logged| {
            assert log[j] == prev.logged[j];
          } else {
            var k := j - |prev.logged|;
            assert 0 <= k < |call(prev.state, rows[n - 1], replies[n - 1]).logged|;
            assert ok(call(prev.state, rows[n - 1], replies[n - 1]).logged[k]);
            assert log[j] == e.logged[k];
          }
        }
      }
    }
  }

  /** Two kinds of call that, row by row and from any states, log the same
      lines, post as many requests and return the same way, make batches that
      do the same. */
  lemma {:induction false} RunAgrees<S>(f: (S, Row, Reply) -> Effect<S>, g: (S, Row, Reply) -> Effect<S>,
                                       s: S, t: S, rows: seq<Row>, replies: seq<Reply>, n: nat)
    requires |replies| == |rows| && n <= |rows|
    requires forall a: S, b: S, i :: 0 <= i < n ==>
               && f(a, rows[i], replies[i]).logged == g(b, rows[i], replies[i]).logged
               && f(a, rows[i], replies[i]).completion == g(b, rows[i], replies[i]).completion
               && |f(a, rows[i], replies[i]).sent| == |g(b, rows[i], replies[i]).sent|
    ensures var x := RunTo(f, s, rows, replies, n);
            var y := RunTo(g, t, rows, replies, n);
            x.logged == y.logged && x.completion == y.completion && |x.sent| == |y.sent|
    decreases n
  {
    if n > 0 {
      RunAgrees(f, g, s, t, rows, replies, n - 1);
      var x := RunTo(f, s, rows, replies, n - 1);
      var y := RunTo(g, t, rows, replies, n - 1);
      if x.completion.Normal? {
        var e := f(x.state, rows[n - 1], replies[n - 1]);
        var d := g(y.state, rows[n - 1], replies[n - 1]);
        assert e.logged == d.logged && e.completion == d.completion && |e.sent| == |d.sent|;
      }
    }
  }
}
