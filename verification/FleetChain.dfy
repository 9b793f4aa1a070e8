/** The hash chain of the event log and its replay. */
module FleetChain {
  import opened Basics
  import opened FleetTypes
  import opened FleetModel

  /** Event i numbers, links and hashes as replay checks it. */
  predicate Linked(sha: Sha, events: seq<Event>, i: nat)
    requires i < |events|
  {
    && events[i].sequence == i + 1
    && events[i].previousHash == LastHash(events[..i])
    && events[i].eventHash == sha(PreimageOf(events[i]))
  }

  ghost predicate Chained(sha: Sha, events: seq<Event>) {
    forall i :: 0 <= i < |events| ==> Linked(sha, events, i)
  }

  lemma ChainedSnoc(sha: Sha, events: seq<Event>, e: Event)
    ensures Chained(sha, events + [e]) <==> Chained(sha, events) && Linked(sha, events + [e], |events|)
  {
    var longer := events + [e];
    forall i | 0 <= i < |events|
      ensures Linked(sha, longer, i) == Linked(sha, events, i)
    {
      assert longer[..i] == events[..i];
    }
  }

  lemma {:induction false} AppendAllKeepsTheChain(sha: Sha, events: seq<Event>, entries: seq<Entry>, now: int)
    requires Chained(sha, events)
    ensures events <= AppendAll(sha, events, entries, now)
    ensures Chained(sha, AppendAll(sha, events, entries, now))
  {
    if entries != [] {
      AppendAllKeepsTheChain(sha, events, entries[..|entries| - 1], now);
      var front := AppendAll(sha, events, entries[..|entries| - 1], now);
      var e := NextEvent(sha, front, entries[|entries| - 1], now);
      assert (front + [e])[..|front|] == front;
      ChainedSnoc(sha, front, e);
    }
  }

  /** What is appended is one event per entry, in order, each with the entry's tenant, device and kind,
      the time of the call, and a number that counts the log. */
  lemma {:induction false} AppendedAsTold(sha: Sha, events: seq<Event>, entries: seq<Entry>, now: int, i: nat)
    ensures var log := AppendAll(sha, events, entries, now);
            && |log| == |events| + |entries| && events <= log
            && (i < |entries| ==>
                  var e := log[|events| + i];
                  && e.tenantId == entries[i].tenantId && e.deviceId == entries[i].deviceId && e.kind == entries[i].kind
                  && e.occurredAt == now && e.sequence == |events| + i + 1 && e.eventId == |events| + i + 1)
  {
    if entries != [] {
      AppendedAsTold(sha, events, entries[..|entries| - 1], now, i);
    }
  }

  /** Every run only appends to the log and keeps it well chained. */
  lemma {:induction false} RunsKeepTheChain(sha: Sha, cfg: Config, s: Fleet, calls: seq<Call>)
    requires Chained(sha, s.events)
    ensures s.events <= Run(sha, cfg, s, calls).events
    ensures Chained(sha, Run(sha, cfg, s, calls).events)
  {
    if calls != [] {
      var last := calls[|calls| - 1];
      var before := Run(sha, cfg, s, calls[..|calls| - 1]);
      RunsKeepTheChain(sha, cfg, s, calls[..|calls| - 1]);
      AppendAllKeepsTheChain(sha, before.events, EffectOf(cfg, before.tables, last.op, last.now).entries, last.now);
    }
  }

  function OfTenant(events: seq<Event>, tenantId: string): seq<Event> {
    if events == [] then []
    else
      var front := OfTenant(events[..|events| - 1], tenantId);
      if events[|events| - 1].tenantId == tenantId then front + [events[|events| - 1]] else front
  }

  function HashesOf(events: seq<Event>): seq<string> {
    seq(|events|, i requires 0 <= i < |events| => events[i].eventHash)
  }

  function Summary(sha: Sha, events: seq<Event>): string {
    sha(SummaryPreimage(HashesOf(events)))
  }

  datatype ReplayResult = ReplayResult(valid: bool, events: seq<Event>, summary: string)

  /** Replay walks the log until the first event that does not link.  It is valid exactly for
      well-chained logs, and returns the tenant's part of the well-chained prefix. */
  method Replay(sha: Sha, log: seq<Event>, tenantId: string) returns (r: ReplayResult, ghost good: nat)
    ensures r.valid <==> Chained(sha, log)
    ensures good <= |log| && Chained(sha, log[..good])
    ensures good < |log| ==> !Linked(sha, log, good)
    ensures r.events == OfTenant(log[..good], tenantId)
    ensures r.summary == Summary(sha, r.events)
  {
    var valid := true;
    var kept: seq<Event> := [];
    var previous := "";
    var expected := 1;
    var i := 0;
    while i < |log|
      invariant 0 <= i <= |log|
      invariant valid ==> expected == i + 1 && previous == LastHash(log[..i])
      invariant Chained(sha, log[..i])
      invariant !valid ==> i < |log| && !Linked(sha, log, i)
      invariant kept == OfTenant(log[..i], tenantId)
      decreases |log| - i, valid
    {
      if !valid {
        break;
      }
      var e := log[i];
      if e.sequence != expected || e.previousHash != previous || e.eventHash != sha(PreimageOf(e)) {
        valid := false;
      } else {
        previous := e.eventHash;
        expected := expected + 1;
        if e.tenantId == tenantId {
          kept := kept + [e];
        }
        assert log[..i + 1] == log[..i] + [e];
        assert log[..i + 1][..i] == log[..i];
        ChainedSnoc(sha, log[..i], e);
        i := i + 1;
      }
    }
    good := i;
    assert log[..|log|] == log;
    if i < |log| {
      LinkedInPrefix(sha, log, i);
    }
    r := ReplayResult(valid, kept, Summary(sha, kept));
  }

  lemma LinkedInPrefix(sha: Sha, log: seq<Event>, i: nat)
    requires i < |log|
    ensures Chained(sha, log) ==> Linked(sha, log, i)
  {
  }

  /** In every reachable state replay is valid for every tenant and returns exactly that
      tenant's events. */
  method ReplayAfterRun(sha: Sha, cfg: Config, calls: seq<Call>, tenantId: string) returns (r: ReplayResult)
    ensures r.valid && r.events == OfTenant(Run(sha, cfg, EmptyFleet, calls).events, tenantId)
  {
    var log := Run(sha, cfg, EmptyFleet, calls).events;
    ghost var good;
    r, good := Replay(sha, log, tenantId);
    RunsKeepTheChain(sha, cfg, EmptyFleet, calls);
    assert log[..|log|] == log;
  }

  ghost predicate CollisionFree(sha: Sha) {
    forall p, q :: sha(p) == sha(q) ==> p == q
  }

  /** With a collision-free hash, two well-chained logs that end in the same hash are equal. */
  lemma {:induction false} LastHashDeterminesLog(sha: Sha, a: seq<Event>, b: seq<Event>)
    requires CollisionFree(sha)
    requires a != [] && b != []
    requires Chained(sha, a) && Chained(sha, b)
    requires LastHash(a) == LastHash(b)
    ensures a == b
  {
    var n := |a| - 1;
    assert Linked(sha, a, n) && Linked(sha, b, |b| - 1);
    assert PreimageOf(a[n]) == PreimageOf(b[|b| - 1]);
    assert |a| == |b| && a[n] == b[n];
    assert a == a[..n] + [a[n]] && b == b[..n] + [b[n]];
    if n > 0 {
      ChainedSnoc(sha, a[..n], a[n]);
      ChainedSnoc(sha, b[..n], b[n]);
      LastHashDeterminesLog(sha, a[..n], b[..n]);
    }
  }

  lemma {:induction false} TenantEventsHashed(sha: Sha, log: seq<Event>, tenantId: string)
    requires Chained(sha, log)
    ensures forall e :: e in OfTenant(log, tenantId) ==> e.eventHash == sha(PreimageOf(e))
  {
    if log != [] {
      var n := |log| - 1;
      assert log == log[..n] + [log[n]];
      ChainedSnoc(sha, log[..n], log[n]);
      TenantEventsHashed(sha, log[..n], tenantId);
    }
  }

  /** Two valid replays with the same summary returned the same events. */
  lemma SummaryDeterminesStream(sha: Sha, a: seq<Event>, b: seq<Event>, t: string, u: string)
    requires CollisionFree(sha) && Chained(sha, a) && Chained(sha, b)
    requires Summary(sha, OfTenant(a, t)) == Summary(sha, OfTenant(b, u))
    ensures OfTenant(a, t) == OfTenant(b, u)
  {
    var x, y := OfTenant(a, t), OfTenant(b, u);
    TenantEventsHashed(sha, a, t);
    TenantEventsHashed(sha, b, u);
    assert HashesOf(x) == HashesOf(y);
    assert |x| == |HashesOf(x)| == |y|;
    forall i | 0 <= i < |x|
      ensures x[i] == y[i]
    {
      assert HashesOf(x)[i] == x[i].eventHash && HashesOf(y)[i] == y[i].eventHash;
      assert PreimageOf(x[i]) == PreimageOf(y[i]);
    }
  }
}
