/** Timing of the keep-alive loop: how stale can `LastUsedAt` get while a session is live?
    All times are in nanoseconds. Writers put the time they took into the record some lag
    later, so a slow writer can overwrite a fresh value with an older one. */
module KeepAlive {
  import opened Domain
  import opened Entities
  import SqlStore

  /** The keep-alive period, 30 seconds. */
  const PERIOD: int := 30_000_000_000

  /** A value of `LastUsedAt` and when it became visible in the store. */
  datatype Write = Write(value: int, at: int)

  /** The writes in the order the store saw them. `beats[k]` is the position of the write the
      session made for its tick `k`; tick 0 is the update at the start of the session. */
  datatype Timeline = Timeline(writes: seq<Write>, beats: seq<nat>, start: int, end: int)

  /** The session's own updates are visible at most `lag` after their tick, and everyone
      else's at most `othersLag` after they looked at the clock. */
  ghost predicate Legal(tl: Timeline, lag: nat, othersLag: nat) {
    && (forall i, j :: 0 <= i < j < |tl.writes| ==> tl.writes[i].at <= tl.writes[j].at)
    && (forall k :: 0 <= k < |tl.beats| ==> tl.beats[k] < |tl.writes|)
    && (forall j, k :: 0 <= j < k < |tl.beats| ==> tl.beats[j] < tl.beats[k])
    && (forall k :: 0 <= k < |tl.beats| ==> OnTime(tl.writes[tl.beats[k]], tl.start + k * PERIOD, lag))
    && (forall i :: 0 <= i < |tl.writes| && i !in tl.beats ==> Recent(tl.writes[i], othersLag))
    && tl.start + |tl.beats| * PERIOD + lag > tl.end
  }

  predicate OnTime(w: Write, tick: int, lag: nat) { tick <= w.value <= w.at <= tick + lag }

  predicate Recent(w: Write, lag: nat) { w.value <= w.at <= w.value + lag }

  /** How many writes are visible at `t`. */
  function Visible(ws: seq<Write>, t: int): (n: nat)
    ensures n <= |ws|
    ensures n > 0 ==> ws[n - 1].at <= t
    ensures forall i :: n <= i < |ws| ==> ws[i].at > t
  {
    if ws == [] then 0
    else if ws[|ws| - 1].at <= t then |ws|
    else Visible(ws[..|ws| - 1], t)
  }

  /** Times at which the session runs and its first update has arrived. */
  predicate During(tl: Timeline, lag: nat, t: int) { tl.start + lag <= t <= tl.end }

  ghost function LastUsed(tl: Timeline, t: int): int
    requires Visible(tl.writes, t) > 0
  {
    tl.writes[Visible(tl.writes, t) - 1].value
  }

  /** The tick whose update is certainly visible at `t`. */
  lemma BeatVisible(tl: Timeline, lag: nat, othersLag: nat, t: int) returns (k: nat)
    requires Legal(tl, lag, othersLag) && During(tl, lag, t)
    ensures k < |tl.beats| && t < tl.start + k * PERIOD + PERIOD + lag
    ensures tl.beats[k] < Visible(tl.writes, t)
  {
    k := (t - tl.start - lag) / PERIOD;
    assert k * PERIOD <= t - tl.start - lag < k * PERIOD + PERIOD;
    assert k < |tl.beats|;
    assert OnTime(tl.writes[tl.beats[k]], tl.start + k * PERIOD, lag);
  }

  /** While a session is live, `LastUsedAt` is never older than the period and both lags. */
  lemma NeverStale(tl: Timeline, lag: nat, othersLag: nat, t: int)
    requires Legal(tl, lag, othersLag) && During(tl, lag, t)
    ensures Visible(tl.writes, t) > 0
    ensures t - LastUsed(tl, t) < PERIOD + lag + othersLag
  {
    var k := BeatVisible(tl, lag, othersLag, t);
    var n := Visible(tl.writes, t) - 1;
    ValueSinceBeat(tl, lag, othersLag, k, n);
  }

  /** From the session's write for tick `k` on, no write puts in a much older value. */
  lemma ValueSinceBeat(tl: Timeline, lag: nat, othersLag: nat, k: nat, n: nat)
    requires Legal(tl, lag, othersLag) && k < |tl.beats| && tl.beats[k] <= n < |tl.writes|
    ensures tl.writes[n].value >= tl.start + k * PERIOD - othersLag
  {
    if n in tl.beats {
      var j :| 0 <= j < |tl.beats| && tl.beats[j] == n;
      assert OnTime(tl.writes[tl.beats[j]], tl.start + j * PERIOD, lag);
      assert j >= k;
    } else {
      assert OnTime(tl.writes[tl.beats[k]], tl.start + k * PERIOD, lag);
      assert tl.writes[tl.beats[k]].at <= tl.writes[n].at;
      assert Recent(tl.writes[n], othersLag);
    }
  }

  // ---- The bound is exact ------------------------------------------------------------------

  /** A session that beats on the dot, a slow writer right behind its beat, and a next beat
      that takes its whole lag. */
  function Worst(lag: nat, othersLag: nat): Timeline {
    Timeline([Write(0, 0), Write(0 - othersLag as int, 0), Write(PERIOD, PERIOD + lag)], [0, 2], 0, PERIOD + lag)
  }

  lemma WorstIsLegal(lag: nat, othersLag: nat)
    ensures Legal(Worst(lag, othersLag), lag, othersLag)
    ensures During(Worst(lag, othersLag), lag, PERIOD + lag - 1)
    ensures Visible(Worst(lag, othersLag).writes, PERIOD + lag - 1) == 2
    ensures PERIOD + lag - 1 - LastUsed(Worst(lag, othersLag), PERIOD + lag - 1) == PERIOD + lag + othersLag - 1
  {
    var tl := Worst(lag, othersLag);
    var n := Visible(tl.writes, PERIOD + lag - 1);
    assert tl.writes[1].at <= PERIOD + lag - 1 < tl.writes[2].at;
    assert OnTime(tl.writes[tl.beats[0]], tl.start + 0 * PERIOD, lag);
    assert OnTime(tl.writes[tl.beats[1]], tl.start + 1 * PERIOD, lag);
    assert Recent(tl.writes[1], othersLag);
  }

  /** No live session is ever idle-expired exactly if the idle timeout covers the period, the
      session's own lag and the lag of the other writers. */
  lemma IdleTimeoutExact(lag: nat, othersLag: nat, idleTimeout: int)
    ensures (forall tl, t :: Legal(tl, lag, othersLag) && During(tl, lag, t) ==>
               Visible(tl.writes, t) > 0 && t - LastUsed(tl, t) <= idleTimeout)
            <==> idleTimeout >= 30_000_000_000 + lag + othersLag - 1
  {
    if idleTimeout >= PERIOD + lag + othersLag - 1 {
      forall tl, t | Legal(tl, lag, othersLag) && During(tl, lag, t)
        ensures Visible(tl.writes, t) > 0 && t - LastUsed(tl, t) <= idleTimeout
      {
        NeverStale(tl, lag, othersLag, t);
      }
    } else {
      WorstIsLegal(lag, othersLag);
    }
  }

  /** The period and the session's own lag alone do not suffice when others write too. */
  lemma OthersMatter(lag: nat, othersLag: nat)
    requires othersLag > 1
    ensures exists tl, t :: Legal(tl, lag, othersLag) && During(tl, lag, t) && Visible(tl.writes, t) > 0
              && t - LastUsed(tl, t) > PERIOD + lag
  {
    WorstIsLegal(lag, othersLag);
  }

  /** With a covering idle timeout only `ExpiresAt` can end a live session, in both stores. */
  lemma OnlyExpiryEnds(tl: Timeline, lag: nat, othersLag: nat, t: int, e: Env, idleTimeout: int)
    requires Legal(tl, lag, othersLag) && During(tl, lag, t) && idleTimeout >= PERIOD + lag + othersLag
    requires Visible(tl.writes, t) > 0 && Nanos(e.lastUsedAt) == LastUsed(tl, t)
    requires SqlStore.ValidTime(e.lastUsedAt) && SqlStore.ValidTime(e.expiresAt)
    ensures Expired(e, t, idleTimeout) ==> t > Nanos(e.expiresAt)
    ensures SqlStore.SqlExpired(ToRow(e), t, idleTimeout) ==> t > Nanos(e.expiresAt)
  {
    NeverStale(tl, lag, othersLag, t);
    SqlStore.ExpirySandwich(e, t, idleTimeout);
  }
}
