// The token bucket that limits how fast one session is sent events, over exact
// arithmetic.  The clock is an argument of every call.
module Flow {
  import opened Types

  datatype Bucket = Bucket(tokens: real, seen: real)

  datatype Limits = Limits(rate: real, burst: real, last: map<SessionID, Bucket>)

  // A policy that does not validate is replaced by the default one.
  function FromPolicy(rate: real, burst: int): Limits {
    if rate <= 0.0 || burst <= 0 then Limits(200.0, 400.0, map[]) else Limits(rate, burst as real, map[])
  }

  // The tokens earned in a time at a rate.
  function Earned(elapsed: real, rate: real): real {
    elapsed * rate
  }

  // The session's bucket brought up to the present; a first call finds it full.
  function Refilled(l: Limits, sid: SessionID, now: real): Bucket {
    if sid !in l.last then Bucket(l.burst, now)
    else
      var tokens := l.last[sid].tokens + Earned(now - l.last[sid].seen, l.rate);
      Bucket(if tokens > l.burst then l.burst else tokens, now)
  }

  predicate Allows(l: Limits, sid: SessionID, now: real) {
    Refilled(l, sid, now).tokens >= 1.0
  }

  function Spend(l: Limits, sid: SessionID, now: real): Limits {
    var b := Refilled(l, sid, now);
    l.(last := l.last[sid := if b.tokens < 1.0 then b else b.(tokens := b.tokens - 1.0)])
  }

  class Limiter {
    const rate: real
    const burst: real
    var last: map<SessionID, Bucket>

    ghost function State(): Limits
      reads this
    {
      Limits(rate, burst, last)
    }

    constructor (rate: real, burst: int)
      ensures State() == FromPolicy(rate, burst)
    {
      if rate <= 0.0 || burst <= 0 {
        this.rate, this.burst := 200.0, 400.0;
      } else {
        this.rate, this.burst := rate, burst as real;
      }
      last := map[];
    }

    method Allow(sid: SessionID, now: real) returns (ok: bool)
      modifies this
      ensures ok == Allows(old(State()), sid, now)
      ensures State() == Spend(old(State()), sid, now)
    {
      var b: Bucket;
      if sid !in last {
        b := Bucket(burst, now);
      } else {
        b := last[sid];
        var elapsed := now - b.seen;
        b := b.(tokens := b.tokens + Earned(elapsed, rate));
        if b.tokens > burst {
          b := b.(tokens := burst);
        }
        b := b.(seen := now);
      }
      if b.tokens < 1.0 {
        last := last[sid := b];
        return false;
      }
      b := b.(tokens := b.tokens - 1.0);
      last := last[sid := b];
      return true;
    }
  }

  // ---- Traces of calls for any mixture of sessions.

  datatype Call = Call(sid: SessionID, now: real)

  function After(l: Limits, calls: seq<Call>): Limits
    decreases |calls|
  {
    if calls == [] then l else After(Spend(l, calls[0].sid, calls[0].now), calls[1..])
  }

  function Decisions(l: Limits, calls: seq<Call>): (d: seq<bool>)
    ensures |d| == |calls|
    decreases |calls|
  {
    if calls == [] then []
    else [Allows(l, calls[0].sid, calls[0].now)] + Decisions(Spend(l, calls[0].sid, calls[0].now), calls[1..])
  }

  // How many of the session's calls the trace allows.
  function AllowedCount(l: Limits, calls: seq<Call>, sid: SessionID): nat
    decreases |calls|
  {
    if calls == [] then 0
    else
      var rest := AllowedCount(Spend(l, calls[0].sid, calls[0].now), calls[1..], sid);
      if calls[0].sid == sid && Allows(l, sid, calls[0].now) then 1 + rest else rest
  }

  // Time does not run backwards in the trace, which starts no earlier than from.
  ghost predicate Ordered(calls: seq<Call>, from: real) {
    && (forall i | 0 <= i < |calls| :: from <= calls[i].now)
    && (forall i, j | 0 <= i < j < |calls| :: calls[i].now <= calls[j].now)
  }

  lemma OrderedTail(calls: seq<Call>, from: real)
    requires calls != [] && Ordered(calls, from)
    ensures Ordered(calls[1..], calls[0].now)
  {
  }

  // Every bucket holds between no token and the burst, and was seen by then.
  ghost predicate Sound(l: Limits, latest: real) {
    && l.rate > 0.0
    && l.burst >= 1.0
    && forall sid | sid in l.last :: 0.0 <= l.last[sid].tokens <= l.burst && l.last[sid].seen <= latest
  }

  lemma RefillBounds(l: Limits, sid: SessionID, from: real, now: real)
    requires Sound(l, from) && from <= now
    ensures 0.0 <= Refilled(l, sid, now).tokens <= l.burst
  {
    if sid in l.last {
      assert Earned(now - l.last[sid].seen, l.rate) >= 0.0;
    }
  }

  lemma SpendIsSound(l: Limits, sid: SessionID, from: real, now: real)
    requires Sound(l, from) && from <= now
    ensures Sound(Spend(l, sid, now), now)
  {
    RefillBounds(l, sid, from, now);
  }

  lemma {:induction false} AfterIsSound(l: Limits, calls: seq<Call>, from: real)
    requires Sound(l, from) && Ordered(calls, from)
    ensures Sound(After(l, calls), if calls == [] then from else calls[|calls| - 1].now)
    decreases |calls|
  {
    if calls != [] {
      SpendIsSound(l, calls[0].sid, from, calls[0].now);
      AfterIsSound(Spend(l, calls[0].sid, calls[0].now), calls[1..], calls[0].now);
    }
  }

  lemma Split(a: real, b: real, c: real, rate: real)
    ensures Earned(c - a, rate) == Earned(c - b, rate) + Earned(b - a, rate)
  {
  }

  lemma EarnedIs(elapsed: real, rate: real)
    ensures Earned(elapsed, rate) == elapsed * rate
  {
  }

  lemma NothingEarned(a: real, rate: real)
    ensures Earned(a - a, rate) == 0.0
  {
  }

  // Waiting from one time to a later one earns at most the rate.
  lemma RefillRate(l: Limits, sid: SessionID, from: real, a: real, b: real)
    requires Sound(l, from) && from <= a <= b
    ensures Refilled(l, sid, b).tokens <= Refilled(l, sid, a).tokens + Earned(b - a, l.rate)
  {
    assert Earned(b - a, l.rate) >= 0.0;
    if sid in l.last {
      Split(l.last[sid].seen, a, b, l.rate);
    }
  }

  lemma SpentTokens(l: Limits, sid: SessionID, a: real, b: real)
    requires l.rate > 0.0 && a <= b
    ensures Refilled(Spend(l, sid, a), sid, b).tokens <=
            Refilled(l, sid, a).tokens - (if Allows(l, sid, a) then 1.0 else 0.0) + Earned(b - a, l.rate)
  {
  }

  lemma {:induction false} CountBound(l: Limits, calls: seq<Call>, sid: SessionID, from: real)
    requires Sound(l, from) && Ordered(calls, from) && calls != []
    ensures AllowedCount(l, calls, sid) as real <=
            Refilled(l, sid, calls[0].now).tokens + Earned(calls[|calls| - 1].now - calls[0].now, l.rate)
    decreases |calls|
  {
    hide Earned;
    var c := calls[0];
    var l' := Spend(l, c.sid, c.now);
    var rest := AllowedCount(l', calls[1..], sid);
    SpendIsSound(l, c.sid, from, c.now);
    RefillBounds(l, sid, from, c.now);
    OrderedTail(calls, from);
    if |calls| == 1 {
      NothingEarned(c.now, l.rate);
    } else {
      CountBound(l', calls[1..], sid, c.now);
      CountStep(l, c, sid, from, calls[1].now, calls[|calls| - 1].now, rest);
    }
  }

  lemma CountStep(l: Limits, c: Call, sid: SessionID, from: real, next: real, end: real, rest: nat)
    requires Sound(l, from) && from <= c.now <= next
    requires rest as real <= Refilled(Spend(l, c.sid, c.now), sid, next).tokens + Earned(end - next, l.rate)
    ensures (if c.sid == sid && Allows(l, sid, c.now) then 1 + rest else rest) as real <=
            Refilled(l, sid, c.now).tokens + Earned(end - c.now, l.rate)
  {
    hide Earned;
    Split(c.now, next, end, l.rate);
    if c.sid == sid {
      SpentTokens(l, sid, c.now, next);
    } else {
      RefillRate(l, sid, from, c.now, next);
      assert Refilled(Spend(l, c.sid, c.now), sid, next) == Refilled(l, sid, next);
    }
  }

  lemma WindowEarns(rate: real, burst: int, calls: seq<Call>, i: nat, j: nat, sid: SessionID, from: real)
    requires i < j <= |calls| && Ordered(calls, from)
    ensures var l := FromPolicy(rate, burst);
            AllowedCount(After(l, calls[..i]), calls[i..j], sid) as real <=
            l.burst + Earned(calls[j - 1].now - calls[i].now, l.rate)
  {
    hide Earned;
    var l := FromPolicy(rate, burst);
    AfterIsSound(l, calls[..i], from);
    var latest := if i == 0 then from else calls[i - 1].now;
    var l' := After(l, calls[..i]);
    AfterKeepsPolicy(l, calls[..i]);
    CountBound(l', calls[i..j], sid, latest);
    RefillBounds(l', sid, latest, calls[i].now);
    assert calls[i..j][0] == calls[i] && calls[i..j][j - i - 1] == calls[j - 1];
  }

  // In any window of any trace, a session is allowed at most the burst plus the
  // rate times the length of the window; 400 and 200 where the policy is not valid.
  lemma WindowBound(rate: real, burst: int, calls: seq<Call>, i: nat, j: nat, sid: SessionID, from: real)
    requires i < j <= |calls| && Ordered(calls, from)
    ensures var valid := rate > 0.0 && burst > 0;
            var most := if valid then burst as real else 400.0;
            var perSecond := if valid then rate else 200.0;
            AllowedCount(After(FromPolicy(rate, burst), calls[..i]), calls[i..j], sid) as real <=
            most + (calls[j - 1].now - calls[i].now) * perSecond
  {
    hide Earned, After, AllowedCount, Ordered;
    WindowEarns(rate, burst, calls, i, j, sid, from);
    EarnedIs(calls[j - 1].now - calls[i].now, FromPolicy(rate, burst).rate);
  }

  lemma {:induction false} AfterKeepsPolicy(l: Limits, calls: seq<Call>)
    ensures After(l, calls).rate == l.rate && After(l, calls).burst == l.burst
    decreases |calls|
  {
    if calls != [] {
      AfterKeepsPolicy(Spend(l, calls[0].sid, calls[0].now), calls[1..]);
    }
  }

  // Tokens stay between zero and the burst in every trace.
  lemma TokensStayInRange(rate: real, burst: int, calls: seq<Call>, from: real, sid: SessionID)
    requires Ordered(calls, from) && sid in After(FromPolicy(rate, burst), calls).last
    ensures var l := FromPolicy(rate, burst);
            0.0 <= After(l, calls).last[sid].tokens <= l.burst
  {
    AfterIsSound(FromPolicy(rate, burst), calls, from);
    AfterKeepsPolicy(FromPolicy(rate, burst), calls);
  }

  // The time from one call to another is worth so many tokens.
  ghost predicate Worth(from: Call, to: Call, rate: real, tokens: real) {
    (to.now - from.now) * rate >= tokens
  }

  lemma WorthEarned(from: Call, to: Call, rate: real, tokens: real)
    requires Worth(from, to, rate, tokens)
    ensures Earned(to.now - from.now, rate) >= tokens
  {
  }

  // The session's calls are at least 1/rate apart from each other and from the
  // last one its bucket saw.
  ghost predicate Spaced(l: Limits, calls: seq<Call>, sid: SessionID) {
    && (forall i, j | 0 <= i < j < |calls| && calls[i].sid == sid && calls[j].sid == sid ::
          Earned(calls[j].now - calls[i].now, l.rate) >= 1.0)
    && (sid in l.last ==> forall i | 0 <= i < |calls| && calls[i].sid == sid ::
          Earned(calls[i].now - l.last[sid].seen, l.rate) >= 1.0)
  }

  lemma {:induction false} SpacedPass(l: Limits, calls: seq<Call>, sid: SessionID, from: real)
    requires Sound(l, from) && Ordered(calls, from) && Spaced(l, calls, sid)
    ensures forall i | 0 <= i < |calls| && calls[i].sid == sid :: Decisions(l, calls)[i]
    decreases |calls|
  {
    hide Earned;
    if calls != [] {
      var c := calls[0];
      var l' := Spend(l, c.sid, c.now);
      SpendIsSound(l, c.sid, from, c.now);
      assert Spaced(l', calls[1..], sid) by {
        forall i | 0 <= i < |calls[1..]| && calls[1..][i].sid == sid && sid in l'.last
          ensures Earned(calls[1..][i].now - l'.last[sid].seen, l'.rate) >= 1.0
        {
          assert calls[1..][i] == calls[i + 1];
        }
      }
      SpacedPass(l', calls[1..], sid, c.now);
      forall i | 0 <= i < |calls| && calls[i].sid == sid
        ensures Decisions(l, calls)[i]
      {
        if i > 0 {
          assert calls[i] == calls[1..][i - 1];
        }
      }
    }
  }

  // A session that calls at most every 1/rate is never refused, whatever others do.
  lemma SpacedCallsPass(rate: real, burst: int, calls: seq<Call>, sid: SessionID, from: real)
    requires Ordered(calls, from)
    requires forall i, j | 0 <= i < j < |calls| && calls[i].sid == sid && calls[j].sid == sid ::
               Worth(calls[i], calls[j], if rate > 0.0 && burst > 0 then rate else 200.0, 1.0)
    ensures forall i | 0 <= i < |calls| && calls[i].sid == sid :: Decisions(FromPolicy(rate, burst), calls)[i]
  {
    hide Earned, Worth;
    var l := FromPolicy(rate, burst);
    forall i, j | 0 <= i < j < |calls| && calls[i].sid == sid && calls[j].sid == sid
      ensures Earned(calls[j].now - calls[i].now, l.rate) >= 1.0
    {
      WorthEarned(calls[i], calls[j], l.rate, 1.0);
    }
    SpacedPass(l, calls, sid, from);
  }

  // ---- The burst.

  // From a time on, the session can count on so many tokens.
  ghost predicate Assured(l: Limits, sid: SessionID, from: real, tokens: real) {
    && l.rate > 0.0
    && tokens <= l.burst
    && (sid in l.last ==> l.last[sid].seen <= from)
    && Refilled(l, sid, from).tokens >= tokens
  }

  lemma WaitingLosesNothing(l: Limits, sid: SessionID, from: real, now: real, tokens: real)
    requires Assured(l, sid, from, tokens) && from <= now
    ensures Assured(l, sid, now, tokens)
  {
    if sid in l.last {
      Split(l.last[sid].seen, from, now, l.rate);
      assert Earned(now - from, l.rate) >= 0.0;
    }
  }

  // A call of its own takes one of the tokens, and no other session's call any.
  lemma CallTakesItsOwn(l: Limits, sid: SessionID, from: real, c: Call, tokens: real)
    requires Assured(l, sid, from, tokens) && from <= c.now
    ensures c.sid != sid ==> Assured(Spend(l, c.sid, c.now), sid, c.now, tokens)
    ensures c.sid == sid && tokens >= 1.0 ==>
              Allows(l, sid, c.now) && Assured(Spend(l, c.sid, c.now), sid, c.now, tokens - 1.0)
  {
    WaitingLosesNothing(l, sid, from, c.now, tokens);
    NothingEarned(c.now, l.rate);
  }

  function CallsOf(calls: seq<Call>, sid: SessionID): nat
    decreases |calls|
  {
    if calls == [] then 0 else (if calls[0].sid == sid then 1 else 0) + CallsOf(calls[1..], sid)
  }

  // Of a session's calls as many are allowed as it has tokens for, whatever other
  // sessions do in between.
  lemma {:induction false} AssuredCallsPass(l: Limits, calls: seq<Call>, sid: SessionID, from: real, tokens: real,
                                            i: nat)
    requires Assured(l, sid, from, tokens) && Ordered(calls, from)
    requires i < |calls| && calls[i].sid == sid && CallsOf(calls[..i], sid) as real + 1.0 <= tokens
    ensures Decisions(l, calls)[i]
    decreases i
  {
    hide Assured, Allows, Spend, Earned;
    var c := calls[0];
    CallTakesItsOwn(l, sid, from, c, tokens);
    if i > 0 {
      assert calls[..i][1..] == calls[1..][..i - 1] && calls[..i][0] == c;
      OrderedTail(calls, from);
      AssuredCallsPass(Spend(l, c.sid, c.now), calls[1..], sid, c.now, if c.sid == sid then tokens - 1.0 else tokens, i - 1);
    }
  }

  lemma {:induction false} DecisionsAfter(l: Limits, calls: seq<Call>, k: nat, i: nat)
    requires k <= i < |calls|
    ensures Decisions(l, calls)[i] == Decisions(After(l, calls[..k]), calls[k..])[i - k]
    decreases k
  {
    hide Allows, Spend;
    if k == 0 {
      assert calls[k..] == calls;
    } else {
      assert calls[..k][0] == calls[0] && calls[..k][1..] == calls[1..][..k - 1] && calls[1..][k - 1..] == calls[k..];
      DecisionsAfter(Spend(l, calls[0].sid, calls[0].now), calls[1..], k - 1, i - 1);
    }
  }

  // A bucket was seen at a call of its session.
  lemma {:induction false} SeenAtACall(l: Limits, calls: seq<Call>, sid: SessionID)
    requires sid in After(l, calls).last
    ensures || (sid in l.last && After(l, calls).last[sid] == l.last[sid])
            || exists j :: 0 <= j < |calls| && calls[j].sid == sid && After(l, calls).last[sid].seen == calls[j].now
    decreases |calls|
  {
    if calls != [] {
      var l1 := Spend(l, calls[0].sid, calls[0].now);
      SeenAtACall(l1, calls[1..], sid);
      if !(sid in l1.last && After(l, calls).last[sid] == l1.last[sid]) {
        var j :| 0 <= j < |calls[1..]| && calls[1..][j].sid == sid && After(l, calls).last[sid].seen == calls[1..][j].now;
        assert calls[j + 1] == calls[1..][j];
      }
    }
  }

  lemma IdleFills(l: Limits, sid: SessionID, latest: real, now: real)
    requires Sound(l, latest) && latest <= now
    requires sid in l.last ==> Earned(now - l.last[sid].seen, l.rate) >= l.burst
    ensures Assured(l, sid, now, l.burst)
  {
  }

  lemma IdleTrace(rate: real, burst: int, before: seq<Call>, sid: SessionID, from: real, now: real)
    requires Ordered(before, from) && from <= now && forall j | 0 <= j < |before| :: before[j].now <= now
    requires var l := FromPolicy(rate, burst);
             forall j | 0 <= j < |before| && before[j].sid == sid :: Earned(now - before[j].now, l.rate) >= l.burst
    ensures var l' := After(FromPolicy(rate, burst), before);
            Assured(l', sid, now, l'.burst) && l'.burst == FromPolicy(rate, burst).burst
  {
    hide Assured, Earned, Spend;
    var l := FromPolicy(rate, burst);
    var l' := After(l, before);
    AfterIsSound(l, before, from);
    AfterKeepsPolicy(l, before);
    if sid in l'.last {
      SeenAtACall(l, before, sid);
    }
    IdleFills(l', sid, if before == [] then from else before[|before| - 1].now, now);
  }

  lemma BurstEarns(rate: real, burst: int, calls: seq<Call>, k: nat, i: nat, sid: SessionID, from: real)
    requires Ordered(calls, from) && k <= i < |calls| && calls[i].sid == sid
    requires var l := FromPolicy(rate, burst);
             && CallsOf(calls[k..i], sid) as real + 1.0 <= l.burst
             && (forall j | 0 <= j < k && calls[j].sid == sid :: Earned(calls[k].now - calls[j].now, l.rate) >= l.burst)
    ensures Decisions(FromPolicy(rate, burst), calls)[i]
  {
    hide Assured, Earned, After, CallsOf;
    var l := FromPolicy(rate, burst);
    var rest := calls[k..];
    IdleTrace(rate, burst, calls[..k], sid, from, calls[k].now);
    var l' := After(l, calls[..k]);
    assert rest[..i - k] == calls[k..i] && rest[i - k] == calls[i];
    AssuredCallsPass(l', rest, sid, calls[k].now, l'.burst, i - k);
    DecisionsAfter(l, calls, k, i);
  }

  // In any trace, a session that has not called yet, or not for as long as it
  // takes to earn the burst, has its next calls up to the burst all allowed.
  lemma BurstPasses(rate: real, burst: int, calls: seq<Call>, k: nat, i: nat, sid: SessionID, from: real)
    requires Ordered(calls, from) && k <= i < |calls| && calls[i].sid == sid
    requires var valid := rate > 0.0 && burst > 0;
             var most := if valid then burst else 400;
             && CallsOf(calls[k..i], sid) < most
             && (forall j | 0 <= j < k && calls[j].sid == sid ::
                   Worth(calls[j], calls[k], if valid then rate else 200.0, most as real))
    ensures Decisions(FromPolicy(rate, burst), calls)[i]
  {
    hide Earned, CallsOf, Decisions, Ordered, Worth;
    var l := FromPolicy(rate, burst);
    forall j | 0 <= j < k && calls[j].sid == sid
      ensures Earned(calls[k].now - calls[j].now, l.rate) >= l.burst
    {
      WorthEarned(calls[j], calls[k], l.rate, l.burst);
    }
    BurstEarns(rate, burst, calls, k, i, sid, from);
  }

  // Two limiters that differ only in that one has taken note, at time t, of a
  // refused call of the session.
  ghost predicate SawRefusal(l: Limits, l': Limits, sid: SessionID, t: real) {
    && sid in l.last && l'.last.Keys == l.last.Keys
    && l'.rate == l.rate && l'.burst == l.burst
    && (forall u | u in l.last && u != sid :: l'.last[u] == l.last[u])
    && l'.last[sid] == Bucket(l.last[sid].tokens + Earned(t - l.last[sid].seen, l.rate), t)
    && l'.last[sid].tokens < 1.0
  }

  // A refused call changes no later decision, of any session.
  lemma RefusalIsInvisible(l: Limits, sid: SessionID, t: real, rest: seq<Call>)
    requires l.rate > 0.0 && l.burst >= 1.0 && !Allows(l, sid, t) && Ordered(rest, t)
    ensures Decisions(Spend(l, sid, t), rest) == Decisions(l, rest)
  {
    RefusalStaysInvisible(l, Spend(l, sid, t), sid, t, rest);
  }

  lemma {:induction false} RefusalStaysInvisible(l: Limits, l': Limits, sid: SessionID, t: real, rest: seq<Call>)
    requires l.rate > 0.0 && l.burst >= 1.0 && SawRefusal(l, l', sid, t) && Ordered(rest, t)
    ensures Decisions(l', rest) == Decisions(l, rest)
    decreases |rest|
  {
    if rest != [] {
      var c := rest[0];
      if c.sid == sid {
        var seen := l.last[sid].seen;
        Split(seen, t, c.now, l.rate);
        assert Refilled(l', sid, c.now) == Refilled(l, sid, c.now);
        assert Spend(l', sid, c.now) == Spend(l, sid, c.now) by {
          assert Spend(l', sid, c.now).last == Spend(l, sid, c.now).last;
        }
      } else {
        assert Refilled(l', c.sid, c.now) == Refilled(l, c.sid, c.now);
        RefusalStaysInvisible(Spend(l, c.sid, c.now), Spend(l', c.sid, c.now), sid, t, rest[1..]);
      }
    }
  }
}
