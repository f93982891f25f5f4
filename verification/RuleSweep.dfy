/** Race arbitration: what one sweep over the armed rules decides (dns/router.go, `sweepArmedDNSRules`). */
module RuleSweep {
  import opened RuleEngine

  /** The armed rules that still wait for a response, in order. */
  function StillWaiting(armed: seq<Armed>, done: map<nat, Reply>): (r: seq<Armed>)
    ensures forall a :: a in r <==> a in armed && !a.Ready(done)
    ensures |r| <= |armed|
  {
    if armed == [] then []
    else if armed[0].Ready(done) then StillWaiting(armed[1..], done)
    else [armed[0]] + StillWaiting(armed[1..], done)
  }

  /** Armed rule `j` is ready and decides something under `judge`, and no earlier ready armed rule does. */
  ghost predicate Wins(judge: Armed -> Verdict, armed: seq<Armed>, done: map<nat, Reply>, j: int) {
    && 0 <= j < |armed|
    && armed[j].Ready(done)
    && !judge(armed[j]).Pass?
    && forall i :: 0 <= i < j && armed[i].Ready(done) ==> judge(armed[i]).Pass?
  }

  ghost predicate NobodyWins(judge: Armed -> Verdict, armed: seq<Armed>, done: map<nat, Reply>) {
    forall i :: 0 <= i < |armed| && armed[i].Ready(done) ==> judge(armed[i]).Pass?
  }

  lemma {:induction false} StillWaitingConcat(a: seq<Armed>, b: seq<Armed>, done: map<nat, Reply>)
    ensures StillWaiting(a + b, done) == StillWaiting(a, done) + StillWaiting(b, done)
  {
    if a == [] {
      assert a + b == b;
    } else {
      assert (a + b)[1..] == a[1..] + b;
      StillWaitingConcat(a[1..], b, done);
    }
  }

  lemma {:induction false} NoneReady(a: seq<Armed>, done: map<nat, Reply>)
    requires forall j :: 0 <= j < |a| ==> !a[j].Ready(done)
    ensures StillWaiting(a, done) == a
  {
    if a != [] {
      NoneReady(a[1..], done);
      assert a == [a[0]] + a[1..];
    }
  }

  lemma {:induction false} DropReady(a: seq<Armed>, i: nat, done: map<nat, Reply>)
    requires i < |a| && a[i].Ready(done)
    ensures StillWaiting(Without(a, i), done) == StillWaiting(a, done)
  {
    assert a == a[..i] + ([a[i]] + a[i + 1..]);
    StillWaitingConcat(a[..i], [a[i]] + a[i + 1..], done);
    StillWaitingConcat(a[..i], a[i + 1..], done);
    assert ([a[i]] + a[i + 1..])[1..] == a[i + 1..];
  }

  /** The outcome `r` of sweeping `s`, with `winner` the position that decided it, if any. */
  ghost predicate Arbitrated(judge: Armed -> Verdict, s: Walk, done: map<nat, Reply>, r: Swept, winner: nat) {
    match r
    case Unswept(s') => NobodyWins(judge, s.armed, done) && s' == s.(armed := StillWaiting(s.armed, done))
    case Committed(s', rule, verdict) =>
      && Wins(judge, s.armed, done, winner)
      && rule == s.armed[winner].rule
      && verdict == judge(s.armed[winner])
      && s' == s.(armed := StillWaiting(s.armed[..winner], done) + s.armed[winner + 1..])
  }

  ghost predicate FirstReadyAt(armed: seq<Armed>, done: map<nat, Reply>, i: nat) {
    i < |armed| && armed[i].Ready(done) && forall j :: 0 <= j < i ==> !armed[j].Ready(done)
  }

  function Without(armed: seq<Armed>, i: nat): seq<Armed>
    requires i < |armed|
  {
    armed[..i] + armed[i + 1..]
  }

  /** Putting a ready rule that passes back at position `i` does not change the winner. */
  lemma {:induction false} ReinsertWinner(judge: Armed -> Verdict, armed: seq<Armed>, done: map<nat, Reply>, i: nat,
                                          w: nat)
    requires FirstReadyAt(armed, done, i) && judge(armed[i]).Pass?
    requires Wins(judge, Without(armed, i), done, w)
    ensures Wins(judge, armed, done, w + 1) && armed[w + 1] == Without(armed, i)[w]
    ensures StillWaiting(armed[..w + 1], done) == StillWaiting(Without(armed, i)[..w], done)
    ensures armed[w + 2..] == Without(armed, i)[w + 1..]
  {
    ShiftPastReady(armed, done, i, w);
    var rest := Without(armed, i);
    forall k | 0 <= k < w + 1 && armed[k].Ready(done) ensures judge(armed[k]).Pass? {
      assert k > i ==> armed[k] == rest[k - 1];
    }
    assert rest[..w] == Without(armed[..w + 1], i);
    DropReady(armed[..w + 1], i, done);
  }

  lemma {:induction false} ShiftPastReady(armed: seq<Armed>, done: map<nat, Reply>, i: nat, w: nat)
    requires FirstReadyAt(armed, done, i) && w < |armed| - 1 && Without(armed, i)[w].Ready(done)
    ensures i <= w && armed[w + 1] == Without(armed, i)[w] && armed[w + 2..] == Without(armed, i)[w + 1..]
  {
  }

  lemma {:induction false} ReinsertNobody(judge: Armed -> Verdict, armed: seq<Armed>, done: map<nat, Reply>, i: nat)
    requires FirstReadyAt(armed, done, i) && judge(armed[i]).Pass?
    requires NobodyWins(judge, Without(armed, i), done)
    ensures NobodyWins(judge, armed, done)
    ensures StillWaiting(armed, done) == StillWaiting(Without(armed, i), done)
  {
    var rest := Without(armed, i);
    assert forall k :: i < k < |armed| ==> armed[k] == rest[k - 1];
    DropReady(armed, i, done);
  }

  lemma {:induction false} SweepPastPassing(judge: Armed -> Verdict, s: Walk, done: map<nat, Reply>, i: nat, r: Swept,
                                            w: nat)
    requires FirstReadyAt(s.armed, done, i) && judge(s.armed[i]).Pass?
    requires Arbitrated(judge, s.(armed := Without(s.armed, i)), done, r, w)
    ensures Arbitrated(judge, s, done, r, w + 1)
  {
    if r.Committed? {
      ReinsertWinner(judge, s.armed, done, i, w);
    } else {
      ReinsertNobody(judge, s.armed, done, i);
    }
  }

  lemma {:induction false} SweepEnds(judge: Armed -> Verdict, s: Walk, done: map<nat, Reply>)
    requires forall j :: 0 <= j < |s.armed| ==> !s.armed[j].Ready(done)
    ensures Arbitrated(judge, s, done, Unswept(s), 0)
  {
    NoneReady(s.armed, done);
  }

  lemma {:induction false} SweepCommits(judge: Armed -> Verdict, s: Walk, done: map<nat, Reply>, i: nat)
    requires FirstReadyAt(s.armed, done, i) && !judge(s.armed[i]).Pass?
    ensures Arbitrated(judge, s, done, Committed(s.(armed := Without(s.armed, i)), s.armed[i].rule, judge(s.armed[i])),
                       i)
  {
    NoneReady(s.armed[..i], done);
  }

  lemma {:induction false} SweepFromArbitrates(judge: Armed -> Verdict, s: Walk, done: map<nat, Reply>, i: nat)
    returns (winner: nat)
    requires i <= |s.armed|
    requires forall j :: 0 <= j < i ==> !s.armed[j].Ready(done)
    ensures Arbitrated(judge, s, done, SweepFrom(judge, s, done, i), winner)
    decreases |s.armed| - i
  {
    if i == |s.armed| {
      SweepEnds(judge, s, done);
      winner := 0;
      return;
    }
    if !s.armed[i].Ready(done) {
      winner := SweepFromArbitrates(judge, s, done, i + 1);
      return;
    }
    if judge(s.armed[i]).Pass? {
      var s' := s.(armed := Without(s.armed, i));
      var w := SweepFromArbitrates(judge, s', done, i);
      SweepPastPassing(judge, s, done, i, SweepFrom(judge, s', done, i), w);
      winner := w + 1;
      return;
    }
    SweepCommits(judge, s, done, i);
    winner := i;
  }

  /** A sweep commits exactly when some ready armed rule decides, and then the first of them in list order wins. */
  lemma SweepArbitrates(e: Engine, s: Walk, done: map<nat, Reply>) returns (winner: nat)
    ensures var judge := Judgement(e, s, done);
      && Arbitrated(judge, s, done, Sweep(e, s, done), winner)
      && (Sweep(e, s, done).Committed? <==> exists a :: a in s.armed && a.Ready(done) && !judge(a).Pass?)
  {
    winner := SweepFromArbitrates(Judgement(e, s, done), s, done, 0);
    if Sweep(e, s, done).Committed? {
      assert s.armed[winner] in s.armed;
    }
  }

  ghost predicate Sorted(armed: seq<Armed>) {
    forall i, j :: 0 <= i < j < |armed| ==> armed[i].rule < armed[j].rule
  }

  lemma {:induction false} StillWaitingSorted(armed: seq<Armed>, done: map<nat, Reply>)
    requires Sorted(armed)
    ensures Sorted(StillWaiting(armed, done))
  {
    if armed != [] {
      StillWaitingSorted(armed[1..], done);
      var rest := StillWaiting(armed[1..], done);
      forall j | 0 <= j < |rest| ensures armed[0].rule < rest[j].rule {
        assert rest[j] in armed[1..];
      }
    }
  }

  /** When the armed list is sorted by rule index, a committing sweep picks the lowest deciding rule index. */
  lemma SweepPicksLowestRule(e: Engine, s: Walk, done: map<nat, Reply>) returns (winner: Armed)
    requires Sorted(s.armed) && Sweep(e, s, done).Committed?
    ensures winner in s.armed && winner.Ready(done) && winner.rule == Sweep(e, s, done).rule
    ensures Judge(e, s, winner, done) == Sweep(e, s, done).verdict && !Sweep(e, s, done).verdict.Pass?
    ensures forall a :: a in s.armed && a.Ready(done) && !Judge(e, s, a, done).Pass? ==> winner.rule <= a.rule
  {
    var judge := Judgement(e, s, done);
    var w := SweepArbitrates(e, s, done);
    winner := s.armed[w];
    forall a | a in s.armed && a.Ready(done) && !judge(a).Pass? ensures winner.rule <= a.rule {
      var i :| 0 <= i < |s.armed| && s.armed[i] == a;
    }
  }

  /** Sweeping only shortens the armed list: order and membership are kept. */
  lemma SweepKeepsOrder(e: Engine, s: Walk, done: map<nat, Reply>)
    requires Sorted(s.armed)
    ensures var s' := Sweep(e, s, done).state;
      s' == s.(armed := s'.armed) && Sorted(s'.armed) && |s'.armed| <= |s.armed| &&
        (forall a :: a in s'.armed ==> a in s.armed)
  {
    var w := SweepArbitrates(e, s, done);
    if Sweep(e, s, done).Unswept? {
      StillWaitingSorted(s.armed, done);
    } else {
      StillWaitingSorted(s.armed[..w], done);
      var before := StillWaiting(s.armed[..w], done);
      forall i | 0 <= i < |before| ensures before[i].rule < s.armed[w].rule {
        assert before[i] in s.armed[..w];
      }
    }
  }
}
