/**
  The per-guild audio queue and one pass of the `start_audio_player` loop,
  as values. The transport is not modelled: what `is_connected()` and
  `is_playing()` report at an iteration is given as a `Tick`, and the playing
  itself is a single step (the inner wait on `is_playing()` finishes inside
  it).
 */
module Playback {
  import opened Ids

  /** A temporary audio file name; the empty name is possible in the queue's type and is skipped. */
  type AudioPath = string

  /**
    What happens around the guild's voice client during one loop iteration:
    what `is_connected()` and `is_playing()` report, and whether building
    the `FFmpegPCMAudio` source or calling `voice_client.play` raises, should
    the iteration try to play.
   */
  datatype Tick = Tick(connected: bool, playing: bool, playFails: bool)

  /**
    The outcome of one loop iteration: the loop ends, waits on an empty
    queue, skips an empty path, plays a path, drops it because the client
    is disconnected or already playing, or fails to play it, which raises
    out of the loop with the path neither played nor released.
   */
  datatype Iteration = Exit | Wait | Skip | Play(path: AudioPath) | Drop(path: AudioPath) | Fail(path: AudioPath)

  /** `queues[guild].put(path)`, creating the queue first when the guild has none. */
  function Enqueue(queues: map<GuildId, seq<AudioPath>>, guild: GuildId, path: AudioPath): (m: map<GuildId, seq<AudioPath>>)
  {
    queues[guild := (if guild in queues then queues[guild] else []) + [path]]
  }

  /** One iteration of the loop body, with its `while` test, on the queue `q`. */
  function Iterate(q: seq<AudioPath>, t: Tick): Iteration
  {
    if q == [] && !t.connected then Exit
    else if q == [] then Wait
    else if q[0] == "" then Skip
    else if t.connected && !t.playing then (if t.playFails then Fail(q[0]) else Play(q[0]))
    else Drop(q[0])
  }

  /** The iteration leaves the loop: its `while` test fails, or playing raises (the `finally` clause runs). */
  predicate Ends(it: Iteration)
  {
    it.Exit? || it.Fail?
  }

  /** The iteration takes the front of the queue. */
  predicate Dequeues(it: Iteration)
  {
    it.Skip? || it.Play? || it.Drop? || it.Fail?
  }

  /** The items the iteration dequeued. */
  function Taken(q: seq<AudioPath>, it: Iteration): seq<AudioPath>
  {
    if Dequeues(it) && q != [] then [q[0]] else []
  }

  /** The queue after the iteration. */
  function Remaining(q: seq<AudioPath>, it: Iteration): seq<AudioPath>
  {
    if Dequeues(it) && q != [] then q[1..] else q
  }

  /** The paths whose playback started. */
  function PlayedBy(it: Iteration): seq<AudioPath>
  {
    if it.Play? then [it.path] else []
  }

  /** The paths handed to `os.unlink`. */
  function ReleasedBy(it: Iteration): seq<AudioPath>
  {
    if it.Play? || it.Drop? then [it.path] else []
  }

  /** The dequeued paths left on disk because playing them raised. */
  function LeakedBy(it: Iteration): seq<AudioPath>
  {
    if it.Fail? then [it.path] else []
  }

  /**
    The net effect of running iterations: what is left in the queue, what
    was dequeued, played, released and leaked, how many ticks were used, and
    whether the loop has ended.
   */
  datatype Run = Run(rest: seq<AudioPath>, taken: seq<AudioPath>, played: seq<AudioPath>,
                     released: seq<AudioPath>, leaked: seq<AudioPath>, steps: nat, exited: bool)

  /** Runs `b` after the work recorded in `a`. */
  function Then(a: Run, b: Run): Run
  {
    Run(b.rest, a.taken + b.taken, a.played + b.played, a.released + b.released,
        a.leaked + b.leaked, a.steps + b.steps, b.exited)
  }

  /** Recording work in two steps is recording it at once. */
  lemma ThenAssociates(a: Run, b: Run, c: Run)
    ensures Then(a, Then(b, c)) == Then(Then(a, b), c)
  {
    assert a.taken + (b.taken + c.taken) == (a.taken + b.taken) + c.taken;
    assert a.played + (b.played + c.played) == (a.played + b.played) + c.played;
    assert a.released + (b.released + c.released) == (a.released + b.released) + c.released;
    assert a.leaked + (b.leaked + c.leaked) == (a.leaked + b.leaked) + c.leaked;
  }

  /** The effect of one iteration on the queue `q`. */
  function StepRun(q: seq<AudioPath>, it: Iteration): Run
  {
    Run(Remaining(q, it), Taken(q, it), PlayedBy(it), ReleasedBy(it), LeakedBy(it), 1, Ends(it))
  }

  /** The run that has done nothing yet, on the queue `q`. */
  function Idle(q: seq<AudioPath>): Run
  {
    Run(q, [], [], [], [], 0, false)
  }

  /**
    Running the loop on `q` for the ticks of `ticks`, one per iteration,
    until it ends or the ticks run out (the loop is then still running,
    suspended at its next poll).
   */
  function RunLoop(q: seq<AudioPath>, ticks: seq<Tick>): Run
    decreases |ticks|
  {
    if ticks == [] then Idle(q)
    else
      var s := StepRun(q, Iterate(q, ticks[0]));
      if s.exited then s else Then(s, RunLoop(s.rest, ticks[1..]))
  }

  /**
    Where a run stands after `i` ticks, with `acc` the work done so far:
    still going, and the whole run is `acc` followed by the run from its
    queue on the remaining ticks; or ended, and the whole run is `acc`.
   */
  ghost predicate Tracks(q0: seq<AudioPath>, ticks: seq<Tick>, i: nat, acc: Run, running: bool)
    requires i <= |ticks|
  {
    && acc.exited == !running
    && if running then RunLoop(q0, ticks) == Then(acc, RunLoop(acc.rest, ticks[i..]))
       else RunLoop(q0, ticks) == acc
  }

  /** Before the first tick, a run is tracked by the idle run. */
  lemma TracksStart(q0: seq<AudioPath>, ticks: seq<Tick>)
    ensures Tracks(q0, ticks, 0, Idle(q0), true)
  {
    assert ticks[0..] == ticks;
    var r := RunLoop(q0, ticks);
    assert [] + r.taken == r.taken && [] + r.played == r.played && [] + r.released == r.released;
    assert [] + r.leaked == r.leaked;
  }

  /** One more iteration keeps `Tracks`. */
  lemma TracksStep(q0: seq<AudioPath>, ticks: seq<Tick>, i: nat, acc: Run, it: Iteration)
    requires i < |ticks| && Tracks(q0, ticks, i, acc, true) && it == Iterate(acc.rest, ticks[i])
    ensures Tracks(q0, ticks, i + 1, Then(acc, StepRun(acc.rest, it)), !Ends(it))
  {
    assert ticks[i..][0] == ticks[i] && ticks[i..][1..] == ticks[i + 1..];
    var s := StepRun(acc.rest, it);
    if !s.exited {
      ThenAssociates(acc, s, RunLoop(s.rest, ticks[i + 1..]));
    }
  }

  /** A run still going when the ticks run out is the work done so far. */
  lemma TracksDone(q0: seq<AudioPath>, ticks: seq<Tick>, acc: Run)
    requires Tracks(q0, ticks, |ticks|, acc, true)
    ensures RunLoop(q0, ticks) == acc
  {
    assert ticks[|ticks|..] == [];
    assert acc.taken + [] == acc.taken && acc.played + [] == acc.played && acc.released + [] == acc.released;
    assert acc.leaked + [] == acc.leaked;
  }

  /** An iteration takes from the front of the queue what it removes from it. */
  lemma TakenFromFront(q: seq<AudioPath>, it: Iteration)
    ensures Taken(q, it) + Remaining(q, it) == q
  {
    if Dequeues(it) && q != [] {
      assert [q[0]] + q[1..] == q;
    }
  }

  /** The non-empty paths of `s`, in order. */
  function NonEmpty(s: seq<AudioPath>): (r: seq<AudioPath>)
  {
    if s == [] then []
    else if s[0] == "" then NonEmpty(s[1..])
    else [s[0]] + NonEmpty(s[1..])
  }

  lemma {:induction false} NonEmptyAppend(a: seq<AudioPath>, b: seq<AudioPath>)
    ensures NonEmpty(a + b) == NonEmpty(a) + NonEmpty(b)
    decreases |a|
  {
    if a == [] {
      assert a + b == b;
    } else {
      assert (a + b)[0] == a[0] && (a + b)[1..] == a[1..] + b;
      NonEmptyAppend(a[1..], b);
      if a[0] != "" {
        assert NonEmpty(a + b) == [a[0]] + (NonEmpty(a[1..]) + NonEmpty(b));
      }
    }
  }

  /** `a` is `b` with some elements left out, order kept. */
  predicate IsSubsequence(a: seq<AudioPath>, b: seq<AudioPath>)
    decreases |b|
  {
    if a == [] then true
    else if b == [] then false
    else if a[0] == b[0] then IsSubsequence(a[1..], b[1..])
    else IsSubsequence(a, b[1..])
  }

  /**
    What one iteration does with the front path: it plays it only while the
    client is connected and idle and playing does not raise, fails on it only
    when playing raises, and the loop ends exactly when the queue is empty
    and the client disconnected, or when playing raised.
   */
  lemma IterationOutcomes(q: seq<AudioPath>, t: Tick)
    ensures Iterate(q, t).Play? ==>
      t.connected && !t.playing && !t.playFails && q != [] && q[0] != "" && Iterate(q, t).path == q[0]
    ensures Iterate(q, t).Fail? ==>
      t.connected && !t.playing && t.playFails && q != [] && q[0] != "" && Iterate(q, t).path == q[0]
    ensures Iterate(q, t).Drop? ==> !(t.connected && !t.playing) && q != [] && Iterate(q, t).path == q[0]
    ensures Ends(Iterate(q, t)) <==>
      (q == [] && !t.connected) || (q != [] && q[0] != "" && t.connected && !t.playing && t.playFails)
  {
  }

  /**
    Paths leave the queue from its front, one at a time: what was dequeued
    followed by what is left is the queue the loop started with.
   */
  lemma {:induction false} RunIsFifo(q: seq<AudioPath>, ticks: seq<Tick>)
    ensures RunLoop(q, ticks).taken + RunLoop(q, ticks).rest == q
    decreases |ticks|
  {
    if ticks != [] {
      var it := Iterate(q, ticks[0]);
      var s := StepRun(q, it);
      TakenFromFront(q, it);
      if !s.exited {
        RunIsFifo(s.rest, ticks[1..]);
        var r := RunLoop(s.rest, ticks[1..]);
        assert RunLoop(q, ticks).taken + RunLoop(q, ticks).rest == s.taken + (r.taken + r.rest);
      }
    }
  }

  /**
    Every dequeued non-empty path is released exactly once, in queue order,
    except that the path whose playing raised, when there is one, is leaked:
    it is never released, it is the last path dequeued, and the loop ended
    there. An empty path is never released.
   */
  lemma {:induction false} RunReleasesEachOnce(q: seq<AudioPath>, ticks: seq<Tick>)
    ensures ReleasesEachOnce(RunLoop(q, ticks))
    decreases |ticks|
  {
    if ticks != [] {
      var s := StepRun(q, Iterate(q, ticks[0]));
      StepReleases(q, ticks[0]);
      if !s.exited {
        var r := RunLoop(s.rest, ticks[1..]);
        RunReleasesEachOnce(s.rest, ticks[1..]);
        ContinuedRunReleases(s, r);
      }
    }
  }

  /**
    The release discipline of a run: the non-empty dequeued paths are the
    released ones followed by at most one leaked path, which is the last
    path dequeued, on which the loop ended.
   */
  ghost predicate ReleasesEachOnce(r: Run)
  {
    && NonEmpty(r.taken) == r.released + r.leaked
    && |r.leaked| <= 1
    && (r.leaked != [] ==> r.exited && r.taken != [] && r.leaked == [r.taken[|r.taken| - 1]])
  }

  /** A single iteration keeps the release discipline, and leaks nothing unless it ends the loop. */
  lemma StepReleases(q: seq<AudioPath>, t: Tick)
    ensures ReleasesEachOnce(StepRun(q, Iterate(q, t)))
    ensures !Ends(Iterate(q, t)) ==> LeakedBy(Iterate(q, t)) == []
  {
    var it := Iterate(q, t);
    if Dequeues(it) {
      assert Taken(q, it) == [q[0]] && [q[0]][1..] == [];
    }
  }

  /** Work that leaks nothing, followed by a run that keeps the release discipline, keeps it. */
  lemma ContinuedRunReleases(s: Run, r: Run)
    requires ReleasesEachOnce(s) && s.leaked == [] && ReleasesEachOnce(r)
    ensures ReleasesEachOnce(Then(s, r))
  {
    NonEmptyAppend(s.taken, r.taken);
    assert s.leaked + r.leaked == r.leaked;
    assert s.released + r.released + r.leaked == s.released + (r.released + r.leaked);
    if r.leaked != [] {
      assert (s.taken + r.taken)[|s.taken + r.taken| - 1] == r.taken[|r.taken| - 1];
    }
  }

  lemma {:induction false} SubsequenceDropFirst(a: seq<AudioPath>, c: seq<AudioPath>)
    requires a != [] && IsSubsequence(a, c)
    ensures IsSubsequence(a[1..], c)
    decreases |c| + 1, 0
  {
    assert c != [];
    if a[0] == c[0] {
      SubsequenceWeaken(a[1..], c);
    } else {
      SubsequenceDropFirst(a, c[1..]);
      SubsequenceWeaken(a[1..], c);
    }
  }

  lemma {:induction false} SubsequenceWeaken(a: seq<AudioPath>, b: seq<AudioPath>)
    requires b != [] && IsSubsequence(a, b[1..])
    ensures IsSubsequence(a, b)
    decreases |b|, 1
  {
    if a != [] && a[0] == b[0] {
      SubsequenceDropFirst(a, b[1..]);
    }
  }

  /** Extending the longer sequence by one element, or both by the same one, keeps the relation. */
  lemma SubsequenceCons(a: seq<AudioPath>, b: seq<AudioPath>, x: AudioPath)
    requires IsSubsequence(a, b)
    ensures IsSubsequence(a, [x] + b)
    ensures IsSubsequence([x] + a, [x] + b)
  {
    assert ([x] + b)[1..] == b;
    assert ([x] + a)[1..] == a;
    SubsequenceWeaken(a, [x] + b);
  }

  /**
    What is played is a subsequence of what is released: every played path
    is released afterwards, and paths play in queue order.
   */
  lemma {:induction false} RunPlaysInOrder(q: seq<AudioPath>, ticks: seq<Tick>)
    ensures IsSubsequence(RunLoop(q, ticks).played, RunLoop(q, ticks).released)
    decreases |ticks|
  {
    if ticks != [] {
      var it := Iterate(q, ticks[0]);
      var s := StepRun(q, it);
      if !s.exited {
        var r := RunLoop(s.rest, ticks[1..]);
        RunPlaysInOrder(s.rest, ticks[1..]);
        assert RunLoop(q, ticks) == Then(s, r);
        if it.Play? || it.Drop? {
          SubsequenceCons(r.played, r.released, it.path);
          assert it.Drop? ==> PlayedBy(it) + r.played == r.played;
        } else {
          assert PlayedBy(it) + r.played == r.played && ReleasedBy(it) + r.released == r.released;
        }
      }
    }
  }

  /**
    A run uses its ticks in order and stops at the one on which the loop
    ends: there, either the queue is empty and the client reports itself
    disconnected (nothing is leaked), or the client is connected and idle
    and playing the front path raises (that path is leaked). A run never
    ends while every tick reports the client connected and playing works.
   */
  lemma {:induction false} RunExitConditions(q: seq<AudioPath>, ticks: seq<Tick>)
    ensures RunLoop(q, ticks).steps <= |ticks|
    ensures !RunLoop(q, ticks).exited ==> RunLoop(q, ticks).steps == |ticks|
    ensures var r := RunLoop(q, ticks);
      r.exited ==> (0 < r.steps
        && var t := ticks[r.steps - 1];
           || (r.rest == [] && !t.connected && r.leaked == [])
           || (r.leaked != [] && t.connected && !t.playing && t.playFails))
    ensures (forall i :: 0 <= i < |ticks| ==> ticks[i].connected && !ticks[i].playFails)
      ==> !RunLoop(q, ticks).exited
    decreases |ticks|
  {
    if ticks != [] {
      var it := Iterate(q, ticks[0]);
      var s := StepRun(q, it);
      if !s.exited {
        var tail := ticks[1..];
        var r := RunLoop(s.rest, tail);
        RunExitConditions(s.rest, tail);
        assert RunLoop(q, ticks) == Then(s, r);
        assert s.leaked + r.leaked == r.leaked;
        if r.exited {
          assert tail[r.steps - 1] == ticks[r.steps];
        }
        if forall i :: 0 <= i < |ticks| ==> ticks[i].connected && !ticks[i].playFails {
          forall i | 0 <= i < |tail| ensures tail[i].connected && !tail[i].playFails {
            assert tail[i] == ticks[i + 1];
          }
        }
      } else {
        assert ticks[0] == ticks[s.steps - 1];
      }
    }
  }

  /**
    Enqueuing appends at the tail of that guild's queue only, and two jobs
    enqueued one after the other are dequeued in that order: once the later
    one is dequeued, the earlier one was dequeued just before it.
   */
  lemma EnqueuedInOrder(queues: map<GuildId, seq<AudioPath>>, guild: GuildId,
                        p1: AudioPath, p2: AudioPath, ticks: seq<Tick>)
    ensures var m := Enqueue(Enqueue(queues, guild, p1), guild, p2);
      var q := if guild in queues then queues[guild] else [];
      && m[guild] == q + [p1, p2]
      && (forall h :: h != guild ==> (h in m <==> h in queues) && (h in queues ==> m[h] == queues[h]))
      && (var r := RunLoop(m[guild], ticks);
          |r.taken| > |q| + 1 ==> r.taken[|q|] == p1 && r.taken[|q| + 1] == p2)
  {
    var m := Enqueue(Enqueue(queues, guild, p1), guild, p2);
    var q := if guild in queues then queues[guild] else [];
    assert m[guild] == q + [p1, p2];
    var r := RunLoop(m[guild], ticks);
    RunIsFifo(m[guild], ticks);
    if |r.taken| > |q| + 1 {
      assert r.taken[|q|] == (r.taken + r.rest)[|q|];
      assert r.taken[|q| + 1] == (r.taken + r.rest)[|q| + 1];
    }
  }
}
