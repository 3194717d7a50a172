/**
 The playlist player. One session walks the playlist with a loop index `i`. For
 each track it scans the folder snapshot taken before the loop; on a hit it plays
 the cached file, on a miss it downloads the track and plays the new file. Each
 playback listens on the shared stop channel, so a `next` or `prev` command ends
 it early; `prev` also sets the package-level `direction` to "prev". After the
 playback returns, a "prev" direction rewinds `i` (differently in the two
 branches) and is cleared, and the loop's own `i++` follows.

 The playback itself is replaced by an oracle `prevs`: `prevs[k]` tells whether a
 `prev` command set `direction` after the check that followed playback k-1 (for
 k = 0, after the session started) and before the check that follows playback k.
 `prev` writes `direction` before its blocking send, so this includes a `prev`
 typed while track k was being scanned or downloaded. Beyond the end of `prevs`,
 none was set.
 */
module Playlist {
  import opened Words
  import opened Commands
  import opened Cache

  /** The value `prev` writes into `direction`. */
  const Prev: string := "prev"

  /** What a session does, in order. */
  datatype Event =
    | Play(index: nat, cached: bool) // plays track `index`, from the cache or after a download
    | Disconnect                     // vc.Close() and vc.Disconnect() after the loop

  /** How a session ends: the loop runs out, or the index is out of range (a panic). */
  datatype Outcome = Finished | OutOfRange(index: int)

  /** The outcome, the events, and the value `direction` is left with. */
  datatype Session = Session(outcome: Outcome, trace: seq<Event>, direction: string)

  /** `math.Min` over the float64 images of two ints, which are exact at these sizes. */
  function Min(a: int, b: int): int
  {
    if a < b then a else b
  }

  /**
   The next index the loop processes after index `i`: the rewind of the branch that
   played it (`i = min(-1, i-2)` after a cached track, `i = i-2` after a download),
   when direction was "prev", followed by `i++`.
   */
  function Advance(i: int, cached: bool, prev: bool): (next: int)
    ensures !prev ==> next == i + 1
    ensures prev && !cached ==> next == i - 1
    ensures prev && cached ==> next == (if i >= 1 then 0 else i - 1)
    ensures prev <==> next <= i
  {
    var rewound := if !prev then i else if cached then Min(-1, i - 2) else i - 2;
    rewound + 1
  }

  function Head(prevs: seq<bool>): bool
  {
    prevs != [] && prevs[0]
  }

  function Tail(prevs: seq<bool>): seq<bool>
  {
    if prevs == [] then [] else prevs[1..]
  }

  /** 1 while a `prev` is pending in `direction`: consuming it is progress. */
  function Rank(direction: string): nat
  {
    if direction == Prev then 1 else 0
  }

  /** Prepends the events `t` to what the rest of a session does. */
  function Then(t: seq<Event>, s: Session): Session
  {
    Session(s.outcome, t + s.trace, s.direction)
  }

  /**
   The session from loop index `i` on, with `direction` holding `dir` and `prevs`
   telling what happens during the remaining playbacks.
   */
  function Run(videos: seq<string>, files: seq<string>, prevs: seq<bool>, i: int, dir: string)
    : (r: Session)
    ensures r.outcome == Finished ==> |r.trace| >= |videos| - i + 1
    decreases |prevs|, Rank(dir), |videos| - i
  {
    if i >= |videos| then Session(Finished, [Disconnect], dir)
    else if i < 0 then Session(OutOfRange(i), [], dir)
    else
      var cached := IsCached(files, videos[i]);
      var prev := dir == Prev || Head(prevs);
      var rest := Run(videos, files, Tail(prevs), Advance(i, cached, prev), if prev then "" else dir);
      Then([Play(i, cached)], rest)
  }

  /** Tracks i.. of the playlist, each played once, in order. */
  function Plays(videos: seq<string>, files: seq<string>, i: nat): seq<Event>
    requires i <= |videos|
  {
    seq(|videos| - i, j requires 0 <= j < |videos| - i => Play(i + j, IsCached(files, videos[i + j])))
  }

  predicate NoPrev(prevs: seq<bool>)
  {
    forall k :: 0 <= k < |prevs| ==> !prevs[k]
  }

  /**
   No-navigation traversal: when no `prev` is pending or arrives, the session plays
   indices i..N-1 exactly once each, in order, then disconnects; an empty playlist
   plays nothing.
   */
  lemma {:induction false} NoNavigation(
    videos: seq<string>, files: seq<string>, prevs: seq<bool>, i: nat, dir: string)
    requires i <= |videos|
    requires dir != Prev && NoPrev(prevs)
    ensures Run(videos, files, prevs, i, dir)
         == Session(Finished, Plays(videos, files, i) + [Disconnect], dir)
    decreases |videos| - i
  {
    if i < |videos| {
      assert !Head(prevs);
      NoNavigation(videos, files, Tail(prevs), i + 1, dir);
      assert Plays(videos, files, i)
          == [Play(i, IsCached(files, videos[i]))] + Plays(videos, files, i + 1);
    }
  }

  /** An event of the trace other than the last plays an index of the playlist. */
  predicate WellFormed(videos: seq<string>, files: seq<string>, r: Session)
  {
    && (forall k :: 0 <= k < |r.trace| && r.trace[k].Play? ==>
          r.trace[k].index < |videos| && r.trace[k].cached == IsCached(files, videos[r.trace[k].index]))
    && (forall k :: 0 <= k < |r.trace| - 1 ==> r.trace[k].Play?)
    && (r.outcome == Finished <==> |r.trace| > 0 && r.trace[|r.trace| - 1] == Disconnect)
    && (r.outcome.OutOfRange? ==> r.outcome.index == -1)
  }

  /**
   Every session trace is well formed: each played track is a hit exactly when the
   snapshot taken before the loop has its file (the snapshot is never refreshed, so a
   track downloaded earlier in the session is a miss again); the voice connection is
   closed exactly when the loop runs out; the only index out of range is -1.
   */
  lemma {:induction false} TraceWellFormed(
    videos: seq<string>, files: seq<string>, prevs: seq<bool>, i: int, dir: string)
    requires -1 <= i
    ensures WellFormed(videos, files, Run(videos, files, prevs, i, dir))
    decreases |prevs|, Rank(dir), |videos| - i
  {
    if 0 <= i < |videos| {
      var cached := IsCached(files, videos[i]);
      var prev := dir == Prev || Head(prevs);
      var rest := Run(videos, files, Tail(prevs), Advance(i, cached, prev), if prev then "" else dir);
      TraceWellFormed(videos, files, Tail(prevs), Advance(i, cached, prev), if prev then "" else dir);
      var r := Run(videos, files, prevs, i, dir);
      assert r.trace == [Play(i, cached)] + rest.trace;
      forall k | 0 <= k < |r.trace| && r.trace[k].Play?
        ensures r.trace[k].index < |videos| && r.trace[k].cached == IsCached(files, videos[r.trace[k].index])
      {
        if k > 0 {
          assert r.trace[k] == rest.trace[k - 1];
        }
      }
      forall k | 0 <= k < |r.trace| - 1
        ensures r.trace[k].Play?
      {
        if k > 0 {
          assert r.trace[k] == rest.trace[k - 1];
        }
      }
    }
  }

  /**
   A session that finishes has played every index from `i` (or 0, when `i` is
   negative) to the end of the playlist: the index only moves back after a `prev`,
   and on a path that finishes it never leaves the playlist below 0.
   */
  lemma {:induction false} FinishCovers(
    videos: seq<string>, files: seq<string>, prevs: seq<bool>, i: int, dir: string, j: int)
    requires (if i < 0 then 0 else i) <= j < |videos|
    requires Run(videos, files, prevs, i, dir).outcome == Finished
    ensures var t := Run(videos, files, prevs, i, dir).trace;
      exists k :: 0 <= k < |t| && t[k].Play? && t[k].index == j
    decreases |prevs|, Rank(dir), |videos| - i
  {
    var t := Run(videos, files, prevs, i, dir).trace;
    if 0 <= i < |videos| {
      var cached := IsCached(files, videos[i]);
      var prev := dir == Prev || Head(prevs);
      var next, dir' := Advance(i, cached, prev), if prev then "" else dir;
      var rest := Run(videos, files, Tail(prevs), next, dir');
      assert t == [Play(i, cached)] + rest.trace;
      if j == i {
        assert t[0].Play? && t[0].index == j;
      } else {
        assert next >= 0;
        FinishCovers(videos, files, Tail(prevs), next, dir', j);
        var k :| 0 <= k < |rest.trace| && rest.trace[k].Play? && rest.trace[k].index == j;
        assert t[k + 1] == rest.trace[k];
      }
    }
  }

  /** The loop consumes every `prev` it observes: once a track has been played, `direction` is not "prev". */
  lemma {:induction false} DirectionConsumed(
    videos: seq<string>, files: seq<string>, prevs: seq<bool>, i: int, dir: string)
    requires 0 <= i < |videos| || dir != Prev
    ensures Run(videos, files, prevs, i, dir).direction != Prev
    decreases |prevs|, Rank(dir), |videos| - i
  {
    if 0 <= i < |videos| {
      var cached := IsCached(files, videos[i]);
      var prev := dir == Prev || Head(prevs);
      DirectionConsumed(videos, files, Tail(prevs), Advance(i, cached, prev), if prev then "" else dir);
    }
  }

  /**
   `prev` after a downloaded track at index i >= 1: the next track processed is i-1,
   with direction reset to "".
   */
  lemma PrevAfterDownload(
    videos: seq<string>, files: seq<string>, prevs: seq<bool>, i: int, dir: string)
    requires 1 <= i < |videos| && !IsCached(files, videos[i])
    requires dir == Prev || Head(prevs)
    ensures Run(videos, files, prevs, i, dir)
         == Then([Play(i, false)], Run(videos, files, Tail(prevs), i - 1, ""))
    ensures Run(videos, files, prevs, i, dir).trace[1] == Play(i - 1, IsCached(files, videos[i - 1]))
  {
  }

  /**
   `prev` after a cached track at index i >= 1: the next track processed is 0 (a
   restart, not i-1), with direction reset to "".
   */
  lemma PrevAfterCached(
    videos: seq<string>, files: seq<string>, prevs: seq<bool>, i: int, dir: string)
    requires 1 <= i < |videos| && IsCached(files, videos[i])
    requires dir == Prev || Head(prevs)
    ensures Run(videos, files, prevs, i, dir)
         == Then([Play(i, true)], Run(videos, files, Tail(prevs), 0, ""))
    ensures Run(videos, files, prevs, i, dir).trace[1] == Play(0, IsCached(files, videos[0]))
  {
  }

  /**
   `prev` during the first track, in either branch (also a `prev` left pending in
   `direction` before the session started): the next index is -1, which indexing the
   playlist cannot accept; the session ends there without disconnecting.
   */
  lemma PrevAtFirstTrack(videos: seq<string>, files: seq<string>, prevs: seq<bool>, dir: string)
    requires |videos| >= 1
    requires dir == Prev || Head(prevs)
    ensures Run(videos, files, prevs, 0, dir)
         == Session(OutOfRange(-1), [Play(0, IsCached(files, videos[0]))], "")
  {
  }

  /**
   Snapshot not refreshed: a track downloaded at index i and revisited through a
   `prev` during the next (downloaded) track is downloaded again.
   */
  lemma RevisitDownloadsAgain(videos: seq<string>, files: seq<string>, prevs: seq<bool>, i: nat)
    requires i + 1 < |videos|
    requires !IsCached(files, videos[i]) && !IsCached(files, videos[i + 1])
    requires |prevs| >= 2 && !prevs[0] && prevs[1]
    ensures var t := Run(videos, files, prevs, i, "").trace;
      |t| >= 3 && t[..3] == [Play(i, false), Play(i + 1, false), Play(i, false)]
  {
    var r1 := Run(videos, files, Tail(prevs), i + 1, "");
    PrevAfterDownload(videos, files, Tail(prevs), i + 1, "");
    assert r1.trace[1] == Play(i, false);
  }

  /** One turn of the loop: the track at i is played, then the session goes on from Advance. */
  lemma StepOfRun(
    videos: seq<string>, files: seq<string>, prevs: seq<bool>, i: int, dir: string)
    requires 0 <= i < |videos|
    ensures var cached, prev := IsCached(files, videos[i]), dir == Prev || Head(prevs);
      forall t :: Then(t, Run(videos, files, prevs, i, dir))
               == Then(t + [Play(i, cached)],
                       Run(videos, files, Tail(prevs), Advance(i, cached, prev), if prev then "" else dir))
  {
  }

  /**
   The package-level state of the bot that outlives one message: `direction`,
   written by `prev` and read and cleared by the playlist loop.
   */
  class Bot {
    var direction: string

    constructor ()
      ensures direction == ""
    {
      direction := "";
    }

    /** nextTrack: on `prev` sets direction before signalling; on `next` only signals. */
    method NextTrack(fromBot: bool, content: string) returns (e: Effect)
      modifies this
      ensures e == Commands.NextTrack(fromBot, content)
      ensures direction == if e == SendStop(true) then Prev else old(direction)
    {
      e := Ignored;
      if fromBot {
        return;
      }
      var args := Split(content, Space);
      if args[0] != Prefix {
        return;
      }
      if |args| < 2 {
        e := IndexPanic(1);
        return;
      }
      if args[1] == "next" {
        e := SendStop(false);
      }
      if args[1] == "prev" {
        direction := Prev;
        e := SendStop(true);
      }
    }

    /**
     One playback on the stop channel. When a `prev` set direction since the previous
     direction check (while this track was scanned, downloaded or rendered), it
     returns with direction "prev".
     Setting direction is the state effect that `NextTrack` has on a `prev` message
     (the `SendStop(true)` effect), applied by the handler running concurrently.
     */
    method AwaitPlayback(prevArrived: bool)
      modifies this
      ensures direction == if prevArrived then Prev else old(direction)
    {
      if prevArrived {
        direction := Prev;
      }
    }

    /** The loop of playPlaylist over the playlist `videos` with the snapshot `files`. */
    method PlayPlaylist(videos: seq<string>, files: seq<string>, prevs: seq<bool>)
      returns (outcome: Outcome, ghost trace: seq<Event>)
      modifies this
      ensures Session(outcome, trace, direction) == Run(videos, files, prevs, 0, old(direction))
    {
      trace := [];
      var pending := prevs;
      var i := 0;
      while i < |videos|
        invariant Run(videos, files, prevs, 0, old(direction))
               == Then(trace, Run(videos, files, pending, i, direction))
        decreases |pending|, Rank(direction), |videos| - i
      {
        if i < 0 {
          // playlist.Videos[i] is out of range
          outcome := OutOfRange(i);
          return;
        }
        ghost var i0, dir0, pending0 := i, direction, pending;
        var b, _ := FindCached(files, videos[i]);
        ghost var prev := direction == Prev || Head(pending);
        StepOfRun(videos, files, pending, i, direction);
        if b {
          trace := trace + [Play(i, true)];
          AwaitPlayback(Head(pending));
          pending := Tail(pending);
          if direction == Prev {
            i := Min(-1, i - 2);
            direction := "";
          }
          i := i + 1;
          assert i == Advance(i0, b, prev) && direction == if prev then "" else dir0;
          continue;
        }
        trace := trace + [Play(i, false)];
        AwaitPlayback(Head(pending));
        pending := Tail(pending);
        if direction == Prev {
          i := i - 2;
          direction := "";
        }
        i := i + 1;
        assert i == Advance(i0, b, prev) && direction == if prev then "" else dir0;
      }
      trace := trace + [Disconnect];
      outcome := Finished;
    }
  }
}
