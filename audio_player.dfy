/** The playback queue of the audio player: base64 audio chunks are queued
    and played one after the other by a drain loop that holds an "is
    playing" flag. The drain is asynchronous (it waits for each chunk's
    playback to end), so it is modelled as event steps: `Enqueue` and
    `ClearQueue` are the two entry points the page calls, `PlaybackEnded` is
    the end of the awaited playback, and `Advance` is the part of the loop
    that runs between two waits. */
module AudioPlayer {
  import opened Wrappers

  predicate Increasing(s: seq<nat>)
  {
    forall i, j :: 0 <= i < j < |s| ==> s[i] < s[j]
  }

  /** Dropping a middle stretch of an increasing sequence keeps it increasing. */
  lemma IncreasingDrop(a: seq<nat>, b: seq<nat>, k: nat)
    requires Increasing(a + b) && k <= |b|
    ensures Increasing(a + b[k..])
  {
    var s, t := a + b, a + b[k..];
    forall i, j | 0 <= i < j < |t| ensures t[i] < t[j] {
      var i' := if i < |a| then i else i + k;
      var j' := if j < |a| then j else j + k;
      assert t[i] == s[i'] && t[j] == s[j'];
    }
  }

  /** Appending a value above all others keeps a sequence increasing. */
  lemma IncreasingSnoc(s: seq<nat>, n: nat)
    requires Increasing(s) && forall k :: 0 <= k < |s| ==> s[k] < n
    ensures Increasing(s + [n])
  {}

  /** The position of the first chunk the loop will play: `if (audioData)`
      skips the empty strings before it. */
  function FirstAudible(q: seq<string>): (k: nat)
    ensures k <= |q|
    ensures forall j :: 0 <= j < k ==> q[j] == ""
    ensures k < |q| ==> q[k] != ""
  {
    if |q| == 0 || q[0] != "" then 0 else 1 + FirstAudible(q[1..])
  }

  /** The empty chunks in front of position `k`, then an audible one (or
      the end), put the first audible chunk at `k`. */
  lemma {:induction false} FirstAudibleIs(q: seq<string>, k: nat)
    requires k <= |q| && (forall j :: 0 <= j < k ==> q[j] == "") && (k < |q| ==> q[k] != "")
    ensures FirstAudible(q) == k
  {
    if k > 0 {
      FirstAudibleIs(q[1..], k - 1);
    }
  }

  /** The bookkeeping of the player: each queued chunk is the enqueued
      chunk its position names, each played chunk was audible, the played
      positions and then the queued ones are increasing, and the chunk now
      playing is the last one played. */
  ghost predicate Tracked(queue: seq<string>, pending: seq<nat>, played: seq<nat>, enqueued: seq<string>,
                          nowPlaying: Option<string>)
  {
    |pending| == |queue|
    && (forall k :: 0 <= k < |pending| ==> pending[k] < |enqueued| && queue[k] == enqueued[pending[k]])
    && (forall k :: 0 <= k < |played| ==> played[k] < |enqueued| && enqueued[played[k]] != "")
    && Increasing(played + pending)
    && (nowPlaying.Some? ==> |played| > 0 && nowPlaying.value == enqueued[played[|played| - 1]])
  }

  /** Shifting an empty chunk off the queue keeps the bookkeeping. */
  lemma SkipFront(queue: seq<string>, pending: seq<nat>, played: seq<nat>, enqueued: seq<string>)
    requires Tracked(queue, pending, played, enqueued, None) && |queue| > 0
    ensures Tracked(queue[1..], pending[1..], played, enqueued, None)
  {
    IncreasingDrop(played, pending, 1);
  }

  /** Shifting an audible chunk off the queue and playing it keeps the
      bookkeeping. */
  lemma PlayFront(queue: seq<string>, pending: seq<nat>, played: seq<nat>, enqueued: seq<string>)
    requires Tracked(queue, pending, played, enqueued, None) && |queue| > 0 && queue[0] != ""
    ensures Tracked(queue[1..], pending[1..], played + [pending[0]], enqueued, Some(queue[0]))
  {
    assert played + pending == (played + [pending[0]]) + pending[1..];
  }

  class PlaybackQueue {
    /** `audioQueueRef.current`: the chunks waiting to be played. */
    var queue: seq<string>
    /** `isPlayingRef.current` (and the `isPlaying` state it mirrors). */
    var isPlaying: bool
    /** The chunk whose playback the drain is waiting for, if any. */
    var nowPlaying: Option<string>
    /** How many times `onPlaybackComplete` has been called. */
    var completions: nat
    /** Every chunk ever enqueued, in order. */
    ghost var enqueued: seq<string>
    /** For each queued chunk, its position in `enqueued`. */
    ghost var pending: seq<nat>
    /** For each chunk handed to playback, in order, its position in `enqueued`. */
    ghost var played: seq<nat>

    /** What holds at every step, including inside the drain. */
    ghost predicate Inv()
      reads this
    {
      Tracked(queue, pending, played, enqueued, nowPlaying)
    }

    /** The flag is up exactly while a chunk plays, so chunks play one at a
        time, in the order they were enqueued, each at most once. */
    ghost predicate Settled()
      reads this
    {
      Inv() && (isPlaying <==> nowPlaying.Some?)
    }

    /** What holds between events: besides, no chunk waits while the player
        is idle. */
    ghost predicate Valid()
      reads this
    {
      Settled() && (!isPlaying ==> queue == [])
    }

    constructor ()
      ensures Valid()
      ensures queue == [] && !isPlaying && completions == 0
      ensures enqueued == [] && played == []
    {
      queue := [];
      isPlaying := false;
      nowPlaying := None;
      completions := 0;
      enqueued := [];
      pending := [];
      played := [];
    }

    /** The part of the loop of `processQueue` that shifts the empty
        chunks at the front of the queue and skips them. */
    method SkipEmpty()
      requires Inv() && isPlaying && nowPlaying == None
      modifies this
      ensures Inv() && isPlaying && nowPlaying == None
      ensures enqueued == old(enqueued) && played == old(played) && completions == old(completions)
      ensures var k := FirstAudible(old(queue));
        queue == old(queue)[k..] && pending == old(pending)[k..]
    {
      ghost var d := 0;
      while |queue| > 0 && queue[0] == ""
        invariant Inv() && isPlaying && nowPlaying == None
        invariant enqueued == old(enqueued) && played == old(played) && completions == old(completions)
        invariant d <= |old(queue)| && queue == old(queue)[d..] && pending == old(pending)[d..]
        invariant forall j :: 0 <= j < d ==> old(queue)[j] == ""
        decreases |queue|
      {
        SkipFront(queue, pending, played, enqueued);
        queue := queue[1..];
        pending := pending[1..];
        d := d + 1;
      }
      FirstAudibleIs(old(queue), d);
    }

    /** The loop of `processQueue` from the start or from the end of a
        playback up to the next wait: empty chunks are shifted and skipped;
        the first non-empty one is shifted and played; if there is none, the
        flag is lowered and `onPlaybackComplete` is called. */
    method Advance()
      requires Inv() && isPlaying && nowPlaying == None
      modifies this
      ensures Valid()
      ensures enqueued == old(enqueued)
      ensures var k := FirstAudible(old(queue));
        if k < |old(queue)| then
          queue == old(queue)[k + 1..] && pending == old(pending)[k + 1..]
          && played == old(played) + [old(pending)[k]] && nowPlaying == Some(old(queue)[k])
          && isPlaying && completions == old(completions)
        else
          queue == [] && pending == [] && played == old(played)
          && nowPlaying == None && !isPlaying && completions == old(completions) + 1
    {
      SkipEmpty();
      if |queue| > 0 {
        var audioData := queue[0];
        PlayFront(queue, pending, played, enqueued);
        played := played + [pending[0]];
        queue := queue[1..];
        pending := pending[1..];
        nowPlaying := Some(audioData);
      } else {
        isPlaying := false;
        completions := completions + 1;
      }
    }

    /** `processQueue`: does nothing while a drain is running or when the
        queue is empty; otherwise raises the flag and starts the drain. It is
        called right after a push, the one moment an idle player has a
        chunk waiting. */
    method ProcessQueue()
      requires Settled()
      modifies this
      ensures Valid()
      ensures enqueued == old(enqueued)
      ensures old(isPlaying) || old(queue) == [] ==>
        queue == old(queue) && pending == old(pending) && played == old(played)
        && isPlaying == old(isPlaying) && nowPlaying == old(nowPlaying) && completions == old(completions)
      ensures !old(isPlaying) && old(queue) != [] ==>
        var k := FirstAudible(old(queue));
        if k < |old(queue)| then
          queue == old(queue)[k + 1..] && played == old(played) + [old(pending)[k]]
          && nowPlaying == Some(old(queue)[k]) && isPlaying && completions == old(completions)
        else
          queue == [] && played == old(played) && !isPlaying && completions == old(completions) + 1
    {
      if isPlaying || |queue| == 0 {
        return;
      }
      isPlaying := true;
      Advance();
    }

    /** `enqueueAudio`: appends the chunk at the back of the queue, then
        tries to start a drain. */
    method Enqueue(chunk: string)
      requires Valid()
      modifies this
      ensures Valid()
      ensures enqueued == old(enqueued) + [chunk]
      ensures old(isPlaying) ==>
        queue == old(queue) + [chunk] && played == old(played)
        && isPlaying && nowPlaying == old(nowPlaying) && completions == old(completions)
      ensures !old(isPlaying) ==>
        var q := old(queue) + [chunk];
        var k := FirstAudible(q);
        if k < |q| then
          queue == q[k + 1..] && nowPlaying == Some(q[k]) && isPlaying && completions == old(completions)
        else
          queue == [] && played == old(played) && !isPlaying && completions == old(completions) + 1
    {
      IncreasingSnoc(played + pending, |enqueued|);
      assert played + pending + [|enqueued|] == played + (pending + [|enqueued|]);
      queue := queue + [chunk];
      pending := pending + [|enqueued|];
      enqueued := enqueued + [chunk];
      ProcessQueue();
    }

    /** The playback the drain waits for has ended (or failed, which the
        player logs and treats the same way): the loop goes on. */
    method PlaybackEnded()
      requires Valid() && nowPlaying.Some?
      modifies this
      ensures Valid()
      ensures enqueued == old(enqueued)
      ensures var k := FirstAudible(old(queue));
        if k < |old(queue)| then
          queue == old(queue)[k + 1..] && played == old(played) + [old(pending)[k]]
          && nowPlaying == Some(old(queue)[k]) && isPlaying && completions == old(completions)
        else
          queue == [] && played == old(played) && nowPlaying == None && !isPlaying
          && completions == old(completions) + 1
    {
      nowPlaying := None;
      Advance();
    }

    /** `clearQueue`: drops the waiting chunks only; the chunk being played
        and the flag are left alone, so the drain ends after that chunk. */
    method ClearQueue()
      requires Valid()
      modifies this
      ensures Valid()
      ensures queue == [] && pending == []
      ensures isPlaying == old(isPlaying) && nowPlaying == old(nowPlaying)
      ensures played == old(played) && enqueued == old(enqueued) && completions == old(completions)
    {
      IncreasingDrop(played, pending, |pending|);
      assert played + pending[|pending|..] == played;
      assert played + [] == played;
      queue := [];
      pending := [];
    }
  }
}
