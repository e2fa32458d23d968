/**
 The capture loop of `_run_command` in `resallocserver/manager.py`: what a caller of a hook gets
 to see of the hook's standard output, and what the log gets.
 */
module Capture {
  import opened Lines

  /** `b"<< trimmed >>\n"` */
  const TRIMMED: Bytes := [60, 60, 32, 116, 114, 105, 109, 109, 101, 100, 32, 62, 62, 10]

  /** The cap on a line when names are captured securely. */
  const SECURE_LINE_LENGTH := 10240

  const TIMEOUT_STATUS := 124

  /** `k` items fit into `limit` bytes, and one more would not. */
  ghost predicate LongestFit(items: seq<Bytes>, limit: nat, k: nat) {
    && k <= |items| && |Concat(items[..k])| <= limit
    && (k < |items| ==> |Concat(items[..k + 1])| > limit)
  }

  /** What the loop captures when `k` items fit. */
  ghost function Captured(items: seq<Bytes>, limit: nat, secure: bool, k: nat): Bytes
    requires k <= |items|
  {
    var fitting := Concat(items[..k]);
    if k == |items| || secure then fitting
    else if k == 0 then items[0][..if |items[0]| < limit then |items[0]| else limit] + TRIMMED
    else fitting + TRIMMED
  }

  lemma ConcatNext(items: seq<Bytes>, i: nat)
    requires i < |items|
    ensures Concat(items[..i + 1]) == Concat(items[..i]) + items[i]
  {
    assert items[..i + 1] == items[..i] + [items[i]];
    ConcatLast(items[..i], items[i]);
  }

  method CaptureLoop(items: seq<Bytes>, limit: nat, secure: bool)
    returns (captured: Bytes, logged: Bytes, fitting: nat)
    requires limit > 0
    // the generator never yields an empty item
    requires forall i :: 0 <= i < |items| ==> items[i] != []
    ensures LongestFit(items, limit, fitting)
    ensures captured == Captured(items, limit, secure, fitting)
    ensures logged == Concat(items)
  {
    captured, logged, fitting := [], [], 0;
    var written, stopped := 0, false;
    var i := 0;
    while i < |items|
      invariant i <= |items| && logged == Concat(items[..i])
      invariant fitting <= i && written == |Concat(items[..fitting])| <= limit
      invariant !stopped ==> fitting == i && captured == Concat(items[..i])
      invariant stopped ==> LongestFit(items, limit, fitting) && fitting < |items|
      invariant stopped ==> captured == Captured(items, limit, secure, fitting)
    {
      var line := items[i];
      ConcatNext(items, i);
      logged := logged + line;
      i := i + 1;
      if stopped {
        continue;
      }
      if written + |line| > limit {
        if written == 0 && !secure {
          NothingWritten(items, fitting);
          captured := captured + line[..limit];
        }
        stopped := true;
        if !secure {
          captured := captured + TRIMMED;
        }
        continue;
      }
      written := written + |line|;
      captured := captured + line;
      fitting := i;
    }
    assert items[..i] == items;
  }

  /** No bytes written means that no item was captured, since no item is empty. */
  lemma NothingWritten(items: seq<Bytes>, k: nat)
    requires forall i :: 0 <= i < |items| ==> items[i] != []
    requires k <= |items|
    ensures Concat(items[..k]) == [] <==> k == 0
  {
    if k > 0 {
      ConcatNext(items, k - 1);
    }
  }

  /** Fewer items make up fewer bytes. */
  lemma {:induction false} ConcatGrows(items: seq<Bytes>, j: nat, k: nat)
    requires j <= k <= |items|
    ensures Concat(items[..j]) <= Concat(items[..k])
    decreases k
  {
    if j < k {
      ConcatGrows(items, j, k - 1);
      ConcatNext(items, k - 1);
    }
  }

  /** No longer run of whole items would have fitted. */
  lemma NoLongerFit(items: seq<Bytes>, limit: nat, k: nat, j: nat)
    requires LongestFit(items, limit, k)
    requires j <= |items| && |Concat(items[..j])| <= limit
    ensures j <= k
  {
    if j > k {
      ConcatGrows(items, k + 1, j);
    }
  }

  /**
   What a caller gets of the output: all of it if it fits; otherwise the whole items that fit, or if
   not even the first one fits as much of it as does, and then the remark that it was trimmed; a
   secure capture has neither a part of an item nor the remark.
   */
  lemma CapturedIs(items: seq<Bytes>, limit: nat, secure: bool, k: nat)
    requires LongestFit(items, limit, k)
    ensures var all, out := Concat(items), Captured(items, limit, secure, k);
      && (|all| <= limit ==> out == all)
      && (|all| > limit && secure ==> out == Concat(items[..k]) && out <= all && |out| <= limit)
      && (|all| > limit && !secure ==>
            exists part: Bytes :: out == part + TRIMMED && part <= all && |part| <= limit
              && (if k == 0 then |part| == limit else part == Concat(items[..k])))
  {
    assert items[..|items|] == items;
    ConcatGrows(items, k, |items|);
    if |Concat(items)| <= limit {
      NoLongerFit(items, limit, k, |items|);
    } else if k == 0 && !secure {
      ConcatNext(items, 0);
      ConcatGrows(items, 1, |items|);
      var part := items[0][..limit];
      assert items[..0] == [] && Concat(items[..1]) == items[0];
      assert part <= items[0] <= Concat(items);
    } else {
      assert k < |items|;
    }
  }

  /** The ASCII characters that `str.split` splits at. */
  predicate Blank(b: Byte) { 9 <= b <= 13 || 28 <= b <= 32 }

  /** `s[i..j]` is a word: a longest run without blanks. */
  predicate WordAt(s: Bytes, i: nat, j: nat) {
    && i < j <= |s|
    && (forall k :: i <= k < j ==> !Blank(s[k]))
    && (i == 0 || Blank(s[i - 1]))
    && (j == |s| || Blank(s[j]))
  }

  /** The words that `split` finds. */
  function Words(s: Bytes): set<Bytes> {
    set i, j | 0 <= i < j <= |s| && WordAt(s, i, j) :: s[i..j]
  }

  /** `out` ends where `s` has the end of a line, or its own end. */
  ghost predicate WholeLines(out: Bytes, s: Bytes) {
    out <= s && (out == [] || out == s || out[|out| - 1] == NEWLINE)
  }

  lemma WordsAreWhole(out: Bytes, s: Bytes, i: nat, j: nat)
    requires WholeLines(out, s) && WordAt(out, i, j)
    ensures WordAt(s, i, j) && s[i..j] == out[i..j]
  {
    assert forall k :: 0 <= k < |out| ==> s[k] == out[k];
    assert out[j - 1] != NEWLINE;
  }

  lemma WordsOfLines(out: Bytes, s: Bytes)
    requires WholeLines(out, s)
    ensures Words(out) <= Words(s)
  {
    hide WholeLines, WordAt;
    forall w | w in Words(out) ensures w in Words(s) {
      var i, j :| 0 <= i < j <= |out| && WordAt(out, i, j) && out[i..j] == w;
      WordsAreWhole(out, s, i, j);
      assert j <= |s| by { assert WordAt(s, i, j); }
    }
  }

  /** Any number of a stream's items ends with a newline, unless it is the whole of a closed stream. */
  lemma PrefixOfItems(items: seq<Bytes>, seen: Bytes, rest: Bytes, closed: bool, k: nat)
    requires Concat(items) + rest == seen && k <= |items| && (closed ==> rest == [])
    requires forall i :: 0 <= i < |items| ==>
               Terminated(items[i]) || (closed && i == |items| - 1 && items[i] != [])
    ensures var out := Concat(items[..k]);
            out <= seen && (out == [] || out[|out| - 1] == NEWLINE || (closed && out == seen))
  {
    ConcatGrows(items, k, |items|);
    assert items[..|items|] == items;
    if k > 0 {
      ConcatNext(items, k - 1);
      if !Terminated(items[k - 1]) {
        assert items[..k] == items;
      }
    }
  }

  /**
   `_run_command` with a captured standard output, for a command that writes `stream` and exits
   with `exitStatus`.  The log gets what was delivered; the caller gets the captured part of it.
   */
  method RunCommand(stream: Bytes, rounds: seq<seq<(Fd, nat)>>, limit: nat, secure: bool, exitStatus: int)
    returns (status: int, stdout: Bytes, logged: Bytes, items: seq<Bytes>, fitting: nat)
    requires limit > 0
    ensures logged <= stream && logged == Concat(items)
    ensures LongestFit(items, limit, fitting) && stdout == Captured(items, limit, secure, fitting)
    ensures status == exitStatus || status == TIMEOUT_STATUS
    ensures status != TIMEOUT_STATUS ==> logged == stream
    ensures secure && status != TIMEOUT_STATUS ==> !Exceeds(stream, SECURE_LINE_LENGTH)
    // a secure capture never holds a cut-off word, not even after a time-out or an overflow
    ensures secure ==> WholeLines(stdout, stream) && Words(stdout) <= Words(stream)
  {
    hide Delivered, Exceeds, TailOf, LinesOf, Of, WholeLines, Words;
    var streams: map<Fd, Bytes> := map[0 := stream];
    var yielded, outcome, read, closed :=
      YieldLines(streams, rounds, if secure then SECURE_LINE_LENGTH else 0);
    items := Of(yielded, 0);
    ReadSoFar(streams, yielded, read, closed, 0);
    ItemsMakeUpTheStream(streams, yielded, read, closed, 0);
    ghost var seen := stream[..read[0]];
    stdout, logged, fitting := CaptureLoop(items, limit, secure);
    status := if outcome == Finished then exitStatus else TIMEOUT_STATUS;
    ItemsSoFar(items, stream, read[0], if 0 in closed then [] else TailOf(seen), 0 in closed, fitting);
    assert outcome == Finished ==> seen == stream;
    if secure { WordsOfLines(stdout, stream); }
  }

  lemma ReadSoFar(streams: map<Fd, Bytes>, items: seq<(Fd, Bytes)>, read: map<Fd, nat>, closed: set<Fd>, fd: Fd)
    requires Delivered(streams, items, read, closed) && fd in streams
    ensures fd in read && read[fd] <= |streams[fd]|
    ensures fd in closed ==> read[fd] == |streams[fd]|
  {
  }

  lemma ItemsSoFar(items: seq<Bytes>, stream: Bytes, read: nat, rest: Bytes, closed: bool, k: nat)
    requires read <= |stream| && (closed ==> read == |stream| && rest == [])
    requires Concat(items) + rest == stream[..read] && k <= |items|
    requires forall i :: 0 <= i < |items| ==>
               Terminated(items[i]) || (closed && i == |items| - 1 && items[i] != [])
    ensures Concat(items) <= stream && (closed ==> Concat(items) == stream)
    ensures WholeLines(Concat(items[..k]), stream)
  {
    hide Concat, WholeLines, Terminated;
    assert closed ==> stream[..read] == stream && Concat(items) + rest == Concat(items);
    assert stream == stream[..read] + stream[read..];
    PrefixOfItems(items, stream[..read], rest, closed, k);
    PrefixIsWhole(Concat(items[..k]), stream, read, closed);
  }

  lemma PrefixIsWhole(out: Bytes, stream: Bytes, read: nat, closed: bool)
    requires read <= |stream| && out <= stream[..read] && (closed ==> read == |stream|)
    requires out == [] || out[|out| - 1] == NEWLINE || (closed && out == stream[..read])
    ensures WholeLines(out, stream)
  {
    assert stream == stream[..read] + stream[read..];
    assert closed ==> stream[..read] == stream;
  }
}
