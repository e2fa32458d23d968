/**
 `yield_lines_from_fds` of `resallocserver/helpers.py`: lines from several descriptors, with a cap.

 What `select` and `os.read` return is a parameter: for every round the descriptors that are
 ready and how many bytes the kernel would hand out for each.  A generator that raises stops
 after the items it has yielded, so its items and its outcome are results side by side.
 */
module Lines {
  import opened Collections

  newtype Byte = x: int | 0 <= x < 256
  type Bytes = seq<Byte>
  type Fd = nat

  const NEWLINE: Byte := 10

  /** The index just after the first newline. */
  function LineEnd(s: Bytes): (n: nat)
    requires NEWLINE in s
    ensures 0 < n <= |s| && s[n - 1] == NEWLINE && NEWLINE !in s[..n - 1]
  {
    if s[0] == NEWLINE then 1 else
    assert s == [s[0]] + s[1..];
    var n := 1 + LineEnd(s[1..]);
    assert s[..n - 1] == [s[0]] + s[1..][..n - 2];
    n
  }

  /** The terminated lines of a stream, newlines included. */
  function LinesOf(s: Bytes): seq<Bytes> {
    if NEWLINE !in s then [] else [s[..LineEnd(s)]] + LinesOf(s[LineEnd(s)..])
  }

  /** What follows the last newline. */
  function TailOf(s: Bytes): (t: Bytes)
    ensures NEWLINE !in t
  {
    if NEWLINE !in s then s else TailOf(s[LineEnd(s)..])
  }

  function Concat(items: seq<Bytes>): Bytes {
    if items == [] then [] else items[0] + Concat(items[1..])
  }

  lemma {:induction false} ConcatAppend(a: seq<Bytes>, b: seq<Bytes>)
    ensures Concat(a + b) == Concat(a) + Concat(b)
    decreases |a|
  {
    if a == [] {
      assert a + b == b;
    } else {
      assert (a + b)[1..] == a[1..] + b;
      ConcatAppend(a[1..], b);
    }
  }

  /** One newline, at the end. */
  predicate Terminated(line: Bytes) {
    |line| > 0 && line[|line| - 1] == NEWLINE && NEWLINE !in line[..|line| - 1]
  }

  lemma {:induction false} LinesAreTerminated(s: Bytes)
    ensures forall i :: 0 <= i < |LinesOf(s)| ==> Terminated(LinesOf(s)[i])
    decreases |s|
  {
    if NEWLINE in s {
      var n, lines, rest := LineEnd(s), LinesOf(s), LinesOf(s[LineEnd(s)..]);
      LinesAreTerminated(s[n..]);
      FirstIsTerminated(s);
      assert lines == [s[..n]] + rest;
      hide LinesOf, Terminated, LineEnd;
      forall i | 0 <= i < |lines| ensures Terminated(lines[i]) {
        assert i > 0 ==> lines[i] == rest[i - 1];
      }
    }
  }

  lemma FirstLine(s: Bytes)
    requires NEWLINE in s
    ensures LinesOf(s) == [s[..LineEnd(s)]] + LinesOf(s[LineEnd(s)..])
    ensures TailOf(s) == TailOf(s[LineEnd(s)..])
  {
  }

  lemma ConcatFirst(line: Bytes, rest: seq<Bytes>)
    ensures Concat([line] + rest) == line + Concat(rest)
  {
    assert ([line] + rest)[1..] == rest;
  }

  lemma PutBack(line: Bytes, middle: Bytes, tail: Bytes, s: Bytes, n: nat)
    requires n <= |s| && line == s[..n] && middle + tail == s[n..]
    ensures (line + middle) + tail == s
  {
    assert (line + middle) + tail == line + (middle + tail);
  }

  lemma {:induction false} LinesAndTail(s: Bytes)
    ensures Concat(LinesOf(s)) + TailOf(s) == s
    decreases |s|
  {
    if NEWLINE in s {
      hide LinesOf, TailOf, Concat;
      var n := LineEnd(s);
      LinesAndTail(s[n..]);
      FirstLine(s);
      ConcatFirst(s[..n], LinesOf(s[n..]));
      PutBack(s[..n], Concat(LinesOf(s[n..])), TailOf(s), s, n);
    }
  }

  /** The lines and the tail make up the stream, and every line is terminated. */
  lemma LinesMakeUpTheStream(s: Bytes)
    ensures Concat(LinesOf(s)) + TailOf(s) == s
    ensures forall i :: 0 <= i < |LinesOf(s)| ==> Terminated(LinesOf(s)[i])
  {
    LinesAndTail(s);
    LinesAreTerminated(s);
  }

  lemma FirstIsTerminated(s: Bytes)
    requires NEWLINE in s
    ensures Terminated(s[..LineEnd(s)])
  {
    var n := LineEnd(s);
    assert s[..n][..n - 1] == s[..n - 1];
  }

  lemma NoneBefore(s: Bytes, k: nat)
    requires k <= |s| && NEWLINE !in s[..k]
    ensures forall i :: 0 <= i < k ==> s[i] != NEWLINE
  {
    forall i | 0 <= i < k ensures s[i] != NEWLINE { assert s[..k][i] == s[i]; }
  }

  lemma LineEndUnique(line: Bytes, rest: Bytes)
    requires Terminated(line)
    ensures NEWLINE in line + rest && LineEnd(line + rest) == |line|
  {
    var s := line + rest;
    assert s[|line| - 1] == NEWLINE;
    NoneBefore(line, |line| - 1);
    NoneBefore(s, LineEnd(s) - 1);
  }

  /** No other division into terminated lines and a tail without newline exists. */
  lemma {:induction false} DivisionUnique(s: Bytes, lines: seq<Bytes>, tail: Bytes)
    requires s == Concat(lines) + tail
    requires forall i :: 0 <= i < |lines| ==> Terminated(lines[i])
    requires NEWLINE !in tail
    ensures LinesOf(s) == lines && TailOf(s) == tail
    decreases |lines|
  {
    if lines == [] {
      assert s == tail;
    } else {
      var rest := Concat(lines[1..]) + tail;
      assert s == lines[0] + rest;
      DivisionUnique(rest, lines[1..], tail);
      LineEndUnique(lines[0], rest);
      assert s[|lines[0]|..] == rest;
    }
  }

  lemma TwoDivisions(s: Bytes, chunk: Bytes, lines: seq<Bytes>, t: Bytes, more: seq<Bytes>, tail: Bytes)
    requires Concat(lines) + t == s && Concat(more) + tail == t + chunk
    ensures Concat(lines + more) + tail == s + chunk
  {
    ConcatAppend(lines, more);
    calc {
      Concat(lines + more) + tail;
      Concat(lines) + (Concat(more) + tail);
      Concat(lines) + (t + chunk);
      (Concat(lines) + t) + chunk;
    }
  }

  /** Reading on: only the tail takes part in what the next bytes complete. */
  lemma ReadOn(s: Bytes, chunk: Bytes)
    ensures LinesOf(s + chunk) == LinesOf(s) + LinesOf(TailOf(s) + chunk)
    ensures TailOf(s + chunk) == TailOf(TailOf(s) + chunk)
  {
    hide LinesOf, TailOf, Concat, Terminated;
    var t := TailOf(s);
    LinesMakeUpTheStream(s);
    LinesMakeUpTheStream(t + chunk);
    TwoDivisions(s, chunk, LinesOf(s), t, LinesOf(t + chunk), TailOf(t + chunk));
    DivisionUnique(s + chunk, LinesOf(s) + LinesOf(t + chunk), TailOf(t + chunk));
  }

  /** The stream breaks the cap `limit`: a line is too long, or the unterminated tail fills it. */
  ghost predicate Exceeds(s: Bytes, limit: nat) {
    || (exists i :: 0 <= i < |LinesOf(s)| && |LinesOf(s)[i]| > limit)
    || |TailOf(s)| >= limit
  }

  /** Once the text after the last newline fills the cap, no continuation can repair that. */
  lemma FullBufferExceeds(s: Bytes, read: nat, limit: nat)
    requires read <= |s| && |TailOf(s[..read])| >= limit
    ensures Exceeds(s, limit)
  {
    var tail, chunk := TailOf(s[..read]), s[read..];
    assert s == s[..read] + chunk;
    ReadOn(s[..read], chunk);
    if NEWLINE in tail + chunk {
      var n := LineEnd(tail + chunk);
      assert forall i :: 0 <= i < |tail| ==> tail[i] in tail;
      assert n > |tail|;
      var i := |LinesOf(s[..read])|;
      assert LinesOf(s)[i] == (tail + chunk)[..n];
    }
  }

  datatype Outcome = Finished | TimedOut | Overflow

  /** The items that one descriptor contributed. */
  function Of(items: seq<(Fd, Bytes)>, fd: Fd): seq<Bytes> {
    if items == [] then []
    else (if items[0].0 == fd then [items[0].1] else []) + Of(items[1..], fd)
  }

  lemma {:induction false} OfAppend(a: seq<(Fd, Bytes)>, b: seq<(Fd, Bytes)>, fd: Fd)
    ensures Of(a + b, fd) == Of(a, fd) + Of(b, fd)
    decreases |a|
  {
    if a == [] {
      assert a + b == b;
    } else {
      assert (a + b)[1..] == a[1..] + b;
      OfAppend(a[1..], b, fd);
    }
  }

  /** What a descriptor has contributed after `read` bytes, and after its end of file if `closed`. */
  function Expected(s: Bytes, read: nat, closed: bool): seq<Bytes>
    requires read <= |s|
  {
    LinesOf(s[..read]) + if closed && TailOf(s[..read]) != [] then [TailOf(s[..read])] else []
  }

  /** `os.read(fd, n)`: between one and `n` bytes, none at the end of the file. */
  function Granted(size: nat, n: nat, left: nat): (k: nat)
    ensures k <= n && k <= left
    ensures k == 0 ==> n == 0 || left == 0
  {
    Min(if size == 0 then 1 else size, Min(n, left))
  }

  /** One descriptor's part of the loop state matches what has been read from it so far. */
  ghost predicate Tracks(s: Bytes, got: seq<Bytes>, read: nat, closed: bool, buffer: Bytes) {
    && read <= |s| && (closed ==> read == |s|)
    && buffer == TailOf(s[..read])
    && got == Expected(s, read, closed)
  }

  ghost predicate Consistent(streams: map<Fd, Bytes>, items: seq<(Fd, Bytes)>, read: map<Fd, nat>, closed: set<Fd>,
                             buffers: map<Fd, Bytes>)
  {
    && read.Keys == streams.Keys && buffers.Keys == streams.Keys && closed <= streams.Keys
    && (forall fd :: fd in streams ==>
          Tracks(streams[fd], Of(items, fd), read[fd], fd in closed, buffers[fd]))
  }

  ghost predicate ShortLines(lines: seq<Bytes>, limit: nat) {
    forall i :: 0 <= i < |lines| ==> |lines[i]| <= limit
  }

  /** So far one descriptor has kept within the cap. */
  ghost predicate Within(s: Bytes, read: nat, closed: bool, limit: nat) {
    read <= |s| && (limit > 0 ==>
      && |TailOf(s[..read])| <= limit && ShortLines(LinesOf(s[..read]), limit)
      && (closed ==> |TailOf(s[..read])| < limit))
  }

  ghost predicate AllWithin(streams: map<Fd, Bytes>, read: map<Fd, nat>, closed: set<Fd>, limit: nat)
  {
    && read.Keys == streams.Keys
    && forall fd :: fd in streams ==> Within(streams[fd], read[fd], fd in closed, limit)
  }

  /** Reading no more than the cap leaves room for keeps the lines short. */
  lemma ReadWithin(s: Bytes, read: nat, n: nat, limit: nat)
    requires read + n <= |s| && Within(s, read, false, limit)
    requires limit > 0 ==> n <= limit - |TailOf(s[..read])|
    ensures Within(s, read + n, false, limit)
  {
    var tail, chunk := TailOf(s[..read]), s[read..read + n];
    assert s[..read + n] == s[..read] + chunk;
    ReadOn(s[..read], chunk);
    LinesMakeUpTheStream(tail + chunk);
    PartsAreShort(LinesOf(tail + chunk), TailOf(tail + chunk));
  }

  /** No part of a concatenation is longer than the whole. */
  lemma {:induction false} PartsAreShort(lines: seq<Bytes>, tail: Bytes)
    ensures |tail| <= |Concat(lines) + tail|
    ensures ShortLines(lines, |Concat(lines) + tail|)
    decreases |lines|
  {
    if lines != [] {
      PartsAreShort(lines[1..], tail);
      forall i | 0 <= i < |lines| ensures |lines[i]| <= |Concat(lines) + tail| {
        if i > 0 { assert lines[i] == lines[1..][i - 1]; }
      }
    }
  }

  lemma NoLine(s: Bytes)
    requires NEWLINE !in s
    ensures LinesOf(s) == [] && TailOf(s) == s
  {
  }

  lemma OfOneMore(items: seq<(Fd, Bytes)>, fd: Fd, item: Bytes)
    ensures forall f :: Of(items + [(fd, item)], f) == Of(items, f) + if f == fd then [item] else []
  {
    forall f: Fd ensures Of(items + [(fd, item)], f) == Of(items, f) + if f == fd then [item] else [] {
      OfAppend(items, [(fd, item)], f);
      assert Of([(fd, item)], f) == (if f == fd then [item] else []) + Of([], f);
    }
  }

  /** The inner loop: yields the lines that are complete, and returns what is left in the buffer. */
  method SplitBuffer(fd: Fd, buffer: Bytes) returns (items: seq<(Fd, Bytes)>, rest: Bytes)
    ensures Of(items, fd) == LinesOf(buffer) && rest == TailOf(buffer)
    ensures forall other :: other != fd ==> Of(items, other) == []
  {
    items := [];
    rest := buffer;
    hide LinesOf, TailOf;
    while NEWLINE in rest
      invariant Of(items, fd) + LinesOf(rest) == LinesOf(buffer)
      invariant TailOf(rest) == TailOf(buffer)
      invariant forall other :: other != fd ==> Of(items, other) == []
      decreases |rest|
    {
      var n := LineEnd(rest);
      FirstLine(rest);
      OfOneMore(items, fd, rest[..n]);
      hide Of;
      assert Of(items, fd) + ([rest[..n]] + LinesOf(rest[n..])) == Of(items, fd) + [rest[..n]] + LinesOf(rest[n..]);
      items := items + [(fd, rest[..n])];
      rest := rest[n..];
    }
    NoLine(rest);
  }

  lemma TracksChunk(s: Bytes, got: seq<Bytes>, read: nat, buffer: Bytes, n: nat, lines: seq<Bytes>)
    requires Tracks(s, got, read, false, buffer) && read + n <= |s|
    requires lines == LinesOf(buffer + s[read..read + n])
    ensures Tracks(s, got + lines, read + n, false, TailOf(buffer + s[read..read + n]))
  {
    hide LinesOf, TailOf;
    assert s[..read + n] == s[..read] + s[read..read + n];
    ReadOn(s[..read], s[read..read + n]);
    assert got == LinesOf(s[..read]);
  }

  lemma AfterChunk(streams: map<Fd, Bytes>, items: seq<(Fd, Bytes)>, read: map<Fd, nat>, closed: set<Fd>,
                   buffers: map<Fd, Bytes>, fd: Fd, n: nat, lines: seq<(Fd, Bytes)>, rest: Bytes)
    requires Consistent(streams, items, read, closed, buffers)
    requires fd in streams && fd !in closed && read[fd] + n <= |streams[fd]|
    requires Of(lines, fd) == LinesOf(buffers[fd] + streams[fd][read[fd]..read[fd] + n])
    requires rest == TailOf(buffers[fd] + streams[fd][read[fd]..read[fd] + n])
    requires forall other :: other != fd ==> Of(lines, other) == []
    ensures Consistent(streams, items + lines, read[fd := read[fd] + n], closed, buffers[fd := rest])
  {
    hide Tracks, LinesOf, TailOf, Of;
    TracksChunk(streams[fd], Of(items, fd), read[fd], buffers[fd], n, Of(lines, fd));
    var read', buffers' := read[fd := read[fd] + n], buffers[fd := rest];
    forall f | f in streams
      ensures Tracks(streams[f], Of(items + lines, f), read'[f], f in closed, buffers'[f])
    {
      OfAppend(items, lines, f);
      if f != fd {
        assert Of(items + lines, f) == Of(items, f);
        assert Tracks(streams[f], Of(items, f), read[f], f in closed, buffers[f]);
      }
    }
  }

  /** The item that the end of file adds. */
  function LastItem(fd: Fd, buffer: Bytes): seq<(Fd, Bytes)> {
    if buffer != [] then [(fd, buffer)] else []
  }

  lemma OfLastItem(fd: Fd, buffer: Bytes)
    ensures forall f :: Of(LastItem(fd, buffer), f) == if f == fd && buffer != [] then [buffer] else []
  {
  }

  lemma TracksEof(s: Bytes, got: seq<Bytes>, read: nat, buffer: Bytes)
    requires Tracks(s, got, read, false, buffer) && read == |s|
    ensures Tracks(s, got + if buffer != [] then [buffer] else [], read, true, buffer)
  {
    hide LinesOf, TailOf;
  }

  lemma AfterEof(streams: map<Fd, Bytes>, items: seq<(Fd, Bytes)>, read: map<Fd, nat>, closed: set<Fd>,
                 buffers: map<Fd, Bytes>, fd: Fd)
    requires Consistent(streams, items, read, closed, buffers)
    requires fd in streams && fd !in closed && read[fd] == |streams[fd]|
    ensures Consistent(streams, items + LastItem(fd, buffers[fd]), read, closed + {fd}, buffers)
  {
    hide Tracks, Of;
    TracksEof(streams[fd], Of(items, fd), read[fd], buffers[fd]);
    OfLastItem(fd, buffers[fd]);
    hide LastItem;
    forall f | f in streams
      ensures Tracks(streams[f], Of(items + LastItem(fd, buffers[fd]), f), read[f], f in closed + {fd}, buffers[f])
    {
      OfAppend(items, LastItem(fd, buffers[fd]), f);
      assert Of(items, f) + [] == Of(items, f);
    }
  }

  lemma EofWithin(streams: map<Fd, Bytes>, read: map<Fd, nat>, closed: set<Fd>, limit: nat, fd: Fd)
    requires AllWithin(streams, read, closed, limit)
    requires fd in streams && read[fd] <= |streams[fd]|
    requires limit > 0 ==> |TailOf(streams[fd][..read[fd]])| < limit
    ensures AllWithin(streams, read, closed + {fd}, limit)
  {
    hide LinesOf, TailOf;
  }

  lemma AllRead(streams: map<Fd, Bytes>, items: seq<(Fd, Bytes)>, read: map<Fd, nat>, buffers: map<Fd, Bytes>,
                limit: nat)
    requires Consistent(streams, items, read, streams.Keys, buffers)
    requires limit > 0 && AllWithin(streams, read, streams.Keys, limit)
    ensures forall fd :: fd in streams ==> !Exceeds(streams[fd], limit)
  {
    hide LinesOf, TailOf;
    forall fd | fd in streams ensures !Exceeds(streams[fd], limit) {
      assert Tracks(streams[fd], Of(items, fd), read[fd], true, buffers[fd]);
      assert Within(streams[fd], read[fd], true, limit);
      assert streams[fd][..read[fd]] == streams[fd];
    }
  }

  lemma AtStart(streams: map<Fd, Bytes>, limit: nat)
    ensures var read := map fd | fd in streams :: 0;
            Consistent(streams, [], read, {}, map fd | fd in streams :: []) && AllWithin(streams, read, {}, limit)
  {
    assert forall fd :: fd in streams ==> streams[fd][..0] == [];
  }

  lemma ChunkWithin(streams: map<Fd, Bytes>, read: map<Fd, nat>, closed: set<Fd>, limit: nat, fd: Fd, n: nat)
    requires AllWithin(streams, read, closed, limit)
    requires fd in streams && fd !in closed && read[fd] + n <= |streams[fd]|
    requires limit > 0 ==> n <= limit - |TailOf(streams[fd][..read[fd]])|
    ensures AllWithin(streams, read[fd := read[fd] + n], closed, limit)
  {
    ReadWithin(streams[fd], read[fd], n, limit);
    hide Within, TailOf;
  }

  /** One `os.read` from a ready descriptor, and what follows from it. */
  method Serve(streams: map<Fd, Bytes>, items: seq<(Fd, Bytes)>, read: map<Fd, nat>, closed: set<Fd>,
               buffers: map<Fd, Bytes>, fd: Fd, size: nat, maxLineLength: nat)
    returns (overflow: bool, items': seq<(Fd, Bytes)>, read': map<Fd, nat>, closed': set<Fd>,
             buffers': map<Fd, Bytes>)
    requires Consistent(streams, items, read, closed, buffers)
    requires AllWithin(streams, read, closed, maxLineLength)
    requires fd in streams && fd !in closed
    ensures Consistent(streams, items', read', closed', buffers')
    ensures !overflow ==> AllWithin(streams, read', closed', maxLineLength)
    ensures overflow ==> maxLineLength > 0 && Exceeds(streams[fd], maxLineLength)
  {
    assert Tracks(streams[fd], Of(items, fd), read[fd], false, buffers[fd]);
    hide LinesOf, TailOf, Of, Exceeds, Within, LastItem;
    overflow, items', read', closed', buffers' := false, items, read, closed, buffers;
    var wanted := 4096;
    if maxLineLength > 0 {
      if |buffers[fd]| >= maxLineLength {
        FullBufferExceeds(streams[fd], read[fd], maxLineLength);
        overflow := true;
        return;
      }
      wanted := Min(4096, maxLineLength - |buffers[fd]|);
    }
    var n := Granted(size, wanted, |streams[fd]| - read[fd]);
    if n > 0 {
      ChunkWithin(streams, read, closed, maxLineLength, fd, n);
      var lines, rest := SplitBuffer(fd, buffers[fd] + streams[fd][read[fd]..read[fd] + n]);
      AfterChunk(streams, items, read, closed, buffers, fd, n, lines, rest);
      items', read', buffers' := items + lines, read[fd := read[fd] + n], buffers[fd := rest];
    } else {
      AfterEof(streams, items, read, closed, buffers, fd);
      EofWithin(streams, read, closed, maxLineLength, fd);
      items', closed' := items + LastItem(fd, buffers[fd]), closed + {fd};
    }
  }

  /** What the caller has got from one descriptor: the lines of what was read, and at its end the rest. */
  ghost predicate Delivered(streams: map<Fd, Bytes>, items: seq<(Fd, Bytes)>, read: map<Fd, nat>, closed: set<Fd>) {
    && read.Keys == streams.Keys && closed <= streams.Keys
    && (forall fd :: fd in streams ==> read[fd] <= |streams[fd]|)
    && (forall fd :: fd in closed ==> read[fd] == |streams[fd]|)
    && (forall fd :: fd in streams ==> Of(items, fd) == Expected(streams[fd], read[fd], fd in closed))
  }

  lemma ConsistentDelivered(streams: map<Fd, Bytes>, items: seq<(Fd, Bytes)>, read: map<Fd, nat>, closed: set<Fd>,
                            buffers: map<Fd, Bytes>)
    requires Consistent(streams, items, read, closed, buffers)
    ensures Delivered(streams, items, read, closed)
  {
    hide Expected, Of;
    assert forall fd :: fd in streams ==> Tracks(streams[fd], Of(items, fd), read[fd], fd in closed, buffers[fd]);
  }

  method YieldLines(streams: map<Fd, Bytes>, rounds: seq<seq<(Fd, nat)>>, maxLineLength: nat)
    returns (items: seq<(Fd, Bytes)>, outcome: Outcome, read: map<Fd, nat>, closed: set<Fd>)
    ensures Delivered(streams, items, read, closed)
    ensures outcome == Finished ==> closed == streams.Keys
    ensures outcome == Finished && maxLineLength > 0 ==>
              forall fd :: fd in streams ==> !Exceeds(streams[fd], maxLineLength)
    ensures outcome == Overflow ==>
              maxLineLength > 0 && exists fd :: fd in streams && Exceeds(streams[fd], maxLineLength)
  {
    items, closed := [], {};
    read := map fd | fd in streams :: 0;
    var buffers: map<Fd, Bytes> := map fd | fd in streams :: [];
    AtStart(streams, maxLineLength);
    hide Consistent, AllWithin, Exceeds, Delivered;
    var k := 0;
    while closed != streams.Keys
      invariant k <= |rounds|
      invariant Consistent(streams, items, read, closed, buffers)
      invariant AllWithin(streams, read, closed, maxLineLength)
      decreases |rounds| - k
    {
      // the deadline has passed, or select reported nothing
      if k == |rounds| || rounds[k] == [] {
        ConsistentDelivered(streams, items, read, closed, buffers);
        return items, TimedOut, read, closed;
      }
      var ready := rounds[k];
      k := k + 1;
      var i := 0;
      while i < |ready|
        invariant i <= |ready|
        invariant Consistent(streams, items, read, closed, buffers)
        invariant AllWithin(streams, read, closed, maxLineLength)
      {
        var fd, size := ready[i].0, ready[i].1;
        i := i + 1;
        // select is asked about the active descriptors only
        if fd in streams && fd !in closed {
          var overflow;
          overflow, items, read, closed, buffers :=
            Serve(streams, items, read, closed, buffers, fd, size, maxLineLength);
          if overflow {
            ConsistentDelivered(streams, items, read, closed, buffers);
            return items, Overflow, read, closed;
          }
        }
      }
    }
    ConsistentDelivered(streams, items, read, closed, buffers);
    if maxLineLength > 0 {
      AllRead(streams, items, read, buffers, maxLineLength);
    }
    outcome := Finished;
  }

  /** The items of one descriptor, with what is still unread or undelivered, are the bytes read. */
  lemma ItemsMakeUpTheStream(streams: map<Fd, Bytes>, items: seq<(Fd, Bytes)>, read: map<Fd, nat>, closed: set<Fd>,
                             fd: Fd)
    requires Delivered(streams, items, read, closed) && fd in streams
    ensures var got, s := Of(items, fd), streams[fd][..read[fd]];
            && Concat(got) + (if fd in closed then [] else TailOf(s)) == s
            && (forall i :: 0 <= i < |got| ==>
                  Terminated(got[i]) || (fd in closed && i == |got| - 1 && got[i] != [] && NEWLINE !in got[i]))
  {
    var s := streams[fd][..read[fd]];
    assert Of(items, fd) == Expected(streams[fd], read[fd], fd in closed);
    hide LinesOf, TailOf, Concat, Terminated, Delivered, Of;
    LinesMakeUpTheStream(s);
    ConcatLast(LinesOf(s), TailOf(s));
    assert LinesOf(s) + [] == LinesOf(s);
  }

  lemma ConcatLast(items: seq<Bytes>, last: Bytes)
    ensures Concat(items + [last]) == Concat(items) + last
  {
    ConcatAppend(items, [last]);
    assert Concat([last]) == last + Concat([]);
  }

  /** The division of a stream into chunks, and the other descriptors, have no influence on the items. */
  lemma ChunkingDoesNotMatter(one: map<Fd, Bytes>, items1: seq<(Fd, Bytes)>, read1: map<Fd, nat>, closed1: set<Fd>,
                              two: map<Fd, Bytes>, items2: seq<(Fd, Bytes)>, read2: map<Fd, nat>, closed2: set<Fd>,
                              fd: Fd)
    requires Delivered(one, items1, read1, closed1) && Delivered(two, items2, read2, closed2)
    requires fd in closed1 && fd in closed2 && one[fd] == two[fd]
    ensures Of(items1, fd) == Of(items2, fd)
  {
  }
}
