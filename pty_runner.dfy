/**
 * The PTY-backed session of clouddeploy/pty_runner.py: a command run under a
 * pseudo-terminal, whose output is kept in a rolling buffer of at most 1200
 * decoded chunks, oldest evicted first.
 *
 * The fork/exec of the child and the raw `select`/`os.read`/`os.write` calls are
 * operating-system I/O: the file descriptor the fork returns and every read's
 * outcome are parameters, and what is written to the child's input is recorded
 * in the field `written`.
 */
module PtyRunner {
  import opened Wrappers
  import opened Text

  type Byte = bv8

  /** `deque(maxlen=1200)`. */
  const MaxChunks: nat := 1200

  /** The default of `tail(max_chars=4000)`. */
  const DefaultTailChars: int := 4000

  /** The chunks a deque of capacity MaxChunks holds after `history` was appended to it. */
  function Recent(history: seq<string>): seq<string>
  {
    if |history| <= MaxChunks then history else history[|history| - MaxChunks..]
  }

  /**
   * Python's `s[start:]` (a negative start counts from the end, and any start is
   * clamped to the string).
   */
  function SliceFrom(s: string, start: int): string
  {
    if start >= 0 then s[if start <= |s| then start else |s|..]
    else s[if |s| + start >= 0 then |s| + start else 0..]
  }

  /** The outcome of one turn of the read loop in `stream_output`. */
  datatype ReadEvent =
    | NoData                    // `select` timed out: the loop goes round again
    | ReadFailed                // `os.read` raised OSError: the stream ends
    | Data(bytes: seq<Byte>)    // `os.read` returned these bytes; none at all is end of file

  predicate EndsStream(e: ReadEvent)
  {
    e.ReadFailed? || (e.Data? && e.bytes == [])
  }

  /**
   * The chunks `stream_output` yields (and appends to the buffer) for a run of
   * read outcomes, given how bytes are decoded.
   */
  function Received(events: seq<ReadEvent>, decode: seq<Byte> -> string): seq<string>
  {
    if events == [] || EndsStream(events[0]) then []
    else (if events[0].Data? then [decode(events[0].bytes)] else []) + Received(events[1..], decode)
  }

  predicate NoEnd(events: seq<ReadEvent>)
  {
    forall i :: 0 <= i < |events| ==> !EndsStream(events[i])
  }

  /** Appending one chunk to the deque: the oldest is evicted exactly when it is full. */
  lemma RecentSnoc(history: seq<string>, chunk: string)
    ensures |Recent(history)| <= MaxChunks
    ensures Recent(history + [chunk]) ==
      (if |Recent(history)| == MaxChunks then Recent(history)[1..] else Recent(history)) + [chunk]
  {
    var h := history + [chunk];
    if |history| >= MaxChunks {
      assert h[|h| - MaxChunks..] == history[|history| - MaxChunks..][1..] + [chunk];
    }
  }

  /** The buffered chunks are the most recent ones, in arrival order. */
  lemma RecentIsLatest(history: seq<string>)
    ensures |Recent(history)| == (if |history| < MaxChunks then |history| else MaxChunks)
    ensures forall i :: 0 <= i < |Recent(history)| ==> Recent(history)[i] == history[|history| - |Recent(history)| + i]
  {
  }

  /** Whatever `tail` returns is a trailing part of everything the child ever printed. */
  lemma TailOfOutput(history: seq<string>, maxChars: int)
    ensures IsSuffix(SliceFrom(Join(Recent(history)), -maxChars), Join(history))
  {
    var text := Join(Recent(history));
    var r := SliceFrom(text, -maxChars);
    JoinDropFront(history, |history| - |Recent(history)|);
    assert Recent(history) == history[|history| - |Recent(history)|..];
    assert IsSuffix(r, text);
  }

  /** A run of reads that has not ended yet composes with what follows it. */
  lemma {:induction false} ReceivedConcat(prefix: seq<ReadEvent>, rest: seq<ReadEvent>, decode: seq<Byte> -> string)
    requires NoEnd(prefix)
    ensures Received(prefix + rest, decode) == Received(prefix, decode) + Received(rest, decode)
  {
    if prefix == [] {
      assert prefix + rest == rest;
    } else {
      assert (prefix + rest)[0] == prefix[0];
      assert (prefix + rest)[1..] == prefix[1..] + rest;
      ReceivedConcat(prefix[1..], rest, decode);
    }
  }

  /**
   * An empty read ends the stream without adding a chunk, and nothing after it is
   * read; a non-empty read adds exactly its decoded chunk, at the end.
   */
  lemma ReadOutcome(prefix: seq<ReadEvent>, bytes: seq<Byte>, rest: seq<ReadEvent>, decode: seq<Byte> -> string)
    requires NoEnd(prefix)
    ensures bytes == [] ==> Received(prefix + [Data(bytes)] + rest, decode) == Received(prefix, decode)
    ensures bytes != [] ==>
      Received(prefix + [Data(bytes)] + rest, decode) == Received(prefix, decode) + [decode(bytes)] + Received(rest, decode)
  {
    assert prefix + [Data(bytes)] + rest == prefix + ([Data(bytes)] + rest);
    ReceivedConcat(prefix, [Data(bytes)] + rest, decode);
    assert ([Data(bytes)] + rest)[1..] == rest;
  }

  class PtySession {
    var command: string
    var fd: Option<int>
    /** `_buf`: the rolling chunks. */
    var buf: seq<string>
    /** Every chunk ever appended to `_buf`, oldest first. */
    ghost var history: seq<string>
    /** What `write` has passed to `os.write`, in order. */
    var written: seq<string>

    ghost predicate Valid()
      reads this
    {
      buf == Recent(history)
    }

    /** `PtySession(command)` with `__post_init__`: no child yet and an empty buffer. */
    constructor (command: string)
      ensures Valid()
      ensures this.command == command && fd == None && buf == [] && history == [] && written == []
    {
      this.command := command;
      fd := None;
      buf := [];
      history := [];
      written := [];
    }

    /** `start`, parent side: keep the PTY's file descriptor that `pty.fork` returned. */
    method Start(childFd: int)
      modifies this`fd
      ensures fd == Some(childFd)
    {
      fd := Some(childFd);
    }

    /** `write`: a no-op until `start` has set the file descriptor. */
    method Write(data: string)
      modifies this`written
      ensures fd.None? ==> written == old(written)
      ensures fd.Some? ==> written == old(written) + [data]
    {
      if fd.None? {
        return;
      }
      written := written + [data];
    }

    /** `"".join(self._buf)`. */
    function Joined(): string
      reads this
    {
      Join(buf)
    }

    /** `tail(max_chars)`: `text[-max_chars:]` of the joined buffer. */
    function Tail(maxChars: int := DefaultTailChars): (r: string)
      reads this
      ensures IsSuffix(r, Joined())
      ensures maxChars >= 1 ==> |r| == (if |Joined()| < maxChars then |Joined()| else maxChars)
      ensures maxChars == 0 || |Joined()| <= maxChars ==> r == Joined()
      ensures maxChars < 0 ==> r == Joined()[if -maxChars <= |Joined()| then -maxChars else |Joined()|..]
    {
      SliceFrom(Joined(), -maxChars)
    }

    /** `self._buf.append(chunk)` on the bounded deque. */
    method Append(chunk: string)
      requires Valid()
      modifies this`buf, this`history
      ensures Valid()
      ensures history == old(history) + [chunk]
      ensures |buf| <= MaxChunks
      ensures buf == (if |old(buf)| == MaxChunks then old(buf)[1..] else old(buf)) + [chunk]
    {
      RecentSnoc(history, chunk);
      if |buf| == MaxChunks {
        buf := buf[1..] + [chunk];
      } else {
        buf := buf + [chunk];
      }
      history := history + [chunk];
    }

    /**
     * `stream_output` over a run of read outcomes: returns the chunks yielded,
     * each appended to the buffer before it is yielded; nothing without a child.
     */
    method StreamOutput(events: seq<ReadEvent>, decode: seq<Byte> -> string) returns (yielded: seq<string>)
      requires Valid()
      modifies this`buf, this`history
      ensures Valid()
      ensures yielded == (if fd.None? then [] else Received(events, decode))
      ensures history == old(history) + yielded
    {
      yielded := [];
      if fd.None? {
        return;
      }
      var i := 0;
      while i < |events|
        invariant 0 <= i <= |events|
        invariant Valid()
        invariant Received(events, decode) == yielded + Received(events[i..], decode)
        invariant history == old(history) + yielded
      {
        var e := events[i];
        assert events[i..][0] == e && events[i..][1..] == events[i + 1..];
        if EndsStream(e) {
          break;
        }
        if e.Data? {
          var chunk := decode(e.bytes);
          Append(chunk);
          yielded := yielded + [chunk];
        }
        i := i + 1;
      }
    }
  }
}
