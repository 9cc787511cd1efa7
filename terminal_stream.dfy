/**
 * The output side of the `/ws/terminal` socket in clouddeploy/server.py: each
 * poll reads the session's tail text and sends the browser only what it has not
 * seen, or the whole text when it no longer extends what was sent last.
 */
module TerminalStream {
  import opened Wrappers
  import opened Text

  /** What one poll of the loop observes. */
  datatype Poll =
    | NotRunning             // `_session_status()` reported no running session
    | Output(text: string)   // the tail text `cli.read` returned (at most 12000 characters)

  /** What one delta step sends (if anything) and the new `last_sent`. */
  datatype Delta = Delta(sent: Option<string>, lastSent: string)

  /** The delta step of `ws_terminal` for the tail text `out`. */
  function TerminalDelta(lastSent: string, out: string): (d: Delta)
    ensures d.sent.None? <==> out == "" || out == lastSent
    ensures d.sent.None? ==> d.lastSent == lastSent
    ensures d.sent.Some? ==> d.lastSent == out
    ensures d.sent.Some? && lastSent <= out ==> lastSent + d.sent.value == out
    ensures d.sent.Some? && !(lastSent <= out) ==> d.sent.value == out
  {
    if out != "" && out != lastSent then
      Delta(Some(if lastSent <= out then out[|lastSent|..] else out), out)
    else
      Delta(None, lastSent)
  }

  /** The texts sent so far and the current `last_sent`. */
  datatype Stream = Stream(sent: seq<string>, lastSent: string)

  function Step(s: Stream, p: Poll): Stream
  {
    match p
    case NotRunning => s
    case Output(out) =>
      var d := TerminalDelta(s.lastSent, out);
      Stream(s.sent + (if d.sent.Some? then [d.sent.value] else []), d.lastSent)
  }

  /** The socket's state after a run of polls, starting from `last_sent = ""`. */
  function Replay(polls: seq<Poll>): Stream
  {
    if polls == [] then Stream([], "") else Step(Replay(polls[..|polls| - 1]), polls[|polls| - 1])
  }

  /** The `while True` loop of `ws_terminal` over a run of polls. */
  method WsTerminal(polls: seq<Poll>) returns (sent: seq<string>, lastSent: string)
    ensures Stream(sent, lastSent) == Replay(polls)
  {
    sent, lastSent := [], "";
    var i := 0;
    while i < |polls|
      invariant 0 <= i <= |polls|
      invariant Stream(sent, lastSent) == Replay(polls[..i])
    {
      assert polls[..i + 1][..i] == polls[..i];
      match polls[i] {
        case NotRunning =>
        case Output(out) =>
          if out != "" && out != lastSent {
            if lastSent <= out {
              sent := sent + [out[|lastSent|..]];
            } else {
              sent := sent + [out];
            }
            lastSent := out;
          }
      }
      i := i + 1;
    }
    assert polls[..|polls|] == polls;
  }

  /** Every tail text read is an extension of each one read before it. */
  predicate Growing(polls: seq<Poll>)
  {
    forall i, j :: 0 <= i < j < |polls| && polls[i].Output? && polls[j].Output? ==> polls[i].text <= polls[j].text
  }

  /** `last_sent` is a prefix of any text that extends every tail read so far. */
  lemma {:induction false} LastSentBelow(polls: seq<Poll>, out: string)
    requires forall i :: 0 <= i < |polls| && polls[i].Output? ==> polls[i].text <= out
    ensures Replay(polls).lastSent <= out
  {
    if polls != [] {
      var init := polls[..|polls| - 1];
      assert forall i :: 0 <= i < |init| ==> init[i] == polls[i];
      LastSentBelow(init, out);
    }
  }

  /**
   * While the session's tail only grows, the concatenation of everything sent
   * is exactly `last_sent`, which `LatestTailIsLastSent` shows is the latest tail.
   */
  lemma {:induction false} GrowingTailIsReproduced(polls: seq<Poll>)
    requires Growing(polls)
    ensures Join(Replay(polls).sent) == Replay(polls).lastSent
  {
    if polls != [] {
      var n := |polls|;
      var init := polls[..n - 1];
      assert forall i :: 0 <= i < |init| ==> init[i] == polls[i];
      GrowingTailIsReproduced(init);
      var s := Replay(init);
      if polls[n - 1].Output? {
        var out := polls[n - 1].text;
        LastSentBelow(init, out);
        var d := TerminalDelta(s.lastSent, out);
        assert Replay(polls) == Stream(s.sent + (if d.sent.Some? then [d.sent.value] else []), d.lastSent);
        if d.sent.Some? {
          JoinSnoc(s.sent, d.sent.value);
          assert s.lastSent + d.sent.value == out;
        } else {
          assert s.sent + [] == s.sent;
        }
      }
    }
  }
  /** While the tail only grows, `last_sent` is the latest tail read, empty or not. */
  lemma LatestTailIsLastSent(polls: seq<Poll>, out: string)
    requires Growing(polls + [Output(out)])
    ensures Replay(polls + [Output(out)]).lastSent == out
  {
    var all := polls + [Output(out)];
    assert all[..|polls|] == polls;
    forall i | 0 <= i < |polls| && polls[i].Output?
      ensures polls[i].text <= out
    {
      assert all[i] == polls[i] && all[|polls|] == Output(out);
    }
    LastSentBelow(polls, out);
  }

  /**
   * The two outcomes of a sliding tail: a non-empty window that no longer
   * starts with `last_sent` is sent whole, and a window equal to `last_sent`
   * (output that repeats itself) sends nothing.
   */
  lemma SlidingWindowCases(lastSent: string, out: string)
    ensures out != "" && !(lastSent <= out) ==> TerminalDelta(lastSent, out) == Delta(Some(out), out)
    ensures TerminalDelta(out, out) == Delta(None, out)
  {
  }

  /** Both outcomes occur: concrete windows of a four-character tail. */
  lemma SlidingWindowExamples()
    ensures TerminalDelta("abcd", "bcde") == Delta(Some("bcde"), "bcde")
    ensures TerminalDelta("aaaa", "aaaa") == Delta(None, "aaaa")
  {
    assert !("abcd" <= "bcde") by { assert "abcd"[0] != "bcde"[0]; }
  }
}
