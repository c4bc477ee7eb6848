/**
  * Command framing of the workspace helper: bytes arrive in chunks of any size, commands are
  * lines; an overlong line is skipped to its end, however it arrives.
  */
module Framing {
  type Byte = bv8
  type Bytes = seq<Byte>

  const NEWLINE: Byte := 10
  const MAX_COMMAND_LENGTH: nat := 4096

  // ---- The commands of a whole stream ----

  // Where the first newline is, or the length when there is none.
  function LineLength(s: Bytes): (n: nat)
    ensures n <= |s|
    ensures forall i :: 0 <= i < n ==> s[i] != NEWLINE
    ensures n < |s| ==> s[n] == NEWLINE
  {
    if s == [] || s[0] == NEWLINE then 0 else 1 + LineLength(s[1..])
  }

  predicate HasLine(s: Bytes) {
    LineLength(s) < |s|
  }

  function AfterLine(s: Bytes): Bytes {
    if HasLine(s) then s[LineLength(s) + 1..] else []
  }

  predicate Acceptable(line: Bytes) {
    0 < |line| <= MAX_COMMAND_LENGTH
  }

  // The lines of one to the maximum number of bytes, in order, up to one that shuts down.
  function Commands(s: Bytes, shutsDown: Bytes -> bool): seq<Bytes>
    decreases |s|
  {
    if !HasLine(s) then []
    else if !Acceptable(s[..LineLength(s)]) then Commands(AfterLine(s), shutsDown)
    else [s[..LineLength(s)]]
         + if shutsDown(s[..LineLength(s)]) then [] else Commands(AfterLine(s), shutsDown)
  }

  // ---- The reader ----

  datatype State = State(buffer: Bytes, discarding: bool, stopped: bool, handled: seq<Bytes>)

  const START := State([], false, false, [])

  function Consume(s: State, shutsDown: Bytes -> bool): State
    decreases |s.buffer|, s.discarding
  {
    if s.stopped then s
    else if s.discarding then
      (if !HasLine(s.buffer) then s.(buffer := [])
       else Consume(s.(buffer := AfterLine(s.buffer), discarding := false), shutsDown))
    else if !HasLine(s.buffer) then
      (if |s.buffer| > MAX_COMMAND_LENGTH then s.(buffer := [], discarding := true) else s)
    else
      var frame := s.buffer[..LineLength(s.buffer)];
      var rest := s.(buffer := AfterLine(s.buffer));
      if !Acceptable(frame) then Consume(rest, shutsDown)
      else Consume(rest.(handled := s.handled + [frame], stopped := shutsDown(frame)), shutsDown)
  }

  function Feed(s: State, chunk: Bytes, shutsDown: Bytes -> bool): State {
    if s.stopped then s else Consume(s.(buffer := s.buffer + chunk), shutsDown)
  }

  function FeedAll(s: State, chunks: seq<Bytes>, shutsDown: Bytes -> bool): State
    decreases |chunks|
  {
    if chunks == [] then s else FeedAll(Feed(s, chunks[0], shutsDown), chunks[1..], shutsDown)
  }

  function Joined(chunks: seq<Bytes>): Bytes
    decreases |chunks|
  {
    if chunks == [] then [] else chunks[0] + Joined(chunks[1..])
  }

  // ---- Chunks do not matter ----

  // The commands still to come from this state when `more` arrives.
  function ToCome(s: State, more: Bytes, shutsDown: Bytes -> bool): seq<Bytes> {
    if s.stopped then []
    else if s.discarding then Commands(AfterLine(s.buffer + more), shutsDown)
    else Commands(s.buffer + more, shutsDown)
  }

  lemma {:induction false} LineOf(s: Bytes, more: Bytes)
    ensures LineLength(s + more) == if HasLine(s) then LineLength(s) else |s| + LineLength(more)
    decreases |s|
  {
    if s == [] {
      assert s + more == more;
    } else if s[0] != NEWLINE {
      assert (s + more)[1..] == s[1..] + more;
      LineOf(s[1..], more);
    }
  }

  lemma AfterLineOf(s: Bytes, more: Bytes)
    ensures AfterLine(s + more) == if HasLine(s) then AfterLine(s) + more else AfterLine(more)
  {
    LineOf(s, more);
  }

  lemma {:induction false} ConsumeKeeps(s: State, more: Bytes, shutsDown: Bytes -> bool)
    ensures var t := Consume(s, shutsDown);
            t.handled + ToCome(t, more, shutsDown) == s.handled + ToCome(s, more, shutsDown)
    decreases |s.buffer|, s.discarding
  {
    LineOf(s.buffer, more);
    AfterLineOf(s.buffer, more);
    if s.stopped {
    } else if s.discarding {
      if HasLine(s.buffer) {
        ConsumeKeeps(s.(buffer := AfterLine(s.buffer), discarding := false), more, shutsDown);
      } else {
        assert [] + more == more;
      }
    } else if HasLine(s.buffer) {
      ConsumeLine(s, more, shutsDown);
    } else if |s.buffer| > MAX_COMMAND_LENGTH {
      assert [] + more == more;
      OverlongLine(s.buffer, more, shutsDown);
    }
  }

  // What is skipped while it arrives would have been rejected had it come at once.
  lemma OverlongLine(s: Bytes, more: Bytes, shutsDown: Bytes -> bool)
    requires !HasLine(s) && |s| > MAX_COMMAND_LENGTH
    ensures Commands(s + more, shutsDown) == Commands(AfterLine(more), shutsDown)
  {
    LineOf(s, more);
    AfterLineOf(s, more);
    if HasLine(more) {
      assert |(s + more)[..LineLength(s + more)]| > MAX_COMMAND_LENGTH;
    }
  }

  lemma CommandsLine(s: Bytes, shutsDown: Bytes -> bool)
    requires HasLine(s)
    ensures var line := s[..LineLength(s)];
      Commands(s, shutsDown)
      == if !Acceptable(line) then Commands(AfterLine(s), shutsDown)
         else [line] + if shutsDown(line) then [] else Commands(AfterLine(s), shutsDown)
  {
  }

  lemma ConsumedLine(s: State, shutsDown: Bytes -> bool)
    requires !s.stopped && !s.discarding && HasLine(s.buffer)
    ensures var frame := s.buffer[..LineLength(s.buffer)];
      var rest := s.(buffer := AfterLine(s.buffer));
      Consume(s, shutsDown)
      == Consume(if !Acceptable(frame) then rest
                 else rest.(handled := s.handled + [frame], stopped := shutsDown(frame)), shutsDown)
  {
  }

  lemma {:induction false} ConsumeLine(s: State, more: Bytes, shutsDown: Bytes -> bool)
    requires !s.stopped && !s.discarding && HasLine(s.buffer)
    ensures var t := Consume(s, shutsDown);
            t.handled + ToCome(t, more, shutsDown) == s.handled + ToCome(s, more, shutsDown)
    decreases |s.buffer|, s.discarding, 0
  {
    LineOf(s.buffer, more);
    AfterLineOf(s.buffer, more);
    var frame := s.buffer[..LineLength(s.buffer)];
    assert (s.buffer + more)[..LineLength(s.buffer)] == frame;
    CommandsLine(s.buffer + more, shutsDown);
    ConsumedLine(s, shutsDown);
    hide Commands, Consume, LineLength;
    var rest := s.(buffer := AfterLine(s.buffer));
    if !Acceptable(frame) {
      ConsumeKeeps(rest, more, shutsDown);
    } else {
      var next := rest.(handled := s.handled + [frame], stopped := shutsDown(frame));
      ConsumeKeeps(next, more, shutsDown);
      Regroup(s.handled, [frame], if shutsDown(frame) then [] else Commands(AfterLine(s.buffer) + more, shutsDown));
    }
  }

  lemma Regroup(a: seq<Bytes>, b: seq<Bytes>, c: seq<Bytes>)
    ensures a + (b + c) == a + b + c
  {
  }

  // Between reads the buffer holds no whole line and no more than a command.
  ghost predicate Settled(s: State) {
    !s.stopped ==> !HasLine(s.buffer) && |s.buffer| <= MAX_COMMAND_LENGTH && (s.discarding ==> s.buffer == [])
  }

  lemma {:induction false} ConsumeSettles(s: State, shutsDown: Bytes -> bool)
    ensures Settled(Consume(s, shutsDown))
    decreases |s.buffer|, s.discarding
  {
    if s.stopped {
    } else if s.discarding {
      if HasLine(s.buffer) {
        ConsumeSettles(s.(buffer := AfterLine(s.buffer), discarding := false), shutsDown);
      }
    } else if HasLine(s.buffer) {
      var frame := s.buffer[..LineLength(s.buffer)];
      var rest := s.(buffer := AfterLine(s.buffer));
      if !Acceptable(frame) {
        ConsumeSettles(rest, shutsDown);
      } else {
        ConsumeSettles(rest.(handled := s.handled + [frame], stopped := shutsDown(frame)), shutsDown);
      }
    }
  }

  lemma FeedKeeps(s: State, chunk: Bytes, more: Bytes, shutsDown: Bytes -> bool)
    requires Settled(s)
    ensures var t := Feed(s, chunk, shutsDown);
      Settled(t) && t.handled + ToCome(t, more, shutsDown) == s.handled + ToCome(s, chunk + more, shutsDown)
  {
    hide Consume, Commands, LineLength;
    if !s.stopped {
      var fed := s.(buffer := s.buffer + chunk);
      ConsumeKeeps(fed, more, shutsDown);
      ConsumeSettles(fed, shutsDown);
      assert s.buffer + chunk + more == s.buffer + (chunk + more);
    }
  }

  lemma {:induction false} FeedAllKeeps(s: State, chunks: seq<Bytes>, shutsDown: Bytes -> bool)
    requires Settled(s)
    ensures var t := FeedAll(s, chunks, shutsDown);
      Settled(t) && t.handled == s.handled + ToCome(s, Joined(chunks), shutsDown)
    decreases |chunks|
  {
    if chunks == [] {
      assert s.buffer + [] == s.buffer;
      assert s.handled + [] == s.handled;
    } else {
      FeedKeeps(s, chunks[0], Joined(chunks[1..]), shutsDown);
      FeedAllKeeps(Feed(s, chunks[0], shutsDown), chunks[1..], shutsDown);
    }
  }

  // However a stream is cut into reads, exactly its commands are handled, in order, and what
  // is left over is never longer than a command.
  lemma ChunksDoNotMatter(chunks: seq<Bytes>, shutsDown: Bytes -> bool)
    ensures var t := FeedAll(START, chunks, shutsDown);
      t.handled == Commands(Joined(chunks), shutsDown) && (!t.stopped ==> |t.buffer| <= MAX_COMMAND_LENGTH)
  {
    hide FeedAll, Commands, LineLength, Joined;
    StartSettled();
    FeedAllKeeps(START, chunks, shutsDown);
    assert [] + Joined(chunks) == Joined(chunks);
  }

  lemma StartSettled()
    ensures Settled(START)
  {
  }

  // ---- Lines ----

  ghost predicate IsLine(line: Bytes) {
    forall b :: b in line ==> b != 10
  }

  // Each line with its newline, and what comes after the last one.
  function Stream(lines: seq<Bytes>, tail: Bytes): Bytes {
    if lines == [] then tail else lines[0] + [10] + Stream(lines[1..], tail)
  }

  // Every line of 1 to 4096 bytes, up to the first that shuts down.
  function Heard(lines: seq<Bytes>, shutsDown: Bytes -> bool): seq<Bytes> {
    if lines == [] then []
    else if |lines[0]| == 0 || |lines[0]| > 4096 then Heard(lines[1..], shutsDown)
    else if shutsDown(lines[0]) then [lines[0]]
    else [lines[0]] + Heard(lines[1..], shutsDown)
  }

  lemma {:induction false} FirstLine(line: Bytes, rest: Bytes)
    requires IsLine(line)
    ensures LineLength(line + [10] + rest) == |line|
    decreases |line|
  {
    var s := line + [10] + rest;
    if line != [] {
      assert s[0] == line[0] && line[0] in line;
      assert s[1..] == line[1..] + [10] + rest;
      assert forall b :: b in line[1..] ==> b in line;
      FirstLine(line[1..], rest);
    }
  }

  lemma {:induction false} NoLine(tail: Bytes)
    requires IsLine(tail)
    ensures LineLength(tail) == |tail|
  {
    if tail != [] {
      assert tail[0] in tail && forall b :: b in tail[1..] ==> b in tail;
      NoLine(tail[1..]);
    }
  }

  lemma {:induction false} CommandsAreHeard(lines: seq<Bytes>, tail: Bytes, shutsDown: Bytes -> bool)
    requires (forall line :: line in lines ==> IsLine(line)) && IsLine(tail)
    ensures Commands(Stream(lines, tail), shutsDown) == Heard(lines, shutsDown)
    decreases |lines|
  {
    if lines == [] {
      NoLine(tail);
    } else {
      var line, rest := lines[0], Stream(lines[1..], tail);
      var s := line + [10] + rest;
      assert line in lines;
      FirstLine(line, rest);
      assert s[..|line|] == line && s[|line| + 1..] == rest;
      CommandsAreHeard(lines[1..], tail, shutsDown);
      CommandsLine(s, shutsDown);
    }
  }

  // However the lines arrive, those of 1 to 4096 bytes are handled, up to the first that shuts
  // down, and nothing else.
  lemma LinesExactly(lines: seq<Bytes>, tail: Bytes, chunks: seq<Bytes>, shutsDown: Bytes -> bool)
    requires (forall line :: line in lines ==> IsLine(line)) && IsLine(tail)
    requires Joined(chunks) == Stream(lines, tail)
    ensures FeedAll(START, chunks, shutsDown).handled == Heard(lines, shutsDown)
  {
    ChunksDoNotMatter(chunks, shutsDown);
    CommandsAreHeard(lines, tail, shutsDown);
  }

  // ---- The reader itself ----

  class CommandReader {
    const shutsDown: Bytes -> bool
    var commandBuffer: Bytes
    var discardingCommand: bool
    var shuttingDown: bool
    var handled: seq<Bytes>

    constructor (shutsDown: Bytes -> bool)
      ensures Now() == START && this.shutsDown == shutsDown
    {
      this.shutsDown := shutsDown;
      commandBuffer, discardingCommand, shuttingDown, handled := [], false, false, [];
    }

    function Now(): State
      reads this
    {
      State(commandBuffer, discardingCommand, shuttingDown, handled)
    }

    method IndexOfNewline() returns (index: nat)
      ensures index == LineLength(commandBuffer)
    {
      index := 0;
      while index < |commandBuffer| && commandBuffer[index] != NEWLINE
        invariant index <= |commandBuffer|
        invariant LineLength(commandBuffer) == index + LineLength(commandBuffer[index..])
      {
        assert commandBuffer[index..][1..] == commandBuffer[index + 1..];
        index := index + 1;
      }
    }

    method HandleCommand(frame: Bytes)
      modifies this`handled, this`shuttingDown
      ensures handled == old(handled) + [frame] && shuttingDown == shutsDown(frame)
    {
      handled := handled + [frame];
      shuttingDown := shutsDown(frame);
    }

    method ConsumeCommands()
      modifies this
      ensures Now() == Consume(old(Now()), shutsDown)
    {
      while !shuttingDown
        invariant Consume(Now(), shutsDown) == Consume(old(Now()), shutsDown)
        decreases !shuttingDown, |commandBuffer|, discardingCommand
      {
        var newline := IndexOfNewline();
        if discardingCommand {
          if newline == |commandBuffer| {
            commandBuffer := [];
            return;
          }
          commandBuffer := commandBuffer[newline + 1..];
          discardingCommand := false;
          continue;
        }
        if newline == |commandBuffer| {
          if |commandBuffer| > MAX_COMMAND_LENGTH {
            commandBuffer := [];
            discardingCommand := true;
          }
          return;
        }
        var frame := commandBuffer[..newline];
        commandBuffer := commandBuffer[newline + 1..];
        if frame == [] || |frame| > MAX_COMMAND_LENGTH { continue; }
        HandleCommand(frame);
      }
    }

    method ReadChunk(chunk: Bytes)
      modifies this
      ensures Now() == Feed(old(Now()), chunk, shutsDown)
    {
      hide Consume;
      if shuttingDown { return; }
      commandBuffer := commandBuffer + chunk;
      ConsumeCommands();
    }
  }
}
