/** A concrete run in which a refused readback leaves a queued write with nothing in flight. */
module AudioStranded {
  import opened Basics
  import opened Volume
  import opened AudioModel
  import opened AudioOrder

  const CALM := Server({}, false, 1, false)
  const REFUSING := Server({}, false, 2, true)

  function Asking(id: nat): Request {
    Request(SetVolume, Output, 7, 1, id, 0.5, false, true)
  }

  const PREPARED := State(true, 0, FIRST_READBACK, UNTRACKED.(node := Some(7), generation := 1, binding := Some(7)),
                          UNTRACKED, {7}, map[7 := Binding(true, true, [0.5], false)], map[], map[], [])

  // One write waits behind none.
  const STRANDED := PREPARED.(output := PREPARED.output.(queuedVolume := Some(Asking(2))),
                              nextReadback := FIRST_READBACK + 1)

  lemma Scalable()
    ensures Scaled([0.5], 0.5).Some?
  {
    OverflowUnreachable([0.5], 0.5);
  }

  // From start-up to one tracked, bound and known node.
  lemma Preparation() returns (steps: seq<Step>)
    ensures AllPermitted(Initial(0), steps)
    ensures Run(Initial(0), steps).(log := []) == PREPARED
  {
    var one := Step(Synchronised(0), CALM);
    var two := Step(Appeared(7), CALM);
    var three := Step(TrackEvent(Output, 7, 1), CALM);
    var four := Step(Answer(7, 5, Some([0.5]), Some(false)), CALM);
    var a := Apply(Initial(0), one);
    assert a == Initial(0).(ready := true);
    var b := Apply(a, two);
    assert b == a.(known := {7});
    var c := Apply(b, three);
    assert c == b.(output := UNTRACKED.(node := Some(7), generation := 1, binding := Some(7)),
                   bindings := map[7 := Binding(false, false, [], false)], log := [Tracked(Output)]);
    var d := Apply(c, four);
    assert d.(log := []) == PREPARED;
    RunOne(c, four);
    RunMore(b, three, [four]);
    RunMore(a, two, [three, four]);
    RunMore(Initial(0), one, [two, three, four]);
    steps := [one] + ([two] + ([three] + [four]));
  }

  lemma RunOne(s: State, step: Step)
    ensures Run(s, [step]) == Apply(s, step)
    ensures AllPermitted(s, [step]) <==> Permitted(s, step)
  {
    assert AllPermitted(Apply(s, step), [step][1..]);
  }

  lemma RunMore(s: State, step: Step, rest: seq<Step>)
    ensures Run(s, [step] + rest) == Run(Apply(s, step), rest)
    ensures AllPermitted(s, [step] + rest) <==> Permitted(s, step) && AllPermitted(Apply(s, step), rest)
  {
    assert ([step] + rest)[1..] == rest;
  }

  lemma {:induction false} RunAppended(s: State, steps: seq<Step>, more: seq<Step>)
    ensures Run(s, steps + more) == Run(Run(s, steps), more)
    ensures AllPermitted(s, steps + more) <==> AllPermitted(s, steps) && AllPermitted(Run(s, steps), more)
    decreases |steps|
  {
    hide Apply, Permitted;
    if steps == [] {
      assert steps + more == more;
    } else {
      RunAppended(Apply(s, steps[0]), steps[1..], more);
      assert (steps + more)[1..] == steps[1..] + more;
    }
  }

  lemma RunThree(s: State, one: Step, two: Step, three: Step)
    requires var t := Apply(s, one); Permitted(s, one) && Permitted(t, two) && Permitted(Apply(t, two), three)
    ensures AllPermitted(s, [one, two, three])
    ensures Run(s, [one, two, three]) == Apply(Apply(Apply(s, one), two), three)
  {
    hide Apply, Permitted;
    RunOne(Apply(Apply(s, one), two), three);
    RunMore(Apply(s, one), two, [three]);
    RunMore(s, one, [two, three]);
    assert [one] + [two, three] == [one, two, three] && [two] + [three] == [two, three];
  }

  // The second write waits; the readback of the first is refused; nothing will send it.
  lemma Strands(s: State)
    requires s.(log := []) == PREPARED
    ensures var one, two := Step(AskEvent(Asking(1)), CALM), Step(AskEvent(Asking(2)), REFUSING);
      var three := Step(Synchronised(1), REFUSING);
      var t := Apply(s, one);
      && Permitted(s, one) && Permitted(t, two) && Permitted(Apply(t, two), three)
      && Apply(Apply(t, two), three).(log := []) == STRANDED
  {
    Scalable();
    hide Scaled;
    var one := Apply(s, Step(AskEvent(Asking(1)), CALM));
    assert one.output.volumeInFlight && one.syncs == map[1 := Asking(1)];
    var two := Apply(one, Step(AskEvent(Asking(2)), REFUSING));
    assert two.output.queuedVolume == Some(Asking(2)) && two.syncs == map[1 := Asking(1)];
  }

  // What comes of it: a newer write goes out at once, and its confirmation then sends the older one,
  // which is the last the server hears although the newer was the last one asked for.
  lemma Overtakes(s: State)
    requires s.(log := []) == STRANDED
    ensures var one := Step(AskEvent(Asking(3)), CALM);
      var two := Step(Synchronised(1), CALM.(sync := 2));
      var three := Step(Answer(7, FIRST_READBACK + 2, None, None), CALM);
      var asked := Apply(s, one);
      var t := Apply(Apply(asked, two), three);
      && Permitted(s, one) && Permitted(asked, two) && Permitted(Apply(asked, two), three)
      && LastSent(asked.log, Output, SetVolume) == Some(Asking(3))
      && LastAsked(t.log, Output, SetVolume) == Some(Asking(3))
      && LastSent(t.log, Output, SetVolume) == Some(Asking(2))
  {
    Scalable();
    hide Scaled, LastSent, LastAsked;
    var written := Written(s, Asking(3));
    var asked := Apply(s, Step(AskEvent(Asking(3)), CALM));
    assert asked.(log := [])
        == STRANDED.(output := STRANDED.output.(volumeInFlight := true), syncs := map[1 := Asking(3)]);
    assert asked.log == s.log + [Received(Asking(3))] + [Accepted(Asking(3))] + [Dispatched(Asking(3), written)];
    Logged(s.log, Received(Asking(3)), Output, SetVolume);
    Logged(s.log + [Received(Asking(3))], Accepted(Asking(3)), Output, SetVolume);
    Logged(s.log + [Received(Asking(3))] + [Accepted(Asking(3))], Dispatched(Asking(3), written), Output, SetVolume);
    var read := Apply(asked, Step(Synchronised(1), CALM.(sync := 2)));
    assert read == asked.(syncs := map[], nextReadback := FIRST_READBACK + 2,
                          readbacks := map[FIRST_READBACK + 2 := Asking(3)]);
    OlderFollows(read);
  }

  lemma OlderFollows(s: State)
    requires s.(log := [])
             == STRANDED.(output := STRANDED.output.(volumeInFlight := true), nextReadback := FIRST_READBACK + 2,
                          readbacks := map[FIRST_READBACK + 2 := Asking(3)])
    requires LastAsked(s.log, Output, SetVolume) == Some(Asking(3))
    ensures var t := Apply(s, Step(Answer(7, FIRST_READBACK + 2, None, None), CALM));
      && LastAsked(t.log, Output, SetVolume) == Some(Asking(3))
      && LastSent(t.log, Output, SetVolume) == Some(Asking(2))
  {
    Scalable();
    hide Scaled, LastSent, LastAsked;
    var t := Apply(s, Step(Answer(7, FIRST_READBACK + 2, None, None), CALM));
    var m := Confirmed(Asking(3), Average([0.5]), false);
    var written := Written(s, Asking(2));
    assert t.log == s.log + [m] + [Dispatched(Asking(2), written)];
    Logged(s.log, m, Output, SetVolume);
    Logged(s.log + [m], Dispatched(Asking(2), written), Output, SetVolume);
  }

  // A whole run from start-up after which a queued write is left with nothing in flight.
  lemma StrandedRequest() returns (steps: seq<Step>)
    ensures AllPermitted(Initial(0), steps)
    ensures var s := Run(Initial(0), steps);
      s.(log := []) == STRANDED && s.output.queuedVolume == Some(Asking(2)) && !Busy(s.output) && !AllMoving(s)
  {
    hide Apply, Permitted, AllPermitted, Run;
    var first := Preparation();
    var s := Run(Initial(0), first);
    Strands(s);
    var one, two := Step(AskEvent(Asking(1)), CALM), Step(AskEvent(Asking(2)), REFUSING);
    var three := Step(Synchronised(1), REFUSING);
    RunThree(s, one, two, three);
    RunAppended(Initial(0), first, [one, two, three]);
    steps := first + [one, two, three];
  }

  // The run goes on: the newer write is sent first, and the older one last.
  lemma OlderSentLast() returns (steps: seq<Step>, sent: nat)
    ensures AllPermitted(Initial(0), steps) && sent < |steps|
    ensures LastSent(Run(Initial(0), steps[..sent]).log, Output, SetVolume) == Some(Asking(3))
    ensures var s := Run(Initial(0), steps);
      && LastAsked(s.log, Output, SetVolume) == Some(Asking(3))
      && LastSent(s.log, Output, SetVolume) == Some(Asking(2))
  {
    hide Apply, Permitted, AllPermitted, Run, LastSent, LastAsked;
    var first := StrandedRequest();
    var s := Run(Initial(0), first);
    Overtakes(s);
    var one, two := Step(AskEvent(Asking(3)), CALM), Step(Synchronised(1), CALM.(sync := 2));
    var three := Step(Answer(7, FIRST_READBACK + 2, None, None), CALM);
    RunThree(s, one, two, three);
    RunAppended(Initial(0), first, [one, two, three]);
    RunOne(s, one);
    RunAppended(Initial(0), first, [one]);
    steps, sent := first + [one, two, three], |first| + 1;
    assert steps[..sent] == first + [one];
  }
}
