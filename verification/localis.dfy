/** The bot process: the one-time profile setup, the routing of a join request, and
    the listen loop that pauses its receive subscription around every reply. */
module Localis {
  import opened Wrappers
  import opened Text
  import opened Signal
  import opened Routing
  import opened Receive

  /** The commands of the one-time profile setup: one `updateProfile`, unless the
      marker of an earlier setup exists. */
  function ProfileSetup(cfg: Config, markerExists: bool): (r: seq<Command>)
    ensures |r| == (if markerExists then 0 else 1)
    ensures forall k :: 0 <= k < |r| ==> Operation(r[k]) == "updateProfile"
  {
    if markerExists then [] else [ActionCommand(cfg, ProfileArgs(cfg))]
  }

  /** Setting up twice, the second time with the marker the first one leaves behind,
      updates the profile no more often than setting up once: exactly once without a
      marker, never with one. */
  lemma SetupOnce(cfg: Config, markerExists: bool)
    ensures ProfileSetup(cfg, markerExists) + ProfileSetup(cfg, true) == ProfileSetup(cfg, markerExists)
    ensures Count(ProfileSetup(cfg, markerExists), "updateProfile") == if markerExists then 0 else 1
    ensures |ProfileSetup(cfg, markerExists)| == Count(ProfileSetup(cfg, markerExists), "updateProfile")
  {
    if !markerExists {
      var c := ActionCommand(cfg, ProfileArgs(cfg));
      assert Operation(c) == c[4..][0] == "updateProfile";
      var one: seq<Command> := [c];
      assert one[1..] == [];
    }
  }

  /** The running bot. The action log holds every command run, in order; the ghost
      history also records each receive subscription opened and closed. */
  class Bot {
    const cfg: Config
    /** The setup marker exists. */
    var configured: bool
    /** The receive subscription the loop holds is running. */
    var subOpen: bool
    /** Receive processes the loop dropped without terminating them. */
    var stray: nat
    /** The loop has ended. */
    var stopped: bool
    var log: seq<Command>
    ghost var trace: seq<Effect>

    /** The fields summarise the history, and the history keeps the transport's
        discipline: no action command while a subscription is held. */
    ghost predicate Valid()
      reads this
    {
      subOpen == OpenAfter(false, trace) &&
      log == Actions(trace) &&
      stray == Strays(trace) &&
      stopped == (Stopped in trace) &&
      Exclusive(false, trace)
    }

    /** A fresh process; the marker may survive from an earlier run. */
    constructor (cfg: Config, markerExists: bool)
      ensures Valid() && this.cfg == cfg && configured == markerExists
      ensures !subOpen && !stopped && stray == 0 && log == [] && trace == []
    {
      this.cfg := cfg;
      configured := markerExists;
      subOpen, stray, stopped := false, 0, false;
      log, trace := [], [];
    }

    /** `run_action_command(args)`: runs the command to completion. Only reachable
        while no receive subscription is held. Its outcome is only reported and never
        changes what happens next, so it is not modelled. */
    method RunActionCommand(args: seq<string>)
      requires Valid() && !subOpen
      modifies this`log, this`trace
      ensures Valid()
      ensures log == old(log) + [ActionCommand(cfg, args)]
      ensures trace == old(trace) + [Issued(ActionCommand(cfg, args))]
    {
      var cmd := ActionCommand(cfg, args);
      TraceStep(trace, Issued(cmd));
      log := log + [cmd];
      trace := trace + [Issued(cmd)];
    }

    /** `configure_bot`: the profile update runs only without the marker, and the
        marker is then written whatever the update's outcome. */
    method ConfigureBot()
      requires Valid() && !subOpen
      modifies this`configured, this`log, this`trace
      ensures Valid() && configured
      ensures log == old(log) + ProfileSetup(cfg, old(configured))
      ensures trace == old(trace) + IssuedAll(ProfileSetup(cfg, old(configured)))
    {
      if configured {
        assert ProfileSetup(cfg, true) == [];
        return;
      }
      RunActionCommand(ProfileArgs(cfg));
      configured := true;
      assert IssuedAll([ActionCommand(cfg, ProfileArgs(cfg))]) == [Issued(ActionCommand(cfg, ProfileArgs(cfg)))];
    }

    /** Two setups in a row update the profile at most once. */
    method ConfigureTwice()
      requires Valid() && !subOpen
      modifies this`configured, this`log, this`trace
      ensures Valid() && configured
      ensures log == old(log) + ProfileSetup(cfg, old(configured))
      ensures Count(log[|old(log)|..], "updateProfile") <= 1
    {
      ghost var before := log;
      ConfigureBot();
      ConfigureBot();
      SetupOnce(cfg, old(configured));
      assert log[|before|..] == ProfileSetup(cfg, old(configured));
    }

    /** `handle_join_request(source)`: the reply `Route` describes, command by command. */
    method HandleJoinRequest(source: string)
      requires Valid() && !subOpen
      modifies this`log, this`trace
      ensures Valid()
      ensures log == old(log) + Route(cfg, source)
      ensures trace == old(trace) + IssuedAll(Route(cfg, source))
    {
      if !StartsWith(source, "+") {
        RunActionCommand(SendArgs(HiddenNumberWarning(cfg.adminContact), source));
        assert IssuedAll(Route(cfg, source)) == [Issued(Route(cfg, source)[0])];
        return;
      }
      var areaCode := AreaCode(source);
      if areaCode in cfg.allowedAreaCodes {
        RunActionCommand(SendArgs(VerifiedWelcome, source));
        RunActionCommand(AddMemberArgs(cfg.verifiedGroup, source));
      } else {
        RunActionCommand(SendArgs(UnverifiedWelcome(cfg.adminContact), source));
        RunActionCommand(AddMemberArgs(cfg.unverifiedGroup, source));
      }
      var r := Route(cfg, source);
      assert IssuedAll(r) == [Issued(r[0]), Issued(r[1])];
    }

    /** Starts the `receive` subscription. */
    method OpenReceive()
      requires Valid() && !subOpen
      modifies this`subOpen, this`trace
      ensures Valid() && subOpen && trace == old(trace) + [Opened]
    {
      TraceStep(trace, Opened);
      subOpen := true;
      trace := trace + [Opened];
    }

    /** Terminates the subscription and waits until its process has exited. */
    method TerminateReceive()
      requires Valid() && subOpen
      modifies this`subOpen, this`trace
      ensures Valid() && !subOpen && trace == old(trace) + [Terminated]
    {
      TraceStep(trace, Terminated);
      subOpen := false;
      trace := trace + [Terminated];
    }

    /** The subscription's process has exited by itself. */
    method ReceiveEnded()
      requires Valid() && subOpen
      modifies this`subOpen, this`trace
      ensures Valid() && !subOpen && trace == old(trace) + [Ended]
    {
      TraceStep(trace, Ended);
      subOpen := false;
      trace := trace + [Ended];
    }

    /** The generic exception handler leaves the subscription's process running and
        lets the loop start another one. */
    method AbandonReceive()
      requires Valid() && subOpen
      modifies this`subOpen, this`stray, this`trace
      ensures Valid() && !subOpen && stray == old(stray) + 1 && trace == old(trace) + [Abandoned]
    {
      TraceStep(trace, Abandoned);
      subOpen := false;
      stray := stray + 1;
      trace := trace + [Abandoned];
    }

    /** The interrupt handler terminates the subscription and ends the loop. */
    method StopReceive()
      requires Valid() && subOpen
      modifies this`subOpen, this`stopped, this`trace
      ensures Valid() && !subOpen && stopped && trace == old(trace) + [Stopped]
    {
      TraceStep(trace, Stopped);
      subOpen := false;
      stopped := true;
      trace := trace + [Stopped];
    }

    /** On the trigger: terminate the subscription, wait for it, and answer the
        requester; without a requester the answer fails before any command. */
    method PauseAndAnswer(requester: Option<string>)
      requires Valid() && subOpen
      modifies this`subOpen, this`log, this`trace
      ensures Valid() && !subOpen
      ensures trace == old(trace) + Effects(cfg, Join(requester))
      ensures log == old(log) + JoinCommands(cfg, requester)
    {
      ghost var before := trace;
      TerminateReceive();
      if requester.Some? {
        HandleJoinRequest(requester.value);
      } else {
        assert log + [] == log && trace + [] == trace;
      }
      Assoc(before, [Terminated], IssuedAll(JoinCommands(cfg, requester)));
    }

    /** The handling of one decoded envelope: read the requester, test the message for
        the trigger, and on the trigger pause the subscription and answer. */
    method HandleEnvelope(sourceNumber: Option<string>, source: Option<string>, message: Option<string>)
      requires Valid() && subOpen
      modifies this`subOpen, this`log, this`trace
      ensures Valid()
      ensures var r := if IsTrigger(message) then Join(Identity(sourceNumber, source)) else Skip;
        trace == old(trace) + Effects(cfg, r) && subOpen == (r == Skip)
    {
      var requester := Identity(sourceNumber, source);
      if IsTrigger(message) {
        PauseAndAnswer(requester);
      } else {
        assert trace == old(trace) + Effects(cfg, Skip);
      }
    }

    /** The body of the loop over the subscription's output, for one event: strip the
        line and skip it when blank, skip it when it does not decode, otherwise handle
        the envelope; an end of output or an interrupt closes the subscription. */
    method ProcessEvent(e: Event)
      requires Valid() && subOpen && !stopped
      modifies this`subOpen, this`stray, this`stopped, this`log, this`trace
      ensures Valid()
      ensures trace == old(trace) + Effects(cfg, ReactTo(e))
      ensures subOpen == (ReactTo(e) == Skip) && stopped == (ReactTo(e) == Quit)
    {
      match e {
        case Interrupt =>
          StopReceive();
        case Exited =>
          ReceiveEnded();
        case Line(raw, parsed) =>
          var line := Strip(raw);
          if line == "" {
            return;
          }
          match parsed {
            case NotJson =>
            case Unreadable =>
              AbandonReceive();
            case Envelope(sourceNumber, source, message) =>
              HandleEnvelope(sourceNumber, source, message);
          }
      }
    }

    /** The loops of `main` over a finite stream of events. The outer `while True`
        opens a subscription and the inner `for` reads it until an event closes it;
        here the two are one loop that opens a subscription before an event whenever
        none is held, which issues the same history. An interrupt ends the loop. */
    method Listen(events: seq<Event>)
      requires Valid() && !subOpen && !stopped
      modifies this`subOpen, this`stray, this`stopped, this`log, this`trace
      ensures Valid()
      ensures trace == old(trace) + ListenTrace(cfg, false, Reactions(events))
      ensures log == old(log) + Replies(cfg, JoinRequests(Reactions(events)))
    {
      ghost var rs := Reactions(events);
      ghost var whole := trace + ListenTrace(cfg, false, rs);
      var i := 0;
      while i < |events| && !stopped
        invariant 0 <= i <= |events|
        invariant Valid()
        invariant whole == trace + (if stopped then [] else ListenTrace(cfg, subOpen, rs[i..]))
        decreases |events| - i
      {
        if !subOpen {
          ghost var closed := trace;
          OpenReceive();
          ListenOpen(cfg, rs, i, whole, closed, trace);
        }
        ghost var before := trace;
        ProcessEvent(events[i]);
        ListenStep(cfg, rs, i, whole, before, trace, subOpen, stopped);
        i := i + 1;
      }
      ListenActions(cfg, false, rs);
      ActionsConcat(old(trace), ListenTrace(cfg, false, rs));
    }

    /** `main`: the one-time setup, then the listen loop. */
    method Serve(events: seq<Event>)
      requires Valid() && !subOpen && !stopped
      modifies this`configured, this`subOpen, this`stray, this`stopped, this`log, this`trace
      ensures Valid() && configured
      ensures trace == old(trace) + IssuedAll(ProfileSetup(cfg, old(configured)))
                                  + ListenTrace(cfg, false, Reactions(events))
      ensures log == old(log) + ProfileSetup(cfg, old(configured))
                              + Replies(cfg, JoinRequests(Reactions(events)))
    {
      ConfigureBot();
      Listen(events);
    }
  }
}
