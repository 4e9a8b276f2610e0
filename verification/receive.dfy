/** The listen loop of `main`, as a specification: what the loop decides for one
    event of the receive subscription, and the history of effects a whole stream
    produces. The history records when a subscription is opened and closed and which
    action commands are issued. The transport's rule that no action command may run
    while a receive process runs is stated on that history twice: `Exclusive` covers
    the subscription the loop holds, and `ActsAlone` also counts processes the loop
    dropped without terminating them. The loop keeps the first on every stream and
    the second on every stream without unreadable lines; a reply that follows an
    unreadable line breaks the second. */
module Receive {
  import opened Wrappers
  import opened Text
  import opened Signal
  import opened Routing

  /** What reading one stripped line as JSON gave. */
  datatype Parsed =
    | NotJson          // `json.loads` raised a decode error
    | Unreadable       // any exception other than a decode error raised before the
                       // trigger test: a field with a JSON type the code cannot read,
                       // or the logging `print` failing to encode the line
    | Envelope(sourceNumber: Option<string>, source: Option<string>, message: Option<string>)

  /** What the loop can observe on the current subscription. */
  datatype Event =
    | Line(raw: string, parsed: Parsed)   // one line of the subscription's output
    | Exited                              // the receive process closed its output on its own
    | Interrupt                           // the operator pressed Ctrl+C

  /** What the loop decides to do about one event. */
  datatype Reaction =
    | Skip                            // keep reading the same subscription
    | Join(requester: Option<string>) // pause the subscription, answer, reopen
    | Drop                            // leave the subscription without terminating it, reopen
    | Reopen                          // the subscription ended by itself; reopen
    | Quit                            // terminate the subscription and leave the loop

  /** One step of the loop's history. */
  datatype Effect =
    | Opened               // a receive subscription is started
    | Terminated           // the subscription is terminated and its exit awaited
    | Ended                // the subscription ended on its own
    | Abandoned            // the loop drops the subscription without terminating it
    | Stopped              // the subscription is terminated and the loop ends
    | Issued(cmd: Command) // an action command runs to completion

  /** The requester: `sourceNumber` when it is present and non-empty (Python's `or`),
      `source` otherwise. */
  function Identity(sourceNumber: Option<string>, source: Option<string>): (r: Option<string>)
    ensures r == sourceNumber || r == source
    ensures sourceNumber.Some? && sourceNumber.value != "" ==> r == sourceNumber
    ensures !(sourceNumber.Some? && sourceNumber.value != "") ==> r == source
    ensures r.None? <==> source.None? && (sourceNumber.None? || sourceNumber.value == "")
  {
    if sourceNumber.Some? && sourceNumber.value != "" then sourceNumber else source
  }

  /** The join trigger: the message, stripped, is non-empty and lower-cases to "join". */
  predicate IsTrigger(message: Option<string>)
  {
    var text := Strip(message.GetOr(""));
    text != "" && Lower(text) == "join"
  }

  /** The loop's decision for one event: blank and undecodable lines are skipped, an
      unreadable one escapes to the generic handler, a trigger is a join request. */
  function ReactTo(e: Event): Reaction
  {
    match e
    case Interrupt => Quit
    case Exited => Reopen
    case Line(raw, parsed) =>
      if Strip(raw) == "" then Skip
      else match parsed
        case NotJson => Skip
        case Unreadable => Drop
        case Envelope(sourceNumber, source, message) =>
          if IsTrigger(message) then Join(Identity(sourceNumber, source)) else Skip
  }

  /** The commands a join request from `requester` issues. An absent requester makes
      `handle_join_request` fail on its first test, before any command, and the
      exception is absorbed by the loop. */
  function JoinCommands(cfg: Config, requester: Option<string>): (r: seq<Command>)
    ensures r == [] <==> requester.None?
    ensures requester.Some? ==> |r| <= 2 && forall k :: 0 <= k < |r| ==> Concerns(cfg, r[k], requester.value)
  {
    match requester
    case None => []
    case Some(source) =>
      RouteConcernsRequester(cfg, source);
      Route(cfg, source)
  }

  /** The history of issuing `cmds` one after the other. */
  function IssuedAll(cmds: seq<Command>): (t: seq<Effect>)
    ensures |t| == |cmds|
    ensures forall k :: 0 <= k < |t| ==> t[k] == Issued(cmds[k])
  {
    if cmds == [] then [] else [Issued(cmds[0])] + IssuedAll(cmds[1..])
  }

  /** What a reaction does to the open subscription. */
  function Effects(cfg: Config, r: Reaction): seq<Effect>
  {
    match r
    case Skip => []
    case Join(requester) => [Terminated] + IssuedAll(JoinCommands(cfg, requester))
    case Drop => [Abandoned]
    case Reopen => [Ended]
    case Quit => [Stopped]
  }

  /** Whether the loop holds an open subscription after effect `e`. */
  function After(open: bool, e: Effect): bool
  {
    match e
    case Opened => true
    case Issued(_) => open
    case _ => false
  }

  /** Whether the loop holds an open subscription after history `t`. */
  function OpenAfter(open: bool, t: seq<Effect>): bool
    decreases |t|
  {
    if t == [] then open else OpenAfter(After(open, t[0]), t[1..])
  }

  /** The transport's exclusivity discipline for the held subscription along `t`: an
      action command is issued only while the loop holds no subscription, a subscription is opened only when none is
      held, and only a held subscription is closed. */
  predicate Exclusive(open: bool, t: seq<Effect>)
    decreases |t|
  {
    t == [] ||
    ((if t[0].Opened? || t[0].Issued? then !open else open) && Exclusive(After(open, t[0]), t[1..]))
  }

  /** The action commands of `t`, in order. */
  function Actions(t: seq<Effect>): seq<Command>
  {
    if t == [] then [] else (if t[0].Issued? then [t[0].cmd] else []) + Actions(t[1..])
  }

  /** How many subscriptions `t` drops while their process still runs. */
  function Strays(t: seq<Effect>): nat
  {
    if t == [] then 0 else (if t[0] == Abandoned then 1 else 0) + Strays(t[1..])
  }

  /** Histories compose: each summary of `a + c` is that of `a` followed by that of
      `c` started where `a` left off. */
  lemma {:induction false} TraceConcat(open: bool, a: seq<Effect>, c: seq<Effect>)
    ensures OpenAfter(open, a + c) == OpenAfter(OpenAfter(open, a), c)
    ensures Exclusive(open, a + c) == (Exclusive(open, a) && Exclusive(OpenAfter(open, a), c))
    ensures Actions(a + c) == Actions(a) + Actions(c)
    ensures Strays(a + c) == Strays(a) + Strays(c)
  {
    OpenAfterConcat(open, a, c);
    ExclusiveConcat(open, a, c);
    ActionsConcat(a, c);
    StraysConcat(a, c);
  }

  lemma {:induction false} OpenAfterConcat(open: bool, a: seq<Effect>, c: seq<Effect>)
    ensures OpenAfter(open, a + c) == OpenAfter(OpenAfter(open, a), c)
    decreases |a|
  {
    if a == [] {
      assert a + c == c;
    } else {
      assert (a + c)[0] == a[0] && (a + c)[1..] == a[1..] + c;
      OpenAfterConcat(After(open, a[0]), a[1..], c);
    }
  }

  lemma {:induction false} ExclusiveConcat(open: bool, a: seq<Effect>, c: seq<Effect>)
    ensures Exclusive(open, a + c) == (Exclusive(open, a) && Exclusive(OpenAfter(open, a), c))
    decreases |a|
  {
    if a == [] {
      assert a + c == c;
    } else {
      assert (a + c)[0] == a[0] && (a + c)[1..] == a[1..] + c;
      ExclusiveConcat(After(open, a[0]), a[1..], c);
    }
  }

  lemma {:induction false} ActionsConcat(a: seq<Effect>, c: seq<Effect>)
    ensures Actions(a + c) == Actions(a) + Actions(c)
  {
    if a == [] {
      assert a + c == c;
    } else {
      assert (a + c)[0] == a[0] && (a + c)[1..] == a[1..] + c;
      ActionsConcat(a[1..], c);
    }
  }

  lemma {:induction false} StraysConcat(a: seq<Effect>, c: seq<Effect>)
    ensures Strays(a + c) == Strays(a) + Strays(c)
  {
    if a == [] {
      assert a + c == c;
    } else {
      assert (a + c)[0] == a[0] && (a + c)[1..] == a[1..] + c;
      StraysConcat(a[1..], c);
    }
  }

  /** Appending one effect to a history started with no subscription held. */
  lemma TraceStep(t: seq<Effect>, e: Effect)
    ensures OpenAfter(false, t + [e]) == After(OpenAfter(false, t), e)
    ensures Exclusive(false, t + [e]) ==
      (Exclusive(false, t) && if e.Opened? || e.Issued? then !OpenAfter(false, t) else OpenAfter(false, t))
    ensures Actions(t + [e]) == Actions(t) + (if e.Issued? then [e.cmd] else [])
    ensures Strays(t + [e]) == Strays(t) + (if e == Abandoned then 1 else 0)
  {
    TraceConcat(false, t, [e]);
    assert [e][1..] == [];
  }

  /** Issuing commands changes nothing but the action log, and keeps the discipline
      exactly when no subscription is held (or there is nothing to issue). */
  lemma {:induction false} IssuedAllFacts(open: bool, cmds: seq<Command>)
    ensures OpenAfter(open, IssuedAll(cmds)) == open
    ensures Exclusive(open, IssuedAll(cmds)) == (!open || cmds == [])
    ensures Actions(IssuedAll(cmds)) == cmds
    ensures Strays(IssuedAll(cmds)) == 0
    ensures Stopped !in IssuedAll(cmds)
  {
    if cmds != [] {
      IssuedAllFacts(open, cmds[1..]);
      assert IssuedAll(cmds)[1..] == IssuedAll(cmds[1..]);
    }
  }

  /** A reaction on the open subscription: either it changes nothing, or it closes
      the subscription first and then only issues the reply to a join request. */
  lemma EffectsFacts(cfg: Config, r: Reaction)
    ensures var eff := Effects(cfg, r);
      Exclusive(true, eff) &&
      OpenAfter(true, eff) == (r == Skip) &&
      (Stopped in eff <==> r == Quit) &&
      Strays(eff) == (if r == Drop then 1 else 0) &&
      Actions(eff) == (if r.Join? then JoinCommands(cfg, r.requester) else [])
  {
    var eff := Effects(cfg, r);
    if r.Join? {
      var cmds := JoinCommands(cfg, r.requester);
      IssuedAllFacts(false, cmds);
      TraceConcat(true, [Terminated], IssuedAll(cmds));
    } else if eff != [] {
      assert eff == [eff[0]] + [];
      IssuedAllFacts(false, []);
      TraceConcat(true, [eff[0]], []);
    }
  }

  /** The loop's decisions for a stream of events, in order. */
  function Reactions(events: seq<Event>): (rs: seq<Reaction>)
    ensures |rs| == |events|
    ensures forall k :: 0 <= k < |events| ==> rs[k] == ReactTo(events[k])
  {
    if events == [] then [] else [ReactTo(events[0])] + Reactions(events[1..])
  }

  /** The history of the loop over the decisions `rs`, given whether a subscription
      is held: before each event it opens one if none is held; `Quit` ends the loop. */
  function ListenTrace(cfg: Config, open: bool, rs: seq<Reaction>): seq<Effect>
    decreases |rs|
  {
    if rs == [] then []
    else
      var pre := if open then [] else [Opened];
      if rs[0] == Quit then pre + Effects(cfg, rs[0])
      else pre + Effects(cfg, rs[0]) + ListenTrace(cfg, rs[0] == Skip, rs[1..])
  }

  /** One step of the loop. */
  lemma ListenUnfold(cfg: Config, open: bool, rs: seq<Reaction>)
    requires rs != []
    ensures ListenTrace(cfg, open, rs)
         == (if open then [] else [Opened]) + Effects(cfg, rs[0])
            + (if rs[0] == Quit then [] else ListenTrace(cfg, rs[0] == Skip, rs[1..]))
  {
  }

  /** Concatenation regroups freely. */
  lemma Assoc<T>(a: seq<T>, b: seq<T>, c: seq<T>)
    ensures a + (b + c) == a + b + c
  {
  }

  /** Regrouping a trace built from three parts. */
  lemma Regroup(before: seq<Effect>, eff: seq<Effect>, rest: seq<Effect>)
    ensures before + ([] + eff + rest) == before + eff + rest
  {
    assert [] + eff == eff;
  }

  /** Before the first event, the loop opens a subscription when it holds none. */
  lemma OpenFirst(cfg: Config, rs: seq<Reaction>)
    requires rs != []
    ensures ListenTrace(cfg, false, rs) == [Opened] + ListenTrace(cfg, true, rs)
  {
    ListenUnfold(cfg, false, rs);
    ListenUnfold(cfg, true, rs);
    Regroup([Opened], Effects(cfg, rs[0]), if rs[0] == Quit then [] else ListenTrace(cfg, rs[0] == Skip, rs[1..]));
  }

  /** The loop opening a subscription: the part of the stream still to come. */
  lemma ListenOpen(cfg: Config, rs: seq<Reaction>, i: nat, whole: seq<Effect>, before: seq<Effect>, after: seq<Effect>)
    requires i < |rs|
    requires whole == before + ListenTrace(cfg, false, rs[i..])
    requires after == before + [Opened]
    ensures whole == after + ListenTrace(cfg, true, rs[i..])
  {
    OpenFirst(cfg, rs[i..]);
    Assoc(before, [Opened], ListenTrace(cfg, true, rs[i..]));
  }

  /** One event handled inside the loop, which leaves the subscription `open` or
      not and the loop `stopped` or not: the part of the stream still to come. */
  lemma ListenStep(cfg: Config, rs: seq<Reaction>, i: nat, whole: seq<Effect>, before: seq<Effect>,
                   after: seq<Effect>, open: bool, stopped: bool)
    requires i < |rs|
    requires whole == before + ListenTrace(cfg, true, rs[i..])
    requires after == before + Effects(cfg, rs[i])
    requires open == (rs[i] == Skip) && stopped == (rs[i] == Quit)
    ensures whole == after + (if stopped then [] else ListenTrace(cfg, open, rs[i + 1..]))
  {
    ListenUnfold(cfg, true, rs[i..]);
    assert rs[i..][0] == rs[i] && rs[i..][1..] == rs[i + 1..];
    Regroup(before, Effects(cfg, rs[i]), if rs[i] == Quit then [] else ListenTrace(cfg, rs[i] == Skip, rs[i + 1..]));
  }

  /** The rule for the held subscription holds along every stream: no action command
      while the loop holds a subscription, and one subscription at a time. */
  lemma {:induction false} ListenExclusive(cfg: Config, open: bool, rs: seq<Reaction>)
    ensures Exclusive(open, ListenTrace(cfg, open, rs))
    decreases |rs|
  {
    if rs != [] {
      var r := rs[0];
      var eff := Effects(cfg, r);
      var pre: seq<Effect> := if open then [] else [Opened];
      EffectsFacts(cfg, r);
      ExclusiveConcat(open, pre, eff);
      OpenAfterConcat(open, pre, eff);
      if r != Quit {
        ListenExclusive(cfg, r == Skip, rs[1..]);
        ExclusiveConcat(open, pre + eff, ListenTrace(cfg, r == Skip, rs[1..]));
      }
    }
  }

  /** The requesters of the join requests among `rs` up to the first `Quit`, in
      stream order; a request without a requester answers nothing. */
  function JoinRequests(rs: seq<Reaction>): seq<string>
  {
    if rs == [] || rs[0] == Quit then []
    else (if rs[0].Join? && rs[0].requester.Some? then [rs[0].requester.value] else []) + JoinRequests(rs[1..])
  }

  /** The replies to `requests`, one after the other. */
  function Replies(cfg: Config, requests: seq<string>): seq<Command>
  {
    if requests == [] then [] else Route(cfg, requests[0]) + Replies(cfg, requests[1..])
  }

  /** The replies to one request are that request's commands. */
  lemma RepliesOne(cfg: Config, who: string)
    ensures Replies(cfg, [who]) == Route(cfg, who)
  {
    assert [who][1..] == [];
    assert Route(cfg, who) + [] == Route(cfg, who);
  }

  lemma {:induction false} RepliesConcat(cfg: Config, a: seq<string>, b: seq<string>)
    ensures Replies(cfg, a + b) == Replies(cfg, a) + Replies(cfg, b)
    decreases |a|
  {
    if a != [] {
      assert (a + b)[0] == a[0] && (a + b)[1..] == a[1..] + b;
      RepliesConcat(cfg, a[1..], b);
      Assoc(Route(cfg, a[0]), Replies(cfg, a[1..]), Replies(cfg, b));
    } else {
      assert a + b == b;
      assert Replies(cfg, a) == [];
    }
  }

  /** The action log of the loop is exactly the replies to the join requests, in
      stream order: skipped, dropped and ended subscriptions add nothing, and nothing
      is answered after an interrupt. */
  lemma {:induction false} ListenActions(cfg: Config, open: bool, rs: seq<Reaction>)
    ensures Actions(ListenTrace(cfg, open, rs)) == Replies(cfg, JoinRequests(rs))
    decreases |rs|
  {
    if rs != [] {
      var r := rs[0];
      var eff := Effects(cfg, r);
      var pre: seq<Effect> := if open then [] else [Opened];
      EffectsFacts(cfg, r);
      assert Actions(pre + eff) == Actions(eff) by { ActionsConcat(pre, eff); }
      if r != Quit {
        var rest := ListenTrace(cfg, r == Skip, rs[1..]);
        ListenActions(cfg, r == Skip, rs[1..]);
        ActionsConcat(pre + eff, rest);
        var mine := if r.Join? && r.requester.Some? then [r.requester.value] else [];
        if mine != [] {
          RepliesOne(cfg, r.requester.value);
        }
        RepliesConcat(cfg, mine, JoinRequests(rs[1..]));
      }
    }
  }

  /** The dropped subscriptions among `rs` up to the first `Quit`. */
  function Drops(rs: seq<Reaction>): nat
  {
    if rs == [] || rs[0] == Quit then 0
    else (if rs[0] == Drop then 1 else 0) + Drops(rs[1..])
  }

  /** Each dropped subscription leaves behind one receive process the loop no longer
      holds, and nothing else does: a stream without unreadable lines leaves none. */
  lemma {:induction false} ListenStrays(cfg: Config, open: bool, rs: seq<Reaction>)
    ensures Strays(ListenTrace(cfg, open, rs)) == Drops(rs)
    decreases |rs|
  {
    if rs != [] {
      var r := rs[0];
      var eff := Effects(cfg, r);
      var pre: seq<Effect> := if open then [] else [Opened];
      EffectsFacts(cfg, r);
      StraysConcat(pre, eff);
      assert Strays(pre) == 0;
      if r != Quit {
        ListenStrays(cfg, r == Skip, rs[1..]);
        StraysConcat(pre + eff, ListenTrace(cfg, r == Skip, rs[1..]));
      }
    }
  }

  /** A skipped event leaves the open subscription, and everything after it, as if
      it were not there. */
  lemma SkipIsInvisible(cfg: Config, rs: seq<Reaction>)
    ensures ListenTrace(cfg, true, [Skip] + rs) == ListenTrace(cfg, true, rs)
  {
    assert ([Skip] + rs)[1..] == rs;
  }

  /** A join request on the open subscription: the subscription is terminated and its
      exit awaited, then the reply is issued, and the next event finds no
      subscription, so a new one is opened only after the reply. */
  lemma JoinPausesListening(cfg: Config, requester: Option<string>, rs: seq<Reaction>)
    ensures ListenTrace(cfg, true, [Join(requester)] + rs)
         == [Terminated] + IssuedAll(JoinCommands(cfg, requester)) + ListenTrace(cfg, false, rs)
    ensures rs != [] ==> ListenTrace(cfg, false, rs)[0] == Opened
  {
    OpenStep(cfg, Join(requester), rs);
    if rs != [] {
      OpenFirst(cfg, rs);
    }
  }

  /** A dropped subscription, then a join: a second subscription is opened and
      terminated and the reply is issued while the first one's process may still run. */
  lemma DropThenJoin(cfg: Config, requester: Option<string>)
    ensures ListenTrace(cfg, false, [Drop, Join(requester)])
         == [Opened, Abandoned, Opened, Terminated] + IssuedAll(JoinCommands(cfg, requester))
  {
    assert [Drop, Join(requester)][1..] == [Join(requester)];
    assert [Join(requester)][1..] == [];
    ListenUnfold(cfg, false, [Drop, Join(requester)]);
    ListenUnfold(cfg, false, [Join(requester)]);
    Regroup4(Opened, Abandoned, Opened, Terminated, IssuedAll(JoinCommands(cfg, requester)));
  }

  lemma Regroup4<T>(a: T, b: T, c: T, d: T, r: seq<T>)
    ensures [a] + [b] + ([c] + ([d] + r) + []) == [a, b, c, d] + r
  {
  }

  /** The transport's rule in full: an action command runs only while no receive
      process runs at all, neither the held subscription (`open`) nor one the loop
      dropped earlier without terminating it (`left`). */
  predicate ActsAlone(open: bool, left: bool, t: seq<Effect>)
    decreases |t|
  {
    t == [] ||
    ((t[0].Issued? ==> !open && !left) && ActsAlone(After(open, t[0]), left || t[0] == Abandoned, t[1..]))
  }

  lemma ActsAloneCons(open: bool, left: bool, e: Effect, t: seq<Effect>)
    ensures ActsAlone(open, left, [e] + t)
         == ((e.Issued? ==> !open && !left) && ActsAlone(After(open, e), left || e == Abandoned, t))
  {
    assert ([e] + t)[1..] == t;
  }

  /** A history that keeps the rule for the held subscription and drops none keeps
      the full rule. */
  lemma {:induction false} ExclusiveActsAlone(open: bool, t: seq<Effect>)
    requires Exclusive(open, t) && Strays(t) == 0
    ensures ActsAlone(open, false, t)
    decreases |t|
  {
    if t != [] {
      ExclusiveActsAlone(After(open, t[0]), t[1..]);
    }
  }

  /** Along a stream without unreadable lines, no action command runs while any
      receive process runs. */
  lemma ListenActsAlone(cfg: Config, open: bool, rs: seq<Reaction>)
    requires Drops(rs) == 0
    ensures ActsAlone(open, false, ListenTrace(cfg, open, rs))
  {
    ListenExclusive(cfg, open, rs);
    ListenStrays(cfg, open, rs);
    ExclusiveActsAlone(open, ListenTrace(cfg, open, rs));
  }

  /** With an unreadable line the full rule fails: a join request after it is
      answered while the dropped subscription's process may still run. */
  lemma DropBreaksActsAlone(cfg: Config, who: string)
    ensures var t := ListenTrace(cfg, false, [Drop, Join(Some(who))]);
      Exclusive(false, t) && Strays(t) == 1 && Actions(t) == Route(cfg, who) &&
      !ActsAlone(false, false, t)
  {
    var rs := [Drop, Join(Some(who))];
    DropThenJoin(cfg, Some(who));
    assert JoinCommands(cfg, Some(who)) == Route(cfg, who);
    ListenExclusive(cfg, false, rs);
    ListenStrays(cfg, false, rs);
    assert rs == [Drop] + [Join(Some(who))] && [Join(Some(who))] == [Join(Some(who))] + [];
    DropAnswers(cfg, [Join(Some(who))]);
    JoinRequestsCons(Join(Some(who)), []);
    DropsCons(Join(Some(who)), []);
    ListenActions(cfg, false, rs);
    RepliesOne(cfg, who);
    AnsweredBesideStray(IssuedAll(Route(cfg, who)));
  }

  /** A reply issued after a subscription was abandoned and another opened and
      terminated is not alone. */
  lemma AnsweredBesideStray(reply: seq<Effect>)
    requires reply != [] && reply[0].Issued?
    ensures !ActsAlone(false, false, [Opened, Abandoned, Opened, Terminated] + reply)
  {
    assert reply == [reply[0]] + reply[1..];
    ActsAloneCons(false, true, reply[0], reply[1..]);
    ActsAloneCons(true, true, Terminated, reply);
    ActsAloneCons(false, true, Opened, [Terminated] + reply);
    ActsAloneCons(true, false, Abandoned, [Opened, Terminated] + reply);
    ActsAloneCons(false, false, Opened, [Abandoned, Opened, Terminated] + reply);
    assert [Opened, Abandoned, Opened, Terminated] + reply
        == [Opened] + ([Abandoned] + ([Opened] + ([Terminated] + reply)));
  }

  /** The trigger is exactly a message whose stripped text is four characters that
      lower-case to "join"; case and surrounding whitespace do not matter. */
  lemma TriggerMeans(message: Option<string>)
    ensures IsTrigger(message) <==>
      message.Some? && |Strip(message.value)| == 4 &&
      forall k :: 0 <= k < 4 ==> LowerChar(Strip(message.value)[k]) == "join"[k]
  {
    var text := Strip(message.GetOr(""));
    if message.None? {
      assert text == "";
    } else if |text| == 4 && forall k :: 0 <= k < 4 ==> LowerChar(text[k]) == "join"[k] {
      assert Lower(text) == "join";
    }
  }

  /** An absent message, or one made only of whitespace, never triggers. */
  lemma BlankNeverTriggers(message: Option<string>)
    requires message.None? || forall k :: 0 <= k < |message.value| ==> IsSpace(message.value[k])
    ensures !IsTrigger(message)
  {
    if message.Some? {
      StripBlank(message.value);
    }
  }

  /** Deciding about a stream is deciding about its first event, then the rest. */
  lemma ReactionsCons(e: Event, events: seq<Event>, r: Reaction)
    requires ReactTo(e) == r
    ensures Reactions([e] + events) == [r] + Reactions(events)
  {
    assert ([e] + events)[1..] == events;
  }

  /** A trigger on a non-blank line is a join request from the envelope's identity. */
  lemma ReactToTrigger(raw: string, sourceNumber: Option<string>, source: Option<string>,
                       message: Option<string>)
    requires Strip(raw) != "" && IsTrigger(message)
    ensures ReactTo(Line(raw, Envelope(sourceNumber, source, message))) == Join(Identity(sourceNumber, source))
  {
  }

  /** Blank lines, undecodable ones and envelopes without the trigger are skipped. */
  lemma ReactToQuiet(raw: string, parsed: Parsed)
    requires Strip(raw) == "" || parsed.NotJson? || (parsed.Envelope? && !IsTrigger(parsed.message))
    ensures ReactTo(Line(raw, parsed)) == Skip
  {
  }

  /** A blank line, an undecodable one, or an envelope without the trigger leaves the
      open subscription, the replies and the dropped subscriptions of the whole
      stream as if it were not there. */
  lemma QuietLine(cfg: Config, raw: string, parsed: Parsed, events: seq<Event>)
    requires Strip(raw) == "" || parsed.NotJson? || (parsed.Envelope? && !IsTrigger(parsed.message))
    ensures var rs := Reactions([Line(raw, parsed)] + events);
      ListenTrace(cfg, true, rs) == ListenTrace(cfg, true, Reactions(events)) &&
      JoinRequests(rs) == JoinRequests(Reactions(events)) &&
      Drops(rs) == Drops(Reactions(events))
  {
    ReactToQuiet(raw, parsed);
    ReactionsCons(Line(raw, parsed), events, Skip);
    var rest := Reactions(events);
    SkipIsInvisible(cfg, rest);
    JoinRequestsCons(Skip, rest);
    DropsCons(Skip, rest);
  }

  /** A trigger from a non-empty `sourceNumber`: the subscription is terminated, the
      reply to that number is issued, and the number is the one answered. */
  lemma TriggerFromNumber(cfg: Config, raw: string, n: string, source: Option<string>,
                          message: Option<string>, events: seq<Event>)
    requires Strip(raw) != "" && IsTrigger(message) && n != ""
    ensures var rs := Reactions([Line(raw, Envelope(Some(n), source, message))] + events);
      ListenTrace(cfg, true, rs)
        == [Terminated] + IssuedAll(Route(cfg, n)) + ListenTrace(cfg, false, Reactions(events)) &&
      JoinRequests(rs) == [n] + JoinRequests(Reactions(events))
  {
    var e := Line(raw, Envelope(Some(n), source, message));
    ReactToTrigger(raw, Some(n), source, message);
    ReactionsCons(e, events, Join(Some(n)));
    JoinAnswers(cfg, Some(n), Reactions(events));
    assert JoinCommands(cfg, Some(n)) == Route(cfg, n);
  }

  /** A trigger without a non-empty `sourceNumber` is answered to `source`. */
  lemma TriggerFromSource(cfg: Config, raw: string, sourceNumber: Option<string>, src: string,
                          message: Option<string>, events: seq<Event>)
    requires Strip(raw) != "" && IsTrigger(message)
    requires sourceNumber.None? || sourceNumber.value == ""
    ensures var rs := Reactions([Line(raw, Envelope(sourceNumber, Some(src), message))] + events);
      ListenTrace(cfg, true, rs)
        == [Terminated] + IssuedAll(Route(cfg, src)) + ListenTrace(cfg, false, Reactions(events)) &&
      JoinRequests(rs) == [src] + JoinRequests(Reactions(events))
  {
    var e := Line(raw, Envelope(sourceNumber, Some(src), message));
    ReactToTrigger(raw, sourceNumber, Some(src), message);
    assert Identity(sourceNumber, Some(src)) == Some(src);
    ReactionsCons(e, events, Join(Some(src)));
    JoinAnswers(cfg, Some(src), Reactions(events));
    assert JoinCommands(cfg, Some(src)) == Route(cfg, src);
  }

  /** A trigger with no requester at all still pauses the subscription, but nothing
      is answered. */
  lemma TriggerFromNobody(cfg: Config, raw: string, sourceNumber: Option<string>,
                          message: Option<string>, events: seq<Event>)
    requires Strip(raw) != "" && IsTrigger(message)
    requires sourceNumber.None? || sourceNumber.value == ""
    ensures var rs := Reactions([Line(raw, Envelope(sourceNumber, None, message))] + events);
      ListenTrace(cfg, true, rs) == [Terminated] + ListenTrace(cfg, false, Reactions(events)) &&
      JoinRequests(rs) == JoinRequests(Reactions(events))
  {
    var e := Line(raw, Envelope(sourceNumber, None, message));
    ReactToTrigger(raw, sourceNumber, None, message);
    assert Identity(sourceNumber, None) == None;
    ReactionsCons(e, events, Join(None));
    JoinFromNobody(cfg, Reactions(events));
  }

  /** An unreadable line drops the subscription without terminating it: one more
      process is left running and nothing is answered. */
  lemma UnreadableLine(cfg: Config, raw: string, events: seq<Event>)
    requires Strip(raw) != ""
    ensures var rs := Reactions([Line(raw, Unreadable)] + events);
      ListenTrace(cfg, true, rs) == [Abandoned] + ListenTrace(cfg, false, Reactions(events)) &&
      JoinRequests(rs) == JoinRequests(Reactions(events)) &&
      Drops(rs) == 1 + Drops(Reactions(events))
  {
    ReactionsCons(Line(raw, Unreadable), events, Drop);
    DropAnswers(cfg, Reactions(events));
  }

  /** A dropped subscription, followed by `rs`. */
  lemma DropAnswers(cfg: Config, rs: seq<Reaction>)
    ensures ListenTrace(cfg, true, [Drop] + rs) == [Abandoned] + ListenTrace(cfg, false, rs)
    ensures JoinRequests([Drop] + rs) == JoinRequests(rs)
    ensures Drops([Drop] + rs) == 1 + Drops(rs)
  {
    OpenStep(cfg, Drop, rs);
    JoinRequestsCons(Drop, rs);
    DropsCons(Drop, rs);
  }

  /** A join request on the open subscription, followed by `rs`. */
  lemma JoinAnswers(cfg: Config, requester: Option<string>, rs: seq<Reaction>)
    ensures ListenTrace(cfg, true, [Join(requester)] + rs)
         == [Terminated] + IssuedAll(JoinCommands(cfg, requester)) + ListenTrace(cfg, false, rs)
    ensures JoinRequests([Join(requester)] + rs)
         == (if requester.Some? then [requester.value] else []) + JoinRequests(rs)
  {
    JoinPausesListening(cfg, requester, rs);
    JoinRequestsCons(Join(requester), rs);
  }

  /** One step of the loop on an open subscription, for an event that does not end it. */
  lemma OpenStep(cfg: Config, r: Reaction, rs: seq<Reaction>)
    requires r != Quit
    ensures ListenTrace(cfg, true, [r] + rs) == Effects(cfg, r) + ListenTrace(cfg, r == Skip, rs)
  {
    var j := [r] + rs;
    assert j[0] == r && j[1..] == rs;
    ListenUnfold(cfg, true, j);
    assert [] + Effects(cfg, r) == Effects(cfg, r);
  }

  /** The dropped subscriptions of a stream that continues with `rs`. */
  lemma DropsCons(r: Reaction, rs: seq<Reaction>)
    requires r != Quit
    ensures Drops([r] + rs) == (if r == Drop then 1 else 0) + Drops(rs)
  {
    assert ([r] + rs)[1..] == rs;
  }

  /** The join requests of a stream that continues with `rs`. */
  lemma JoinRequestsCons(r: Reaction, rs: seq<Reaction>)
    requires r != Quit
    ensures JoinRequests([r] + rs)
         == (if r.Join? && r.requester.Some? then [r.requester.value] else []) + JoinRequests(rs)
  {
    assert ([r] + rs)[1..] == rs;
  }

  /** A join request without any identity is answered with nothing. */
  lemma JoinFromNobody(cfg: Config, rs: seq<Reaction>)
    ensures ListenTrace(cfg, true, [Join(None)] + rs) == [Terminated] + ListenTrace(cfg, false, rs)
    ensures JoinRequests([Join(None)] + rs) == JoinRequests(rs)
  {
    JoinAnswers(cfg, None, rs);
    assert JoinCommands(cfg, None) == [];
    assert [Terminated] + IssuedAll([]) == [Terminated];
  }
}
