/** The join-routing decision of `handle_join_request`: a hidden number is told how
    to reveal it; a visible number is welcomed and added to the verified group when
    its area code is allowed, and to the unverified group otherwise. */
module Routing {
  import opened Text
  import opened Signal

  /** The fixed opening of the reply to a hidden number: how to make the number
      visible and retry, and that the admin can be messaged instead. */
  const HiddenNumberText: string :=
    "Your phone number is hidden by your privacy settings.\n\n"
    + "If you want to join the main group, you'll need to temporarily set 'Who can see my number' to 'Everyone' in Settings > Privacy, then reply 'join' again.\n\n"
    + "Don't worry, you can change it back after you're verified.\n\n"
    + "If you'd rather not do that, you can message the admin directly at "

  /** The reply to a requester whose number is hidden; it ends with the admin contact. */
  function HiddenNumberWarning(adminContact: string): string
  {
    HiddenNumberText + adminContact
  }

  /** The reply to a requester with an allowed area code. */
  const VerifiedWelcome: string := "Welcome to the group!"

  /** The reply to a requester whose area code is not allowed; it names the admin contact. */
  function UnverifiedWelcome(adminContact: string): string
  {
    UnverifiedText + adminContact + UnverifiedTail
  }

  const UnverifiedText: string := "Welcome! You've been added to the group. Please message the admin at "
  const UnverifiedTail: string := " to get verified."

  /** The area code of a visible number, read at the fixed offset of `+1XXXYYYZZZZ`:
      the characters at positions 2 to 4, fewer when the identity is shorter. */
  function AreaCode(source: string): (code: string)
    ensures |code| <= 3
    ensures |source| >= 5 ==> code == source[2..5]
    ensures |source| <= 2 ==> code == ""
  {
    Slice(source, 2, 5)
  }

  /** The outcome of a join request. */
  datatype Verdict = HiddenNumber | RoutedVerified | RoutedUnverified

  /** Hidden numbers are recognised before any area-code check. */
  function Classify(cfg: Config, source: string): (v: Verdict)
    ensures v == HiddenNumber <==> !StartsWith(source, "+")
    ensures v == RoutedVerified <==> StartsWith(source, "+") && AreaCode(source) in cfg.allowedAreaCodes
  {
    if !StartsWith(source, "+") then HiddenNumber
    else if AreaCode(source) in cfg.allowedAreaCodes then RoutedVerified
    else RoutedUnverified
  }

  /** The commands `handle_join_request(source)` issues, in order: the reply, then,
      for a visible number, the group add. */
  function Route(cfg: Config, source: string): (r: seq<Command>)
    ensures |r| == (if StartsWith(source, "+") then 2 else 1)
    ensures |r| == 2 ==> r[1] == ActionCommand(cfg, AddMemberArgs(
      if AreaCode(source) in cfg.allowedAreaCodes then cfg.verifiedGroup else cfg.unverifiedGroup, source))
  {
    var v := Classify(cfg, source);
    var send := ActionCommand(cfg, SendArgs(Reply(cfg, v), source));
    if v == HiddenNumber then [send]
    else [send, ActionCommand(cfg, AddMemberArgs(Group(cfg, v), source))]
  }

  /** The message `handle_join_request` sends for each verdict. */
  function Reply(cfg: Config, v: Verdict): string
  {
    match v
    case HiddenNumber => HiddenNumberWarning(cfg.adminContact)
    case RoutedVerified => VerifiedWelcome
    case RoutedUnverified => UnverifiedWelcome(cfg.adminContact)
  }

  /** The group a visible number is added to. */
  function Group(cfg: Config, v: Verdict): string
  {
    if v == RoutedVerified then cfg.verifiedGroup else cfg.unverifiedGroup
  }

  /** A hidden number gets exactly one `send`, addressed to it and naming the admin
      contact, and is added to no group, whatever the allow-list says. */
  lemma HiddenNumberReply(cfg: Config, source: string)
    requires !StartsWith(source, "+")
    ensures Route(cfg, source) == [ActionCommand(cfg, SendArgs(HiddenNumberWarning(cfg.adminContact), source))]
    ensures Contains(HiddenNumberWarning(cfg.adminContact), cfg.adminContact)
    ensures Count(Route(cfg, source), "send") == 1
    ensures Count(Route(cfg, source), "updateGroup") == 0
  {
    ContainsInfix(HiddenNumberText, cfg.adminContact, "");
    assert HiddenNumberText + cfg.adminContact + "" == HiddenNumberWarning(cfg.adminContact);
  }

  /** A visible number with an allowed area code is welcomed, then added to the
      verified group, in that order and nothing else. */
  lemma VerifiedReply(cfg: Config, source: string)
    requires StartsWith(source, "+") && AreaCode(source) in cfg.allowedAreaCodes
    ensures Route(cfg, source) ==
      [ActionCommand(cfg, ["send", "-m", "Welcome to the group!", source]),
       ActionCommand(cfg, ["updateGroup", "-g", cfg.verifiedGroup, "-m", source])]
  {
  }

  /** A visible number whose area code is not allowed gets a `send` naming the admin
      contact, then is added to the unverified group. */
  lemma UnverifiedReply(cfg: Config, source: string)
    requires StartsWith(source, "+") && AreaCode(source) !in cfg.allowedAreaCodes
    ensures Route(cfg, source) ==
      [ActionCommand(cfg, SendArgs(UnverifiedWelcome(cfg.adminContact), source)),
       ActionCommand(cfg, ["updateGroup", "-g", cfg.unverifiedGroup, "-m", source])]
    ensures Contains(UnverifiedWelcome(cfg.adminContact), cfg.adminContact)
  {
    ContainsInfix(UnverifiedText, cfg.adminContact, UnverifiedTail);
  }

  /** Every branch issues one `send` and at most one `updateGroup` and nothing else,
      the `send` first; the `updateGroup` is issued exactly for visible numbers. */
  lemma RouteCounts(cfg: Config, source: string)
    ensures var r := Route(cfg, source);
      Count(r, "send") == 1 && Count(r, "updateGroup") <= 1 &&
      |r| == Count(r, "send") + Count(r, "updateGroup") &&
      (Count(r, "updateGroup") == 1 <==> StartsWith(source, "+")) &&
      Operation(r[0]) == "send"
  {
    var r := Route(cfg, source);
    if Classify(cfg, source) == HiddenNumber {
      CountOne(r[0]);
    } else {
      CountTwo(r[0], r[1]);
    }
  }

  /** Every command `handle_join_request` issues starts with the fixed signal-cli head
      of the bot's account and is addressed to the requester. */
  lemma RouteConcernsRequester(cfg: Config, source: string)
    ensures var r := Route(cfg, source);
      forall k :: 0 <= k < |r| ==> Concerns(cfg, r[k], source)
  {
    var v := Classify(cfg, source);
    ActionConcerns(cfg, SendArgs(Reply(cfg, v), source), source);
    if v != HiddenNumber {
      ActionConcerns(cfg, AddMemberArgs(Group(cfg, v), source), source);
    }
  }

  lemma CountOne(a: Command)
    ensures forall op :: Count([a], op) == if Operation(a) == op then 1 else 0
  {
    assert [a][1..] == [];
  }

  lemma CountTwo(a: Command, b: Command)
    ensures forall op :: Count([a, b], op)
                         == (if Operation(a) == op then 1 else 0) + (if Operation(b) == op then 1 else 0)
  {
    assert [a, b][1..] == [b];
    CountOne(b);
  }

  /** Three example requests against an allow-list holding only "415": one routed to
      the verified group, one to the unverified group, and a UUID identity treated as a
      hidden number. */
  lemma AreaCodeExamples(cfg: Config)
    requires cfg.allowedAreaCodes == ["415"]
    ensures Classify(cfg, "+14155551234") == RoutedVerified
    ensures Classify(cfg, "+12125551234") == RoutedUnverified
    ensures Classify(cfg, "abcd-uuid-1234") == HiddenNumber
  {
    assert AreaCode("+14155551234") == "415";
    assert AreaCode("+12125551234") == "212";
    assert "abcd-uuid-1234"[0] != '+';
  }
}
