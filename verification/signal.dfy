/** The bot's configuration and the signal-cli command lines it issues. */
module Signal {

  /** A command line: the program name followed by its arguments. */
  type Command = seq<string>

  /** The configuration read once at startup and never changed: the bot's account,
      the area-code allow-list, the verified ("real") and unverified ("decoy") group
      ids, the admin contact, and the profile name and about text. */
  datatype Config = Config(
    botNumber: string,
    allowedAreaCodes: seq<string>,
    verifiedGroup: string,
    unverifiedGroup: string,
    adminContact: string,
    botName: string,
    botAbout: string)

  /** The head every signal-cli invocation starts with. */
  function Prefix(cfg: Config): Command
  {
    ["signal-cli", "-u", cfg.botNumber, "--output=json"]
  }

  /** The command line `run_action_command(args)` runs: the fixed head, then `args`. */
  function ActionCommand(cfg: Config, args: seq<string>): (c: Command)
    ensures |c| == 4 + |args|
    ensures c[..4] == Prefix(cfg) && c[4..] == args
    ensures c[0] == "signal-cli" && c[2] == cfg.botNumber
  {
    Prefix(cfg) + args
  }

  /** The operation a command line asks signal-cli to perform: the word after the head. */
  function Operation(c: Command): string
  {
    if |c| > 4 then c[4] else ""
  }

  /** `c` is a command of this bot's account whose last argument is `who`. */
  predicate Concerns(cfg: Config, c: Command, who: string)
  {
    Prefix(cfg) <= c && c[|c| - 1] == who
  }

  /** A command built from arguments ending in `who` concerns `who`. */
  lemma ActionConcerns(cfg: Config, args: seq<string>, who: string)
    requires args != [] && args[|args| - 1] == who
    ensures Concerns(cfg, ActionCommand(cfg, args), who)
  {
    var c := ActionCommand(cfg, args);
    assert c[|c| - 1] == c[4..][|args| - 1];
  }

  /** How many commands in `cmds` perform operation `op`. */
  function Count(cmds: seq<Command>, op: string): nat
  {
    if cmds == [] then 0
    else (if Operation(cmds[0]) == op then 1 else 0) + Count(cmds[1..], op)
  }

  /** The arguments of `send -m message recipient`. */
  function SendArgs(message: string, recipient: string): seq<string>
  {
    ["send", "-m", message, recipient]
  }

  /** The arguments of `updateGroup -g group -m member`, which adds `member` to `group`. */
  function AddMemberArgs(group: string, member: string): seq<string>
  {
    ["updateGroup", "-g", group, "-m", member]
  }

  /** The arguments of the one-time profile update. */
  function ProfileArgs(cfg: Config): seq<string>
  {
    ["updateProfile", "--name", cfg.botName, "--about", cfg.botAbout]
  }
}
