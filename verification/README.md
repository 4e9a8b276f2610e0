# localis join gate, modelled in Dafny

localis is a Signal bot that guards a neighbourhood group. It holds one long-running
`signal-cli receive` subscription. When someone messages it "join", it pauses that
subscription and answers. A requester whose number is hidden is told how to reveal
it. A visible number is welcomed and added to the verified group when its area code
is on the allow-list, and to the unverified group otherwise. At start-up the bot
also sets its profile once, guarded by a marker file.

The model has six modules:

- `Wrappers`: `Option`.
- `Text`: the Python string built-ins the bot uses: `strip()`, `lower()`, clamped
  slicing, `startswith` and substring search.
- `Signal`: the configuration and the signal-cli command lines.
- `Routing`: the routing decision of `handle_join_request`, as pure functions.
- `Receive`: the listen loop as a specification.
  - What the loop decides for each event of the subscription (`ReactTo`).
  - The history of effects a whole stream of events produces (`ListenTrace`):
    subscriptions opened and closed, and action commands issued.
  - The transport rule "no action command while a `receive` process runs" is stated on
    that history twice. `Exclusive` covers the subscription the loop holds: no action
    command while it holds one. `ActsAlone` also counts every process the loop
    dropped without terminating it.
  - The loop keeps `Exclusive` on every stream, and `ActsAlone` on every stream
    without unreadable lines. A reply that follows an unreadable line breaks
    `ActsAlone`: the dropped process may still run while the reply is issued.
- `Localis`: the running bot as a class `Bot`, whose methods follow `main.py`.
  - Fields: the setup marker `configured`, the subscription flag `subOpen`, the
    action log `log`, the number of receive processes left running (`stray`), and
    whether the loop has ended (`stopped`).
  - A ghost history `trace`, tied to the fields by `Valid()`.
  - Every method keeps `Valid()`, so every reachable history keeps `Exclusive` for the
    subscription the bot holds.
  - `Listen` is proved to produce exactly `ListenTrace` of its events.

## Model

| member | source | states |
|---|---|---|
| Text.Strip | main.py:96-106 | `strip()` returns a string no longer than its input that is empty or neither starts nor ends with whitespace |
| Text.TrimStart | main.py:96-106 | the result is a suffix of the input; everything dropped is whitespace in Python's `isspace` sense; the result is empty or starts with a non-space |
| Text.TrimEnd | main.py:96-106 | the result is a prefix of the input; everything dropped is whitespace; the result is empty or ends with a non-space |
| Text.StripKeepsCore | main.py:96-106 | `strip()` keeps one contiguous piece of the string, with only whitespace before and after it, and that piece neither starts nor ends with whitespace |
| Text.StripBlank | main.py:96-97 | `strip()` gives the empty string exactly when every character is whitespace, so a line is skipped exactly when it is blank |
| Text.Lower | main.py:110 | `lower()` keeps the length and maps every character on its own |
| Text.Slice | main.py:69 | `s[lo:hi]` clamps both bounds to the length: the ordinary slice when in range, the tail when `hi` is past the end, empty when `lo` is past the end or `hi <= lo` |
| Text.ContainsInfix | main.py:63 | a string contains anything concatenated into it |
| Signal.ActionCommand | main.py:29 | every action command is the fixed head `signal-cli -u <bot number> --output=json` followed by exactly the given arguments |
| Signal.ActionConcerns | main.py:29 | a command whose arguments end with `who` starts with the bot's head and ends with `who` |
| Routing.AreaCode | main.py:69 | the area code is `source[2:5]`: at most three characters; exactly positions 2..4 of a long enough identity; empty for one of length two or less |
| Routing.Classify | main.py:56-70 | an identity is a hidden number exactly when it does not start with "+"; it is routed to the verified group exactly when it starts with "+" and its area code is on the allow-list; otherwise to the unverified group |
| Routing.Route | main.py:54-79 | `handle_join_request` issues two commands for an identity starting with "+" and one otherwise; the second adds the identity to the verified group when its area code is allowed and to the unverified group when it is not |
| Routing.HiddenNumberReply | main.py:56-67 | an identity without a leading "+" gets exactly one `send` to itself; its text contains the admin contact; no `updateGroup` is issued |
| Routing.VerifiedReply | main.py:69-73 | a "+" identity whose area code is allowed gets `send -m "Welcome to the group!"` and then `updateGroup -g <verified group> -m <identity>`, in that order, and nothing else |
| Routing.UnverifiedReply | main.py:69-79 | a "+" identity whose area code is not allowed gets a `send` whose text contains the admin contact, then `updateGroup -g <unverified group> -m <identity>` |
| Routing.RouteCounts | main.py:54-79 | every branch issues exactly one `send`, and it comes first; at most one `updateGroup`; nothing else; the `updateGroup` is issued exactly when the identity starts with "+" |
| Routing.RouteConcernsRequester | main.py:54-79 | every command `handle_join_request` issues starts with the bot's fixed head and names the requester as its last argument |
| Routing.AreaCodeExamples | main.py:56-70 | with the allow-list ["415"]: "+14155551234" is routed to the verified group, "+12125551234" to the unverified group, and a UUID identity is a hidden number |
| Receive.Identity | main.py:103 | `sourceNumber or source`: the `sourceNumber` when it is present and non-empty, otherwise the `source`; absent exactly when `source` is absent and `sourceNumber` is absent or empty |
| Receive.IsTrigger | main.py:105-110 | the trigger test on the message; TriggerMeans states exactly when it holds; it has no contract of its own |
| Receive.ReactTo | main.py:94-133 | the decision for one event, as the function the lemmas below are about: an interrupt quits, an ended output reopens, and a line is decided as QuietLine, TriggerFromNumber, TriggerFromSource, TriggerFromNobody and UnreadableLine state; it has no contract of its own |
| Receive.JoinCommands | main.py:110-133 | a join request without any identity issues no command, because `handle_join_request(None)` raises before its first command and the generic handler absorbs the exception; with an identity, at most two commands, each naming that identity as its last argument |
| Receive.ListenTrace | main.py:86-133 | the history a stream of decisions produces, as the specification `Localis.Bot.Listen` is proved against; its properties are stated by the lemmas below; it has no contract of its own |
| Receive.EffectsFacts | main.py:94-133 | handling one event on the open subscription keeps the rule for the held subscription. It leaves the subscription open only when the event is skipped. It ends the loop only on an interrupt, and leaves a process running only on an unreadable line. Its only action commands are the reply to a join request |
| Receive.ListenExclusive | main.py:85-133 | along every stream of events, the loop never opens a subscription while holding one, and never runs an action command while it holds one |
| Receive.ListenActsAlone | main.py:85-133 | along a stream without unreadable lines, no action command runs while any receive process runs, held or dropped |
| Receive.DropBreaksActsAlone | main.py:86-133 | an unreadable line followed by a join request: the loop keeps the rule for the held subscription, leaves one process running, and answers the requester while that dropped process may still run, so the full rule fails |
| Receive.JoinPausesListening | main.py:86-117 | a join request terminates the subscription and awaits its exit, then issues the reply; a new subscription is opened only after the reply, before the next event |
| Receive.ListenActions | main.py:85-133 | the loop's action log is exactly the replies to the join requests, in stream order, up to an interrupt |
| Receive.ListenStrays | main.py:131-133 | each unreadable line leaves one receive process running that the loop no longer holds, and nothing else does |
| Receive.DropThenJoin | main.py:86-133 | after an unreadable line, a second subscription is opened and later terminated, and the reply is issued, while the first process may still run |
| Receive.SkipIsInvisible | main.py:96-120 | a blank, undecodable or non-trigger line changes neither the subscription nor anything that happens afterwards |
| Receive.TriggerMeans | main.py:105-110 | the trigger fires exactly when the message is present and its stripped text is four characters that lower-case to "join" |
| Receive.BlankNeverTriggers | main.py:105-110 | a missing message, or one made only of whitespace, never triggers |
| Receive.QuietLine | main.py:96-120 | a blank line, an undecodable one, or an envelope without the trigger leaves the history from the open subscription onwards, the requests answered and the processes dropped exactly as if the line were absent |
| Receive.TriggerFromNumber | main.py:103-117 | a trigger whose `sourceNumber` is non-empty terminates the subscription, issues exactly the reply to that number, and the rest of the stream starts with no subscription held; that number is the one answered |
| Receive.TriggerFromSource | main.py:103-117 | a trigger whose `sourceNumber` is absent or empty is answered the same way to its `source` |
| Receive.TriggerFromNobody | main.py:103-133 | a trigger with no identity at all terminates the subscription and issues nothing; nobody is answered |
| Receive.UnreadableLine | main.py:98-133 | a non-blank line that raises anything but a decode error before the trigger test leaves the subscription without terminating it, answers nobody, and adds one dropped process |
| Localis.ProfileSetup | main.py:45-48 | the one-time setup issues one `updateProfile` when the marker is absent and nothing when it is present |
| Localis.SetupOnce | main.py:41-52 | with the marker present the setup issues nothing, otherwise exactly one `updateProfile`; a second setup after the first adds nothing |
| Localis.Bot.constructor | main.py:18-25 | a fresh bot holds no subscription and has an empty log; the marker may survive from an earlier run |
| Localis.Bot.RunActionCommand | main.py:27-39 | only callable while no subscription is open; appends exactly `signal-cli -u <bot> --output=json <args>` to the log |
| Localis.Bot.ConfigureBot | main.py:41-52 | issues the profile update exactly when the marker is absent, and always leaves the marker set |
| Localis.Bot.ConfigureTwice | main.py:45-52 | two consecutive setups issue at most one `updateProfile` |
| Localis.Bot.HandleJoinRequest | main.py:54-79 | appends exactly the commands `Route` gives to the log, in order |
| Localis.Bot.OpenReceive | main.py:86-92 | opens a subscription; only allowed when none is held |
| Localis.Bot.TerminateReceive | main.py:112-113 | terminates the held subscription and awaits it; afterwards none is held |
| Localis.Bot.ReceiveEnded | main.py:94-125 | the subscription's output ended; afterwards none is held and the loop reopens |
| Localis.Bot.AbandonReceive | main.py:131-133 | the generic handler leaves the subscription without terminating it; one more process is left running |
| Localis.Bot.StopReceive | main.py:127-130 | the interrupt handler terminates the subscription and ends the loop |
| Localis.Bot.PauseAndAnswer | main.py:110-117 | terminate and await the subscription, then answer the requester; nothing is answered without a requester |
| Localis.Bot.HandleEnvelope | main.py:102-117 | a trigger pauses the subscription and answers the requester (`sourceNumber` before `source`); any other message leaves the subscription open and changes nothing |
| Localis.Bot.ProcessEvent | main.py:94-133 | one event of the subscription does exactly what `ReactTo` decides: its effects are appended to the history; the subscription stays open only when the event is skipped; the loop stops only on an interrupt |
| Localis.Bot.Listen | main.py:85-133 | over any finite stream, the history is exactly `ListenTrace` of the stream's decisions, and the log gains exactly the replies to its join requests |
| Localis.Bot.Serve | main.py:80-133 | `main`: the one-time setup, then the listen loop; the log is the profile update, if any, then the replies |

## Left out

- Running processes: `subprocess.run` and `Popen`, their pipes, exit codes and error output (main.py:33-39, main.py:87-92). Running an action command is appending it to the log. Its outcome is only printed and never changes what happens next.
- JSON decoding (main.py:100). Each line comes already classified as `NotJson`, `Unreadable` or a decoded `Envelope` with optional `sourceNumber`, `source` and `message`.
- Which JSON shapes make `.get` or `.strip` raise. They are the `Unreadable` case. The model does not derive them from JSON values.
- Loading `config.yaml`, the defaults of the optional keys and `sys.exit` on a missing file (main.py:10-25). The configuration is an immutable `Config` value.
- A YAML allow-list that is a string rather than a list, where `in` would be a substring test. The model takes the allow-list as a list of strings.
- `time.sleep` backoff. After the output ends, a `LockException` in the error output adds a one-second pause before reopening (main.py:122-125); that path is the model's `Reopen`. The generic handler always pauses one second before reopening (main.py:131-133); that path is the model's `Drop`. The pauses only affect timing.
- Which lines make the logging `print` at main.py:108 raise. Printing the message can raise, for instance a `UnicodeEncodeError` when the console cannot encode it. The exception reaches the generic handler like a malformed field does, so such a line is one of the `Unreadable` lines. The model does not derive which lines do this.
- A `KeyboardInterrupt` is modelled only between two events of an open subscription. An interrupt during `Popen` or while replying is not modelled.
- `print` logging throughout. Apart from main.py:108, every `print` is taken to succeed, including the one at main.py:111 between the trigger test and the termination.
- `Localis.Bot.ConfigureBot`: writing the marker file (main.py:51-52) can raise, for instance in a read-only directory. That ends `main` before the listen loop, with the profile updated and the marker absent. The model always sets the marker and goes on to the loop.
- `Localis.Bot.Listen`: the loop runs over a finite sequence of events, where the source's `while True` runs forever. The outer `while True` and the inner `for` are one loop that opens a subscription before an event whenever none is held. That gives the same history, but the model does not reopen after the last event.
- `Text.Lower`: only ASCII letters are lower-cased; Python's full Unicode case mapping is not modelled. No non-ASCII character lower-cases to exactly one letter of "join", so the trigger test is unaffected.
- A requester identity that is JSON but not a string. Identities are strings or absent.
- An absent requester with the trigger text: `handle_join_request(None)` raises on its first test, after the subscription was already terminated. The model issues no command and reopens.
- `Localis.Bot.ReceiveEnded`: the end of the subscription's output is taken to mean that its process has exited. If the output closed while the process still ran, `proc.poll()` would be `None`, and the next `Popen` would leave that process running (main.py:94-125). The model does not represent that case.
- The `receive` command's own arguments (`receive --timeout -1`, main.py:87). A subscription is abstract in the model.
- A carrier or line-type lookup: `main.py` has none.
