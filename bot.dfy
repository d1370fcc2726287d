/**
 * The chat side of the bot: channel-name normalisation, the parsed command and
 * channel lists, the registry of one conversation window per channel, and the
 * message handler, which filters the bot's own messages, gates provider calls
 * behind one global cooldown timestamp, extracts the payload after a command,
 * and delivers long replies as paced chunks.
 *
 * The clock is the `now` argument of each event (milliseconds), the chat
 * platform's `say` is the list of actions the handler returns, and the
 * provider is the oracle of module OpenAI.
 */
module Bot {
  import opened Util
  import opened Text
  import opened OpenAI

  // ---------------------------------------------------------------------------
  // Channel names and configuration lists
  // ---------------------------------------------------------------------------

  /** `replace(/^#/, '')`: removes one '#' at the very start, and nothing else; a name without one is left as it is. */
  function DropHash(raw: string): (r: string)
    ensures r == raw || "#" + r == raw
    ensures |r| < |raw| <==> |raw| > 0 && raw[0] == '#'
  {
    if |raw| > 0 && raw[0] == '#' then raw[1..] else raw
  }

  /** `normChannel`: strip one leading '#', then trim, then lower-case. */
  function NormChannel(raw: string): string {
    ToLower(Trim(DropHash(raw)))
  }

  /** A normalised name is no longer than the raw name and has no white space at its ends and no upper-case letter. */
  lemma NormChannelIsNormal(raw: string)
    ensures |NormChannel(raw)| <= |raw|
    ensures IsTrimmed(NormChannel(raw)) && ToLower(NormChannel(raw)) == NormChannel(raw)
  {
    var t := Trim(DropHash(raw));
    TrimStrips(DropHash(raw));
    ToLowerKeepsTrimmed(t);
    ToLowerIdempotent(t);
  }

  /**
   * Normalising a normalised name changes it exactly when it still starts with
   * '#': only one '#' is removed per pass, after which trimming may expose another.
   */
  lemma NormChannelIdempotentIff(raw: string)
    ensures NormChannel(NormChannel(raw)) == NormChannel(raw)
            <==> (NormChannel(raw) == [] || NormChannel(raw)[0] != '#')
  {
    var n := NormChannel(raw);
    NormChannelIsNormal(raw);
    if n == [] || n[0] != '#' {
      assert DropHash(n) == n;
      TrimOfTrimmed(n);
    } else {
      TrimStrips(DropHash(n));
      assert |NormChannel(n)| <= |DropHash(n)| < |n|;
    }
  }

  /** `normChannel` is not idempotent: "#  #x" becomes "#x", which becomes "x". */
  lemma NormChannelNotIdempotent()
    ensures NormChannel("#  #x") == "#x"
    ensures NormChannel("#x") == "x"
  {
    assert DropHash("#  #x") == "  " + "#x";
    TrimAfterSpaces("  ", "#x");
    assert DropHash("#x") == "x";
    TrimOfTrimmed("x");
  }

  /** A name is a well-formed command name: no comma, no white space at its ends, already lower-case. */
  predicate IsCommandName(name: string) {
    ',' !in name && IsTrimmed(name) && ToLower(name) == name
  }

  lemma ParsedName(part: string)
    requires ',' !in part
    ensures ',' !in Trim(part) && IsTrimmed(Trim(part))
    ensures IsCommandName(ToLower(Trim(part)))
  {
    var t := Trim(part);
    TrimStrips(part);
    var i :| StripsTo(part, i, t);
    assert forall k :: 0 <= k < |t| ==> t[k] == part[i + k];
    ToLowerKeepsTrimmed(t);
    ToLowerIdempotent(t);
  }

  /**
   * `COMMAND_NAME.split(',').map(cmd => cmd.trim().toLowerCase())`: one name per
   * comma-separated field, each trimmed and lower-cased.
   */
  function ParseCommandNames(config: string): (names: seq<string>)
    ensures |names| == multiset(config)[','] + 1
    ensures forall i :: 0 <= i < |names| ==> IsCommandName(names[i])
  {
    var parts := Split(config, ',');
    SplitCount(config, ',');
    forall i | 0 <= i < |parts| ensures IsCommandName(ToLower(Trim(parts[i]))) {
      ParsedName(parts[i]);
    }
    seq(|parts|, i requires 0 <= i < |parts| => ToLower(Trim(parts[i])))
  }

  /** `CHANNELS.split(',').map(channel => channel.trim())`: one trimmed name per field, case kept. */
  function ParseChannels(config: string): (channels: seq<string>)
    ensures |channels| == multiset(config)[','] + 1
    ensures forall i :: 0 <= i < |channels| ==> ',' !in channels[i] && IsTrimmed(channels[i])
  {
    var parts := Split(config, ',');
    SplitCount(config, ',');
    forall i | 0 <= i < |parts| ensures ',' !in Trim(parts[i]) && IsTrimmed(Trim(parts[i])) {
      ParsedName(parts[i]);
    }
    seq(|parts|, i requires 0 <= i < |parts| => Trim(parts[i]))
  }

  /** Parsing a comma-joined list of well-formed command names gives the names back. */
  lemma ParseCommandNamesJoin(names: seq<string>)
    requires |names| >= 1 && forall i :: 0 <= i < |names| ==> IsCommandName(names[i])
    ensures ParseCommandNames(Join(names, ',')) == names
  {
    SplitJoin(names, ',');
    forall i | 0 <= i < |names| ensures ToLower(Trim(names[i])) == names[i] {
      TrimOfTrimmed(names[i]);
    }
  }

  /** Parsing a comma-joined list of trimmed channel names gives the names back. */
  lemma ParseChannelsJoin(channels: seq<string>)
    requires |channels| >= 1 && forall i :: 0 <= i < |channels| ==> ',' !in channels[i] && IsTrimmed(channels[i])
    ensures ParseChannels(Join(channels, ',')) == channels
  {
    SplitJoin(channels, ',');
    forall i | 0 <= i < |channels| ensures Trim(channels[i]) == channels[i] {
      TrimOfTrimmed(channels[i]);
    }
  }

  /**
   * Every configuration string is the comma-join of its fields (`JoinSplit`);
   * parsing it gives, for each field in order, that field trimmed and lower-cased.
   */
  lemma {:induction false} ParseCommandNamesOfJoin(parts: seq<string>)
    requires |parts| >= 1 && forall i :: 0 <= i < |parts| ==> ',' !in parts[i]
    ensures ParseCommandNames(Join(parts, ',')) == seq(|parts|, i requires 0 <= i < |parts| => ToLower(Trim(parts[i])))
  {
    SplitJoin(parts, ',');
  }

  /** Parsing the comma-join of fields gives, for each field in order, that field trimmed. */
  lemma {:induction false} ParseChannelsOfJoin(parts: seq<string>)
    requires |parts| >= 1 && forall i :: 0 <= i < |parts| ==> ',' !in parts[i]
    ensures ParseChannels(Join(parts, ',')) == seq(|parts|, i requires 0 <= i < |parts| => Trim(parts[i]))
  {
    SplitJoin(parts, ',');
  }

  /** The default channel list of the bot parses into its two channels. */
  lemma DefaultChannels()
    ensures ParseChannels("oSetinhas,jones88") == ["oSetinhas", "jones88"]
  {
    var channels := ["oSetinhas", "jones88"];
    assert channels[1..] == ["jones88"];
    assert Join(channels, ',') == "oSetinhas,jones88";
    ParseChannelsJoin(channels);
  }

  // ---------------------------------------------------------------------------
  // Commands and payload
  // ---------------------------------------------------------------------------

  /** `commandNames.find(cmd => lowered.startsWith(cmd))`, as the index of the first match. */
  function FindCommand(names: seq<string>, lowered: string): (found: Option<nat>)
    ensures found.Some? ==> (found.value < |names| && StartsWith(lowered, names[found.value])
                              && forall j :: 0 <= j < found.value ==> !StartsWith(lowered, names[j]))
    ensures found.None? ==> forall j :: 0 <= j < |names| ==> !StartsWith(lowered, names[j])
    decreases |names|
  {
    if names == [] then None
    else if StartsWith(lowered, names[0]) then Some(0)
    else
      match FindCommand(names[1..], lowered)
      case None => None
      case Some(i) => Some(i + 1)
  }

  /**
   * The command the handler acts on: the first configured name that is a prefix
   * of the lower-cased message, unless that name is empty (an empty string is
   * falsy, so `if (command)` then ignores the message).
   */
  function MatchedCommand(names: seq<string>, message: string): (command: Option<string>)
    ensures command.Some? ==> command.value != "" && StartsWith(ToLower(message), command.value)
  {
    match FindCommand(names, ToLower(message))
    case None => None
    case Some(i) => if names[i] == "" then None else Some(names[i])
  }

  /** The matched command is the first configured name that is a prefix of the lower-cased message. */
  lemma MatchedCommandIsFirst(names: seq<string>, message: string)
    requires MatchedCommand(names, message).Some?
    ensures exists i :: 0 <= i < |names| && names[i] == MatchedCommand(names, message).value
                        && forall j :: 0 <= j < i ==> !StartsWith(ToLower(message), names[j])
  {
    var i := FindCommand(names, ToLower(message)).value;
    assert names[i] == MatchedCommand(names, message).value;
  }

  /**
   * No command is matched exactly when no configured name is a prefix of the
   * lower-cased message or the first name that is one is empty.
   */
  lemma MatchedCommandNone(names: seq<string>, message: string)
    ensures MatchedCommand(names, message).None? <==>
            (forall i :: 0 <= i < |names| ==> !StartsWith(ToLower(message), names[i]))
            || (exists i :: 0 <= i < |names| && names[i] == ""
                  && forall j :: 0 <= j < i ==> !StartsWith(ToLower(message), names[j]))
  {
    var lowered := ToLower(message);
    var found := FindCommand(names, lowered);
    if found.Some? {
      var i := found.value;
      if names[i] != "" {
        forall k | 0 <= k < |names| && names[k] == ""
          ensures exists j :: 0 <= j < k && StartsWith(lowered, names[j])
        {
          assert StartsWith(lowered, names[k]);
          assert i < k;
        }
      }
    }
  }

  /** A lower-case prefix of a message is also a prefix of the lower-cased message. */
  lemma LoweredPrefix(message: string, prefix: string)
    requires StartsWith(message, prefix) && ToLower(prefix) == prefix
    ensures StartsWith(ToLower(message), prefix)
  {
    assert forall k :: 0 <= k < |prefix| ==> ToLower(message)[k] == LowerChar(prefix[k]) == ToLower(prefix)[k];
  }

  /** A command list that starts with an empty name (as in ",!gpt") silences every command. */
  lemma LeadingEmptyNameMatchesNothing(names: seq<string>, message: string)
    requires |names| >= 1 && names[0] == ""
    ensures MatchedCommand(names, message) == None
  {
  }

  const UserPrefix: string := "Message from user "

  /**
   * The text sent to the provider: the message with the command's length cut
   * from its front, trimmed, and prefixed with the sender when usernames are sent.
   */
  function Payload(message: string, command: string, sendUsername: bool, username: string): string {
    var text := Trim(Drop(message, |command|));
    if sendUsername then UserPrefix + username + ": " + text else text
  }

  /**
   * A message made of the command (in any case), white space, and a text with no
   * white space at its ends yields exactly that text, prefixed by the sender if asked.
   */
  lemma PayloadRecoversText(typed: string, command: string, pad: string, text: string,
                            sendUsername: bool, username: string)
    requires |typed| == |command|
    requires forall k :: 0 <= k < |pad| ==> IsSpace(pad[k])
    requires IsTrimmed(text)
    ensures Payload(typed + pad + text, command, sendUsername, username)
            == if sendUsername then UserPrefix + username + ": " + text else text
  {
    var message := typed + pad + text;
    assert Drop(message, |command|) == pad + text;
    TrimAfterSpaces(pad, text);
  }

  // ---------------------------------------------------------------------------
  // Chunked delivery
  // ---------------------------------------------------------------------------

  /** The longest reply sent in one message. */
  const MaxLength: nat := 399

  /** The characters `.` does not match in a regular expression without the `s` flag. */
  predicate IsLineTerminator(c: char) {
    c == '\n' || c == '\r' || c == '\U{2028}' || c == '\U{2029}'
  }

  predicate NoLineTerminator(s: string) {
    forall k :: 0 <= k < |s| ==> !IsLineTerminator(s[k])
  }

  /** The characters of `s` other than line terminators, in order. */
  function WithoutLineTerminators(s: string): string
    decreases |s|
  {
    if s == [] then []
    else (if IsLineTerminator(s[0]) then [] else [s[0]]) + WithoutLineTerminators(s[1..])
  }

  lemma {:induction false} WithoutLineTerminatorsAppend(a: string, b: string)
    ensures WithoutLineTerminators(a + b) == WithoutLineTerminators(a) + WithoutLineTerminators(b)
    decreases |a|
  {
    if a != [] {
      assert (a + b)[1..] == a[1..] + b;
      WithoutLineTerminatorsAppend(a[1..], b);
    } else {
      assert a + b == b;
    }
  }

  lemma {:induction false} WithoutLineTerminatorsNone(s: string)
    requires NoLineTerminator(s)
    ensures WithoutLineTerminators(s) == s
    decreases |s|
  {
    if s != [] {
      WithoutLineTerminatorsNone(s[1..]);
    }
  }

  /** How many characters the regular expression `.{1,n}` takes at the front of `s` (greedy). */
  function RunLength(s: string, n: nat): (k: nat)
    ensures k <= n && k <= |s|
    ensures forall i :: 0 <= i < k ==> !IsLineTerminator(s[i])
    ensures k < n && k < |s| ==> IsLineTerminator(s[k])
    decreases n
  {
    if n == 0 || s == [] || IsLineTerminator(s[0]) then 0 else 1 + RunLength(s[1..], n - 1)
  }

  /**
   * `s.match(/.{1,n}/g)`: each chunk holds 1 to n characters and no line
   * terminator, and the chunks concatenate to `s` without its line terminators.
   */
  function Chunks(s: string, n: nat): (chunks: seq<string>)
    requires n >= 1
    ensures forall i :: 0 <= i < |chunks| ==> 1 <= |chunks[i]| <= n && NoLineTerminator(chunks[i])
    ensures Concat(chunks) == WithoutLineTerminators(s)
    decreases |s|
  {
    if s == [] then []
    else if IsLineTerminator(s[0]) then Chunks(s[1..], n)
    else
      var k := RunLength(s, n);
      var rest := Chunks(s[k..], n);
      assert s == s[..k] + s[k..];
      WithoutLineTerminatorsAppend(s[..k], s[k..]);
      WithoutLineTerminatorsNone(s[..k]);
      ConcatCons(s[..k], rest);
      [s[..k]] + rest
  }

  /** On a non-empty text without line terminators the first chunk is its first `min(n, |s|)` characters. */
  lemma ChunksFront(s: string, n: nat)
    requires n >= 1 && NoLineTerminator(s) && s != []
    ensures var k := Min(n, |s|);
      Chunks(s, n) == [s[..k]] + Chunks(s[k..], n) && NoLineTerminator(s[k..])
  {
    var k := RunLength(s, n);
    assert k == Min(n, |s|);
    forall j | 0 <= j < |s| - k
      ensures !IsLineTerminator(s[k..][j])
    {
      assert s[k..][j] == s[k + j];
    }
  }

  /** One more chunk of `n` characters in front of a text keeps the chunk count minimal. */
  lemma MinimalCountStep(n: nat, count: nat, len: nat)
    requires n >= 1 && count >= 1 && n * (count - 1) < len <= n * count
    ensures n * count < len + n <= n * (count + 1)
  {
    assert n * (count + 1) == n * count + n;
    assert n * count == n * (count - 1) + n;
  }

  /**
   * The match is greedy: on a text without line terminators every chunk but the
   * last is exactly `n` characters long, so a non-empty text makes the least
   * number of chunks of at most `n` characters that hold it.
   */
  lemma {:induction false} ChunksGreedy(s: string, n: nat)
    requires n >= 1 && NoLineTerminator(s)
    ensures var chunks := Chunks(s, n);
      (forall i :: 0 <= i < |chunks| - 1 ==> |chunks[i]| == n)
      && (s == [] <==> chunks == [])
      && (s != [] ==> n * (|chunks| - 1) < |s| <= n * |chunks|)
    decreases |s|
  {
    if s != [] {
      var k := Min(n, |s|);
      ChunksFront(s, n);
      var rest := Chunks(s[k..], n);
      ChunksGreedy(s[k..], n);
      var chunks := Chunks(s, n);
      assert |chunks| == |rest| + 1;
      if k < |s| {
        MinimalCountStep(n, |rest|, |s| - n);
      } else {
        assert rest == [];
      }
    }
  }

  /** A run never crosses a line terminator: what follows one does not change the run in front of it. */
  lemma {:induction false} RunLengthStopsAtTerminator(a: string, t: string, n: nat)
    requires |t| >= 1 && IsLineTerminator(t[0])
    ensures RunLength(a + t, n) == RunLength(a, n)
    decreases n
  {
    if n != 0 && a != [] && !IsLineTerminator(a[0]) {
      assert (a + t)[1..] == a[1..] + t;
      RunLengthStopsAtTerminator(a[1..], t, n - 1);
    } else if a == [] {
      assert a + t == t;
    }
  }

  /** A text that opens with a run has that run as its first chunk. */
  lemma ChunksRunFront(s: string, n: nat)
    requires n >= 1 && s != [] && !IsLineTerminator(s[0])
    ensures var k := RunLength(s, n);
      Chunks(s, n) == [s[..k]] + Chunks(s[k..], n)
  {
  }

  /** The run `a` opens with is also the first chunk of `a + t` when `t` starts with a line terminator. */
  lemma ChunksRunBeforeTerminator(a: string, t: string, n: nat)
    requires n >= 1 && |t| >= 1 && IsLineTerminator(t[0]) && a != [] && !IsLineTerminator(a[0])
    ensures var k := RunLength(a, n);
      Chunks(a + t, n) == [a[..k]] + Chunks(a[k..] + t, n)
  {
    var s, k := a + t, RunLength(a, n);
    RunLengthStopsAtTerminator(a, t, n);
    assert s[0] == a[0];
    ChunksRunFront(s, n);
    assert s[..k] == a[..k] by {
      assert forall i :: 0 <= i < k ==> s[i] == a[i];
    }
    assert s[k..] == a[k..] + t by {
      assert forall i :: 0 <= i < |s| - k ==> s[k..][i] == (a[k..] + t)[i];
    }
  }

  /**
   * A line terminator splits the text: the chunks of `a + t`, where `t` opens
   * with a line terminator, are the chunks of `a` followed by those of the rest
   * of `t`, none straddling the terminator.
   */
  lemma {:induction false} ChunksAtTerminator(a: string, t: string, n: nat)
    requires n >= 1 && |t| >= 1 && IsLineTerminator(t[0])
    ensures Chunks(a + t, n) == Chunks(a, n) + Chunks(t[1..], n)
    decreases |a|
  {
    if a == [] {
      assert a + t == t;
    } else if IsLineTerminator(a[0]) {
      assert (a + t)[1..] == a[1..] + t;
      ChunksAtTerminator(a[1..], t, n);
    } else {
      var k := RunLength(a, n);
      var head, restA, restT := a[..k], Chunks(a[k..], n), Chunks(t[1..], n);
      ChunksAtTerminator(a[k..], t, n);
      ChunksRunBeforeTerminator(a, t, n);
      ChunksRunFront(a, n);
      ConsRegroup(Chunks(a + t, n), head, Chunks(a[k..] + t, n), Chunks(a, n), restA, restT);
    }
  }

  /** A line of 1 to `n` characters without line terminators is a single chunk. */
  lemma ChunksOfShortLine(s: string, n: nat)
    requires n >= 1 && 1 <= |s| <= n && NoLineTerminator(s)
    ensures Chunks(s, n) == [s]
  {
    ChunksFront(s, n);
    assert s[..|s|] == s;
    assert Chunks(s[|s|..], n) == [];
  }

  /**
   * Two short lines joined by a line terminator make exactly two chunks, one per
   * line, however little each line holds: "ab\ncd" with n = 3 gives "ab" and "cd".
   */
  lemma ChunksOfTwoLines(x: string, c: char, y: string, n: nat)
    requires n >= 1 && IsLineTerminator(c)
    requires 1 <= |x| <= n && NoLineTerminator(x) && 1 <= |y| <= n && NoLineTerminator(y)
    ensures Chunks(x + [c] + y, n) == [x, y]
  {
    var t := [c] + y;
    assert x + [c] + y == x + t && t[1..] == y;
    ChunksAtTerminator(x, t, n);
    ChunksOfShortLine(x, n);
    ChunksOfShortLine(y, n);
  }

  /** One `say` of the bot: a text with the delay before it is sent, or the cooldown notice. */
  datatype Action = Say(channel: string, text: string, delayMs: nat) | SayCooldown(channel: string)

  /** The texts of the actions, in order. */
  function SaidTexts(says: seq<Action>): (texts: seq<string>)
    ensures |texts| == |says|
  {
    seq(|says|, i requires 0 <= i < |says| => if says[i].Say? then says[i].text else "")
  }

  /**
   * How a reply is delivered: in one immediate `say` when it fits, otherwise as
   * the chunks of `/.{1,399}/g`, chunk `i` scheduled `1000 * i` milliseconds later.
   */
  function Deliveries(channel: string, response: string): (says: seq<Action>)
    ensures |response| <= MaxLength ==> says == [Say(channel, response, 0)]
    ensures |response| > MaxLength ==>
              forall i :: 0 <= i < |says| ==>
                says[i].Say? && says[i].channel == channel && says[i].delayMs == 1000 * i
                && 1 <= |says[i].text| <= MaxLength
    ensures |response| > MaxLength ==> Concat(SaidTexts(says)) == WithoutLineTerminators(response)
    ensures |response| > MaxLength ==> SaidTexts(says) == Chunks(response, MaxLength)
  {
    if |response| > MaxLength then
      var chunks := Chunks(response, MaxLength);
      var says := seq(|chunks|, i requires 0 <= i < |chunks| => Say(channel, chunks[i], 1000 * i));
      assert SaidTexts(says) == chunks;
      says
    else
      [Say(channel, response, 0)]
  }

  /**
   * A long reply without line breaks is delivered whole: its chunks, in order,
   * concatenate back to it, there are at least two of them, every `say` but the
   * last carries exactly `MaxLength` characters, and there are as few of them as can hold the reply.
   */
  lemma LongReplyReassembles(channel: string, response: string)
    requires |response| > MaxLength && NoLineTerminator(response)
    ensures var says := Deliveries(channel, response);
      Concat(SaidTexts(says)) == response && |says| >= 2
      && (forall i :: 0 <= i < |says| - 1 ==> |says[i].text| == MaxLength)
      && MaxLength * (|says| - 1) < |response| <= MaxLength * |says|
  {
    var says := Deliveries(channel, response);
    WithoutLineTerminatorsNone(response);
    ChunksGreedy(response, MaxLength);
  }

  // ---------------------------------------------------------------------------
  // The message handler
  // ---------------------------------------------------------------------------

  /** The settings the handler reads (`COMMAND_NAME`, `COOLDOWN_DURATION`, `SEND_USERNAME`, `ENABLE_CHANNEL_POINTS`). */
  datatype Config = Config(commandNames: seq<string>, cooldownSeconds: int, sendUsername: bool,
                           enableChannelPoints: bool)

  /** The parts of the chat user state the handler reads. */
  datatype UserState = UserState(username: string, msgId: string)

  /** One chat message as the chat platform delivers it, with the time of its arrival. */
  datatype Event = Event(channel: string, user: UserState, message: string, self: bool, now: int)

  /** What handling one message produces: the actions, the new global timestamp, the channel's window. */
  datatype Outcome = Outcome(says: seq<Action>, lastResponseTime: int, history: seq<Turn>)

  /** Less than the cooldown has passed since the last accepted request (in milliseconds). */
  predicate CoolingDown(cfg: Config, last: int, now: int) {
    now - last < 1000 * cfg.cooldownSeconds
  }

  /** A highlighted message paid with channel points, when that feature is on. */
  predicate Highlighted(cfg: Config, user: UserState) {
    cfg.enableChannelPoints && user.msgId == "highlighted-message"
  }

  /**
   * The channel-points branch, for a message that was not turned away by the
   * cooldown: a highlighted message is sent to the provider as it is and the
   * answer said in full; any other message leaves everything as it was.
   */
  function AfterHighlight(cfg: Config, model: string, historyLength: nat, last: int, history: seq<Turn>,
                          ev: Event, provider: Request -> ProviderReply): Outcome
  {
    if Highlighted(cfg, ev.user) then
      var c := Call(history, model, historyLength, ev.message, provider);
      Outcome([Say(ev.channel, c.response, 0)], ev.now, c.history)
    else
      Outcome([], last, history)
  }

  /**
   * The command branch, after the channel-points branch produced `first`:
   * `cooling` is the cooldown decided when the message arrived.
   */
  function AfterCommand(cfg: Config, model: string, historyLength: nat, first: Outcome, cooling: bool,
                        ev: Event, provider: Request -> ProviderReply): Outcome
  {
    match MatchedCommand(cfg.commandNames, ev.message)
    case None => first
    case Some(command) =>
      if cooling then Outcome(first.says + [SayCooldown(ev.channel)], first.lastResponseTime, first.history)
      else
        var text := Payload(ev.message, command, cfg.sendUsername, ev.user.username);
        var c := Call(first.history, model, historyLength, text, provider);
        Outcome(first.says + Deliveries(ev.channel, c.response), ev.now, c.history)
  }

  /**
   * The message handler as a function of the timestamp and of the channel's
   * window before the message. The cooldown is decided once, from the time of
   * arrival; a highlighted message that passes it is answered in full and then
   * also goes through the command branch.
   */
  function Handle(cfg: Config, model: string, historyLength: nat, last: int, history: seq<Turn>,
                  ev: Event, provider: Request -> ProviderReply): Outcome
  {
    if ev.self then Outcome([], last, history)
    else
      var cooling := CoolingDown(cfg, last, ev.now);
      if Highlighted(cfg, ev.user) && cooling then Outcome([SayCooldown(ev.channel)], last, history)
      else AfterCommand(cfg, model, historyLength, AfterHighlight(cfg, model, historyLength, last, history, ev, provider),
                        cooling, ev, provider)
  }

  /**
   * What every message does to the state: the bot's own messages nothing; the
   * timestamp moves only to the arrival time of a message that passed the
   * cooldown; while cooling down the window is untouched and at most the one
   * cooldown notice is said; every action goes to the message's own channel.
   */
  lemma HandleInvariants(cfg: Config, model: string, historyLength: nat, last: int, history: seq<Turn>,
                         ev: Event, provider: Request -> ProviderReply)
    ensures var o := Handle(cfg, model, historyLength, last, history, ev, provider);
      (ev.self ==> o == Outcome([], last, history))
      && (o.lastResponseTime == last || (o.lastResponseTime == ev.now && !CoolingDown(cfg, last, ev.now)))
      && (!ev.self && CoolingDown(cfg, last, ev.now) ==>
            o.lastResponseTime == last && o.history == history
            && (o.says == [] || o.says == [SayCooldown(ev.channel)]))
      && (forall a :: a in o.says ==> a.channel == ev.channel)
  {
    if !ev.self && !(Highlighted(cfg, ev.user) && CoolingDown(cfg, last, ev.now)) {
      var first := AfterHighlight(cfg, model, historyLength, last, history, ev, provider);
      assert forall a :: a in first.says ==> a.channel == ev.channel;
      match MatchedCommand(cfg.commandNames, ev.message)
      case None =>
      case Some(command) =>
        if !CoolingDown(cfg, last, ev.now) {
          var text := Payload(ev.message, command, cfg.sendUsername, ev.user.username);
          var c := Call(first.history, model, historyLength, text, provider);
          var d := Deliveries(ev.channel, c.response);
          assert forall a :: a in d ==> a.channel == ev.channel;
        }
    }
  }

  /** A plain message that is no command produces nothing and changes nothing. */
  lemma NonCommandIgnored(cfg: Config, model: string, historyLength: nat, last: int, history: seq<Turn>,
                          ev: Event, provider: Request -> ProviderReply)
    requires !Highlighted(cfg, ev.user)
    requires MatchedCommand(cfg.commandNames, ev.message).None?
    ensures Handle(cfg, model, historyLength, last, history, ev, provider) == Outcome([], last, history)
  {
  }

  /** A command that arrives before the cooldown has passed gets exactly one cooldown notice and changes nothing. */
  lemma CommandRejected(cfg: Config, model: string, historyLength: nat, last: int, history: seq<Turn>,
                        ev: Event, provider: Request -> ProviderReply)
    requires !ev.self && !Highlighted(cfg, ev.user)
    requires MatchedCommand(cfg.commandNames, ev.message).Some?
    requires CoolingDown(cfg, last, ev.now)
    ensures Handle(cfg, model, historyLength, last, history, ev, provider) == Outcome([SayCooldown(ev.channel)], last, history)
  {
  }

  /**
   * A command that arrives once the cooldown has passed is accepted: the
   * timestamp becomes its arrival time, the provider is asked with the payload,
   * and the reply is delivered in the message's channel.
   */
  lemma CommandAccepted(cfg: Config, model: string, historyLength: nat, last: int, history: seq<Turn>,
                        ev: Event, provider: Request -> ProviderReply, command: string)
    requires !ev.self && !Highlighted(cfg, ev.user)
    requires MatchedCommand(cfg.commandNames, ev.message) == Some(command)
    requires !CoolingDown(cfg, last, ev.now)
    ensures var o := Handle(cfg, model, historyLength, last, history, ev, provider);
      var c := Call(history, model, historyLength, Payload(ev.message, command, cfg.sendUsername, ev.user.username), provider);
      o.lastResponseTime == ev.now && o.history == c.history && o.says == Deliveries(ev.channel, c.response)
  {
  }

  /**
   * The timestamp is shared by all channels: once a command is accepted in one
   * channel, a command arriving in any channel before the cooldown has passed is
   * turned away with the cooldown notice.
   */
  lemma CooldownIsGlobal(cfg: Config, model: string, historyLength: nat, last: int,
                         history1: seq<Turn>, ev1: Event, history2: seq<Turn>, ev2: Event,
                         provider: Request -> ProviderReply)
    requires !ev1.self && !Highlighted(cfg, ev1.user) && MatchedCommand(cfg.commandNames, ev1.message).Some?
    requires !ev2.self && !Highlighted(cfg, ev2.user) && MatchedCommand(cfg.commandNames, ev2.message).Some?
    requires !CoolingDown(cfg, last, ev1.now)
    requires ev1.now <= ev2.now < ev1.now + 1000 * cfg.cooldownSeconds
    ensures var o1 := Handle(cfg, model, historyLength, last, history1, ev1, provider);
      o1.lastResponseTime == ev1.now
      && Handle(cfg, model, historyLength, o1.lastResponseTime, history2, ev2, provider)
         == Outcome([SayCooldown(ev2.channel)], ev1.now, history2)
  {
    CommandAccepted(cfg, model, historyLength, last, history1, ev1, provider,
                    MatchedCommand(cfg.commandNames, ev1.message).value);
    CommandRejected(cfg, model, historyLength, ev1.now, history2, ev2, provider);
  }

  /** A window that starts with its first turn and holds 1 to `2h + 2` turns. */
  predicate WindowWithin(history: seq<Turn>, first: Turn, historyLength: nat) {
    1 <= |history| <= 2 * historyLength + 2 && history[0] == first
  }

  lemma CallKeepsWindow(history: seq<Turn>, model: string, historyLength: nat, text: string,
                        provider: Request -> ProviderReply)
    requires 1 <= |history| <= 2 * historyLength + 2
    ensures WindowWithin(Call(history, model, historyLength, text, provider).history, history[0], historyLength)
  {
    CallKeepsFirstTurn(history, model, historyLength, text, provider);
    CallBounded(history, model, historyLength, text, provider);
  }

  /**
   * Handling a message keeps the channel's window well formed: the system turn
   * stays first, and a window of at most `2h + 2` turns stays within that bound,
   * even when a highlighted command consults the provider twice.
   */
  lemma HandleKeepsWindow(cfg: Config, model: string, historyLength: nat, last: int, history: seq<Turn>,
                          ev: Event, provider: Request -> ProviderReply)
    requires 1 <= |history| <= 2 * historyLength + 2
    ensures WindowWithin(Handle(cfg, model, historyLength, last, history, ev, provider).history, history[0], historyLength)
  {
    if !ev.self && !(Highlighted(cfg, ev.user) && CoolingDown(cfg, last, ev.now)) {
      var first := AfterHighlight(cfg, model, historyLength, last, history, ev, provider);
      if Highlighted(cfg, ev.user) {
        CallKeepsWindow(history, model, historyLength, ev.message, provider);
      }
      assert WindowWithin(first.history, history[0], historyLength);
      var o := AfterCommand(cfg, model, historyLength, first, CoolingDown(cfg, last, ev.now), ev, provider);
      match MatchedCommand(cfg.commandNames, ev.message)
      case None =>
      case Some(command) =>
        var text := Payload(ev.message, command, cfg.sendUsername, ev.user.username);
        CallKeepsWindow(first.history, model, historyLength, text, provider);
    }
  }

  lemma ShortExchangeCommand()
    ensures MatchedCommand(["!gpt"], "!gpt hello") == Some("!gpt")
  {
    var command := "!gpt";
    assert "!gpt hello"[..4] == command;
    assert ToLower(command) == command;
    LoweredPrefix("!gpt hello", command);
  }

  lemma ShortExchangePayload()
    ensures Payload("!gpt hello", "!gpt", true, "alice") == "Message from user alice: hello"
  {
    var text := "hello";
    assert "!gpt hello" == "!gpt" + " " + text;
    assert IsTrimmed(text);
    PayloadRecoversText("!gpt", "!gpt", " ", text, true, "alice");
  }

  lemma ShortExchangeCall(system: Turn, text: string, provider: Request -> ProviderReply)
    requires forall r :: provider(r) == Reply(["hi"])
    ensures Call([system], "gpt-3.5-turbo", 5, text, provider)
            == CallResult(ChatRequest("gpt-3.5-turbo", [system, Turn(User, text)]), "hi",
                          [system, Turn(User, text), Turn(Assistant, "hi")])
  {
    EndpointExamples();
    assert Pending([system], 5, text) == [system, Turn(User, text)];
    assert FirstNonEmpty(["hi"]) == "hi";
  }

  /**
   * A short exchange from end to end: "!gpt hello" from alice, cooldown over,
   * a provider answering "hi" — one immediate "hi" in the same channel, and the
   * window gains the prefixed user turn and the assistant turn.
   */
  lemma ShortExchange(system: Turn, provider: Request -> ProviderReply)
    requires forall r :: provider(r) == Reply(["hi"])
    ensures var cfg := Config(["!gpt"], 10, true, false);
      var ev := Event("#foo", UserState("alice", ""), "!gpt hello", false, 20000);
      Handle(cfg, "gpt-3.5-turbo", 5, 0, [system], ev, provider)
      == Outcome([Say("#foo", "hi", 0)], 20000,
                 [system, Turn(User, "Message from user alice: hello"), Turn(Assistant, "hi")])
  {
    var cfg := Config(["!gpt"], 10, true, false);
    var ev := Event("#foo", UserState("alice", ""), "!gpt hello", false, 20000);
    ShortExchangeCommand();
    ShortExchangePayload();
    CommandAccepted(cfg, "gpt-3.5-turbo", 5, 0, [system], ev, provider, "!gpt");
    ShortExchangeCall(system, "Message from user alice: hello", provider);
  }

  // ---------------------------------------------------------------------------
  // The bot: one window per channel and the global timestamp
  // ---------------------------------------------------------------------------

  /** The normalised names of the configured channels, in order. */
  function ChannelNames(channels: seq<string>): (names: seq<string>)
    ensures |names| == |channels|
    ensures forall i :: 0 <= i < |channels| ==> names[i] == NormChannel(channels[i])
  {
    seq(|channels|, i requires 0 <= i < |channels| => NormChannel(channels[i]))
  }

  /** The keys of the registry: the normalised names of the configured channels. */
  function ChannelKeys(channels: seq<string>): set<string> {
    set name | name in ChannelNames(channels)
  }

  /** A window just created for a channel: its system turn holds the context, with the bot's settings. */
  ghost predicate Seeded(ops: OpenAIOperations, context: string, modelName: string, historyLength: nat)
    reads ops
  {
    ops.messages == [Turn(System, context)] && ops.modelName == modelName && ops.historyLength == historyLength
  }

  /**
   * The loop over the normalised channel names that creates one window per
   * name, seeded with that name's context; a later channel with the same
   * normalised name replaces the earlier one's window.
   */
  method NewRegistry(names: seq<string>, modelName: string, historyLength: nat, contextFor: string -> string)
    returns (registry: map<string, OpenAIOperations>)
    ensures registry.Keys == set name | name in names
    ensures forall name :: name in registry ==> fresh(registry[name])
    ensures forall name :: name in registry ==> Seeded(registry[name], contextFor(name), modelName, historyLength)
    ensures forall a, b :: a in registry && b in registry && a != b ==> registry[a] != registry[b]
  {
    registry := map[];
    var i := 0;
    while i < |names|
      invariant 0 <= i <= |names|
      invariant registry.Keys == set name | name in names[..i]
      invariant forall name :: name in registry ==> fresh(registry[name])
      invariant forall name :: name in registry ==> Seeded(registry[name], contextFor(name), modelName, historyLength)
      invariant forall a, b :: a in registry && b in registry && a != b ==> registry[a] != registry[b]
    {
      var name := names[i];
      var ops := new OpenAIOperations(contextFor(name), modelName, historyLength);
      registry := registry[name := ops];
      assert names[..i + 1] == names[..i] + [name];
      i := i + 1;
    }
    assert names[..i] == names;
  }

  class ChatBot {
    const config: Config
    const channels: seq<string>
    const opsByChannel: map<string, OpenAIOperations>
    var lastResponseTime: int

    /** Every configured channel has a window, and every window is well formed. */
    ghost predicate Valid()
      reads this, opsByChannel.Values
    {
      |channels| >= 1
      && opsByChannel.Keys == ChannelKeys(channels)
      && forall ops :: ops in opsByChannel.Values ==> ops.Valid()
    }

    /**
     * Reads the settings, and builds one window per configured channel under its
     * normalised name, seeded with that channel's context; a later channel with
     * the same normalised name replaces the earlier one's window.
     */
    constructor (commandConfig: string, channelConfig: string, cooldownSeconds: int, sendUsername: bool,
                 enableChannelPoints: bool, modelName: string, historyLength: nat, contextFor: string -> string)
      ensures config == Config(ParseCommandNames(commandConfig), cooldownSeconds, sendUsername, enableChannelPoints)
      ensures channels == ParseChannels(channelConfig)
      ensures lastResponseTime == 0
      ensures forall name :: name in opsByChannel ==> fresh(opsByChannel[name])
      ensures forall name :: name in opsByChannel ==> Seeded(opsByChannel[name], contextFor(name), modelName, historyLength)
      ensures forall a, b :: a in opsByChannel && b in opsByChannel && a != b ==> opsByChannel[a] != opsByChannel[b]
      ensures Valid()
    {
      config := Config(ParseCommandNames(commandConfig), cooldownSeconds, sendUsername, enableChannelPoints);
      var parsed := ParseChannels(channelConfig);
      var registry := NewRegistry(ChannelNames(parsed), modelName, historyLength, contextFor);
      channels := parsed;
      opsByChannel := registry;
      lastResponseTime := 0;
    }

    /**
     * `opsByChannel.get(normChannel(channel)) || opsByChannel.values().next().value`:
     * the window of the normalised channel, or else the first registered one,
     * which is the window stored under the first configured channel's name.
     */
    function Lookup(channel: string): (ops: OpenAIOperations)
      requires |channels| >= 1 && opsByChannel.Keys == ChannelKeys(channels)
      ensures ops in opsByChannel.Values
      ensures NormChannel(channel) in opsByChannel ==> ops == opsByChannel[NormChannel(channel)]
      ensures NormChannel(channel) !in opsByChannel ==> ops == opsByChannel[NormChannel(channels[0])]
    {
      var name := NormChannel(channel);
      if name in opsByChannel then opsByChannel[name] else opsByChannel[NormChannel(channels[0])]
    }

    /**
     * A channel whose normalised name is one of the configured channels' reaches
     * that channel's window; any other channel falls back to the first configured
     * channel's window.
     */
    lemma LookupRoutes(channel: string)
      requires |channels| >= 1 && opsByChannel.Keys == ChannelKeys(channels)
      ensures (exists c :: c in channels && NormChannel(c) == NormChannel(channel)) ==>
                Lookup(channel) == opsByChannel[NormChannel(channel)]
      ensures (forall c :: c in channels ==> NormChannel(c) != NormChannel(channel)) ==>
                Lookup(channel) == Lookup(channels[0])
    {
      var names := ChannelNames(channels);
      if c :| c in channels && NormChannel(c) == NormChannel(channel) {
        var i :| 0 <= i < |channels| && channels[i] == c;
        assert names[i] == NormChannel(channel);
      } else {
        assert names[0] == NormChannel(channels[0]);
        assert Lookup(channels[0]) == opsByChannel[NormChannel(channels[0])];
        forall i | 0 <= i < |names|
          ensures names[i] != NormChannel(channel)
        {
          assert channels[i] in channels;
        }
      }
    }

    /** A message from a configured channel, named as the chat platform names it ('#' in front), finds that channel's window. */
    lemma LookupFromChat(c: string)
      requires |channels| >= 1 && opsByChannel.Keys == ChannelKeys(channels)
      requires c in channels && (c == [] || c[0] != '#')
      ensures Lookup("#" + c) == opsByChannel[NormChannel(c)]
    {
      assert DropHash("#" + c) == c == DropHash(c);
    }

    /** The channel-points branch of `onMessage`, for a message that passed the cooldown. */
    method HighlightBranch(ops: OpenAIOperations, ev: Event, provider: Request -> ProviderReply) returns (says: seq<Action>)
      requires ops.Valid()
      modifies this, ops
      ensures ops.Valid()
      ensures Outcome(says, lastResponseTime, ops.messages)
              == AfterHighlight(config, ops.modelName, ops.historyLength, old(lastResponseTime), old(ops.messages), ev, provider)
    {
      says := [];
      if Highlighted(config, ev.user) {
        lastResponseTime := ev.now;
        var response := ops.MakeOpenAICall(ev.message, provider);
        says := says + [Say(ev.channel, response, 0)];
      }
    }

    /** The command branch of `onMessage`, after the channel-points branch said `said`. */
    method CommandBranch(ops: OpenAIOperations, ev: Event, cooling: bool, said: seq<Action>,
                         provider: Request -> ProviderReply) returns (says: seq<Action>)
      requires ops.Valid()
      modifies this, ops
      ensures ops.Valid()
      ensures Outcome(says, lastResponseTime, ops.messages)
              == AfterCommand(config, ops.modelName, ops.historyLength,
                              Outcome(said, old(lastResponseTime), old(ops.messages)), cooling, ev, provider)
    {
      says := said;
      var command := MatchedCommand(config.commandNames, ev.message);
      if command.Some? {
        if cooling {
          says := says + [SayCooldown(ev.channel)];
          return;
        }
        lastResponseTime := ev.now;
        var text := Payload(ev.message, command.value, config.sendUsername, ev.user.username);
        var response := ops.MakeOpenAICall(text, provider);
        says := says + Deliveries(ev.channel, response);
      }
    }

    /** `onMessage`: handles one chat message with this channel's window and the global timestamp. */
    method OnMessage(ev: Event, provider: Request -> ProviderReply) returns (says: seq<Action>)
      requires Valid()
      modifies this, Lookup(ev.channel)
      ensures Valid()
      ensures var ops := Lookup(ev.channel);
        Outcome(says, lastResponseTime, ops.messages)
        == Handle(config, ops.modelName, ops.historyLength, old(lastResponseTime), old(ops.messages), ev, provider)
      ensures forall ops :: ops in opsByChannel.Values && ops != Lookup(ev.channel) ==> ops.messages == old(ops.messages)
    {
      says := [];
      if ev.self {
        return;
      }
      var cooling := ev.now - lastResponseTime < 1000 * config.cooldownSeconds;
      var ops := Lookup(ev.channel);
      if Highlighted(config, ev.user) && cooling {
        says := [SayCooldown(ev.channel)];
        return;
      }
      says := HighlightBranch(ops, ev, provider);
      says := CommandBranch(ops, ev, cooling, says, provider);
    }
  }
}
