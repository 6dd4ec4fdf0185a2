/**
  The status bot: the reconciliation cycle that re-renders the server
  status and edits every tracked message, its reaction to failed edits
  (skip, back off, or stop tracking), and the admin gate of `/sendstatus`.

  The chat client, the status endpoint and the clock are parameters: a
  cycle is given the fingerprint function standing for `hash(str(...))`
  (fixed for the life of the process), the fetched snapshot, and the outcome
  of every call it makes, numbered by the position of the tracked entry it
  concerns.
 */
module Bot {
  import opened Wrappers
  import opened PyText
  import opened Storage
  import opened Formatter
  import opened EditErrors

  /** The configured refresh period in seconds (the configuration default). */
  const UPDATE_INTERVAL := 30

  /** How one `edit_message_text` call ends: done, or an exception with this text. */
  datatype EditResult = Edited | EditFailed(error: string)

  /** One `edit_message_text` call the cycle makes. */
  datatype EditCall = EditCall(chatId: int, messageId: int, text: string)

  /**
    Everything one cycle receives from outside besides the fingerprint
    function and the snapshot: the clock, the time formatter and date parser the renderer uses, whether
    the registry read succeeds, the outcome of the edit of the `i`-th loaded
    entry, and the I/O outcome of the removal that entry may cause.
   */
  datatype CycleEnv = CycleEnv(
    now: int,
    formatTime: int -> string,
    parse: string -> Option<Parsed>,
    loadOk: bool,
    edit: nat -> EditResult,
    removeIo: nat -> IoOutcome)

  /** The bot's fields `last_status_hash` and `update_interval`, and the registry file. */
  datatype BotState = BotState(lastHash: Option<int>, interval: int, file: FileState)

  /** What the walk over the tracked messages changes. */
  datatype Progress = Progress(file: FileState, interval: int)

  /** The state after a cycle, the list it loaded (if it got that far) and the edits it made, in order. */
  datatype CycleResult = CycleResult(state: BotState, loaded: Option<seq<TrackedMessage>>, edits: seq<EditCall>)

  function Max(a: int, b: int): int {
    if a >= b then a else b
  }

  /** How the cycle reads the outcome of one edit: nothing to handle, or the class of its error. */
  function ReactionOf(result: EditResult): Option<Reaction> {
    match result
    case Edited => None
    case EditFailed(error) => Some(Classify(error))
  }

  /** The outcomes of a cycle's edits, as read by the cycle. */
  function Reactions(edit: nat -> EditResult): nat -> Option<Reaction> {
    (i: nat) => ReactionOf(edit(i))
  }

  /** The delay a rate-limit error asks for with `retry after N`. */
  function Delay(reaction: Option<Reaction>): Option<nat> {
    if reaction.Some? && reaction.value.Flood? then reaction.value.retryAfter else None
  }

  /** An error that is neither "not modified" nor a rate limit: the entry is dropped. */
  predicate IsFatal(reaction: Option<Reaction>) {
    reaction == Some(Fatal)
  }

  /** The reaction to the edit of tracked entry `m`. */
  function Step(p: Progress, m: TrackedMessage, reaction: Option<Reaction>, io: IoOutcome): (r: Progress)
    ensures r.interval >= p.interval
    ensures r.file == p.file || IsFatal(reaction)
  {
    match reaction
    case None => p
    case Some(NotModified) => p
    case Some(Flood(retry)) => if retry.Some? then Progress(p.file, Max(p.interval, retry.value)) else p
    case Some(Fatal) => Progress(AfterRemove(p.file, m, io), p.interval)
  }

  /** The interval after one reaction: raised to the requested delay, if any. */
  lemma StepInterval(p: Progress, m: TrackedMessage, reaction: Option<Reaction>, io: IoOutcome)
    ensures Step(p, m, reaction, io).interval
         == if Delay(reaction).Some? then Max(p.interval, Delay(reaction).value) else p.interval
  {
  }

  /** The file after one reaction: the pair removed on a fatal error, untouched otherwise. */
  lemma StepFile(p: Progress, m: TrackedMessage, reaction: Option<Reaction>, io: IoOutcome)
    ensures Step(p, m, reaction, io).file == if IsFatal(reaction) then AfterRemove(p.file, m, io) else p.file
  {
  }

  /** The walk over the loaded entries, in order; the `i`-th one meets `reactions(i)` and `removeIo(i)`. */
  function Propagate(entries: seq<TrackedMessage>, reactions: nat -> Option<Reaction>, removeIo: nat -> IoOutcome,
                     start: Progress): (r: Progress)
    ensures r.interval >= start.interval
    decreases |entries|
  {
    if entries == [] then start
    else
      var n := |entries| - 1;
      Step(Propagate(entries[..n], reactions, removeIo, start), entries[n], reactions(n), removeIo(n))
  }

  /** One edit of the rendered text per loaded entry. */
  function EditCalls(entries: seq<TrackedMessage>, text: string): (r: seq<EditCall>)
    ensures |r| == |entries|
    ensures forall i :: 0 <= i < |r| ==> r[i].text == text && TrackedMessage(r[i].chatId, r[i].messageId) == entries[i]
  {
    seq(|entries|, i requires 0 <= i < |entries| => EditCall(entries[i].chatId, entries[i].messageId, text))
  }

  /** One run of `update_status_messages`. */
  function Cycle(st: BotState, hash: Option<Snapshot> -> int, fetched: Option<Snapshot>, env: CycleEnv): (r: CycleResult)
    ensures r.state.interval >= st.interval
  {
    var fp := hash(fetched);
    if Some(fp) == st.lastHash then CycleResult(st, None, [])
    else
      var text := CreateStatusMessage(fetched, env.now, env.formatTime, env.parse);
      var messages := Loaded(st.file, env.loadOk);
      var p := Propagate(messages, Reactions(env.edit), env.removeIo, Progress(st.file, st.interval));
      CycleResult(BotState(Some(fp), p.interval, p.file), Some(messages), EditCalls(messages, text))
  }

  /** A fingerprint equal to the last one stops the cycle: no load, no edit, no change. */
  lemma UnchangedFingerprintDoesNothing(st: BotState, hash: Option<Snapshot> -> int, fetched: Option<Snapshot>, env: CycleEnv)
    requires st.lastHash == Some(hash(fetched))
    ensures Cycle(st, hash, fetched, env) == CycleResult(st, None, [])
  {
  }

  /**
    A new fingerprint is recorded, the registry is loaded, and the rendered
    text is sent once to every loaded entry, in registry order.
   */
  lemma ChangedFingerprintEditsEveryEntry(st: BotState, hash: Option<Snapshot> -> int, fetched: Option<Snapshot>, env: CycleEnv)
    requires st.lastHash != Some(hash(fetched))
    ensures var r := Cycle(st, hash, fetched, env);
      var messages := Loaded(st.file, env.loadOk);
      && r.state.lastHash == Some(hash(fetched))
      && r.loaded == Some(messages)
      && |r.edits| == |messages|
      && forall i :: 0 <= i < |messages| ==>
           r.edits[i] == EditCall(messages[i].chatId, messages[i].messageId,
                                  CreateStatusMessage(fetched, env.now, env.formatTime, env.parse))
  {
  }

  /** With nothing tracked, a new fingerprint is still recorded, and nothing else happens. */
  lemma EmptyRegistryOnlyRecordsFingerprint(st: BotState, hash: Option<Snapshot> -> int, fetched: Option<Snapshot>, env: CycleEnv)
    requires st.lastHash != Some(hash(fetched))
    requires Loaded(st.file, env.loadOk) == []
    ensures Cycle(st, hash, fetched, env) == CycleResult(BotState(Some(hash(fetched)), st.interval, st.file), Some([]), [])
  {
  }

  /** Two cycles over data with the same fingerprint: the second one does nothing. */
  lemma RepeatedFingerprintSkipsSecondCycle(st: BotState, hash: Option<Snapshot> -> int,
                                            fetched1: Option<Snapshot>, fetched2: Option<Snapshot>,
                                            env1: CycleEnv, env2: CycleEnv)
    requires hash(fetched1) == hash(fetched2)
    ensures var first := Cycle(st, hash, fetched1, env1);
      Cycle(first.state, hash, fetched2, env2) == CycleResult(first.state, None, [])
  {
  }

  /** The same snapshot fetched twice in a row: the second cycle loads nothing, edits nothing, changes nothing. */
  lemma SameSnapshotSkipsSecondCycle(st: BotState, hash: Option<Snapshot> -> int, fetched: Option<Snapshot>,
                                     env1: CycleEnv, env2: CycleEnv)
    ensures var first := Cycle(st, hash, fetched, env1);
      Cycle(first.state, hash, fetched, env2) == CycleResult(first.state, None, [])
  {
    RepeatedFingerprintSkipsSecondCycle(st, hash, fetched, fetched, env1, env2);
  }

  /** An edit that succeeds changes nothing. */
  lemma EditedChangesNothing(p: Progress, m: TrackedMessage, io: IoOutcome)
    ensures Step(p, m, ReactionOf(Edited), io) == p
  {
  }

  /** "message is not modified" changes neither the registry nor the interval, even beside a rate-limit phrase. */
  lemma NotModifiedChangesNothing(p: Progress, m: TrackedMessage, error: string, io: IoOutcome)
    requires IsSubstring(NOT_MODIFIED, Lower(error))
    ensures Step(p, m, ReactionOf(EditFailed(error)), io) == p
  {
  }

  /**
    A rate-limit error never drops the entry; `retry after N` raises the
    interval to at least `N`, and without it the interval stays.
   */
  lemma FloodKeepsEntry(p: Progress, m: TrackedMessage, error: string, io: IoOutcome)
    requires !IsSubstring(NOT_MODIFIED, Lower(error))
    requires IsSubstring(FLOOD_CONTROL, Lower(error)) || IsSubstring(RETRY_AFTER, Lower(error))
    ensures var r := Step(p, m, ReactionOf(EditFailed(error)), io);
      && r.file == p.file
      && (RetryAfter(Lower(error)).None? ==> r.interval == p.interval)
      && (RetryAfter(Lower(error)).Some? ==> r.interval == Max(p.interval, RetryAfter(Lower(error)).value))
  {
  }

  /** Any other error drops exactly the failing pair from the registry and keeps the interval. */
  lemma OtherErrorRemovesPair(p: Progress, m: TrackedMessage, error: string, io: IoOutcome)
    requires !IsSubstring(NOT_MODIFIED, Lower(error))
    requires !IsSubstring(FLOOD_CONTROL, Lower(error)) && !IsSubstring(RETRY_AFTER, Lower(error))
    ensures Step(p, m, ReactionOf(EditFailed(error)), io) == Progress(AfterRemove(p.file, m, io), p.interval)
  {
  }

  /**
    An error whose text asks for 45 seconds (such as "Too Many Requests:
    retry after 45", in any letter case) and does not say the message was not
    modified raises the default interval to 45 and keeps the entry.
   */
  lemma RetryAfterFortyFive(p: Progress, m: TrackedMessage, error: string, io: IoOutcome)
    requires RetryAfter(Lower(error)) == Some(45) && !IsSubstring(NOT_MODIFIED, Lower(error))
    requires p.interval == UPDATE_INTERVAL
    ensures Step(p, m, ReactionOf(EditFailed(error)), io) == Progress(p.file, 45)
  {
    RetryValueMeansFlood(error);
  }

  /** "Bad Request: chat not found" drops the pair. */
  lemma ChatNotFoundRemovesPair(p: Progress, m: TrackedMessage, error: string, io: IoOutcome)
    requires Lower(error) == "bad request: chat not found"
    ensures Step(p, m, ReactionOf(EditFailed(error)), io) == Progress(AfterRemove(p.file, m, io), p.interval)
  {
    FatalExample(error);
  }

  /**
    The interval after the walk is the largest of its starting value and
    the delays the rate-limit errors asked for.
   */
  lemma {:induction false} IntervalIsLargestDelay(entries: seq<TrackedMessage>, reactions: nat -> Option<Reaction>,
                                                  removeIo: nat -> IoOutcome, start: Progress)
    ensures var iv := Propagate(entries, reactions, removeIo, start).interval;
      && (forall i :: 0 <= i < |entries| && Delay(reactions(i)).Some? ==> iv >= Delay(reactions(i)).value)
      && (iv == start.interval || exists i :: 0 <= i < |entries| && Delay(reactions(i)) == Some(iv))
    decreases |entries|
  {
    if entries != [] {
      var n := |entries| - 1;
      var p := Propagate(entries[..n], reactions, removeIo, start);
      IntervalIsLargestDelay(entries[..n], reactions, removeIo, start);
      StepInterval(p, entries[n], reactions(n), removeIo(n));
    }
  }

  /** The entries of `s` whose pairs are not in `gone`, in their order. */
  function Keep(s: seq<TrackedMessage>, gone: set<TrackedMessage>): (r: seq<TrackedMessage>)
    ensures forall x :: x in r <==> x in s && x !in gone
    decreases |s|
  {
    if s == [] then [] else (if s[0] in gone then [] else [s[0]]) + Keep(s[1..], gone)
  }

  /** The filter of `remove_message` is `Keep` with a single pair: one concept, not two. */
  lemma {:induction false} WithoutIsKeep(s: seq<TrackedMessage>, m: TrackedMessage)
    ensures Without(s, m) == Keep(s, {m})
    decreases |s|
  {
    if s != [] {
      WithoutIsKeep(s[1..], m);
    }
  }

  lemma {:induction false} KeepNothing(s: seq<TrackedMessage>)
    ensures Keep(s, {}) == s
    decreases |s|
  {
    if s != [] {
      KeepNothing(s[1..]);
      assert s == [s[0]] + s[1..];
    }
  }

  lemma {:induction false} KeepWithout(s: seq<TrackedMessage>, gone: set<TrackedMessage>, m: TrackedMessage)
    ensures Without(Keep(s, gone), m) == Keep(s, gone + {m})
    decreases |s|
  {
    if s != [] {
      KeepWithout(s[1..], gone, m);
      var head := if s[0] in gone then [] else [s[0]];
      WithoutAppend(head, Keep(s[1..], gone), m);
    }
  }

  /** The pairs among `entries` whose edit failed fatally. */
  function FatalPairs(entries: seq<TrackedMessage>, reactions: nat -> Option<Reaction>): (r: set<TrackedMessage>)
    ensures forall x :: x in r <==> exists i :: 0 <= i < |entries| && entries[i] == x && IsFatal(reactions(i))
    decreases |entries|
  {
    if entries == [] then {}
    else
      var n := |entries| - 1;
      FatalPairs(entries[..n], reactions) + (if IsFatal(reactions(n)) then {entries[n]} else {})
  }

  /**
    With every removal's I/O succeeding, the walk drops from the file exactly
    the pairs whose edit failed fatally, and keeps every other entry in order.
   */
  lemma {:induction false} WalkRemovesExactlyFatal(entries: seq<TrackedMessage>, reactions: nat -> Option<Reaction>,
                                                   removeIo: nat -> IoOutcome, stored: seq<TrackedMessage>,
                                                   interval: int)
    requires forall i :: 0 <= i < |entries| ==> removeIo(i) == ALL_OK
    ensures Propagate(entries, reactions, removeIo, Progress(Intact(stored), interval)).file
         == Intact(Keep(stored, FatalPairs(entries, reactions)))
    decreases |entries|
  {
    if entries == [] {
      KeepNothing(stored);
    } else {
      var n := |entries| - 1;
      var gone := FatalPairs(entries[..n], reactions);
      var p := Propagate(entries[..n], reactions, removeIo, Progress(Intact(stored), interval));
      WalkRemovesExactlyFatal(entries[..n], reactions, removeIo, stored, interval);
      StepFile(p, entries[n], reactions(n), removeIo(n));
      if IsFatal(reactions(n)) {
        KeepWithout(stored, gone, entries[n]);
        assert FatalPairs(entries, reactions) == gone + {entries[n]};
      } else {
        assert FatalPairs(entries, reactions) == gone;
      }
    }
  }

  /** Without a fatal error the walk leaves the file alone, whatever the I/O would have done. */
  lemma {:induction false} NoFatalKeepsFile(entries: seq<TrackedMessage>, reactions: nat -> Option<Reaction>,
                                            removeIo: nat -> IoOutcome, start: Progress)
    requires forall i :: 0 <= i < |entries| ==> !IsFatal(reactions(i))
    ensures Propagate(entries, reactions, removeIo, start).file == start.file
    decreases |entries|
  {
    if entries != [] {
      var n := |entries| - 1;
      NoFatalKeepsFile(entries[..n], reactions, removeIo, start);
    }
  }

  /**
    A whole cycle over an intact registry with successful I/O: the stored
    list loses exactly the pairs whose edit failed fatally.
   */
  lemma CycleRemovesExactlyFatal(st: BotState, hash: Option<Snapshot> -> int, fetched: Option<Snapshot>, env: CycleEnv)
    requires st.lastHash != Some(hash(fetched))
    requires env.loadOk && st.file.Intact?
    requires forall i :: 0 <= i < |st.file.entries| ==> env.removeIo(i) == ALL_OK
    ensures Cycle(st, hash, fetched, env).state.file
         == Intact(Keep(st.file.entries, FatalPairs(st.file.entries, Reactions(env.edit))))
  {
    WalkRemovesExactlyFatal(st.file.entries, Reactions(env.edit), env.removeIo, st.file.entries, st.interval);
  }

  /** The cycles of the update loop, one per sleep. */
  datatype Round = Round(fetched: Option<Snapshot>, env: CycleEnv)

  function Run(st: BotState, hash: Option<Snapshot> -> int, rounds: seq<Round>): BotState
    decreases |rounds|
  {
    if rounds == [] then st else Run(Cycle(st, hash, rounds[0].fetched, rounds[0].env).state, hash, rounds[1..])
  }

  /**
    While every fetch has the fingerprint of the first one, only the first
    cycle does anything: the state after any number of further rounds is the
    state after the first.
   */
  lemma {:induction false} SteadyFingerprintChangesNothingAfterFirstCycle(st: BotState, hash: Option<Snapshot> -> int,
                                                                           fetched: Option<Snapshot>, env: CycleEnv,
                                                                           rounds: seq<Round>)
    requires forall i :: 0 <= i < |rounds| ==> hash(rounds[i].fetched) == hash(fetched)
    ensures Run(st, hash, [Round(fetched, env)] + rounds) == Cycle(st, hash, fetched, env).state
  {
    var first := Cycle(st, hash, fetched, env).state;
    assert ([Round(fetched, env)] + rounds)[1..] == rounds;
    SteadyFrom(first, hash, fetched, rounds);
  }

  /** From a state that already holds a fingerprint, rounds whose fetches all have that fingerprint change nothing. */
  lemma {:induction false} SteadyFrom(st: BotState, hash: Option<Snapshot> -> int, fetched: Option<Snapshot>,
                                      rounds: seq<Round>)
    requires st.lastHash == Some(hash(fetched))
    requires forall i :: 0 <= i < |rounds| ==> hash(rounds[i].fetched) == hash(fetched)
    ensures Run(st, hash, rounds) == st
    decreases |rounds|
  {
    if rounds != [] {
      UnchangedFingerprintDoesNothing(st, hash, rounds[0].fetched, rounds[0].env);
      SteadyFrom(st, hash, fetched, rounds[1..]);
    }
  }

  /** The interval never decreases over any number of cycles, so it never drops below its start. */
  lemma {:induction false} IntervalNeverDecreases(st: BotState, hash: Option<Snapshot> -> int, rounds: seq<Round>)
    ensures Run(st, hash, rounds).interval >= st.interval
    decreases |rounds|
  {
    if rounds != [] {
      IntervalNeverDecreases(Cycle(st, hash, rounds[0].fetched, rounds[0].env).state, hash, rounds[1..]);
    }
  }

  /** `is_admin`: private chats pass; elsewhere the member lookup decides, and a failed lookup refuses. */
  predicate IsAdmin(chatType: string, memberStatus: Option<string>) {
    chatType == "private" || (memberStatus.Some? && memberStatus.value in {"administrator", "creator"})
  }

  /** The test at the head of `/sendstatus`: `is_admin` is consulted only outside private chats. */
  predicate MayStart(chatType: string, memberStatus: Option<string>) {
    !(chatType != "private" && !IsAdmin(chatType, memberStatus))
  }

  /** The caller's short cut through private chats does not change `is_admin`'s verdict. */
  lemma GateIsAdmin(chatType: string, memberStatus: Option<string>)
    ensures MayStart(chatType, memberStatus) <==> IsAdmin(chatType, memberStatus)
    ensures chatType == "private" ==> MayStart(chatType, memberStatus)
    ensures chatType != "private" ==>
      (MayStart(chatType, memberStatus)
       <==> memberStatus == Some("administrator") || memberStatus == Some("creator"))
    ensures MayStart(chatType, None) <==> chatType == "private"
  {
  }

  /**
    How `/sendstatus` ends: the admin-only refusal, the confirmation, the
    error reply, or no reply at all when the typing indicator could not be
    sent and the handler stopped there.
   */
  datatype Reply = AdminOnly | AutoUpdateStarted | SendFailed | Silent

  class StatusBot {
    var lastStatusHash: Option<int>
    var updateInterval: int
    const storage: MessageStorage
    /** The process's `hash(str(...))` of a fetched snapshot. */
    const fingerprint: Option<Snapshot> -> int

    ghost predicate Valid()
      reads this
    {
      updateInterval >= UPDATE_INTERVAL
    }

    ghost function State(): BotState
      reads this, storage
    {
      BotState(lastStatusHash, updateInterval, storage.file)
    }

    constructor (storage: MessageStorage, fingerprint: Option<Snapshot> -> int)
      ensures this.storage == storage && this.fingerprint == fingerprint
      ensures lastStatusHash == None && updateInterval == UPDATE_INTERVAL
      ensures Valid()
    {
      this.storage := storage;
      this.fingerprint := fingerprint;
      lastStatusHash := None;
      updateInterval := UPDATE_INTERVAL;
    }

    /** One reconciliation cycle; it returns the list it loaded and the edits it made. */
    method UpdateStatusMessages(fetched: Option<Snapshot>, env: CycleEnv)
      returns (loaded: Option<seq<TrackedMessage>>, edits: seq<EditCall>)
      requires Valid()
      modifies this, storage
      ensures CycleResult(State(), loaded, edits) == Cycle(old(State()), fingerprint, fetched, env)
      ensures Valid()
    {
      loaded, edits := None, [];
      var currentHash := fingerprint(fetched);
      if Some(currentHash) == lastStatusHash {
        return;
      }
      lastStatusHash := Some(currentHash);
      var text := CreateStatusMessage(fetched, env.now, env.formatTime, env.parse);
      var messages := storage.Load(env.loadOk);
      loaded := Some(messages);
      if messages == [] {
        return;
      }
      edits := EditAll(messages, text, env);
    }

    /** The loop over a copy of the loaded list: one edit per entry, and the reaction to its outcome. */
    method EditAll(messages: seq<TrackedMessage>, text: string, env: CycleEnv) returns (edits: seq<EditCall>)
      modifies this, storage
      ensures edits == EditCalls(messages, text)
      ensures Progress(storage.file, updateInterval)
           == Propagate(messages, Reactions(env.edit), env.removeIo, Progress(old(storage.file), old(updateInterval)))
      ensures lastStatusHash == old(lastStatusHash)
    {
      ghost var start := Progress(storage.file, updateInterval);
      edits := [];
      var i := 0;
      while i < |messages|
        invariant 0 <= i <= |messages|
        invariant lastStatusHash == old(lastStatusHash)
        invariant edits == EditCalls(messages[..i], text)
        invariant Progress(storage.file, updateInterval)
               == Propagate(messages[..i], Reactions(env.edit), env.removeIo, start)
      {
        var m := messages[i];
        edits := edits + [EditCall(m.chatId, m.messageId, text)];
        HandleEditResult(m, env.edit(i), env.removeIo(i));
        assert messages[..i + 1][..i] == messages[..i];
        i := i + 1;
      }
      assert messages[..i] == messages;
    }

    /** The reaction to the edit of one tracked entry. */
    method HandleEditResult(m: TrackedMessage, result: EditResult, io: IoOutcome)
      modifies this, storage
      ensures Progress(storage.file, updateInterval)
           == Step(Progress(old(storage.file), old(updateInterval)), m, ReactionOf(result), io)
      ensures lastStatusHash == old(lastStatusHash)
    {
      match result {
        case Edited =>
        case EditFailed(error) =>
          var reaction := Classify(error);
          match reaction {
            case NotModified =>
            case Flood(retryAfter) =>
              if retryAfter.Some? {
                updateInterval := Max(updateInterval, retryAfter.value);
              }
            case Fatal =>
              storage.RemoveMessage(m.chatId, m.messageId, io);
          }
      }
    }

    /**
      `/sendstatus`: outside the admin gate nothing is fetched or stored.
      Otherwise the typing indicator is sent first (`typing` says whether the
      client accepted it); when it fails, the handler stops with nothing posted,
      nothing stored and no reply. After it the status is posted; `posted` is the
      text that appears in the chat, so it is `None` when the post fails. When
      the post succeeds with message id `sent`, that message is registered, and a failure
      of the confirmation reply after it still ends in the error reply. The
      fetch itself never fails: its errors arrive as `fetched == None`.
     */
    method SendStatus(chatId: int, chatType: string, memberStatus: Option<string>,
                      fetched: Option<Snapshot>, now: int, formatTime: int -> string,
                      parse: string -> Option<Parsed>, typing: bool, sent: Option<int>, confirmed: bool,
                      io: IoOutcome)
      returns (reply: Reply, posted: Option<string>)
      modifies storage
      ensures !MayStart(chatType, memberStatus) ==>
        reply == AdminOnly && posted == None && storage.file == old(storage.file)
      ensures MayStart(chatType, memberStatus) && !typing ==>
        reply == Silent && posted == None && storage.file == old(storage.file)
      ensures MayStart(chatType, memberStatus) && typing ==>
        (posted == if sent.Some? then Some(CreateStatusMessage(fetched, now, formatTime, parse)) else None)
      ensures MayStart(chatType, memberStatus) && typing && sent.None? ==>
        reply == SendFailed && storage.file == old(storage.file)
      ensures MayStart(chatType, memberStatus) && typing && sent.Some? ==>
        && storage.file == AfterAdd(old(storage.file), TrackedMessage(chatId, sent.value), io)
        && reply == (if confirmed then AutoUpdateStarted else SendFailed)
    {
      if chatType != "private" && !IsAdmin(chatType, memberStatus) {
        return AdminOnly, None;
      }
      if !typing {
        return Silent, None;
      }
      var text := CreateStatusMessage(fetched, now, formatTime, parse);
      if sent.None? {
        return SendFailed, None;
      }
      posted := Some(text);
      storage.AddMessage(chatId, sent.value, io);
      reply := if confirmed then AutoUpdateStarted else SendFailed;
    }
  }
}
