/**
  The message registry: a JSON file holding the list of tracked
  `(chat_id, message_id)` pairs, read and rewritten as a whole by every
  operation. The file is abstracted to the list it holds, or to
  `Unreadable` when it cannot be parsed any more; whether the read and the
  write of one operation succeed is given by the caller as an `IoOutcome`.
 */
module Storage {

  datatype TrackedMessage = TrackedMessage(chatId: int, messageId: int)

  /** What the backing file holds. */
  datatype FileState = Intact(entries: seq<TrackedMessage>) | Unreadable

  /**
    How one save ends. The file is opened with mode "w", which truncates it
    in place: a failure to open leaves it as it was, a failure while writing
    leaves a torn, unparsable file.
   */
  datatype WriteOutcome = Written | OpenFailed | TornWrite

  /** The outcomes of the read and of the write of one registry operation. */
  datatype IoOutcome = IoOutcome(readOk: bool, write: WriteOutcome)

  const ALL_OK := IoOutcome(true, Written)

  /** The list `load` returns: the file's entries, or `[]` on any failure. */
  function Loaded(file: FileState, readOk: bool): (r: seq<TrackedMessage>)
    ensures readOk && file.Intact? ==> r == file.entries
    ensures !readOk || file.Unreadable? ==> r == []
  {
    if readOk && file.Intact? then file.entries else []
  }

  /** The file after `save(entries)`; a failure is swallowed. */
  function Saved(file: FileState, entries: seq<TrackedMessage>, write: WriteOutcome): (r: FileState)
    ensures write == Written ==> r == Intact(entries)
    ensures write == OpenFailed ==> r == file
    ensures write == TornWrite ==> r == Unreadable
  {
    match write
    case Written => Intact(entries)
    case OpenFailed => file
    case TornWrite => Unreadable
  }

  /** The list comprehension of `remove_message`: every entry equal to `m` dropped. */
  function Without(s: seq<TrackedMessage>, m: TrackedMessage): (r: seq<TrackedMessage>)
    ensures |r| <= |s|
    ensures forall x :: x in r <==> x in s && x != m
    decreases |s|
  {
    if s == [] then [] else (if s[0] == m then [] else [s[0]]) + Without(s[1..], m)
  }

  /** Removing a pair that is not there changes nothing. */
  lemma {:induction false} WithoutAbsent(s: seq<TrackedMessage>, m: TrackedMessage)
    requires m !in s
    ensures Without(s, m) == s
    decreases |s|
  {
    if s != [] {
      WithoutAbsent(s[1..], m);
      assert s == [s[0]] + s[1..];
    }
  }

  /** Removal works piecewise, so the kept entries stay in their order. */
  lemma {:induction false} WithoutAppend(a: seq<TrackedMessage>, b: seq<TrackedMessage>, m: TrackedMessage)
    ensures Without(a + b, m) == Without(a, m) + Without(b, m)
    decreases |a|
  {
    if a == [] {
      assert a + b == b;
    } else {
      WithoutAppend(a[1..], b, m);
      assert (a + b)[1..] == a[1..] + b;
    }
  }

  /** Every other pair keeps its number of occurrences, and `m` has none left. */
  lemma {:induction false} WithoutCounts(s: seq<TrackedMessage>, m: TrackedMessage)
    ensures multiset(Without(s, m))[m] == 0
    ensures forall x :: x != m ==> multiset(Without(s, m))[x] == multiset(s)[x]
    decreases |s|
  {
    if s != [] {
      WithoutCounts(s[1..], m);
      assert s == [s[0]] + s[1..];
    }
  }

  /** The file after `add_message(m)`: a pair already loaded is not added again and nothing is saved. */
  function AfterAdd(file: FileState, m: TrackedMessage, io: IoOutcome): (r: FileState)
    ensures m in Loaded(file, io.readOk) ==> r == file
    ensures m !in Loaded(file, io.readOk) && io.write == Written ==>
      r.Intact? && m in r.entries && |r.entries| == |Loaded(file, io.readOk)| + 1
    ensures io.write != Written ==> r == file || r == Unreadable
  {
    var messages := Loaded(file, io.readOk);
    if m in messages then file else Saved(file, messages + [m], io.write)
  }

  /** The file after `remove_message(m)`: the filtered list is always saved. */
  function AfterRemove(file: FileState, m: TrackedMessage, io: IoOutcome): (r: FileState)
    ensures io.write == Written ==>
      r.Intact? && forall x :: x in r.entries <==> x in Loaded(file, io.readOk) && x != m
    ensures io.write == OpenFailed ==> r == file
    ensures io.write == TornWrite ==> r == Unreadable
  {
    Saved(file, Without(Loaded(file, io.readOk), m), io.write)
  }

  lemma AddIdempotent(file: FileState, m: TrackedMessage, io: IoOutcome)
    requires m in Loaded(file, io.readOk)
    ensures AfterAdd(file, m, io) == file
  {
  }

  /** Adding the same pair twice to an empty registry stores it once. */
  lemma AddTwiceStoresOnce(m: TrackedMessage)
    ensures AfterAdd(AfterAdd(Intact([]), m, ALL_OK), m, ALL_OK) == Intact([m])
  {
  }

  lemma AddAppends(entries: seq<TrackedMessage>, m: TrackedMessage)
    requires m !in entries
    ensures AfterAdd(Intact(entries), m, ALL_OK) == Intact(entries + [m])
  {
  }

  /** A failed read inside `add_message` loses every earlier entry. */
  lemma AddAfterFailedLoad(file: FileState, m: TrackedMessage)
    ensures AfterAdd(file, m, IoOutcome(false, Written)) == Intact([m])
  {
  }

  /** A failed read inside `remove_message` empties the registry. */
  lemma RemoveAfterFailedLoad(file: FileState, m: TrackedMessage)
    ensures AfterRemove(file, m, IoOutcome(false, Written)) == Intact([])
  {
  }

  lemma RemoveKeepsOthers(entries: seq<TrackedMessage>, m: TrackedMessage)
    ensures AfterRemove(Intact(entries), m, ALL_OK) == Intact(Without(entries, m))
    ensures m !in Without(entries, m)
    ensures forall x :: x != m ==> multiset(Without(entries, m))[x] == multiset(entries)[x]
  {
    WithoutCounts(entries, m);
  }

  lemma RemoveAbsentIsNoOp(entries: seq<TrackedMessage>, m: TrackedMessage)
    requires m !in entries
    ensures AfterRemove(Intact(entries), m, ALL_OK) == Intact(entries)
  {
    WithoutAbsent(entries, m);
  }

  /** Adding then removing a new pair, with every read and write succeeding, restores the registry. */
  lemma AddThenRemove(entries: seq<TrackedMessage>, m: TrackedMessage)
    requires m !in entries
    ensures AfterRemove(AfterAdd(Intact(entries), m, ALL_OK), m, ALL_OK) == Intact(entries)
  {
    WithoutAppend(entries, [m], m);
    WithoutAbsent(entries, m);
  }

  /** After adding then removing any pair, with successful I/O, the pair is absent. */
  lemma AddThenRemoveAbsent(file: FileState, m: TrackedMessage)
    ensures var f := AfterRemove(AfterAdd(file, m, ALL_OK), m, ALL_OK);
      f.Intact? && m !in f.entries
  {
  }

  /** The registry. Its one field stands for the backing file. */
  class MessageStorage {
    var file: FileState

    constructor (initial: FileState)
      ensures file == initial
    {
      file := initial;
    }

    /** Reads the list; any read or parse failure gives `[]`. */
    method Load(readOk: bool) returns (messages: seq<TrackedMessage>)
      ensures messages == Loaded(file, readOk)
      ensures readOk && file.Intact? ==> messages == file.entries
      ensures !readOk || file.Unreadable? ==> messages == []
    {
      if readOk && file.Intact? {
        messages := file.entries;
      } else {
        messages := [];
      }
    }

    /** Overwrites the file; a failure is swallowed. */
    method Save(messages: seq<TrackedMessage>, write: WriteOutcome)
      modifies this
      ensures file == Saved(old(file), messages, write)
    {
      match write
      case Written => file := Intact(messages);
      case OpenFailed =>
      case TornWrite => file := Unreadable;
    }

    method AddMessage(chatId: int, messageId: int, io: IoOutcome)
      modifies this
      ensures file == AfterAdd(old(file), TrackedMessage(chatId, messageId), io)
    {
      var messages := Load(io.readOk);
      var m := TrackedMessage(chatId, messageId);
      if m !in messages {
        messages := messages + [m];
        Save(messages, io.write);
      }
    }

    method RemoveMessage(chatId: int, messageId: int, io: IoOutcome)
      modifies this
      ensures file == AfterRemove(old(file), TrackedMessage(chatId, messageId), io)
    {
      var messages := Load(io.readOk);
      messages := Without(messages, TrackedMessage(chatId, messageId));
      Save(messages, io.write);
    }
  }
}
