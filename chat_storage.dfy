/** The chat thread log of `services/chatStorage.ts`: a newest-first list of at most
    `MAX_THREADS` threads kept in one browser-storage entry. Every operation reads the
    whole list, changes it and writes it back; the storage entry is the `blob` field. */
module ChatStorage {
  import opened Types
  import opened Text
  import opened Seqs

  const MAX_THREADS := 50
  const NEW_TITLE := "Nova Conversa"
  const TITLE_LENGTH := 50
  const TITLE_ELLIPSIS := "..."
  const THREAD_NOT_FOUND := "Thread not found"

  /** The storage entry: missing (or empty), text that does not parse, or a parsed list. */
  datatype Blob = Absent | Unparsable | Stored(threads: seq<ChatThread>)

  /** The outcome of `addMessage`: it returns normally or throws with a message. */
  datatype Outcome = Done | Thrown(message: string)

  const THREAD_PREFIX := "thread-"

  /** `thread-<now>-<suffix>`, where the suffix is the random base-36 part. */
  function ThreadId(now: nat, suffix: string): (id: string)
    ensures |id| > |THREAD_PREFIX| + |suffix| && id[..|THREAD_PREFIX|] == THREAD_PREFIX
    ensures id[|id| - |suffix|..] == suffix && id[|id| - |suffix| - 1] == '-'
    ensures id[|THREAD_PREFIX|..|id| - |suffix| - 1] == NatToString(now)
  {
    var stamped := THREAD_PREFIX + NatToString(now);
    assert stamped[..|THREAD_PREFIX|] == THREAD_PREFIX;
    assert (stamped + "-" + suffix)[|THREAD_PREFIX|..|stamped|] == NatToString(now);
    stamped + "-" + suffix
  }

  /** Thread ids made at different times, or with different suffixes, differ. */
  lemma {:induction false} ThreadIdInjective(now1: nat, suffix1: string, now2: nat, suffix2: string)
    ensures ThreadId(now1, suffix1) == ThreadId(now2, suffix2) <==> now1 == now2 && suffix1 == suffix2
  {
    if ThreadId(now1, suffix1) == ThreadId(now2, suffix2) {
      var d1, d2 := NatToString(now1), NatToString(now2);
      var rest1, rest2 := d1 + "-" + suffix1, d2 + "-" + suffix2;
      assert ThreadId(now1, suffix1) == THREAD_PREFIX + rest1;
      assert ThreadId(now2, suffix2) == THREAD_PREFIX + rest2;
      assert rest1 == rest2 by {
        assert rest1 == ThreadId(now1, suffix1)[|THREAD_PREFIX|..];
        assert rest2 == ThreadId(now2, suffix2)[|THREAD_PREFIX|..];
      }
      DigitsThenDash(d1, suffix1, d2, suffix2);
      NatToStringInjective(now1, now2);
    }
  }

  /** Digits hold no dash, so the first dash of `digits + "-" + rest` tells the two apart. */
  lemma DigitsThenDash(d1: string, s1: string, d2: string, s2: string)
    requires forall i :: 0 <= i < |d1| ==> '0' <= d1[i] <= '9'
    requires forall i :: 0 <= i < |d2| ==> '0' <= d2[i] <= '9'
    ensures d1 + "-" + s1 == d2 + "-" + s2 ==> d1 == d2 && s1 == s2
  {
    var rest1, rest2 := d1 + "-" + s1, d2 + "-" + s2;
    if |d1| < |d2| {
      assert rest1[|d1|] != rest2[|d1|];
    } else if |d2| < |d1| {
      assert rest1[|d2|] != rest2[|d2|];
    } else {
      assert d1 == rest1[..|d1|] && d2 == rest2[..|d2|];
      assert s1 == rest1[|d1| + 1..] && s2 == rest2[|d2| + 1..];
    }
  }

  /** A fresh thread: no messages, the placeholder title, created and updated now. */
  function NewThread(id: string, now: int, agentMode: AgentRole): ChatThread {
    ChatThread(id, NEW_TITLE, [], now, now, agentMode)
  }

  /** `unshift` the thread, then keep the first `MAX_THREADS`. */
  function Prepended(threads: seq<ChatThread>, t: ChatThread): (r: seq<ChatThread>)
    ensures |r| == if |threads| + 1 <= MAX_THREADS then |threads| + 1 else MAX_THREADS
    ensures r[0] == t
    ensures forall i :: 1 <= i < |r| ==> r[i] == threads[i - 1]
  {
    var all := [t] + threads;
    if |all| > MAX_THREADS then all[..MAX_THREADS] else all
  }

  /** The position of the first thread with the id (`threads.find`), if any. */
  function FindIndex(threads: seq<ChatThread>, id: string): (k: Option<nat>)
    ensures k.Some? ==> k.value < |threads| && threads[k.value].id == id
    ensures k.Some? ==> forall j :: 0 <= j < k.value ==> threads[j].id != id
    ensures k.None? <==> forall j :: 0 <= j < |threads| ==> threads[j].id != id
  {
    if threads == [] then None
    else if threads[0].id == id then Some(0)
    else match FindIndex(threads[1..], id)
      case None => None
      case Some(k) => Some(k + 1)
  }

  /** `content.slice(0, 50) + (content.length > 50 ? '...' : '')` */
  function TitleFrom(content: string): (title: string)
    ensures |content| <= TITLE_LENGTH ==> title == content
    ensures |content| > TITLE_LENGTH ==>
      |title| == TITLE_LENGTH + 3 && title[..TITLE_LENGTH] == content[..TITLE_LENGTH] &&
      title[TITLE_LENGTH..] == TITLE_ELLIPSIS
  {
    SliceTo(content, TITLE_LENGTH) + (if |content| > TITLE_LENGTH then TITLE_ELLIPSIS else "")
  }

  /** The thread after `messages.push`, the `updatedAt` stamp and the auto-title rule. */
  function WithMessage(t: ChatThread, m: ChatMessage, now: int): ChatThread {
    var messages := t.messages + [m];
    var title := if |messages| == 1 && t.title == NEW_TITLE && m.role == User then TitleFrom(m.content) else t.title;
    t.(messages := messages, updatedAt := now, title := title)
  }

  /** The test `t.id !== threadId` of the delete filter. */
  function OtherThread(id: string): ChatThread -> bool {
    (t: ChatThread) => t.id != id
  }

  /** The list after `deleteThread`. */
  function WithoutThread(threads: seq<ChatThread>, id: string): seq<ChatThread> {
    Filter(threads, OtherThread(id))
  }

  predicate WithinCap(threads: seq<ChatThread>) {
    |threads| <= MAX_THREADS
  }

  /** The in-memory `ChatStorageService` with its storage entry. */
  class ChatStorage {
    var blob: Blob

    constructor(initial: Blob)
      ensures blob == initial
    {
      blob := initial;
    }

    /** `getAllThreads`: a missing or unparsable entry reads as no threads. */
    function AllThreads(): (r: seq<ChatThread>)
      reads this
      ensures !blob.Stored? ==> r == []
      ensures blob.Stored? ==> r == blob.threads
    {
      if blob.Stored? then blob.threads else []
    }

    /** `getThread`: the first thread with the id, or nothing. */
    function GetThread(threadId: string): (r: Option<ChatThread>)
      reads this
      ensures r.Some? ==> r.value in AllThreads() && r.value.id == threadId
      ensures r.Some? ==> exists k :: (0 <= k < |AllThreads()| && AllThreads()[k] == r.value &&
        forall j :: 0 <= j < k ==> AllThreads()[j].id != threadId)
      ensures r.None? <==> forall t :: t in AllThreads() ==> t.id != threadId
    {
      match FindIndex(AllThreads(), threadId)
      case None => None
      case Some(k) => Some(AllThreads()[k])
    }

    /** `createThread`: the new thread goes first and the list is cut to `MAX_THREADS`. */
    method CreateThread(now: nat, suffix: string, agentMode: AgentRole := SUPERVISOR) returns (thread: ChatThread)
      modifies this
      ensures thread == NewThread(ThreadId(now, suffix), now, agentMode)
      ensures blob == Stored(Prepended(old(AllThreads()), thread))
    {
      thread := NewThread(ThreadId(now, suffix), now, agentMode);
      var threads := AllThreads();
      threads := [thread] + threads;
      if |threads| > MAX_THREADS {
        threads := threads[..MAX_THREADS];
      }
      blob := Stored(threads);
    }

    /** `addMessage`: the message is appended to the first thread with the id, which is
        stamped and possibly titled; an unknown id throws and writes nothing. */
    method AddMessage(threadId: string, message: ChatMessage, now: int) returns (outcome: Outcome)
      modifies this
      ensures FindIndex(old(AllThreads()), threadId).None? ==>
        outcome == Thrown(THREAD_NOT_FOUND) && blob == old(blob)
      ensures FindIndex(old(AllThreads()), threadId).Some? ==>
        var k := FindIndex(old(AllThreads()), threadId).value;
        outcome == Done && blob == Stored(old(AllThreads())[k := WithMessage(old(AllThreads())[k], message, now)])
    {
      var threads := AllThreads();
      var found := FindIndex(threads, threadId);
      if found.None? {
        return Thrown(THREAD_NOT_FOUND);
      }
      var k := found.value;
      var thread := threads[k];
      thread := thread.(messages := thread.messages + [message]);
      thread := thread.(updatedAt := now);
      if |thread.messages| == 1 && thread.title == NEW_TITLE && message.role == User {
        thread := thread.(title := TitleFrom(message.content));
      }
      blob := Stored(threads[k := thread]);
      outcome := Done;
    }

    /** `deleteThread`: every thread with the id is dropped and the list is written back. */
    method DeleteThread(threadId: string)
      modifies this
      ensures blob == Stored(WithoutThread(old(AllThreads()), threadId))
    {
      var threads := AllThreads();
      blob := Stored(WithoutThread(threads, threadId));
    }

    /** `updateThreadAgent`: the first thread with the id gets the mode; the entry is
        written only when there is one. */
    method UpdateThreadAgent(threadId: string, agentMode: AgentRole)
      modifies this
      ensures FindIndex(old(AllThreads()), threadId).None? ==> blob == old(blob)
      ensures FindIndex(old(AllThreads()), threadId).Some? ==>
        var k := FindIndex(old(AllThreads()), threadId).value;
        blob == Stored(old(AllThreads())[k := old(AllThreads())[k].(agentMode := agentMode)])
    {
      var threads := AllThreads();
      var found := FindIndex(threads, threadId);
      if found.Some? {
        var k := found.value;
        blob := Stored(threads[k := threads[k].(agentMode := agentMode)]);
      }
    }
  }

  /** A new thread leads the list, the previous threads follow newest first, and the
      oldest ones beyond `MAX_THREADS` are dropped. */
  lemma CreateThreadFacts(threads: seq<ChatThread>, id: string, now: int, agentMode: AgentRole)
    ensures var t := NewThread(id, now, agentMode);
      var r := Prepended(threads, t);
      WithinCap(r) && r[0].messages == [] && r[0].title == NEW_TITLE && r[0].agentMode == agentMode &&
      r[0].createdAt == now && r[0].updatedAt == now &&
      r[1..] == threads[..|r| - 1] &&
      (|threads| < MAX_THREADS ==> r[1..] == threads)
  {
    var t := NewThread(id, now, agentMode);
    var r := Prepended(threads, t);
    assert r[1..] == threads[..|r| - 1];
  }

  /** Appending a message changes only the matching thread: its messages grow by that
      message at the end, it is stamped `now`, and its id, creation time and mode stay. */
  lemma AddMessageFacts(threads: seq<ChatThread>, threadId: string, m: ChatMessage, now: int)
    requires FindIndex(threads, threadId).Some?
    ensures var k := FindIndex(threads, threadId).value;
      var r := threads[k := WithMessage(threads[k], m, now)];
      |r| == |threads| &&
      (forall j :: 0 <= j < |r| && j != k ==> r[j] == threads[j]) &&
      r[k].id == threadId && r[k].messages == threads[k].messages + [m] &&
      r[k].updatedAt == now && r[k].createdAt == threads[k].createdAt &&
      r[k].agentMode == threads[k].agentMode
  {
  }

  /** The automatic title: set from a user's first message in a thread that still has the
      placeholder title, and never again afterwards; otherwise the title stays. */
  lemma AutoTitleRule(t: ChatThread, m: ChatMessage, now: int)
    ensures t.messages == [] && t.title == NEW_TITLE && m.role == User ==>
      WithMessage(t, m, now).title == TitleFrom(m.content)
    ensures t.messages != [] || t.title != NEW_TITLE || m.role != User ==>
      WithMessage(t, m, now).title == t.title
    ensures |WithMessage(t, m, now).title| <= TITLE_LENGTH + 3 || WithMessage(t, m, now).title == t.title
  {
  }

  /** A second message never retitles a thread. */
  lemma TitleSetOnce(t: ChatThread, m1: ChatMessage, m2: ChatMessage, now1: int, now2: int)
    ensures WithMessage(WithMessage(t, m1, now1), m2, now2).title == WithMessage(t, m1, now1).title
  {
  }

  /** After a delete no thread has the id, the others are kept in order, and deleting an
      absent id changes nothing. */
  lemma DeleteThreadFacts(threads: seq<ChatThread>, id: string)
    ensures forall t :: t in WithoutThread(threads, id) ==> t.id != id
    ensures forall t :: t in threads && t.id != id ==> t in WithoutThread(threads, id)
    ensures IsSubsequence(WithoutThread(threads, id), threads)
    ensures FindIndex(threads, id).None? ==> WithoutThread(threads, id) == threads
  {
    FilterIsSubsequence(threads, OtherThread(id));
    if FindIndex(threads, id).None? {
      forall t | t in threads ensures OtherThread(id)(t) {
        var j :| 0 <= j < |threads| && threads[j] == t;
      }
      FilterKeepsAll(threads, OtherThread(id));
    }
  }

  /** Changing the agent mode touches the agent mode of the first matching thread only. */
  lemma UpdateAgentFacts(threads: seq<ChatThread>, threadId: string, agentMode: AgentRole)
    requires FindIndex(threads, threadId).Some?
    ensures var k := FindIndex(threads, threadId).value;
      var r := threads[k := threads[k].(agentMode := agentMode)];
      |r| == |threads| && (forall j :: 0 <= j < |r| && j != k ==> r[j] == threads[j]) &&
      r[k].agentMode == agentMode && r[k].id == threadId && r[k].title == threads[k].title &&
      r[k].messages == threads[k].messages && r[k].updatedAt == threads[k].updatedAt
  {
  }

  /** No operation lets the list outgrow `MAX_THREADS` once it is within it; creating a
      thread brings any list within it. */
  lemma OperationsKeepCap(threads: seq<ChatThread>, t: ChatThread, id: string, m: ChatMessage, now: int, a: AgentRole)
    ensures WithinCap(Prepended(threads, t))
    ensures WithinCap(threads) ==> WithinCap(WithoutThread(threads, id))
    ensures WithinCap(threads) && FindIndex(threads, id).Some? ==>
      var k := FindIndex(threads, id).value;
      WithinCap(threads[k := WithMessage(threads[k], m, now)]) &&
      WithinCap(threads[k := threads[k].(agentMode := a)])
  {
  }
}
