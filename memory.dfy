/** Bounded session memory (app/core/memory.py): a list of chat turns that
    keeps only the newest `maxHistory` of them. */
module Memory {

  import PySlice

  /** One chat turn; the role is `"user"` or `"assistant"` by convention, but
      any string is accepted. */
  datatype ChatMessage = ChatMessage(role: string, content: string)

  /** The plain `{"role": ..., "content": ...}` dictionary handed to the
      prompt builder and, with roles renamed, to the model client. */
  datatype MessageDict = MessageDict(role: string, content: string)

  const DefaultMaxHistory: int := 15

  /** The list `add_message` leaves behind: append, then, if the list is
      longer than `maxHistory`, keep the slice `[-maxHistory:]`. */
  function AfterAdd(messages: seq<ChatMessage>, m: ChatMessage, maxHistory: int): (r: seq<ChatMessage>)
    ensures |r| <= |messages| + 1
    ensures 1 <= maxHistory ==> |r| <= maxHistory
    ensures 0 <= maxHistory ==> r != [] && r[|r| - 1] == m
  {
    var appended := messages + [m];
    if |appended| > maxHistory then PySlice.From(appended, -maxHistory) else appended
  }

  /** Reference definition of a sliding window: the last `min(n, |s|)`
      elements of `s`, in order. */
  function LastN<T>(s: seq<T>, n: nat): (r: seq<T>)
    ensures |r| == if |s| <= n then |s| else n
    ensures r == s[|s| - |r|..]
  {
    if |s| <= n then s else s[|s| - n..]
  }

  /** With a positive limit, adding keeps exactly the newest `maxHistory`
      turns of the old list followed by the new one. */
  lemma AddIsWindow(messages: seq<ChatMessage>, m: ChatMessage, maxHistory: int)
    requires maxHistory >= 1
    ensures AfterAdd(messages, m, maxHistory) == LastN(messages + [m], maxHistory)
    ensures |AfterAdd(messages, m, maxHistory)| <= maxHistory
    ensures AfterAdd(messages, m, maxHistory)[|AfterAdd(messages, m, maxHistory)| - 1] == m
  {
  }

  /** Below the limit, adding only appends. */
  lemma AddAppendsBelowLimit(messages: seq<ChatMessage>, m: ChatMessage, maxHistory: int)
    requires |messages| < maxHistory
    ensures AfterAdd(messages, m, maxHistory) == messages + [m]
  {
  }

  /** `messages[-0:]` is the whole list, so a limit of zero never trims. */
  lemma AddNeverTrimsAtZero(messages: seq<ChatMessage>, m: ChatMessage)
    ensures AfterAdd(messages, m, 0) == messages + [m]
  {
  }

  /** With a limit of zero or more, the turn just added is the newest one kept. */
  lemma AddKeepsNewest(messages: seq<ChatMessage>, m: ChatMessage, maxHistory: int)
    requires maxHistory >= 0
    ensures |AfterAdd(messages, m, maxHistory)| >= 1
    ensures AfterAdd(messages, m, maxHistory)[|AfterAdd(messages, m, maxHistory)| - 1] == m
  {
  }

  /** Two adds to an empty memory keep both turns when the limit leaves
      room for two, or is zero. */
  lemma AddTwoToEmpty(first: ChatMessage, second: ChatMessage, maxHistory: int)
    requires maxHistory >= 2 || maxHistory == 0
    ensures AfterAdd(AfterAdd([], first, maxHistory), second, maxHistory) == [first, second]
  {
    if maxHistory == 0 {
      AddNeverTrimsAtZero([], first);
      AddNeverTrimsAtZero([first], second);
    } else {
      AddAppendsBelowLimit([], first, maxHistory);
      AddAppendsBelowLimit([first], second, maxHistory);
    }
  }

  /** A limit below zero, `-k`, turns the slice into `[k:]`: every add drops
      the oldest `k` turns, the new one included once fewer than `k + 1` remain. */
  lemma AddWithNegativeLimit(messages: seq<ChatMessage>, m: ChatMessage, maxHistory: int)
    requires maxHistory < 0
    ensures var appended := messages + [m];
      AfterAdd(messages, m, maxHistory)
        == if |appended| <= -maxHistory then [] else appended[-maxHistory..]
  {
  }

  /** The memory after adding each of `adds` in turn. */
  function AddAll(messages: seq<ChatMessage>, adds: seq<ChatMessage>, maxHistory: int): (r: seq<ChatMessage>)
    ensures |r| <= |messages| + |adds|
    ensures adds != [] && 0 <= maxHistory ==> r != [] && r[|r| - 1] == adds[|adds| - 1]
  {
    if adds == [] then messages
    else AfterAdd(AddAll(messages, adds[..|adds| - 1], maxHistory), adds[|adds| - 1], maxHistory)
  }

  /** Taking the window of a suffix that is at least window-long, or of the
      whole sequence, is taking the window of the whole. */
  lemma LastNOfLongSuffix<T>(s: seq<T>, j: nat, n: nat)
    requires j <= |s|
    requires j == 0 || n <= |s| - j
    ensures LastN(s[j..], n) == LastN(s, n)
  {
    if j == 0 {
      assert s[j..] == s;
    }
  }

  /** The window of a window followed by more turns is the window of all. */
  lemma LastNAbsorbs<T>(x: seq<T>, y: seq<T>, n: nat)
    ensures LastN(LastN(x, n) + y, n) == LastN(x + y, n)
  {
    var j := |x| - |LastN(x, n)|;
    assert LastN(x, n) + y == (x + y)[j..];
    LastNOfLongSuffix(x + y, j, n);
  }

  /** Whatever the prior contents, after any non-empty run of adds the memory
      holds exactly the newest `maxHistory` turns of everything, in order,
      and so never more than `maxHistory`. */
  lemma {:induction false} AddAllIsWindow(messages: seq<ChatMessage>, adds: seq<ChatMessage>, maxHistory: int)
    requires maxHistory >= 1 && adds != []
    ensures AddAll(messages, adds, maxHistory) == LastN(messages + adds, maxHistory)
    ensures |AddAll(messages, adds, maxHistory)| <= maxHistory
    decreases |adds|
  {
    var init, last := adds[..|adds| - 1], adds[|adds| - 1];
    var before := AddAll(messages, init, maxHistory);
    if init != [] {
      AddAllIsWindow(messages, init, maxHistory);
    }
    SplitLast(messages, adds);
    WindowAfterAdd(messages + init, before, last, maxHistory);
  }

  /** One more add to a memory that is the window of `x`, or `x` itself,
      gives the window of `x` and the new turn. */
  lemma WindowAfterAdd(x: seq<ChatMessage>, before: seq<ChatMessage>, m: ChatMessage, maxHistory: int)
    requires maxHistory >= 1
    requires before == x || before == LastN(x, maxHistory)
    ensures AfterAdd(before, m, maxHistory) == LastN(x + [m], maxHistory)
  {
    AddIsWindow(before, m, maxHistory);
    if before == LastN(x, maxHistory) {
      WindowStep(x, m, maxHistory);
    }
  }

  /** Splitting off the last element of the second operand of `+`. */
  lemma SplitLast<T>(x: seq<T>, y: seq<T>)
    requires y != []
    ensures x + y == (x + y[..|y| - 1]) + [y[|y| - 1]]
  {
  }

  /** Sliding the window over one more element. */
  lemma WindowStep<T>(x: seq<T>, a: T, n: nat)
    ensures LastN(LastN(x, n) + [a], n) == LastN(x + [a], n)
  {
    LastNAbsorbs(x, [a], n);
  }

  /** `to_dicts` on a list of turns: the same roles and contents, in the same
      order. */
  function DictsOf(messages: seq<ChatMessage>): (ds: seq<MessageDict>)
    ensures |ds| == |messages|
    ensures forall i :: 0 <= i < |ds| ==> ds[i].role == messages[i].role && ds[i].content == messages[i].content
  {
    seq(|messages|, i requires 0 <= i < |messages| => MessageDict(messages[i].role, messages[i].content))
  }

  /** `SessionMemory`: the turns of one session and the limit on how many
      are kept. */
  class SessionMemory {
    var messages: seq<ChatMessage>
    var maxHistory: int

    /** `SessionMemory()`: empty, with the default limit of 15. */
    constructor ()
      ensures messages == [] && maxHistory == DefaultMaxHistory
    {
      messages := [];
      maxHistory := DefaultMaxHistory;
    }

    /** `SessionMemory(messages, max_history)`: the dataclass constructor
        with both fields given. */
    constructor Create(messages: seq<ChatMessage>, maxHistory: int)
      ensures this.messages == messages && this.maxHistory == maxHistory
    {
      this.messages := messages;
      this.maxHistory := maxHistory;
    }

    /** `add_message(role, content)` */
    method AddMessage(role: string, content: string)
      modifies this
      ensures messages == AfterAdd(old(messages), ChatMessage(role, content), old(maxHistory))
      ensures maxHistory == old(maxHistory)
      ensures maxHistory >= 1 ==>
        && messages == LastN(old(messages) + [ChatMessage(role, content)], maxHistory)
        && |messages| <= maxHistory
      ensures |old(messages)| < maxHistory ==> messages == old(messages) + [ChatMessage(role, content)]
      ensures maxHistory == 0 ==> messages == old(messages) + [ChatMessage(role, content)]
    {
      ghost var before := messages;
      messages := messages + [ChatMessage(role, content)];
      if |messages| > maxHistory {
        messages := PySlice.From(messages, -maxHistory);
      }
      if maxHistory >= 1 {
        AddIsWindow(before, ChatMessage(role, content), maxHistory);
      }
    }

    /** `to_dicts()`: reads the turns and changes nothing. */
    function ToDicts(): (ds: seq<MessageDict>)
      reads this
      ensures |ds| == |messages|
      ensures forall i :: 0 <= i < |ds| ==> ds[i] == MessageDict(messages[i].role, messages[i].content)
    {
      DictsOf(messages)
    }

    /** `clear()` */
    method Clear()
      modifies this
      ensures messages == [] && maxHistory == old(maxHistory)
    {
      messages := [];
    }
  }
}
