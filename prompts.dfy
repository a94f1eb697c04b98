/** Prompt assembly (app/core/prompts.py): the system prompt built from five
    configured fields, and the provider-facing message list. */
module Prompts {

  import opened Memory

  /** The five prompt fields of the application settings. */
  datatype PromptSettings = PromptSettings(
    systemRole: string,
    domainDescription: string,
    responseStyle: string,
    safetyInstructions: string,
    outputFormat: string)

  /** The labels between the fields of the system prompt. */
  const DomainLabel: string := "\n\nDomain: "
  const StyleLabel: string := "\n\nResponse style: "
  const SafetyLabel: string := "\n\nSafety:\n"
  const FormatLabel: string := "\n\nOutput format:\n"
  const Terminator: string := "\n"

  /** `build_system_prompt`: the role, then each further field behind its
      label, in fixed order, ending with a newline. */
  function BuildSystemPrompt(p: PromptSettings): (r: string)
    ensures |r| == |p.systemRole| + |p.domainDescription| + |p.responseStyle|
                 + |p.safetyInstructions| + |p.outputFormat| + 56
    ensures r[..|p.systemRole|] == p.systemRole
    ensures r[|r| - 1] == '\n'
  {
    p.systemRole + DomainLabel + p.domainDescription + StyleLabel + p.responseStyle
      + SafetyLabel + p.safetyInstructions + FormatLabel + p.outputFormat + Terminator
  }

  /** Each field and each label of the system prompt sits at the offset the
      lengths before it determine, so the fields can be read back from the
      prompt given their lengths. */
  lemma SystemPromptLayout(p: PromptSettings)
    ensures var r := BuildSystemPrompt(p);
      var a := |p.systemRole|;
      var b := a + |DomainLabel| + |p.domainDescription|;
      var c := b + |StyleLabel| + |p.responseStyle|;
      var d := c + |SafetyLabel| + |p.safetyInstructions|;
      var e := d + |FormatLabel| + |p.outputFormat|;
      && e + |Terminator| == |r|
      && r[..a] == p.systemRole
      && r[a..a + |DomainLabel|] == DomainLabel
      && r[a + |DomainLabel|..b] == p.domainDescription
      && r[b..b + |StyleLabel|] == StyleLabel
      && r[b + |StyleLabel|..c] == p.responseStyle
      && r[c..c + |SafetyLabel|] == SafetyLabel
      && r[c + |SafetyLabel|..d] == p.safetyInstructions
      && r[d..d + |FormatLabel|] == FormatLabel
      && r[d + |FormatLabel|..e] == p.outputFormat
      && r[e..] == Terminator
  {
    Pieces(p.systemRole, DomainLabel, p.domainDescription, StyleLabel, p.responseStyle,
           SafetyLabel, p.safetyInstructions, FormatLabel, p.outputFormat, Terminator,
           BuildSystemPrompt(p));
  }

  /** Where each of ten concatenated strings sits in their concatenation. */
  lemma Pieces(x0: string, x1: string, x2: string, x3: string, x4: string,
               x5: string, x6: string, x7: string, x8: string, x9: string, r: string)
    requires r == x0 + x1 + x2 + x3 + x4 + x5 + x6 + x7 + x8 + x9
    ensures |r| == |x0| + |x1| + |x2| + |x3| + |x4| + |x5| + |x6| + |x7| + |x8| + |x9|
    ensures r[0..|x0|] == x0
    ensures r[|x0|..|x0| + |x1|] == x1
    ensures r[|x0| + |x1|..|x0| + |x1| + |x2|] == x2
    ensures r[|x0| + |x1| + |x2|..|x0| + |x1| + |x2| + |x3|] == x3
    ensures r[|x0| + |x1| + |x2| + |x3|..|x0| + |x1| + |x2| + |x3| + |x4|] == x4
    ensures r[|x0| + |x1| + |x2| + |x3| + |x4|..|x0| + |x1| + |x2| + |x3| + |x4| + |x5|] == x5
    ensures r[|x0| + |x1| + |x2| + |x3| + |x4| + |x5|..|x0| + |x1| + |x2| + |x3| + |x4| + |x5| + |x6|] == x6
    ensures r[|x0| + |x1| + |x2| + |x3| + |x4| + |x5| + |x6|..|x0| + |x1| + |x2| + |x3| + |x4| + |x5| + |x6| + |x7|] == x7
    ensures r[|x0| + |x1| + |x2| + |x3| + |x4| + |x5| + |x6| + |x7|..|x0| + |x1| + |x2| + |x3| + |x4| + |x5| + |x6| + |x7| + |x8|] == x8
    ensures r[|x0| + |x1| + |x2| + |x3| + |x4| + |x5| + |x6| + |x7| + |x8|..] == x9
  {
    var s1 := x0;
    var s2 := s1 + x1;
    var s3 := s2 + x2;
    var s4 := s3 + x3;
    var s5 := s4 + x4;
    var s6 := s5 + x5;
    var s7 := s6 + x6;
    var s8 := s7 + x7;
    var s9 := s8 + x8;
    var t9 := x9;
    var t8 := x8 + t9;
    var t7 := x7 + t8;
    var t6 := x6 + t7;
    var t5 := x5 + t6;
    var t4 := x4 + t5;
    var t3 := x3 + t4;
    var t2 := x2 + t3;
    var t1 := x1 + t2;
    var t0 := x0 + t1;
    assert r == s9 + t9;
    assert r == s8 + t8;
    assert r == s7 + t7;
    assert r == s6 + t6;
    assert r == s5 + t5;
    assert r == s4 + t4;
    assert r == s3 + t3;
    assert r == s2 + t2;
    assert r == s1 + t1;
    assert r == t0;
    FieldAt("", x0, t1, r);
    FieldAt(s1, x1, t2, r);
    FieldAt(s2, x2, t3, r);
    FieldAt(s3, x3, t4, r);
    FieldAt(s4, x4, t5, r);
    FieldAt(s5, x5, t6, r);
    FieldAt(s6, x6, t7, r);
    FieldAt(s7, x7, t8, r);
    FieldAt(s8, x8, t9, r);
    TailAt(s9, x9, r);
  }

  /** The last part of a concatenation is what follows the first part. */
  lemma TailAt(x: string, y: string, r: string)
    requires r == x + y
    ensures r[|x|..] == y
  {
  }

  /** The middle part of a three-part concatenation sits right after the
      first part. */
  lemma FieldAt(x: string, y: string, z: string, r: string)
    requires r == x + (y + z)
    ensures r[|x|..|x| + |y|] == y
  {
  }

  /** The provider's name for a role: `"user"` stays, every other role,
      `"assistant"` among them, becomes `"model"`. */
  function ProviderRole(role: string): (r: string)
    ensures r == "user" || r == "model"
    ensures r == "user" <==> role == "user"
  {
    if role == "user" then "user" else "model"
  }

  /** `build_messages(history, user_message)`: the system prompt as a user
      turn, the history with provider roles, then the new user message. */
  function Messages(p: PromptSettings, history: seq<MessageDict>, userMessage: string): (ms: seq<MessageDict>)
    ensures |ms| == |history| + 2
    ensures ms[0] == MessageDict("user", BuildSystemPrompt(p))
    ensures ms[|ms| - 1] == MessageDict("user", userMessage)
    ensures forall i :: 0 <= i < |history| ==>
      ms[i + 1] == MessageDict(ProviderRole(history[i].role), history[i].content)
  {
    [MessageDict("user", BuildSystemPrompt(p))]
      + seq(|history|, i requires 0 <= i < |history| => MessageDict(ProviderRole(history[i].role), history[i].content))
      + [MessageDict("user", userMessage)]
  }

  /** When the history already ends with the new message as a user turn,
      the message list ends with that turn twice. */
  lemma MessagesRepeatNewest(p: PromptSettings, history: seq<MessageDict>, userMessage: string)
    requires history != [] && history[|history| - 1] == MessageDict("user", userMessage)
    ensures var ms := Messages(p, history, userMessage);
      ms[|ms| - 2] == MessageDict("user", userMessage) && ms[|ms| - 1] == MessageDict("user", userMessage)
  {
    var ms := Messages(p, history, userMessage);
    var k := |history| - 1;
    assert ms[k + 1] == MessageDict(ProviderRole(history[k].role), history[k].content);
  }

  /** Every outbound role is `"user"` or `"model"`; `"assistant"` never
      reaches the provider. */
  lemma MessagesUseProviderRoles(p: PromptSettings, history: seq<MessageDict>, userMessage: string)
    ensures forall m :: m in Messages(p, history, userMessage) ==> m.role == "user" || m.role == "model"
    ensures forall m :: m in Messages(p, history, userMessage) ==> m.role != "assistant"
  {
    var ms := Messages(p, history, userMessage);
    forall m | m in ms
      ensures m.role == "user" || m.role == "model"
    {
      var k :| 0 <= k < |ms| && ms[k] == m;
      if 0 < k < |ms| - 1 {
        assert ms[(k - 1) + 1] == m;
      }
    }
  }

  /** The message list `build_messages` returns, built as the source builds
      it: one append per history entry. */
  method BuildMessages(p: PromptSettings, history: seq<MessageDict>, userMessage: string)
    returns (ms: seq<MessageDict>)
    ensures ms == Messages(p, history, userMessage)
  {
    var systemPrompt := BuildSystemPrompt(p);
    ms := [MessageDict("user", systemPrompt)];
    for i := 0 to |history|
      invariant |ms| == i + 1
      invariant ms[0] == MessageDict("user", systemPrompt)
      invariant forall k :: 0 <= k < i ==>
        ms[k + 1] == MessageDict(ProviderRole(history[k].role), history[k].content)
    {
      var h := history[i];
      ms := ms + [MessageDict(if h.role == "user" then "user" else "model", h.content)];
    }
    ms := ms + [MessageDict("user", userMessage)];
    ghost var spec := Messages(p, history, userMessage);
    assert |ms| == |spec|;
    forall k | 0 <= k < |ms|
      ensures ms[k] == spec[k]
    {
      if 0 < k < |ms| - 1 {
        assert ms[(k - 1) + 1] == spec[(k - 1) + 1];
      }
    }
  }
}
