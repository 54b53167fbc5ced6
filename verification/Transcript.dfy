/** Transcripts whose tool calls are answered at once, and the notice pass over them (agent/context_notice.go). */
module Transcript {
  import opened ChatTypes
  import opened Decimals
  import opened Wrappers

  function CallIDs(m: Message): seq<string> {
    seq(|m.toolCalls|, i requires 0 <= i < |m.toolCalls| => m.toolCalls[i].id)
  }

  // The ids whose tool messages must come next; None once a tool message was missing or stray.
  function Awaited(ms: seq<Message>): Option<seq<string>> {
    if ms == [] then Some([])
    else AwaitedAfter(Awaited(ms[..|ms| - 1]), ms[|ms| - 1])
  }

  function AwaitedAfter(before: Option<seq<string>>, m: Message): Option<seq<string>> {
    if before.None? then None
    else if before.value != [] then
      if m.role == ROLE_TOOL && m.toolCallID == before.value[0] then Some(before.value[1..]) else None
    else if m.role == ROLE_TOOL then None
    else if m.role == ROLE_ASSISTANT then Some(CallIDs(m))
    else Some([])
  }

  // Each assistant message with calls is followed at once by one tool message per call, same ids,
  // same order, and there are no other tool messages.
  predicate WellPaired(ms: seq<Message>) {
    Awaited(ms) == Some([])
  }

  lemma {:induction false} AwaitedOneMore(ms: seq<Message>, m: Message)
    ensures Awaited(ms + [m]) == AwaitedAfter(Awaited(ms), m)
  {
    assert (ms + [m])[..|ms|] == ms;
  }

  // The messages after an assistant message at position i answer its calls, as far as they go.
  ghost predicate AnsweredAt(ms: seq<Message>, i: nat)
    requires i < |ms|
  {
    forall j :: i < j < |ms| && j <= i + |ms[i].toolCalls| ==>
      ms[j].role == ROLE_TOOL && ms[j].toolCallID == ms[i].toolCalls[j - i - 1].id
  }

  // Every call is answered by the messages that follow; what is still missing at the end is awaited.
  // Once a call is awaited, the next message is its answer, and the rest is awaited.
  lemma {:induction false} AnswerComes(ms: seq<Message>)
    requires ms != [] && Awaited(ms).Some?
    ensures var n := |ms| - 1;
            && Awaited(ms[..n]).Some?
            && var before := Awaited(ms[..n]).value;
               before != [] ==>
                 ms[n].role == ROLE_TOOL && ms[n].toolCallID == before[0] && Awaited(ms).value == before[1..]
  {
  }

  lemma {:induction false} AwaitedMeans(ms: seq<Message>, i: nat)
    requires i < |ms| && Awaited(ms).Some? && ms[i].role == ROLE_ASSISTANT
    ensures AnsweredAt(ms, i)
    ensures |ms| <= i + 1 + |ms[i].toolCalls| ==> Awaited(ms).value == CallIDs(ms[i])[|ms| - i - 1..]
    decreases |ms|
  {
    var n, ids := |ms| - 1, CallIDs(ms[i]);
    if i < n {
      AnswerComes(ms);
      hide Awaited;
      assert ms[..n][i] == ms[i];
      AwaitedMeans(ms[..n], i);
      var k := n - i - 1;
      if k < |ids| {
        assert ids[k..][0] == ms[i].toolCalls[k].id && ids[k..][1..] == ids[k + 1..];
      }
      forall j | i < j < |ms| && j <= i + |ids|
        ensures ms[j].role == ROLE_TOOL && ms[j].toolCallID == ms[i].toolCalls[j - i - 1].id
      {
        assert j < n ==> ms[..n][j] == ms[j];
      }
    } else {
      NoCallsPending(ms);
      assert ids[0..] == ids;
    }
  }

  // An assistant message is only accepted when nothing is awaited.
  lemma {:induction false} NoCallsPending(ms: seq<Message>)
    requires ms != [] && Awaited(ms).Some? && ms[|ms| - 1].role == ROLE_ASSISTANT
    ensures Awaited(ms[..|ms| - 1]) == Some([]) && Awaited(ms).value == CallIDs(ms[|ms| - 1])
  {
  }

  /** In a well-paired transcript every call is answered, in order, right after its message. */
  lemma {:induction false} WellPairedMeans(ms: seq<Message>, i: nat)
    requires WellPaired(ms) && i < |ms| && ms[i].role == ROLE_ASSISTANT
    ensures i + |ms[i].toolCalls| < |ms| && AnsweredAt(ms, i)
  {
    AwaitedMeans(ms, i);
    var ids := CallIDs(ms[i]);
    assert |ms| <= i + 1 + |ids| ==> |ids[|ms| - i - 1..]| == i + 1 + |ids| - |ms|;
  }

  // ---- Notices ----------------------------------------------------------------------------

  const NOTICE_PREFIX := "[context maintenance notice]"

  predicate IsSpace(c: char) {
    || c in " \t\n\r"
    || c as int in {0x0B, 0x0C, 0x85, 0xA0, 0x1680, 0x2028, 0x2029, 0x202F, 0x205F, 0x3000}
    || 0x2000 <= c as int <= 0x200A
  }

  function TrimLeft(s: string): string {
    if s != [] && IsSpace(s[0]) then TrimLeft(s[1..]) else s
  }

  function TrimRight(s: string): string {
    if s != [] && IsSpace(s[|s| - 1]) then TrimRight(s[..|s| - 1]) else s
  }

  predicate IsNotice(m: Message) {
    m.role == ROLE_SYSTEM && NOTICE_PREFIX <= TrimRight(TrimLeft(m.content))
  }

  function WithoutNotices(ms: seq<Message>): seq<Message> {
    if ms == [] then []
    else
      var before := WithoutNotices(ms[..|ms| - 1]);
      if IsNotice(ms[|ms| - 1]) then before else before + [ms[|ms| - 1]]
  }

  lemma {:induction false} NoneRemoved(m: Message)
    ensures WithoutNotices([]) == [] && WithoutNotices([m]) == if IsNotice(m) then [] else [m]
  {
    hide IsNotice;
    assert [m][..0] == [];
  }

  lemma {:induction false} OneMoreMessage(ms: seq<Message>, m: Message)
    ensures WithoutNotices(ms + [m]) == WithoutNotices(ms) + if IsNotice(m) then [] else [m]
  {
    hide IsNotice;
    assert (ms + [m])[..|ms|] == ms;
    assert WithoutNotices(ms) + [] == WithoutNotices(ms);
  }

  /** Of two lists the notices are removed from each, and of a message alone nothing but a notice is removed. */
  lemma {:induction false} NoticesAreRemoved(ms: seq<Message>, ns: seq<Message>, m: Message)
    ensures WithoutNotices(ms + ns) == WithoutNotices(ms) + WithoutNotices(ns)
    ensures WithoutNotices([]) == [] && WithoutNotices([m]) == if IsNotice(m) then [] else [m]
    decreases |ns|
  {
    hide IsNotice, WithoutNotices;
    NoneRemoved(m);
    if ns == [] {
      assert ms + ns == ms;
    } else {
      var n := |ns| - 1;
      NoticesAreRemoved(ms, ns[..n], m);
      OneMoreMessage(ms + ns[..n], ns[n]);
      OneMoreMessage(ns[..n], ns[n]);
      assert ms + ns == ms + ns[..n] + [ns[n]] && ns == ns[..n] + [ns[n]];
    }
  }

  // removeContextMaintenanceNotices: compacting into the slice's own backing array.
  method RemoveNotices(messages: array<Message>) returns (kept: nat)
    modifies messages
    ensures kept == |WithoutNotices(old(messages[..]))| <= messages.Length
    ensures messages[..kept] == WithoutNotices(old(messages[..]))
  {
    kept := 0;
    ghost var ms := messages[..];
    for i := 0 to messages.Length
      invariant kept == |WithoutNotices(ms[..i])| <= i
      invariant messages[..kept] == WithoutNotices(ms[..i])
      invariant messages[i..] == ms[i..]
    {
      assert ms[..i + 1][..i] == ms[..i];
      assert messages[i] == messages[i..][0] == ms[i];
      assert messages[i + 1..] == messages[i..][1..] == ms[i + 1..];
      if !IsNotice(messages[i]) {
        messages[kept] := messages[i];
        assert messages[..kept + 1] == messages[..kept] + [ms[i]];
        kept := kept + 1;
      }
    }
    assert ms[..|ms|] == ms;
  }

  lemma {:induction false} FilterKeepsAwaited(ms: seq<Message>)
    requires Awaited(ms).Some?
    ensures Awaited(WithoutNotices(ms)) == Awaited(ms)
  {
    hide IsNotice;
    if ms != [] {
      var n := |ms| - 1;
      FilterKeepsAwaited(ms[..n]);
      NoticeIsSystem(ms[n]);
      if !IsNotice(ms[n]) {
        AwaitedOneMore(WithoutNotices(ms[..n]), ms[n]);
      }
    }
  }

  lemma {:induction false} NoticeIsSystem(m: Message)
    ensures IsNotice(m) ==> m.role == ROLE_SYSTEM && m.role != ROLE_TOOL && m.role != ROLE_ASSISTANT
  {
  }

  lemma {:induction false} FilterIsClean(ms: seq<Message>)
    ensures forall m :: m in WithoutNotices(ms) ==> !IsNotice(m)
    ensures WithoutNotices(WithoutNotices(ms)) == WithoutNotices(ms)
  {
    hide IsNotice;
    if ms != [] {
      var n := |ms| - 1;
      FilterIsClean(ms[..n]);
      var before := WithoutNotices(ms[..n]);
      assert (before + [ms[n]])[..|before|] == before;
    }
  }

  // ---- The context ratio ------------------------------------------------------------------

  // What of the profile the notice depends on; no profile at all is None.
  datatype Profile = Profile(windowTokens: int, warnRatio: real)

  function WindowTokens(p: Option<Profile>): int {
    if p.Some? && p.value.windowTokens > 0 then p.value.windowTokens else 128000
  }

  function WarnRatio(p: Option<Profile>): real {
    if p.Some? && p.value.warnRatio > 0.0 then p.value.warnRatio else 0.9
  }

  function CallChars(calls: seq<ToolCall>): nat {
    if calls == [] then 0
    else
      var c := calls[|calls| - 1];
      CallChars(calls[..|calls| - 1]) + |c.id| + |c.kind| + |c.name| + |c.arguments|
  }

  function Chars(ms: seq<Message>): nat {
    if ms == [] then 0
    else
      var m := ms[|ms| - 1];
      Chars(ms[..|ms| - 1]) + |m.role| + |m.name| + |m.content| + |m.reasoning| + |m.toolCallID|
          + CallChars(m.toolCalls)
  }

  function EstimateTokens(ms: seq<Message>): nat {
    if Chars(ms) == 0 then 0 else Chars(ms) / 4 + 1
  }

  function Notice(percent: int, sessionID: string): Message {
    SystemMessage(NOTICE_PREFIX + (" ~" + Decimal(percent) + "% context remaining for session " + sessionID))
  }

  // The warning due for a transcript without notices, if any.
  function Due(ms: seq<Message>, p: Option<Profile>, sessionID: string): Option<Message> {
    var window, used := WindowTokens(p), EstimateTokens(ms);
    if window <= 0 || used <= 0 then None
    else
      var remaining := 1.0 - used as real / window as real;
      var warn := 1.0 - WarnRatio(p);
      if remaining > (if warn <= 0.0 || warn >= 1.0 then 0.1 else warn) then None
      else
        var rounded := remaining * 100.0 + 0.5;
        Some(Notice(if rounded < 0.0 then 0 else rounded.Floor, sessionID))
  }

  // AppendContextMaintenanceNotice on the session's messages.
  function NoticePass(ms: seq<Message>, p: Option<Profile>, sessionID: string): seq<Message> {
    var kept := WithoutNotices(ms);
    var due := Due(kept, p, sessionID);
    if due.Some? then kept + [due.value] else kept
  }

  lemma {:induction false} TrimKeepsPrefix(s: string)
    requires NOTICE_PREFIX <= s
    ensures TrimLeft(s) == s && NOTICE_PREFIX <= TrimRight(s)
    decreases |s|
  {
    assert NOTICE_PREFIX[0] == '[' && s[0] == NOTICE_PREFIX[0];
    var n := |NOTICE_PREFIX| - 1;
    assert NOTICE_PREFIX[n] == ']' && s[n] == ']';
    if IsSpace(s[|s| - 1]) {
      assert |s| > |NOTICE_PREFIX|;
      assert NOTICE_PREFIX <= s[..|s| - 1];
      TrimKeepsPrefix(s[..|s| - 1]);
    }
  }

  lemma {:induction false} NoticeIsNotice(percent: int, sessionID: string)
    ensures IsNotice(Notice(percent, sessionID))
  {
    hide Decimal;
    TrimKeepsPrefix(Notice(percent, sessionID).content);
  }

  /**
   * The notice pass keeps every other message, in order, leaves at most one notice and that in last
   * place, and keeps the transcript well paired.
   */
  lemma {:induction false} NoticePassIsTidy(ms: seq<Message>, p: Option<Profile>, sessionID: string)
    ensures var after := NoticePass(ms, p, sessionID);
            && WithoutNotices(after) == WithoutNotices(ms)
            && (forall i :: 0 <= i < |after| && IsNotice(after[i]) ==> i == |after| - 1)
            && (WellPaired(ms) ==> WellPaired(after))
  {
    hide IsNotice, Notice, WindowTokens, WarnRatio, EstimateTokens;
    FilterIsClean(ms);
    var kept := WithoutNotices(ms);
    assert forall i :: 0 <= i < |kept| ==> kept[i] in kept;
    if WellPaired(ms) {
      FilterKeepsAwaited(ms);
    }
    var due := Due(kept, p, sessionID);
    if due.Some? {
      DueIsNotice(kept, p, sessionID);
      NoticeIsSystem(due.value);
      assert (kept + [due.value])[..|kept|] == kept;
      AwaitedOneMore(kept, due.value);
    }
  }

  lemma {:induction false} DueIsNotice(ms: seq<Message>, p: Option<Profile>, sessionID: string)
    ensures Due(ms, p, sessionID).Some? ==> IsNotice(Due(ms, p, sessionID).value)
  {
    hide IsNotice, Notice;
    forall percent
      ensures IsNotice(Notice(percent, sessionID))
    {
      NoticeIsNotice(percent, sessionID);
    }
  }

  // ---- What a notice is, and when one is due ----------------------------------------------

  ghost predicate AllSpace(s: string) {
    forall c :: c in s ==> IsSpace(c)
  }

  ghost predicate BeginsNotice(s: string) {
    exists white, rest :: AllSpace(white) && s == white + "[context maintenance notice]" + rest
  }

  lemma {:induction false} TrimLeftMeans(s: string)
    ensures exists white :: AllSpace(white) && s == white + TrimLeft(s)
    ensures TrimLeft(s) != "" ==> !IsSpace(TrimLeft(s)[0])
  {
    hide IsSpace;
    if s != [] && IsSpace(s[0]) {
      TrimLeftMeans(s[1..]);
      var white :| AllSpace(white) && s[1..] == white + TrimLeft(s[1..]);
      assert AllSpace([s[0]] + white) && s == [s[0]] + white + TrimLeft(s);
    } else {
      assert AllSpace("") && s == "" + TrimLeft(s);
    }
  }

  lemma {:induction false} TrimRightIsPrefix(s: string)
    ensures TrimRight(s) <= s
  {
    if s != [] && IsSpace(s[|s| - 1]) {
      TrimRightIsPrefix(s[..|s| - 1]);
    }
  }

  lemma {:induction false} TrimLeftSkips(white: string, rest: string)
    requires AllSpace(white) && rest != "" && !IsSpace(rest[0])
    ensures TrimLeft(white + rest) == rest
  {
    hide IsSpace;
    if white == "" {
      assert white + rest == rest;
    } else {
      assert white[0] in white && (white + rest)[1..] == white[1..] + rest;
      assert forall c :: c in white[1..] ==> c in white;
      TrimLeftSkips(white[1..], rest);
    }
  }

  /** A message is a notice exactly when it is a system message that begins, after spaces, with the prefix. */
  lemma {:induction false} NoticesBegin(m: Message)
    ensures IsNotice(m) <==> m.role == "system" && BeginsNotice(m.content)
  {
    hide IsSpace;
    var prefix := "[context maintenance notice]";
    if IsNotice(m) {
      TrimLeftMeans(m.content);
      TrimRightIsPrefix(TrimLeft(m.content));
      var white :| AllSpace(white) && m.content == white + TrimLeft(m.content);
      assert m.content == white + prefix + TrimLeft(m.content)[|prefix|..];
    }
    if white, rest :| AllSpace(white) && m.content == white + prefix + rest {
      assert m.content == white + (prefix + rest);
      BracketIsNoSpace();
      TrimLeftSkips(white, prefix + rest);
      TrimKeepsPrefix(prefix + rest);
    }
  }

  lemma {:induction false} BracketIsNoSpace()
    ensures !IsSpace('[')
  {
  }

  // The share of the window that may be used before a warning is due, and the window.
  function WarnedShare(p: Option<Profile>): real {
    if p.Some? && 0.0 < p.value.warnRatio < 1.0 then p.value.warnRatio else 0.9
  }

  function Window(p: Option<Profile>): real {
    if p.Some? && p.value.windowTokens > 0 then p.value.windowTokens as real else 128000.0
  }

  lemma {:induction false} ShareIsUsed(used: real, window: real, share: real)
    requires window > 0.0
    ensures 1.0 - used / window <= 1.0 - share <==> used >= share * window
    ensures used / window * window == used
  {
    var q := used / window;
    assert q * window == used;
    if q >= share {
      assert q * window >= share * window;
    } else {
      assert q * window < share * window;
    }
  }

  /** A notice is due exactly when there is text and the tokens estimated reach the share of the window. */
  lemma {:induction false} DueMeans(ms: seq<Message>, p: Option<Profile>, sessionID: string)
    ensures Due(ms, p, sessionID).Some? <==>
            Chars(ms) > 0 && EstimateTokens(ms) as real >= WarnedShare(p) * Window(p)
  {
    hide Chars, Notice;
    ShareIsUsed(EstimateTokens(ms) as real, Window(p), WarnedShare(p));
    assert WindowTokens(p) as real == Window(p) && WindowTokens(p) > 0;
  }

  // The percentage nearest to what remains of the window, and none below nothing.
  ghost predicate NearestPercent(percent: int, used: real, window: real) {
    var remaining := 100.0 * (window - used);
    if remaining < 0.0 then percent == 0
    else percent >= 0 && (percent as real - 0.5) * window <= remaining < (percent as real + 0.5) * window
  }

  lemma {:induction false} RoundsNearest(used: real, window: real)
    requires window > 0.0
    ensures var rounded := (1.0 - used / window) * 100.0 + 0.5;
            NearestPercent(if rounded < 0.0 then 0 else rounded.Floor, used, window)
  {
    var share := used / window;
    assert share * window == used;
    var remaining, rounded := 100.0 * (window - used), (1.0 - share) * 100.0 + 0.5;
    assert (1.0 - share) * window == window - used;
    assert (rounded - 0.5) * window == remaining;
    if remaining < 0.0 {
      assert rounded < 0.5;
    } else {
      assert rounded >= 0.5;
      var f := rounded.Floor as real;
      assert f <= rounded < f + 1.0;
      assert (f - 0.5) * window <= (rounded - 0.5) * window;
      assert (rounded - 0.5) * window < (f + 0.5) * window;
    }
  }

  lemma {:induction false} DueSays(ms: seq<Message>, p: Option<Profile>, sessionID: string)
    ensures var due := Due(ms, p, sessionID);
            due.Some? ==>
              exists percent :: NearestPercent(percent, EstimateTokens(ms) as real, Window(p))
                && due.value == Message("system", "[context maintenance notice] ~" + Decimal(percent)
                    + "% context remaining for session " + sessionID, "", [], "", "")
  {
    hide Chars, EstimateTokens, NearestPercent, Decimal, WarnRatio;
    var used, window := EstimateTokens(ms), WindowTokens(p);
    assert window as real == Window(p);
    RoundsNearest(used as real, window as real);
    var rounded := (1.0 - used as real / window as real) * 100.0 + 0.5;
    var percent := if rounded < 0.0 then 0 else rounded.Floor;
    assert NOTICE_PREFIX + (" ~" + Decimal(percent) + "% context remaining for session " + sessionID) ==
           "[context maintenance notice] ~" + Decimal(percent) + "% context remaining for session " + sessionID;
  }

  // Four characters are a token, and every text has one more.
  lemma {:induction false} TokensMean(ms: seq<Message>)
    ensures if Chars(ms) == 0 then EstimateTokens(ms) == 0
            else 4 * (EstimateTokens(ms) - 1) <= Chars(ms) < 4 * EstimateTokens(ms)
  {
  }

  lemma {:induction false} CharsOneMore(ms: seq<Message>, m: Message, call: ToolCall)
    ensures Chars(ms + [m]) == Chars(ms) + Chars([m])
    ensures Chars([m.(toolCalls := [])]) == |m.role| + |m.name| + |m.content| + |m.reasoning| + |m.toolCallID|
    ensures Chars([m.(toolCalls := m.toolCalls + [call])]) ==
            Chars([m]) + |call.id| + |call.kind| + |call.name| + |call.arguments|
  {
    assert (ms + [m])[..|ms|] == ms && [m][..0] == [];
    assert [m.(toolCalls := [])][..0] == [] && [m.(toolCalls := m.toolCalls + [call])][..0] == [];
    assert (m.toolCalls + [call])[..|m.toolCalls|] == m.toolCalls;
  }

  /**
   * The notice pass appends a notice exactly when one is due for what is kept: there is text, and its
   * estimated tokens reach the share of the window. The notice names the nearest percentage and the session.
   */
  lemma {:induction false} NoticePassWarns(ms: seq<Message>, p: Option<Profile>, sessionID: string)
    ensures var kept, after := WithoutNotices(ms), NoticePass(ms, p, sessionID);
            if Chars(kept) > 0 && EstimateTokens(kept) as real >= WarnedShare(p) * Window(p) then
              exists percent :: NearestPercent(percent, EstimateTokens(kept) as real, Window(p))
                && after == kept + [Message("system", "[context maintenance notice] ~" + Decimal(percent)
                    + "% context remaining for session " + sessionID, "", [], "", "")]
            else after == kept
  {
    hide Chars, EstimateTokens, NearestPercent, Due, Decimal, WithoutNotices;
    DueMeans(WithoutNotices(ms), p, sessionID);
    DueSays(WithoutNotices(ms), p, sessionID);
  }
}
