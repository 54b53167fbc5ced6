/** Canonical requests, the diagnostics of their decoders, and what a translation has to keep (proxy/codec). */
module RequestTypes {
  import opened Canonical
  import opened Json
  import opened Sequences
  import opened Texts

  datatype Message = Message(role: string, content: seq<Content>)

  // A path such as $.messages[2].content, step by step.
  datatype Step = Key(key: string) | At(index: nat)

  type Path = seq<Step>

  datatype Diagnostic = Diagnostic(path: Path, message: string, warning: bool)

  function Problem(path: Path, message: string): Diagnostic {
    Diagnostic(path, message, false)
  }

  function Warning(path: Path, message: string): Diagnostic {
    Diagnostic(path, message, true)
  }

  /** The slice of diagnostics the decoders append to through a pointer. */
  class Report {
    var list: seq<Diagnostic>

    constructor ()
      ensures list == []
    {
      list := [];
    }

    method Add(d: Diagnostic)
      modifies this
      ensures list == old(list) + [d]
    {
      list := list + [d];
    }
  }

  function Blocking(ds: seq<Diagnostic>): seq<Diagnostic> {
    if ds == [] then []
    else
      var before := Blocking(ds[..|ds| - 1]);
      if ds[|ds| - 1].warning then before else before + [ds[|ds| - 1]]
  }

  /** `BlockingDiagnostics`. */
  method BlockingDiagnostics(ds: seq<Diagnostic>) returns (blocking: seq<Diagnostic>)
    ensures blocking == Blocking(ds)
    ensures blocking == [] <==> forall d :: d in ds ==> d.warning
  {
    blocking := [];
    for i := 0 to |ds|
      invariant blocking == Blocking(ds[..i])
      invariant blocking == [] <==> forall d :: d in ds[..i] ==> d.warning
    {
      assert ds[..i + 1][..i] == ds[..i] && ds[..i + 1] == ds[..i] + [ds[i]];
      if !ds[i].warning {
        blocking := blocking + [ds[i]];
      }
    }
    assert ds[..|ds|] == ds;
  }

  /** The blocking diagnostics of two lists are those of each, and a diagnostic blocks unless it is a warning. */
  lemma {:induction false} BlockingConcat(ds: seq<Diagnostic>, es: seq<Diagnostic>, d: Diagnostic)
    ensures Blocking(ds + es) == Blocking(ds) + Blocking(es)
    ensures Blocking([]) == [] && Blocking([d]) == if d.warning then [] else [d]
    decreases |es|
  {
    assert [d][..0] == [];
    if es == [] {
      assert ds + es == ds;
    } else {
      var n, whole := |es| - 1, ds + es;
      assert whole[..|whole| - 1] == ds + es[..n] && whole[|whole| - 1] == es[n];
      BlockingConcat(ds, es[..n], d);
    }
  }

  /** What reading one piece of a request gives: contents or messages, and diagnostics. */
  datatype Read<T> = Read(values: seq<T>, diagnostics: seq<Diagnostic>)

  function Both<T>(a: Read<T>, b: Read<T>): Read<T> {
    Read(a.values + b.values, a.diagnostics + b.diagnostics)
  }

  predicate IsSystem(role: string) {
    role == "system" || role == "developer"
  }

  // ---- Meaning ----------------------------------------------------------------------------

  datatype ToolItem = Called(id: string, name: string, arguments: Arguments) | Returned(callID: string, text: string)

  function ToolItemOf(c: Content): seq<ToolItem> {
    match c.kind
    case ToolCallType => [Called(c.id, c.name, c.arguments)]
    case ToolResultType => [Returned(c.toolCallID, c.text)]
    case _ => []
  }

  // The calls and results of some contents, and of a whole request, in order.
  function TraceOf(contents: seq<Content>): seq<ToolItem> {
    if contents == [] then [] else TraceOf(contents[..|contents| - 1]) + ToolItemOf(contents[|contents| - 1])
  }

  function Trace(ms: seq<Message>): seq<ToolItem> {
    if ms == [] then [] else Trace(ms[..|ms| - 1]) + TraceOf(ms[|ms| - 1].content)
  }

  // contentText
  function ContentText(contents: seq<Content>): string {
    if contents == [] then ""
    else
      var before, c := ContentText(contents[..|contents| - 1]), contents[|contents| - 1];
      if c.kind.TextType? then before + c.text else before
  }

  // Developer messages count as system messages.
  predicate OnSide(role: string, side: string) {
    role == side || (side == "system" && role == "developer")
  }

  function RoleText(ms: seq<Message>, side: string): string {
    if ms == [] then ""
    else
      var before, m := RoleText(ms[..|ms| - 1], side), ms[|ms| - 1];
      if OnSide(m.role, side) then before + ContentText(m.content) else before
  }

  // Calls sit in assistant messages with ids and names, results in user messages with ids.
  predicate ContentFits(role: string, c: Content) {
    && (c.kind.ToolCallType? ==> role == "assistant" && c.id != "" && c.name != "")
    && (c.kind.ToolResultType? ==> role == "user" && c.toolCallID != "")
  }

  predicate MessageFits(m: Message) {
    m.role in {"system", "developer", "user", "assistant"} && forall c :: c in m.content ==> ContentFits(m.role, c)
  }

  predicate Sensible(ms: seq<Message>) {
    forall m :: m in ms ==> MessageFits(m)
  }

  ghost predicate ArgumentsSurvive(ms: seq<Message>, text: JsonText) {
    forall m, c :: m in ms && c in m.content && c.kind.ToolCallType? ==> Survives(c.arguments, text)
  }

  // The same calls and results in one order, and the same text from each side.
  ghost predicate SameMeaning(ms: seq<Message>, ns: seq<Message>) {
    && Trace(ms) == Trace(ns)
    && RoleText(ms, "user") == RoleText(ns, "user")
    && RoleText(ms, "assistant") == RoleText(ns, "assistant")
  }

  lemma {:induction false} TraceConcat(p: seq<Message>, q: seq<Message>)
    ensures Trace(p + q) == Trace(p) + Trace(q)
    decreases |q|
  {
    hide TraceOf;
    if q == [] {
      assert p + q == p;
    } else {
      var n, whole := |q| - 1, p + q;
      assert whole[..|whole| - 1] == p + q[..n] && whole[|whole| - 1] == q[n];
      TraceConcat(p, q[..n]);
      Associative(Trace(p), Trace(q[..n]), TraceOf(q[n].content));
    }
  }

  lemma {:induction false} TraceOfConcat(p: seq<Content>, q: seq<Content>)
    ensures TraceOf(p + q) == TraceOf(p) + TraceOf(q)
    decreases |q|
  {
    hide ToolItemOf;
    if q == [] {
      assert p + q == p;
    } else {
      var n, whole := |q| - 1, p + q;
      assert whole[..|whole| - 1] == p + q[..n] && whole[|whole| - 1] == q[n];
      TraceOfConcat(p, q[..n]);
      Associative(TraceOf(p), TraceOf(q[..n]), ToolItemOf(q[n]));
    }
  }

  lemma {:induction false} RoleTextConcat(p: seq<Message>, q: seq<Message>, side: string)
    ensures RoleText(p + q, side) == RoleText(p, side) + RoleText(q, side)
    decreases |q|
  {
    hide ContentText, OnSide;
    if q == [] {
      assert p + q == p;
      assert RoleText(p, side) + "" == RoleText(p, side);
    } else {
      var n, whole := |q| - 1, p + q;
      assert whole[..|whole| - 1] == p + q[..n] && whole[|whole| - 1] == q[n];
      RoleTextConcat(p, q[..n], side);
      Associative(RoleText(p, side), RoleText(q[..n], side), ContentText(q[n].content));
    }
  }

  lemma {:induction false} ContentTextConcat(p: seq<Content>, q: seq<Content>)
    ensures ContentText(p + q) == ContentText(p) + ContentText(q)
    decreases |q|
  {
    if q == [] {
      assert p + q == p;
      assert ContentText(p) + "" == ContentText(p);
    } else {
      var n, whole := |q| - 1, p + q;
      assert whole[..|whole| - 1] == p + q[..n] && whole[|whole| - 1] == q[n];
      ContentTextConcat(p, q[..n]);
      Associative(ContentText(p), ContentText(q[..n]), q[n].text);
    }
  }

  lemma {:induction false} OneContent(c: Content)
    ensures TraceOf([c]) == ToolItemOf(c) && ContentText([c]) == if c.kind.TextType? then c.text else ""
  {
    assert [c][..0] == [];
    assert "" + c.text == c.text;
  }

  lemma {:induction false} OneMessage(m: Message, side: string)
    ensures Trace([m]) == TraceOf(m.content)
            && RoleText([m], side) == if OnSide(m.role, side) then ContentText(m.content) else ""
  {
    assert [m][..0] == [];
    assert "" + ContentText(m.content) == ContentText(m.content);
  }

  // What every target carries of a request's contents.
  predicate Carried(c: Content) {
    c.kind.TextType? || c.kind.ToolCallType? || c.kind.ToolResultType?
  }

  predicate AnyCarried(contents: seq<Content>) {
    exists c :: c in contents && Carried(c)
  }

  // Some message that is not a system message holds text, a call or a result.
  predicate HasItem(ms: seq<Message>) {
    exists m :: m in ms && !IsSystem(m.role) && AnyCarried(m.content)
  }

  lemma {:induction false} AnyCarriedOneMore(contents: seq<Content>)
    requires contents != []
    ensures var n := |contents| - 1; AnyCarried(contents) <==> AnyCarried(contents[..n]) || Carried(contents[n])
  {
    var n := |contents| - 1;
    assert contents == contents[..n] + [contents[n]];
    assert forall c :: c in contents <==> c in contents[..n] || c == contents[n];
  }

  lemma {:induction false} HasItemOneMore(ms: seq<Message>)
    requires ms != []
    ensures var n := |ms| - 1; HasItem(ms) <==> HasItem(ms[..n]) || (!IsSystem(ms[n].role) && AnyCarried(ms[n].content))
  {
    hide AnyCarried;
    var n := |ms| - 1;
    assert ms == ms[..n] + [ms[n]];
    assert forall m :: m in ms <==> m in ms[..n] || m == ms[n];
  }

  // A system message that fits holds no call and no result.
  lemma {:induction false} SystemHasNoTrace(role: string, contents: seq<Content>)
    requires IsSystem(role) && forall c :: c in contents ==> ContentFits(role, c)
    ensures TraceOf(contents) == []
  {
    if contents != [] {
      assert contents[|contents| - 1] in contents && forall c :: c in contents[..|contents| - 1] ==> c in contents;
      SystemHasNoTrace(role, contents[..|contents| - 1]);
    }
  }

  lemma {:induction false} NoContent()
    ensures TraceOf([]) == [] && ContentText([]) == "" && Trace([]) == [] && forall side :: RoleText([], side) == ""
  {
  }

  lemma {:induction false} JoinOne(s: string)
    ensures Join([s], "\n\n") == s && Join([], "\n\n") == ""
  {
  }

  lemma {:induction false} NothingCarried()
    ensures !AnyCarried([]) && !HasItem([])
  {
  }

  // System and developer messages are on the system side only.
  lemma {:induction false} SidesOf(role: string, side: string)
    requires role in {"system", "developer", "user", "assistant"} && side in {"user", "assistant", "system"}
    ensures OnSide(role, side) ==> (IsSystem(role) <==> side == "system")
  {
  }

  // The error flags of the results, in order.
  function ErrorOf(c: Content): seq<bool> {
    if c.kind.ToolResultType? then [c.isError] else []
  }

  function ErrorsOf(contents: seq<Content>): seq<bool> {
    if contents == [] then [] else ErrorsOf(contents[..|contents| - 1]) + ErrorOf(contents[|contents| - 1])
  }

  function Errors(ms: seq<Message>): seq<bool> {
    if ms == [] then [] else Errors(ms[..|ms| - 1]) + ErrorsOf(ms[|ms| - 1].content)
  }

  lemma {:induction false} ErrorsConcat(p: seq<Message>, q: seq<Message>)
    ensures Errors(p + q) == Errors(p) + Errors(q)
    decreases |q|
  {
    hide ErrorsOf;
    if q == [] {
      assert p + q == p;
    } else {
      var n, whole := |q| - 1, p + q;
      assert whole[..|whole| - 1] == p + q[..n] && whole[|whole| - 1] == q[n];
      ErrorsConcat(p, q[..n]);
      Associative(Errors(p), Errors(q[..n]), ErrorsOf(q[n].content));
    }
  }

  lemma {:induction false} ErrorsOfConcat(p: seq<Content>, q: seq<Content>)
    ensures ErrorsOf(p + q) == ErrorsOf(p) + ErrorsOf(q)
    decreases |q|
  {
    hide ErrorOf;
    if q == [] {
      assert p + q == p;
    } else {
      var n, whole := |q| - 1, p + q;
      assert whole[..|whole| - 1] == p + q[..n] && whole[|whole| - 1] == q[n];
      ErrorsOfConcat(p, q[..n]);
      Associative(ErrorsOf(p), ErrorsOf(q[..n]), ErrorOf(q[n]));
    }
  }

  predicate NoErrors(flags: seq<bool>) {
    forall i :: 0 <= i < |flags| ==> !flags[i]
  }

  lemma {:induction false} OneError(c: Content)
    ensures ErrorsOf([c]) == ErrorOf(c)
  {
    assert [c][..0] == [];
  }

  lemma {:induction false} OneMessageErrors(m: Message)
    ensures Errors([m]) == ErrorsOf(m.content)
  {
    assert [m][..0] == [];
  }

  lemma {:induction false} NoErrorsYet()
    ensures ErrorsOf([]) == [] && Errors([]) == []
  {
  }

  lemma {:induction false} SystemErrors(role: string, contents: seq<Content>)
    requires IsSystem(role) && MessageFits(Message(role, contents))
    ensures ErrorsOf(contents) == []
  {
    if contents != [] {
      var n := |contents| - 1;
      assert contents[n] in contents && forall c :: c in contents[..n] ==> c in contents;
      SystemErrors(role, contents[..n]);
    }
  }
}
