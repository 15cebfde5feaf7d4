/** Execution identity and complete conversation validation (domain/src/inference.rs). */
module Inference {
  import opened Base
  import opened Decimal
  import opened Domain
  import opened JsonValue

  datatype ExecutionScope = ExecutionScope(
    workspace: string, ownerSubject: string, projectId: Uuid, rootTaskId: Uuid, taskId: Uuid,
    agentId: Uuid, executionId: Uuid)

  datatype ToolCall = ToolCall(id: string, name: string, arguments: Json)
  datatype ToolResult = ToolResult(toolCallId: string, content: string)
  datatype ToolDefinition = ToolDefinition(name: string, description: string, parameters: Json)

  datatype Message =
    | System(content: string)
    | Developer(content: string)
    | User(content: string)
    | Assistant(reply: Option<string>, toolCalls: seq<ToolCall>)
    | Tool(toolCallId: string, content: string)

  datatype InferenceRequest = InferenceRequest(
    schemaVersion: nat, requestId: Uuid, profileRevision: nat, execution: ExecutionScope,
    messages: seq<Message>, tools: seq<ToolDefinition>, outputSchema: Option<Json>, outputReserveTokens: u32)

  datatype ToolContinuation = ToolContinuation(
    schemaVersion: nat, requestId: Uuid, parentRequestId: Uuid, profileRevision: nat,
    execution: ExecutionScope, results: seq<ToolResult>)

  datatype InferenceError =
    | ExecutionScopeMismatch
    | RevisionMismatch
    | ProviderMismatch
    | ConversationInvalid
    | ToolSchemaInvalid
    | AccountingUnconfirmed
    | OutputReserveUnenforceable
    | Context(error: AiError)

  const MAX_MESSAGES := 4096
  const MAX_TOOLS := 128
  const MAX_SCHEMA_DEPTH := 32

  predicate ValidScope(scope: ExecutionScope) {
    && scope.workspace == "sdlc2"
    && 0 < |scope.ownerSubject| <= 256
    && (forall i :: 0 <= i < |scope.ownerSubject| ==>
          !IsControl(scope.ownerSubject[i]) && !IsSpace(scope.ownerSubject[i]))
    && NIL !in {scope.projectId, scope.rootTaskId, scope.taskId, scope.agentId, scope.executionId}
  }

  predicate ValidName(value: string) {
    && 0 < |value| <= 256
    && forall i :: 0 <= i < |value| ==>
         var c := value[i];
         IsDigit(c) || 'a' <= c <= 'z' || 'A' <= c <= 'Z' || c == '_' || c == '-' || c == '.'
  }

  predicate ValidSchema(value: Json, depth: nat)
    decreases value
  {
    && depth <= MAX_SCHEMA_DEPTH
    && match value {
         case Obj(fields) =>
           forall key | key in fields ::
             && (key == "$ref" || key == "$dynamicRef" || key == "$recursiveRef" ==>
                   fields[key].Str? && fields[key].chars != "" && fields[key].chars[0] == '#')
             && ValidSchema(fields[key], depth + 1)
         case Arr(items) => forall i | 0 <= i < |items| :: ValidSchema(items[i], depth + 1)
         case _ => true
       }
  }

  /** How deep a value is nested, a leaf being at depth 0. */
  ghost predicate NestedWithin(value: Json, depth: nat)
    decreases value
  {
    match value
    case Obj(fields) => fields != map[] ==>
      depth > 0 && forall key | key in fields :: NestedWithin(fields[key], depth - 1)
    case Arr(items) => items != [] ==> depth > 0 && forall i | 0 <= i < |items| :: NestedWithin(items[i], depth - 1)
    case _ => true
  }

  predicate ReferenceKey(key: string) {
    key == "$ref" || key == "$dynamicRef" || key == "$recursiveRef"
  }

  /** Every reference anywhere in the value stays inside the same document. */
  ghost predicate LocalReferences(value: Json)
    decreases value
  {
    match value
    case Obj(fields) =>
      forall key | key in fields ::
        && (ReferenceKey(key) ==> fields[key].Str? && fields[key].chars != "" && fields[key].chars[0] == '#')
        && LocalReferences(fields[key])
    case Arr(items) => forall i | 0 <= i < |items| :: LocalReferences(items[i])
    case _ => true
  }

  /** A schema is accepted exactly when it is nested at most 32 deep and never refers to
      anything outside itself. */
  lemma {:induction false} SchemasAreLocalAndShallow(value: Json, depth: nat)
    ensures ValidSchema(value, depth) <==>
            depth <= MAX_SCHEMA_DEPTH && NestedWithin(value, MAX_SCHEMA_DEPTH - depth) && LocalReferences(value)
    decreases value
  {
    match value {
      case Obj(fields) =>
        forall key | key in fields
          ensures ValidSchema(fields[key], depth + 1) <==>
                  depth < MAX_SCHEMA_DEPTH && NestedWithin(fields[key], MAX_SCHEMA_DEPTH - depth - 1)
                      && LocalReferences(fields[key])
        {
          SchemasAreLocalAndShallow(fields[key], depth + 1);
        }
      case Arr(items) =>
        forall i | 0 <= i < |items|
          ensures ValidSchema(items[i], depth + 1) <==>
                  depth < MAX_SCHEMA_DEPTH && NestedWithin(items[i], MAX_SCHEMA_DEPTH - depth - 1)
                      && LocalReferences(items[i])
        {
          SchemasAreLocalAndShallow(items[i], depth + 1);
        }
        if items != [] {
          SchemasAreLocalAndShallow(items[0], depth + 1);
        }
      case _ =>
    }
  }

  function ValidateBinding(request: InferenceRequest, authorized: ExecutionScope, frozen: Profile)
    : Check<InferenceError>
  {
    if !ValidScope(authorized) then Fail(ExecutionScopeMismatch)
    else if request.execution != authorized || frozen.workspace != authorized.workspace || request.requestId == NIL
    then Fail(ExecutionScopeMismatch)
    else if request.schemaVersion != 1 || frozen.revision == 0 || request.profileRevision != frozen.revision
    then Fail(RevisionMismatch)
    else Pass
  }

  // ----- sequences without repetition -----

  predicate Distinct(s: seq<string>) {
    forall i, j :: 0 <= i < j < |s| ==> s[i] != s[j]
  }

  function Elements(s: seq<string>): set<string> {
    set x | x in s
  }

  function Ids(calls: seq<ToolCall>): (ids: seq<string>)
    ensures |ids| == |calls| && forall i :: 0 <= i < |ids| ==> ids[i] == calls[i].id
  {
    seq(|calls|, i requires 0 <= i < |calls| => calls[i].id)
  }

  /** The calls of a message, if it makes any. */
  function CallsOf(message: Message): seq<ToolCall> {
    if message.Assistant? then message.toolCalls else []
  }

  /** The ids of every call made in a conversation, in order. */
  function CallIds(messages: seq<Message>): seq<string> {
    if messages == [] then [] else Ids(CallsOf(messages[0])) + CallIds(messages[1..])
  }

  predicate ValidCall(call: ToolCall) {
    ValidName(call.id) && ValidName(call.name) && call.arguments.Obj?
  }

  predicate SaysSomething(message: Message)
    requires message.Assistant?
  {
    (message.reply.Some? && message.reply.value != "") || message.toolCalls != []
  }

  // ----- the one-pass check -----

  /** The pass over the messages, with the ids seen so far and the calls still unanswered. */
  predicate Scan(messages: seq<Message>, seen: set<string>, pending: set<string>) {
    if messages == [] then pending == {}
    else match messages[0]
         case Tool(id, _) => id in pending && Scan(messages[1..], seen, pending - {id})
         case Assistant(_, calls) =>
           && pending == {} && SaysSomething(messages[0])
           && (forall i :: 0 <= i < |calls| ==> ValidCall(calls[i]))
           && Distinct(Ids(calls)) && Elements(Ids(calls)) !! seen
           && Scan(messages[1..], seen + Elements(Ids(calls)), Elements(Ids(calls)))
         case _ => pending == {} && Scan(messages[1..], seen, {})
  }

  predicate ValidTools(tools: seq<ToolDefinition>) {
    && (forall i :: 0 <= i < |tools| ==>
          ValidName(tools[i].name) && tools[i].parameters.Obj? && ValidSchema(tools[i].parameters, 0))
    && forall i, j :: 0 <= i < j < |tools| ==> tools[i].name != tools[j].name
  }

  function Conversation(request: InferenceRequest): Check<InferenceError> {
    if request.messages == [] || |request.messages| > MAX_MESSAGES || |request.tools| > MAX_TOOLS
    then Fail(ConversationInvalid)
    else if !ValidTools(request.tools) then Fail(ToolSchemaInvalid)
    else if request.outputSchema.Some?
         && !(request.outputSchema.value.Obj? && ValidSchema(request.outputSchema.value, 0))
    then Fail(ToolSchemaInvalid)
    else if !Scan(request.messages, {}, {}) then Fail(ConversationInvalid)
    else Pass
  }

  method ValidateConversation(request: InferenceRequest) returns (r: Check<InferenceError>)
    ensures r == Conversation(request)
  {
    if request.messages == [] || |request.messages| > MAX_MESSAGES || |request.tools| > MAX_TOOLS {
      return Fail(ConversationInvalid);
    }
    var definitions: set<string> := {};
    for t := 0 to |request.tools|
      invariant ValidTools(request.tools[..t])
      invariant definitions == set k | 0 <= k < t :: request.tools[k].name
    {
      var tool := request.tools[t];
      assert request.tools[..t + 1][t] == tool;
      if !ValidName(tool.name) || tool.name in definitions || !tool.parameters.Obj?
         || !ValidSchema(tool.parameters, 0) {
        assert !ValidTools(request.tools);
        return Fail(ToolSchemaInvalid);
      }
      definitions := definitions + {tool.name};
    }
    assert request.tools[..|request.tools|] == request.tools;
    if request.outputSchema.Some? && !(request.outputSchema.value.Obj? && ValidSchema(request.outputSchema.value, 0)) {
      return Fail(ToolSchemaInvalid);
    }
    var ok := ScanMessages(request.messages);
    return if ok then Pass else Fail(ConversationInvalid);
  }

  method ScanMessages(messages: seq<Message>) returns (ok: bool)
    ensures ok == Scan(messages, {}, {})
  {
    var seen, pending: set<string> := {}, {};
    for m := 0 to |messages|
      invariant Scan(messages, {}, {}) == Scan(messages[m..], seen, pending)
    {
      var message := messages[m];
      assert messages[m..][0] == message && messages[m..][1..] == messages[m + 1..];
      match message {
        case Tool(id, _) =>
          if id !in pending {
            return false;
          }
          pending := pending - {id};
        case Assistant(reply, calls) =>
          if pending != {} || !SaysSomething(message) {
            return false;
          }
          var accepted := RegisterCalls(calls, seen);
          if !accepted {
            return false;
          }
          pending := Elements(Ids(calls));
          seen := seen + pending;
        case _ =>
          if pending != {} {
            return false;
          }
      }
    }
    return pending == {};
  }

  /** The inner loop over the calls of one message. */
  method RegisterCalls(calls: seq<ToolCall>, seen: set<string>) returns (accepted: bool)
    ensures accepted == ((forall i :: 0 <= i < |calls| ==> ValidCall(calls[i]))
                         && Distinct(Ids(calls)) && Elements(Ids(calls)) !! seen)
  {
    var all := seen;
    for c := 0 to |calls|
      invariant forall i :: 0 <= i < c ==> ValidCall(calls[i]) && calls[i].id !in seen
      invariant forall i, j :: 0 <= i < j < c ==> calls[i].id != calls[j].id
      invariant all == seen + set k | 0 <= k < c :: calls[k].id
    {
      var call := calls[c];
      if !ValidCall(call) {
        return false;
      }
      if call.id in all {
        assert Ids(calls)[c] in Elements(Ids(calls));
        return false;
      }
      all := all + {call.id};
    }
    return true;
  }

  // ----- the grammar it decides -----

  function ToolIds(block: seq<Message>): (ids: seq<string>)
    requires forall i :: 0 <= i < |block| ==> block[i].Tool?
    ensures |ids| == |block| && forall i :: 0 <= i < |ids| ==> ids[i] == block[i].toolCallId
  {
    seq(|block|, i requires 0 <= i < |block| => block[i].toolCallId)
  }

  /** A name by its characters: ASCII letters, digits, hyphen, full stop and underscore. */
  predicate NameText(text: string) {
    && 0 < |text| <= 256
    && forall i :: 0 <= i < |text| ==>
         var c := text[i] as int;
         48 <= c <= 57 || 65 <= c <= 90 || 97 <= c <= 122 || c == 45 || c == 46 || c == 95
  }

  predicate CallText(call: ToolCall) {
    NameText(call.id) && NameText(call.name) && call.arguments.Obj?
  }

  lemma NamesAre(text: string)
    ensures ValidName(text) <==> NameText(text)
  {
    if 0 < |text| <= 256 {
      forall i | 0 <= i < |text|
        ensures var c, n := text[i], text[i] as int;
                (IsDigit(c) || 'a' <= c <= 'z' || 'A' <= c <= 'Z' || c == '_' || c == '-' || c == '.') <==>
                (48 <= n <= 57 || 65 <= n <= 90 || 97 <= n <= 122 || n == 45 || n == 46 || n == 95)
      {
      }
    }
  }

  lemma CallsAre(call: ToolCall)
    ensures ValidCall(call) <==> CallText(call)
  {
    hide ValidName, NameText;
    NamesAre(call.id);
    NamesAre(call.name);
  }

  /** Exactly one tool message per call, in any order. */
  predicate Answers(block: seq<Message>, calls: seq<ToolCall>) {
    && (forall i :: 0 <= i < |block| ==> block[i].Tool?)
    && multiset(ToolIds(block)) == multiset(Ids(calls))
  }

  /** A conversation is a sequence of plain messages and of assistant turns, each assistant
      turn being followed at once by the answers to its calls. */
  predicate WellBlocked(messages: seq<Message>)
    decreases |messages|
  {
    if messages == [] then true
    else match messages[0]
         case Tool(_, _) => false
         case Assistant(_, calls) =>
           && (calls == [] ==> messages[0].reply.Some? && messages[0].reply.value != "")
           && (forall i :: 0 <= i < |calls| ==> CallText(calls[i]))
           && 1 + |calls| <= |messages|
           && Answers(messages[1..1 + |calls|], calls)
           && WellBlocked(messages[1 + |calls|..])
         case _ => WellBlocked(messages[1..])
  }

  lemma {:induction false} DistinctElements(s: seq<string>)
    requires Distinct(s)
    ensures multiset(s) == multiset(Elements(s)) && |Elements(s)| == |s|
  {
    if s != [] {
      var init, last := s[..|s| - 1], s[|s| - 1];
      DistinctElements(init);
      assert s == init + [last];
      assert Elements(s) == Elements(init) + {last};
      assert last !in init;
    }
  }

  lemma RepeatedElement(s: seq<string>, i: nat, j: nat)
    requires i < j < |s| && s[i] == s[j]
    ensures multiset(s)[s[i]] >= 2
  {
    assert s == s[..j] + s[j..];
    assert s[i] in s[..j] && s[j] in s[j..];
    assert multiset(s) == multiset(s[..j]) + multiset(s[j..]);
  }

  lemma SingleIsDistinct(s: seq<string>)
    requires forall x :: multiset(s)[x] <= 1
    ensures Distinct(s)
  {
    forall i, j | 0 <= i < j < |s| ensures s[i] != s[j] {
      if s[i] == s[j] {
        RepeatedElement(s, i, j);
      }
    }
  }

  /** Against distinct ids, "the same bag" and "distinct, with the same elements" agree. */
  lemma SameBag(s: seq<string>, ids: seq<string>)
    requires Distinct(ids)
    ensures multiset(s) == multiset(ids) <==> |s| == |ids| && Distinct(s) && Elements(s) == Elements(ids)
  {
    DistinctElements(ids);
    if multiset(s) == multiset(ids) {
      assert |s| == |multiset(s)| == |multiset(ids)| == |ids|;
      forall x ensures x in s <==> x in ids {
        assert x in s <==> x in multiset(s);
        assert x in ids <==> x in multiset(ids);
      }
      SingleIsDistinct(s);
    }
    if Distinct(s) && Elements(s) == Elements(ids) {
      DistinctElements(s);
    }
  }

  predicate Drains(block: seq<Message>, pending: set<string>) {
    && (forall i :: 0 <= i < |block| ==> block[i].Tool?)
    && Distinct(ToolIds(block)) && Elements(ToolIds(block)) == pending
  }

  lemma DrainStep(message: Message, rest: seq<Message>, pending: set<string>)
    requires message.Tool?
    ensures Drains([message] + rest, pending) <==>
            message.toolCallId in pending && Drains(rest, pending - {message.toolCallId})
  {
    var block := [message] + rest;
    if forall i :: 0 <= i < |rest| ==> rest[i].Tool? {
      assert forall i :: 0 <= i < |block| ==> block[i].Tool?;
      var id, ids := message.toolCallId, ToolIds(rest);
      assert ToolIds(block) == [id] + ids;
      assert Elements([id] + ids) == {id} + Elements(ids);
      if Distinct([id] + ids) {
        forall i, j | 0 <= i < j < |ids| ensures ids[i] != ids[j] {
          assert ([id] + ids)[i + 1] != ([id] + ids)[j + 1];
        }
        forall j | 0 <= j < |ids| ensures ids[j] != id {
          assert ([id] + ids)[0] != ([id] + ids)[j + 1];
        }
        assert id !in ids;
      }
    } else {
      var i :| 0 <= i < |rest| && !rest[i].Tool?;
      assert !block[i + 1].Tool?;
    }
  }

  lemma NoDrain(block: seq<Message>, pending: set<string>)
    requires block != [] && !(block[0].Tool? && block[0].toolCallId in pending)
    ensures !Drains(block, pending)
  {
    if forall i :: 0 <= i < |block| ==> block[i].Tool? {
      assert ToolIds(block)[0] in Elements(ToolIds(block));
    }
  }

  /** With calls pending, the pass goes on exactly over a block of tool messages that
      answers each of them once. */
  lemma {:induction false} ScanDrains(messages: seq<Message>, seen: set<string>, pending: set<string>)
    ensures Scan(messages, seen, pending) <==>
            && |pending| <= |messages| && Drains(messages[..|pending|], pending)
            && Scan(messages[|pending|..], seen, {})
    decreases |pending|
  {
    if pending == {} {
      assert messages[0..] == messages;
    } else if messages != [] {
      if messages[0].Tool? && messages[0].toolCallId in pending {
        var id, rest := messages[0].toolCallId, messages[1..];
        var n := |pending - {id}|;
        ScanDrains(rest, seen, pending - {id});
        if |pending| <= |messages| {
          assert messages[..|pending|] == [messages[0]] + rest[..n];
          assert messages[|pending|..] == rest[n..];
          DrainStep(messages[0], rest[..n], pending);
        }
      } else if |pending| <= |messages| {
        NoDrain(messages[..|pending|], pending);
      }
    }
  }

  lemma DistinctConcat(a: seq<string>, b: seq<string>)
    ensures Distinct(a + b) <==> Distinct(a) && Distinct(b) && Elements(a) !! Elements(b)
  {
    var s := a + b;
    if Distinct(s) {
      forall i, j | 0 <= i < j < |a| ensures a[i] != a[j] {
        assert s[i] != s[j];
      }
      forall i, j | 0 <= i < j < |b| ensures b[i] != b[j] {
        assert s[|a| + i] != s[|a| + j];
      }
    }
    if x :| x in a && x in b {
      var i, j :| 0 <= i < |a| && a[i] == x && 0 <= j < |b| && b[j] == x;
      assert s[i] == s[|a| + j];
    }
    if Distinct(a) && Distinct(b) && Elements(a) !! Elements(b) {
      forall i, j | 0 <= i < j < |s| ensures s[i] != s[j] {
        if i < |a| <= j {
          assert s[i] in Elements(a) && s[j] in Elements(b);
        }
      }
    }
  }

  lemma Associate(a: seq<string>, b: seq<string>, c: seq<string>)
    ensures a + (b + c) == (a + b) + c
  {
  }

  lemma {:induction false} CallIdsConcat(a: seq<Message>, b: seq<Message>)
    ensures CallIds(a + b) == CallIds(a) + CallIds(b)
  {
    hide Ids, CallsOf;
    if a == [] {
      assert a + b == b;
    } else {
      var whole := a + b;
      assert whole[1..] == a[1..] + b && whole[0] == a[0];
      CallIdsConcat(a[1..], b);
      Associate(Ids(CallsOf(a[0])), CallIds(a[1..]), CallIds(b));
    }
  }

  lemma {:induction false} ToolsCallNothing(block: seq<Message>)
    requires forall i :: 0 <= i < |block| ==> block[i].Tool?
    ensures CallIds(block) == []
  {
    if block != [] {
      ToolsCallNothing(block[1..]);
    }
  }

  lemma EmptyDistinct()
    ensures Distinct([])
  {
  }

  lemma {:induction false} ScanIsGrammar(messages: seq<Message>, seen: set<string>)
    ensures Scan(messages, seen, {}) <==>
            WellBlocked(messages) && Distinct(CallIds(messages)) && Elements(CallIds(messages)) !! seen
    decreases |messages|, 0
  {
    hide CallText, ValidCall, Answers, Distinct;
    if messages == [] {
      assert Distinct(CallIds(messages)) by { EmptyDistinct(); }
    } else {
      var first, rest := messages[0], messages[1..];
      match first {
        case Assistant(_, _) =>
          AssistantCase(first, rest, seen);
          assert messages == [first] + rest;
        case Tool(_, _) =>
        case _ =>
          ScanIsGrammar(rest, seen);
          assert [] + CallIds(rest) == CallIds(rest);
      }
    }
  }

  lemma {:induction false} AssistantCase(first: Message, rest: seq<Message>, seen: set<string>)
    requires first.Assistant?
    ensures var messages := [first] + rest;
            Scan(messages, seen, {}) <==>
            WellBlocked(messages) && Distinct(CallIds(messages)) && Elements(CallIds(messages)) !! seen
    decreases |rest|, 2
  {
    hide CallText, ValidCall;
    forall i | 0 <= i < |first.toolCalls| ensures ValidCall(first.toolCalls[i]) <==> CallText(first.toolCalls[i]) {
      CallsAre(first.toolCalls[i]);
    }
    var calls, messages, later := first.toolCalls, [first] + rest, CallIds(rest);
    assert messages[1..] == rest && CallIds(messages) == Ids(calls) + later;
    if |calls| <= |rest| {
      assert messages[1..1 + |calls|] == rest[..|calls|] && messages[1 + |calls|..] == rest[|calls|..];
    }
    DistinctConcat(Ids(calls), later);
    assert Elements(Ids(calls) + later) == Elements(Ids(calls)) + Elements(later);
    if Distinct(Ids(calls)) {
      AssistantTurn(first, rest, seen);
    }
  }

  lemma {:induction false} AssistantTurn(first: Message, rest: seq<Message>, seen: set<string>)
    requires first.Assistant? && Distinct(Ids(first.toolCalls))
    ensures var calls, ids := first.toolCalls, Elements(Ids(first.toolCalls));
            Scan(rest, seen + ids, ids) <==>
            && |calls| <= |rest| && Answers(rest[..|calls|], calls) && WellBlocked(rest[|calls|..])
            && Distinct(CallIds(rest)) && Elements(CallIds(rest)) !! seen + ids
    decreases |rest|, 1
  {
    var calls, ids := first.toolCalls, Elements(Ids(first.toolCalls));
    DistinctElements(Ids(calls));
    ScanDrains(rest, seen + ids, ids);
    if |calls| <= |rest| {
      var block, tail := rest[..|calls|], rest[|calls|..];
      ScanIsGrammar(tail, seen + ids);
      if forall i :: 0 <= i < |block| ==> block[i].Tool? {
        SameBag(ToolIds(block), Ids(calls));
        assert rest == block + tail;
        CallIdsConcat(block, tail);
        ToolsCallNothing(block);
        assert [] + CallIds(tail) == CallIds(tail);
      }
    }
  }

  /** The one-pass check accepts exactly the conversations of the grammar: call ids are
      globally unique, and each assistant turn is followed at once by one answer per call. */
  lemma ConversationIsGrammar(request: InferenceRequest)
    ensures Conversation(request) == Pass <==>
            && 0 < |request.messages| <= 4096 && |request.tools| <= 128
            && (forall i :: 0 <= i < |request.tools| ==>
                  NameText(request.tools[i].name) && SchemaText(request.tools[i].parameters))
            && (forall i, j :: 0 <= i < j < |request.tools| ==> request.tools[i].name != request.tools[j].name)
            && (request.outputSchema.Some? ==> SchemaText(request.outputSchema.value))
            && WellBlocked(request.messages) && Distinct(CallIds(request.messages))
  {
    hide ValidName, NameText, ValidSchema, NestedWithin, LocalReferences;
    ScanIsGrammar(request.messages, {});
    forall i | 0 <= i < |request.tools|
      ensures ValidName(request.tools[i].name) <==> NameText(request.tools[i].name)
      ensures request.tools[i].parameters.Obj? && ValidSchema(request.tools[i].parameters, 0) <==>
              SchemaText(request.tools[i].parameters)
    {
      NamesAre(request.tools[i].name);
      SchemasAreLocalAndShallow(request.tools[i].parameters, 0);
    }
    if request.outputSchema.Some? {
      SchemasAreLocalAndShallow(request.outputSchema.value, 0);
    }
  }

  /** An object nested at most 32 deep that refers to nothing outside itself. */
  ghost predicate SchemaText(value: Json) {
    value.Obj? && NestedWithin(value, 32) && LocalReferences(value)
  }

  // ----- returned tool calls, and the conversation they continue -----

  predicate Declared(tools: seq<ToolDefinition>, name: string) {
    exists t :: 0 <= t < |tools| && tools[t].name == name
  }

  predicate ReturnedTools(request: InferenceRequest, calls: seq<ToolCall>) {
    && 0 < |calls| <= 128
    && (forall i :: 0 <= i < |calls| ==>
          ValidCall(calls[i]) && Declared(request.tools, calls[i].name))
    && Distinct(Ids(calls)) && Elements(Ids(calls)) !! Elements(CallIds(request.messages))
  }

  method ValidateReturnedTools(request: InferenceRequest, calls: seq<ToolCall>) returns (r: Check<InferenceError>)
    ensures r == if ReturnedTools(request, calls) then Pass else Fail(ConversationInvalid)
  {
    hide ValidCall, CallIds;
    var declared := set t | 0 <= t < |request.tools| :: request.tools[t].name;
    var ids := Elements(CallIds(request.messages));
    if calls == [] || |calls| > 128 {
      return Fail(ConversationInvalid);
    }
    for c := 0 to |calls|
      invariant forall i :: 0 <= i < c ==>
                  && ValidCall(calls[i]) && calls[i].id !in CallIds(request.messages)
                  && Declared(request.tools, calls[i].name)
      invariant forall i, j :: 0 <= i < j < c ==> calls[i].id != calls[j].id
      invariant ids == Elements(CallIds(request.messages)) + set k | 0 <= k < c :: calls[k].id
    {
      var call := calls[c];
      if !ValidCall(call) || call.name !in declared {
        return Fail(ConversationInvalid);
      }
      if call.id in ids {
        assert Ids(calls)[c] in Elements(Ids(calls));
        return Fail(ConversationInvalid);
      }
      ids := ids + {call.id};
    }
    AcceptedCalls(request, calls);
    return Pass;
  }

  lemma AcceptedCalls(request: InferenceRequest, calls: seq<ToolCall>)
    requires 0 < |calls| <= 128
    requires forall i :: 0 <= i < |calls| ==>
               && ValidCall(calls[i]) && calls[i].id !in CallIds(request.messages)
               && Declared(request.tools, calls[i].name)
    requires forall i, j :: 0 <= i < j < |calls| ==> calls[i].id != calls[j].id
    ensures ReturnedTools(request, calls)
  {
    hide CallIds;
    forall x | x in Elements(Ids(calls)) ensures x !in Elements(CallIds(request.messages)) {
      var i :| 0 <= i < |Ids(calls)| && Ids(calls)[i] == x;
      assert calls[i].id == x;
    }
  }

  /** A well named call with an object as arguments, of a declared tool, under a new id. */
  predicate CallOffered(request: InferenceRequest, call: ToolCall) {
    && CallText(call) && call.id !in CallIds(request.messages)
    && exists t :: 0 <= t < |request.tools| && request.tools[t].name == call.name
  }

  lemma OfferedIs(request: InferenceRequest, call: ToolCall)
    ensures CallOffered(request, call) <==>
            ValidCall(call) && call.id !in CallIds(request.messages) && Declared(request.tools, call.name)
  {
    hide CallText, ValidCall, CallIds;
    CallsAre(call);
  }

  /** Calls are accepted exactly when there are between 1 and 128 of them, each offered by the request
      and no two under the same id. */
  lemma ReturnedToolsAre(request: InferenceRequest, calls: seq<ToolCall>)
    ensures ReturnedTools(request, calls) <==>
            && 0 < |calls| <= 128 && (forall i :: 0 <= i < |calls| ==> CallOffered(request, calls[i]))
            && forall i, j :: 0 <= i < j < |calls| ==> calls[i].id != calls[j].id
  {
    hide CallText, ValidCall, CallIds, CallOffered, Declared;
    forall i | 0 <= i < |calls|
      ensures CallOffered(request, calls[i]) <==>
              && ValidCall(calls[i]) && calls[i].id !in CallIds(request.messages)
              && Declared(request.tools, calls[i].name)
    {
      OfferedIs(request, calls[i]);
    }
    if ReturnedTools(request, calls) {
      forall i | 0 <= i < |calls| ensures CallOffered(request, calls[i]) {
        assert Ids(calls)[i] in Elements(Ids(calls));
      }
      forall i, j | 0 <= i < j < |calls| ensures calls[i].id != calls[j].id {
        assert Ids(calls)[i] != Ids(calls)[j];
      }
    }
    if && 0 < |calls| <= 128 && (forall i :: 0 <= i < |calls| ==> CallOffered(request, calls[i]))
       && forall i, j :: 0 <= i < j < |calls| ==> calls[i].id != calls[j].id
    {
      AcceptedCalls(request, calls);
    }
  }

  /** The turn that is appended: the calls, then one result per call in call order. */
  function Turn(reply: Option<string>, calls: seq<ToolCall>, results: map<string, string>): seq<Message>
    requires forall i :: 0 <= i < |calls| ==> calls[i].id in results
  {
    [Assistant(reply, calls)]
    + seq(|calls|, i requires 0 <= i < |calls| => Tool(calls[i].id, results[calls[i].id]))
  }

  lemma TurnIsWellBlocked(reply: Option<string>, calls: seq<ToolCall>, results: map<string, string>)
    requires calls != [] && forall i :: 0 <= i < |calls| ==> calls[i].id in results && CallText(calls[i])
    ensures WellBlocked(Turn(reply, calls, results)) && CallIds(Turn(reply, calls, results)) == Ids(calls)
  {
    var turn := Turn(reply, calls, results);
    var block := turn[1..];
    assert turn[1..1 + |calls|] == block && turn[1 + |calls|..] == [];
    assert ToolIds(block) == Ids(calls);
    ToolsCallNothing(block);
    assert Ids(calls) + [] == Ids(calls);
  }

  lemma {:induction false} WellBlockedConcat(a: seq<Message>, b: seq<Message>)
    requires WellBlocked(a) && WellBlocked(b)
    ensures WellBlocked(a + b)
    decreases |a|
  {
    hide CallText, Answers;
    if a == [] {
      assert a + b == b;
    } else {
      var n := 1 + |CallsOf(a[0])|;
      WellBlockedConcat(a[n..], b);
      assert (a + b)[n..] == a[n..] + b && (a + b)[1..n] == a[1..n];
    }
  }

  /** Extending a valid conversation by accepted calls and one result for each keeps it
      valid; the only thing that can go wrong is the number of messages. */
  lemma ContinuationKeepsValidity(request: InferenceRequest, next: Uuid, reply: Option<string>, calls: seq<ToolCall>,
                                  results: map<string, string>)
    requires Conversation(request) == Pass && ReturnedTools(request, calls)
    requires forall i :: 0 <= i < |calls| ==> calls[i].id in results
    ensures var child := request.(requestId := next, messages := request.messages + Turn(reply, calls, results));
            && |child.messages| == |request.messages| + 1 + |calls|
            && Conversation(child) == if |child.messages| > MAX_MESSAGES then Fail(ConversationInvalid) else Pass
  {
    var turn := Turn(reply, calls, results);
    var child := request.(requestId := next, messages := request.messages + turn);
    ConversationIsGrammar(request);
    forall i | 0 <= i < |calls| ensures CallText(calls[i]) {
      CallsAre(calls[i]);
    }
    TurnIsWellBlocked(reply, calls, results);
    WellBlockedConcat(request.messages, turn);
    CallIdsConcat(request.messages, turn);
    DistinctConcat(CallIds(request.messages), Ids(calls));
    ConversationIsGrammar(child);
  }
}
